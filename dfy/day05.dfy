/**
 * The Intcode executor of Day05 (`Day05.IntcodeExecutor`): memory is a copy of the program
 * with no extra cells, parameters are read in position mode (mode digit 0) or immediate
 * mode (any other digit), a write target is always the raw parameter, and there is no
 * relative base, so opcode 9 is unknown and fails.
 */
module Day05 {
  import opened Wrappers
  import opened Intcode

  /** The executor's state: memory, instruction pointer and the two flags. */
  datatype Machine = Machine(numbers: seq<int>, currentIndex: int, halted: bool, failed: bool)
  {
    predicate Running() { !halted && !failed }
  }

  /** The event of a step and the state after it. */
  datatype Outcome = Outcome(event: Event, next: Machine)

  /** The constructor: `Arrays.copyOf(numbers, numbers.length)`. */
  function Load(program: seq<int>): (m: Machine)
    ensures m.numbers == program && m.currentIndex == 0 && m.Running()
  {
    Machine(program, 0, false, false)
  }

  /** `getInput(modes, modeIndex, numbersIndex)`: mode 0 dereferences, any other mode is immediate. */
  function ReadParameter(m: Machine, modes: int, modeIndex: nat, numbersIndex: int): Result<int, Trap>
  {
    match Cell(m.numbers, numbersIndex)
    case Err(t) => Err(t)
    case Ok(p) => if ModeOf(modes, modeIndex) == 0 then Cell(m.numbers, p) else Ok(p)
  }

  /** `add`, `multiply`, `lessThan`, `equals`: two reads, a write to the raw third parameter, step 4. */
  function Arithmetic(m: Machine, opCode: int, modes: int): Outcome
  {
    var ip := m.currentIndex;
    match ReadParameter(m, modes, 0, ip + 1)
    case Err(t) => Outcome(Trapped(t), m)
    case Ok(a) =>
      match ReadParameter(m, modes, 1, ip + 2)
      case Err(t) => Outcome(Trapped(t), m)
      case Ok(b) =>
        match Cell(m.numbers, ip + 3)
        case Err(t) => Outcome(Trapped(t), m)
        case Ok(target) =>
          match Store(m.numbers, target, Combine(opCode, a, b))
          case Err(t) => Outcome(Trapped(t), m)
          case Ok(numbers) => Outcome(Continued, m.(numbers := numbers, currentIndex := ip + 4))
  }

  /** `jumpIfTrue` (`whenNonZero`) and `jumpIfFalse`: jump to the target or step 3. */
  function Jump(m: Machine, modes: int, whenNonZero: bool): Outcome
  {
    var ip := m.currentIndex;
    match ReadParameter(m, modes, 0, ip + 1)
    case Err(t) => Outcome(Trapped(t), m)
    case Ok(condition) =>
      if (condition != 0) != whenNonZero then
        Outcome(Continued, m.(currentIndex := ip + 3))
      else
        match ReadParameter(m, modes, 1, ip + 2)
        case Err(t) => Outcome(Trapped(t), m)
        case Ok(target) => Outcome(Continued, m.(currentIndex := ip + (-ip + target)))
  }

  /** One pass of the body of `execute`'s loop. */
  function Step(m: Machine): Outcome
  {
    var ip := m.currentIndex;
    match Cell(m.numbers, ip)
    case Err(t) => Outcome(Trapped(t), m)
    case Ok(instruction) =>
      var opCode, modes := OpCode(instruction), Modes(instruction);
      if opCode in {ADD, MUL, LESS_THAN, EQUALS} then
        Arithmetic(m, opCode, modes)
      else if opCode == INPUT then
        match Cell(m.numbers, ip + 1)
        case Err(t) => Outcome(Trapped(t), m)
        case Ok(target) => Outcome(AwaitingInput(target), m)
      else if opCode == OUTPUT then
        match ReadParameter(m, modes, 0, ip + 1)
        case Err(t) => Outcome(Trapped(t), m)
        case Ok(v) => Outcome(Produced(v), m.(currentIndex := ip + 2))
      else if opCode == JUMP_TRUE || opCode == JUMP_FALSE then
        Jump(m, modes, opCode == JUMP_TRUE)
      else if opCode == HALT then
        Outcome(Continued, m.(halted := true, currentIndex := ip + 1))
      else
        Outcome(Continued, m.(failed := true))
  }

  /** The completion of an input instruction once the hook has supplied `value`. */
  function Feed(m: Machine, target: int, value: int): Outcome
  {
    match Store(m.numbers, target, value)
    case Err(t) => Outcome(Trapped(t), m)
    case Ok(numbers) => Outcome(Continued, m.(numbers := numbers, currentIndex := m.currentIndex + 2))
  }

  /**
   * Any nonzero mode digit (not just 1) reads immediately, and no mode digit can raise: the
   * only failures of a read are indices out of range.
   */
  lemma ReadModes(m: Machine, modes: int, k: nat, at: int)
    requires 0 <= at < |m.numbers|
    ensures ModeOf(modes, k) == 0 ==> ReadParameter(m, modes, k, at) == Cell(m.numbers, m.numbers[at])
    ensures ModeOf(modes, k) != 0 ==> ReadParameter(m, modes, k, at) == Ok(m.numbers[at])
  {
  }

  /**
   * The write target of add, multiply, less-than and equals is the raw third parameter,
   * whatever its mode digit says, and memory never changes size.
   */
  lemma WriteTargetIgnoresMode(m: Machine, modesA: int, modesB: int, opCode: int)
    requires ModeOf(modesA, 0) == ModeOf(modesB, 0) && ModeOf(modesA, 1) == ModeOf(modesB, 1)
    ensures Arithmetic(m, opCode, modesA) == Arithmetic(m, opCode, modesB)
    ensures |Arithmetic(m, opCode, modesA).next.numbers| == |m.numbers|
  {
  }

  /** Opcode 9 is not part of this executor: it fails without changing anything else. */
  lemma AdjustRelativeBaseFails(m: Machine)
    requires 0 <= m.currentIndex < |m.numbers| && OpCode(m.numbers[m.currentIndex]) == 9
    ensures Step(m) == Outcome(Continued, m.(failed := true))
  {
  }

  /** The instruction pointer moves by the instruction's width or to a jump target; memory keeps its size. */
  lemma StepKeepsSize(m: Machine)
    ensures |Step(m).next.numbers| == |m.numbers|
    ensures Step(m).event.AwaitingInput? || Step(m).event.Trapped? ==> Step(m).next == m
  {
  }

  /** An output instruction only moves the instruction pointer past itself. */
  lemma OutputMovesOn(m: Machine)
    requires Step(m).event.Produced?
    ensures Step(m).next == m.(currentIndex := m.currentIndex + 2)
  {
  }

  // ---------------------------------------------------------------------------------
  // Whole runs

  /** The end of a run: the machine, the hooks' state, and why it stopped. */
  datatype Run<P> = Run(machine: Machine, port: P, stop: Stop)

  /** One pass of `execute`'s loop with the hooks: the next state, or why the run ends there. */
  datatype Progress<P> = Next(machine: Machine, port: P) | Ended(stop: Stop, port: P)

  /** One pass of `execute`'s loop with the hooks `acceptInt` and `produceInt` given as functions. */
  function Advance<P>(m: Machine, port: P, accept: P -> Accepted<P>, produce: (P, int) -> Delivered<P>): Progress<P>
  {
    var o := Step(m);
    match o.event
    case Continued => Next(o.next, port)
    case Trapped(t) => Ended(Raised(t), port)
    case Produced(v) =>
      (match produce(port, v)
       case Refused => Ended(OutputBlocked, port)
       case Delivered(port', halt) => Next(if halt then o.next.(halted := true) else o.next, port'))
    case AwaitingInput(target) =>
      match accept(port)
      case Blocked => Ended(InputBlocked, port)
      case Accepted(v, port') =>
        var fed := Feed(m, target, v);
        if fed.event.Trapped? then Ended(Raised(fed.event.trap), port') else Next(fed.next, port')
  }

  /** `execute`: passes of the loop while neither flag is set, at most `fuel` of them. */
  function RunWith<P>(m: Machine, port: P, accept: P -> Accepted<P>, produce: (P, int) -> Delivered<P>, fuel: nat): Run<P>
    decreases fuel, 0
  {
    if m.halted then Run(m, port, Halted)
    else if m.failed then Run(m, port, Failed)
    else if fuel == 0 then Run(m, port, OutOfFuel)
    else Resume(m, port, accept, produce, fuel - 1)
  }

  /** One pass, then the rest of the run: it ends where the pass ended, or goes on from the next state. */
  function Resume<P>(m: Machine, port: P, accept: P -> Accepted<P>, produce: (P, int) -> Delivered<P>, fuel: nat): Run<P>
    decreases fuel, 1
  {
    match Advance(m, port, accept, produce)
    case Ended(stop, port') => Run(m, port', stop)
    case Next(m', port') => RunWith(m', port', accept, produce, fuel)
  }

  /** Memory keeps the program's length throughout a run: the executor never grows it. */
  lemma {:induction false} RunKeepsSize<P>(m: Machine, port: P, accept: P -> Accepted<P>, produce: (P, int) -> Delivered<P>, fuel: nat)
    ensures |RunWith(m, port, accept, produce, fuel).machine.numbers| == |m.numbers|
    decreases fuel
  {
    if m.Running() && fuel > 0 {
      StepKeepsSize(m);
      match Advance(m, port, accept, produce)
      case Ended(_, _) =>
      case Next(m', port') => RunKeepsSize(m', port', accept, produce, fuel - 1);
    }
  }

  /** A property of the hooks' state that both hooks keep holds at the end of every run. */
  lemma {:induction false} RunPreserves<P>(m: Machine, port: P, accept: P -> Accepted<P>, produce: (P, int) -> Delivered<P>, fuel: nat, inv: P -> bool)
    requires inv(port)
    requires forall p :: inv(p) && accept(p).Accepted? ==> inv(accept(p).port)
    requires forall p, v :: inv(p) && produce(p, v).Delivered? ==> inv(produce(p, v).port)
    ensures inv(RunWith(m, port, accept, produce, fuel).port)
    decreases fuel
  {
    if m.Running() && fuel > 0 {
      match Advance(m, port, accept, produce)
      case Ended(_, _) =>
      case Next(m', port') => RunPreserves(m', port', accept, produce, fuel - 1, inv);
    }
  }

  /**
   * The default hooks read the console in order: through a run the inputs left are what
   * follows the values read, taken from the front and never past the end, and the output log
   * only grows at its end.
   */
  lemma ConsoleRunAppends(m: Machine, c: Console, fuel: nat)
    ensures var r := RunWith(m, c, ConsoleAccept, ConsoleProduce, fuel).port;
      && |r.inputs| <= |c.inputs| && r.inputs == c.inputs[|c.inputs| - |r.inputs|..]
      && c.outputs <= r.outputs
  {
    RunPreserves(m, c, ConsoleAccept, ConsoleProduce, fuel, (p: Console) =>
      |p.inputs| <= |c.inputs| && p.inputs == c.inputs[|c.inputs| - |p.inputs|..] && c.outputs <= p.outputs);
  }

  /** A run over an abstract input sequence with the default hooks. */
  function Execute(program: seq<int>, inputs: seq<int>, fuel: nat): Run<Console>
  {
    RunWith(Load(program), Console(inputs, []), ConsoleAccept, ConsoleProduce, fuel)
  }

  /** `3,0,4,0,99` echoes its input. */
  lemma ExampleEcho(x: int)
    ensures var r := Execute([3, 0, 4, 0, 99], [x], 3);
      r.stop == Halted && r.port.outputs == [x] && r.machine.numbers == [x, 0, 4, 0, 99]
  {
    var m0 := Load([3, 0, 4, 0, 99]);
    DecodeDigits(3);
    assert Step(m0) == Outcome(AwaitingInput(0), m0);
    var m1 := m0.(numbers := [x, 0, 4, 0, 99], currentIndex := 2);
    assert Feed(m0, 0, x) == Outcome(Continued, m1);
    DecodeDigits(4);
    var m2 := m1.(currentIndex := 4);
    assert Step(m1) == Outcome(Produced(x), m2);
    DecodeDigits(99);
    assert Step(m2) == Outcome(Continued, m2.(halted := true, currentIndex := 5));
  }

  /** `1002,4,3,4,33`: the immediate operand 3 times cell 4 is written to cell 4, and the result 99 halts. */
  lemma ExampleImmediateMultiply()
    ensures var r := Execute([1002, 4, 3, 4, 33], [], 2);
      r.stop == Halted && r.machine.numbers == [1002, 4, 3, 4, 99]
  {
    var m0 := Load([1002, 4, 3, 4, 33]);
    DecodeDigits(1002);
    var m1 := m0.(numbers := [1002, 4, 3, 4, 99], currentIndex := 4);
    assert Step(m0) == Outcome(Continued, m1);
    DecodeDigits(99);
    assert Step(m1) == Outcome(Continued, m1.(halted := true, currentIndex := 5));
  }

  // ---------------------------------------------------------------------------------
  // The executor object

  class IntcodeExecutor {
    const numbers: array<int>
    /** `currentIndex`, a local of Java's execute, kept here so an embedding can drive the loop. */
    var currentIndex: int
    var halted: bool
    var failed: bool

    function State(): Machine
      reads this, numbers
    {
      Machine(numbers[..], currentIndex, halted, failed)
    }

    /** The executor works on its own copy: later changes to `program` do not reach it. */
    constructor (program: array<int>)
      ensures State() == Load(old(program[..])) && fresh(numbers)
    {
      numbers := new int[program.Length](i reads program => if 0 <= i < program.Length then program[i] else 0);
      currentIndex, halted, failed := 0, false, false;
      new;
      assert numbers[..] == program[..];
    }

    method GetInput(modes: int, modeIndex: nat, numbersIndex: int) returns (r: Result<int, Trap>)
      ensures r == ReadParameter(State(), modes, modeIndex, numbersIndex)
    {
      var mode := Mode(modes, modeIndex);
      if !(0 <= numbersIndex < numbers.Length) {
        return Err(AddressOutOfRange(numbersIndex));
      }
      var parameter := numbers[numbersIndex];
      if mode == 0 {
        if !(0 <= parameter < numbers.Length) {
          return Err(AddressOutOfRange(parameter));
        }
        return Ok(numbers[parameter]);
      }
      r := Ok(parameter);
    }

    /** `add`, `multiply`, `lessThan` and `equals`. */
    method ProcessArithmetic(opCode: int, modes: int) returns (e: Event)
      modifies this, numbers
      ensures Outcome(e, State()) == Arithmetic(old(State()), opCode, modes)
    {
      var inputA := GetInput(modes, 0, currentIndex + 1);
      if inputA.Err? { return Trapped(inputA.error); }
      var inputB := GetInput(modes, 1, currentIndex + 2);
      if inputB.Err? { return Trapped(inputB.error); }
      if !(0 <= currentIndex + 3 < numbers.Length) { return Trapped(AddressOutOfRange(currentIndex + 3)); }
      var output := numbers[currentIndex + 3];
      if !(0 <= output < numbers.Length) { return Trapped(AddressOutOfRange(output)); }
      numbers[output] := Combine(opCode, inputA.value, inputB.value);
      currentIndex := currentIndex + 4;
      e := Continued;
    }

    /** `jumpIfTrue` and `jumpIfFalse`. */
    method ProcessJump(modes: int, whenNonZero: bool) returns (e: Event)
      modifies this
      ensures Outcome(e, State()) == Jump(old(State()), modes, whenNonZero)
    {
      var input := GetInput(modes, 0, currentIndex + 1);
      if input.Err? { return Trapped(input.error); }
      if (input.value != 0) != whenNonZero {
        currentIndex := currentIndex + 3;
        return Continued;
      }
      var target := GetInput(modes, 1, currentIndex + 2);
      if target.Err? { return Trapped(target.error); }
      currentIndex := currentIndex + (-currentIndex + target.value);
      e := Continued;
    }

    /** The body of `execute`'s loop: `processInstruction` at `currentIndex`. */
    method ProcessInstruction() returns (e: Event)
      modifies this, numbers
      ensures Outcome(e, State()) == Step(old(State()))
    {
      if !(0 <= currentIndex < numbers.Length) {
        return Trapped(AddressOutOfRange(currentIndex));
      }
      var instruction := numbers[currentIndex];
      var opCode, modes := OpCode(instruction), Modes(instruction);
      if opCode == ADD || opCode == MUL || opCode == LESS_THAN || opCode == EQUALS {
        e := ProcessArithmetic(opCode, modes);
      } else if opCode == INPUT {
        if !(0 <= currentIndex + 1 < numbers.Length) {
          return Trapped(AddressOutOfRange(currentIndex + 1));
        }
        e := AwaitingInput(numbers[currentIndex + 1]);
      } else if opCode == OUTPUT {
        var value := GetInput(modes, 0, currentIndex + 1);
        if value.Err? {
          e := Trapped(value.error);
        } else {
          currentIndex := currentIndex + 2;
          e := Produced(value.value);
        }
      } else if opCode == JUMP_TRUE || opCode == JUMP_FALSE {
        e := ProcessJump(modes, opCode == JUMP_TRUE);
      } else if opCode == HALT {
        halted := true;
        currentIndex := currentIndex + 1;
        e := Continued;
      } else {
        failed := true;
        e := Continued;
      }
    }

    /** The rest of `input`: store the accepted value at `target` and advance by 2. */
    method StoreInput(target: int, value: int) returns (e: Event)
      modifies this, numbers
      ensures Outcome(e, State()) == Feed(old(State()), target, value)
    {
      if !(0 <= target < numbers.Length) {
        return Trapped(AddressOutOfRange(target));
      }
      numbers[target] := value;
      currentIndex := currentIndex + 2;
      e := Continued;
    }

    /** One pass of `execute`'s loop with the default hooks. */
    method Pass(console: Console, ghost fuel: nat) returns (next: Console, ended: Option<Stop>)
      requires State().Running() && fuel > 0
      modifies this, numbers
      ensures ended.Some? ==>
        State() == old(State()) && RunWith(old(State()), console, ConsoleAccept, ConsoleProduce, fuel) == Run(State(), next, ended.value)
      ensures ended.None? ==>
        RunWith(old(State()), console, ConsoleAccept, ConsoleProduce, fuel) == RunWith(State(), next, ConsoleAccept, ConsoleProduce, fuel - 1)
    {
      var e := ProcessInstruction();
      next, ended := console, None;
      match e {
        case Continued =>
        case Trapped(t) =>
          ended := Some(Raised(t));
        case Produced(v) =>
          next := console.(outputs := console.outputs + [v]);
        case AwaitingInput(target) =>
          if console.inputs == [] {
            ended := Some(InputBlocked);
          } else {
            next := console.(inputs := console.inputs[1..]);
            var fed := StoreInput(target, console.inputs[0]);
            if fed.Trapped? {
              ended := Some(Raised(fed.trap));
            }
          }
      }
    }

    /** `execute` with the default hooks over the abstract input sequence `inputs`. */
    method Execute(inputs: seq<int>, fuel: nat) returns (outputs: seq<int>, stop: Stop)
      modifies this, numbers
      ensures var r := RunWith(old(State()), Console(inputs, []), ConsoleAccept, ConsoleProduce, fuel);
        State() == r.machine && outputs == r.port.outputs && stop == r.stop
    {
      var console := Console(inputs, []);
      var left := fuel;
      ghost var goal := RunWith(State(), console, ConsoleAccept, ConsoleProduce, fuel);
      while true
        invariant RunWith(State(), console, ConsoleAccept, ConsoleProduce, left) == goal
        decreases left
      {
        if halted { stop := Halted; break; }
        if failed { stop := Failed; break; }
        if left == 0 { stop := OutOfFuel; break; }
        var ended;
        console, ended := Pass(console, left);
        if ended.Some? {
          stop := ended.value;
          break;
        }
        left := left - 1;
      }
      outputs := console.outputs;
    }
  }
}
