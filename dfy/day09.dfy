/**
 * The full Intcode executor of Day09 (`Day09.IntcodeExecutor`): 10000 cells of memory,
 * position, immediate and relative addressing, the relative base, and the `halted` and
 * `failed` flags.
 *
 * The pure functions (`Step`, `Feed`, `RunWith`) are the specification; the class
 * `IntcodeExecutor` updates an array in place and is proved against them.
 *
 * Input and output are hooks in Java (`acceptLong`, `produceLong`) that embeddings
 * override. Here one step stops at an input instruction with `AwaitingInput(target)`.
 * An output instruction reports `Produced(value)`. The embedding supplies the value with
 * `Feed` and reacts to outputs itself; `RunWith` states a whole run for hooks given as
 * functions.
 *
 * A Java exception thrown during a step (an array index out of range, an unknown mode
 * digit) is the event `Trapped(trap)`: the state is left as it was and the run ends.
 */
module Day09 {
  import opened Wrappers
  import JavaMath
  import opened Intcode

  const MEMORY_SIZE: nat := 10000

  const ADJUST_RELATIVE_BASE := 9
  const MODE_POSITION := 0
  const MODE_IMMEDIATE := 1
  const MODE_RELATIVE := 2

  /** The executor's state: memory, instruction pointer, relative base and the two flags. */
  datatype Machine = Machine(numbers: seq<int>, currentIndex: int, relativeBase: int, halted: bool, failed: bool)
  {
    predicate Running() { !halted && !failed }
  }

  /** The event of a step and the state after it. */
  datatype Outcome = Outcome(event: Event, next: Machine)

  // ---------------------------------------------------------------------------------
  // Loading and decoding

  /** The constructor: the program copied to offset 0 of 10000 zeroed cells. */
  function Load(program: seq<int>): (m: Machine)
    requires |program| <= MEMORY_SIZE
    ensures |m.numbers| == MEMORY_SIZE && m.numbers[..|program|] == program
    ensures forall i :: |program| <= i < MEMORY_SIZE ==> m.numbers[i] == 0
    ensures m.currentIndex == 0 && m.relativeBase == 0 && m.Running()
  {
    Machine(program + seq(MEMORY_SIZE - |program|, _ => 0), 0, 0, false, false)
  }

  // ---------------------------------------------------------------------------------
  // Addressing

  /** `getInput(modes, modeIndex, numbersIndex)`: the value a parameter reads. */
  function ReadParameter(m: Machine, modes: int, modeIndex: nat, numbersIndex: int): Result<int, Trap>
  {
    var mode := ModeOf(modes, modeIndex);
    if mode == MODE_POSITION then
      match Cell(m.numbers, numbersIndex)
      case Err(t) => Err(t)
      case Ok(p) => Cell(m.numbers, p)
    else if mode == MODE_IMMEDIATE then
      Cell(m.numbers, numbersIndex)
    else if mode == MODE_RELATIVE then
      match Cell(m.numbers, numbersIndex)
      case Err(t) => Err(t)
      case Ok(p) => Cell(m.numbers, m.relativeBase + p)
    else
      Err(InvalidMode(mode))
  }

  /** `getOutput(modes, modeIndex, numbersIndex)`: the address a parameter writes to. */
  function WriteTarget(m: Machine, modes: int, modeIndex: nat, numbersIndex: int): Result<int, Trap>
  {
    var mode := ModeOf(modes, modeIndex);
    if mode == MODE_POSITION then
      Cell(m.numbers, numbersIndex)
    else if mode == MODE_IMMEDIATE then
      Ok(numbersIndex)
    else if mode == MODE_RELATIVE then
      match Cell(m.numbers, numbersIndex)
      case Err(t) => Err(t)
      case Ok(p) => Ok(m.relativeBase + p)
    else
      Err(InvalidMode(mode))
  }

  /**
   * The addressing rules: position mode dereferences the parameter, immediate mode is the
   * parameter, relative mode dereferences `relativeBase + parameter`, and an immediate write
   * target is the parameter's own cell. Any other mode digit raises, for reads and writes.
   */
  lemma AddressingModes(m: Machine, modes: int, k: nat, at: int)
    requires 0 <= at < |m.numbers|
    ensures var p := m.numbers[at]; var mode := ModeOf(modes, k);
      && (mode == MODE_POSITION ==> ReadParameter(m, modes, k, at) == Cell(m.numbers, p) && WriteTarget(m, modes, k, at) == Ok(p))
      && (mode == MODE_IMMEDIATE ==> ReadParameter(m, modes, k, at) == Ok(p) && WriteTarget(m, modes, k, at) == Ok(at))
      && (mode == MODE_RELATIVE ==> ReadParameter(m, modes, k, at) == Cell(m.numbers, m.relativeBase + p)
                                    && WriteTarget(m, modes, k, at) == Ok(m.relativeBase + p))
      && (mode !in {MODE_POSITION, MODE_IMMEDIATE, MODE_RELATIVE} ==>
            ReadParameter(m, modes, k, at) == Err(InvalidMode(mode)) && WriteTarget(m, modes, k, at) == Err(InvalidMode(mode)))
  {
  }

  /**
   * Position and relative addressing read the same cell whenever they name the same
   * address: a relative parameter `p - relativeBase` reads what a position parameter `p`
   * reads.
   */
  lemma PositionRelativeAgree(m: Machine, modesPos: int, modesRel: int, k: nat, at: int, at2: int)
    requires 0 <= at < |m.numbers| && 0 <= at2 < |m.numbers|
    requires ModeOf(modesPos, k) == MODE_POSITION && ModeOf(modesRel, k) == MODE_RELATIVE
    requires m.numbers[at2] == m.numbers[at] - m.relativeBase
    ensures ReadParameter(m, modesPos, k, at) == ReadParameter(m, modesRel, k, at2)
    ensures WriteTarget(m, modesPos, k, at) == WriteTarget(m, modesRel, k, at2)
  {
  }

  // ---------------------------------------------------------------------------------
  // One instruction

  /** `add`, `multiply`, `lessThan`, `equals`: two reads, one write, step 4. */
  function Arithmetic(m: Machine, opCode: int, modes: int): Outcome
  {
    var ip := m.currentIndex;
    match ReadParameter(m, modes, 0, ip + 1)
    case Err(t) => Outcome(Trapped(t), m)
    case Ok(a) =>
      match ReadParameter(m, modes, 1, ip + 2)
      case Err(t) => Outcome(Trapped(t), m)
      case Ok(b) =>
        match WriteTarget(m, modes, 2, ip + 3)
        case Err(t) => Outcome(Trapped(t), m)
        case Ok(target) =>
          match Store(m.numbers, target, Combine(opCode, a, b))
          case Err(t) => Outcome(Trapped(t), m)
          case Ok(numbers) => Outcome(Continued, m.(numbers := numbers, currentIndex := ip + 4))
  }

  /** `jumpIfTrue` (`whenNonZero`) and `jumpIfFalse`: jump to the target or step 3. */
  function Jump(m: Machine, modes: int, whenNonZero: bool): Outcome
  {
    var ip := m.currentIndex;
    match ReadParameter(m, modes, 0, ip + 1)
    case Err(t) => Outcome(Trapped(t), m)
    case Ok(condition) =>
      if (condition != 0) != whenNonZero then
        Outcome(Continued, m.(currentIndex := ip + 3))
      else
        match ReadParameter(m, modes, 1, ip + 2)
        case Err(t) => Outcome(Trapped(t), m)
        case Ok(target) =>
          // Java returns `-currentIndex + target`, which execute adds to currentIndex
          Outcome(Continued, m.(currentIndex := ip + (-ip + target)))
  }

  /** One pass of the body of `execute`'s loop: decode and run the instruction at `currentIndex`. */
  function Step(m: Machine): Outcome
  {
    var ip := m.currentIndex;
    match Cell(m.numbers, ip)
    case Err(t) => Outcome(Trapped(t), m)
    case Ok(instruction) =>
      var opCode, modes := OpCode(instruction), Modes(instruction);
      if opCode in {ADD, MUL, LESS_THAN, EQUALS} then
        Arithmetic(m, opCode, modes)
      else if opCode == INPUT then
        match WriteTarget(m, modes, 0, ip + 1)
        case Err(t) => Outcome(Trapped(t), m)
        case Ok(target) => Outcome(AwaitingInput(target), m)
      else if opCode == OUTPUT then
        match ReadParameter(m, modes, 0, ip + 1)
        case Err(t) => Outcome(Trapped(t), m)
        case Ok(v) => Outcome(Produced(v), m.(currentIndex := ip + 2))
      else if opCode == JUMP_TRUE || opCode == JUMP_FALSE then
        Jump(m, modes, opCode == JUMP_TRUE)
      else if opCode == ADJUST_RELATIVE_BASE then
        match ReadParameter(m, modes, 0, ip + 1)
        case Err(t) => Outcome(Trapped(t), m)
        case Ok(v) => Outcome(Continued, m.(relativeBase := m.relativeBase + v, currentIndex := ip + 2))
      else if opCode == HALT then
        Outcome(Continued, m.(halted := true, currentIndex := ip + 1))
      else
        Outcome(Continued, m.(failed := true))
  }

  /** The completion of an input instruction once the hook has supplied `value`. */
  function Feed(m: Machine, target: int, value: int): Outcome
  {
    match Store(m.numbers, target, value)
    case Err(t) => Outcome(Trapped(t), m)
    case Ok(numbers) => Outcome(Continued, m.(numbers := numbers, currentIndex := m.currentIndex + 2))
  }

  /** The instruction at the pointer, when there is one. */
  function Instruction(m: Machine): int
    requires 0 <= m.currentIndex < |m.numbers|
  {
    m.numbers[m.currentIndex]
  }

  /**
   * Add, multiply, less-than and equals write exactly one cell, the resolved target,
   * with the combined value, and advance by 4; less-than and equals write only 0 or 1.
   */
  lemma ArithmeticWritesOneCell(m: Machine)
    requires 0 <= m.currentIndex < |m.numbers|
    requires OpCode(Instruction(m)) in {ADD, MUL, LESS_THAN, EQUALS}
    requires Step(m).event == Continued
    ensures var o := Step(m).next; var ip := m.currentIndex; var modes := Modes(Instruction(m));
      && ReadParameter(m, modes, 0, ip + 1).Ok? && ReadParameter(m, modes, 1, ip + 2).Ok?
      && WriteTarget(m, modes, 2, ip + 3).Ok?
      && var target := WriteTarget(m, modes, 2, ip + 3).value;
      && 0 <= target < |m.numbers| && |o.numbers| == |m.numbers|
      && (forall i :: 0 <= i < |m.numbers| && i != target ==> o.numbers[i] == m.numbers[i])
      && o.numbers[target] == Combine(OpCode(Instruction(m)), ReadParameter(m, modes, 0, ip + 1).value, ReadParameter(m, modes, 1, ip + 2).value)
      && (OpCode(Instruction(m)) in {LESS_THAN, EQUALS} ==> o.numbers[target] in {0, 1})
      && o.currentIndex == ip + 4 && o.relativeBase == m.relativeBase && o.halted == m.halted && o.failed == m.failed
  {
  }

  /** A taken jump lands exactly on its target; an untaken one advances by 3; memory is unchanged. */
  lemma JumpTargets(m: Machine)
    requires 0 <= m.currentIndex < |m.numbers|
    requires OpCode(Instruction(m)) in {JUMP_TRUE, JUMP_FALSE}
    requires Step(m).event == Continued
    ensures var o := Step(m).next; var ip := m.currentIndex; var modes := Modes(Instruction(m));
      && ReadParameter(m, modes, 0, ip + 1).Ok?
      && var taken := (ReadParameter(m, modes, 0, ip + 1).value != 0) == (OpCode(Instruction(m)) == JUMP_TRUE);
      && (taken ==> ReadParameter(m, modes, 1, ip + 2).Ok? && o.currentIndex == ReadParameter(m, modes, 1, ip + 2).value)
      && (!taken ==> o.currentIndex == ip + 3)
      && o.numbers == m.numbers && o.relativeBase == m.relativeBase
  {
  }

  /** Opcode 9 adds its operand to the relative base, changes no memory and advances by 2. */
  lemma AdjustRelativeBase(m: Machine)
    requires 0 <= m.currentIndex < |m.numbers|
    requires OpCode(Instruction(m)) == ADJUST_RELATIVE_BASE
    requires Step(m).event == Continued
    ensures var o := Step(m).next; var v := ReadParameter(m, Modes(Instruction(m)), 0, m.currentIndex + 1);
      && v.Ok? && o.relativeBase == m.relativeBase + v.value
      && o.numbers == m.numbers && o.currentIndex == m.currentIndex + 2
  {
  }

  /**
   * Opcode 99 sets `halted`; any opcode outside the table sets `failed` and leaves the
   * pointer where it is (step 0); neither changes memory or the relative base.
   */
  lemma HaltAndFail(m: Machine)
    requires 0 <= m.currentIndex < |m.numbers|
    requires OpCode(Instruction(m)) !in {ADD, MUL, INPUT, OUTPUT, JUMP_TRUE, JUMP_FALSE, LESS_THAN, EQUALS, ADJUST_RELATIVE_BASE}
    ensures var o := Step(m);
      && o.event == Continued && o.next.numbers == m.numbers && o.next.relativeBase == m.relativeBase
      && (OpCode(Instruction(m)) == HALT ==> o.next.halted && o.next.failed == m.failed && o.next.currentIndex == m.currentIndex + 1)
      && (OpCode(Instruction(m)) != HALT ==> o.next.failed && o.next.halted == m.halted && o.next.currentIndex == m.currentIndex)
  {
  }

  /** Only a halt or an unknown opcode ever sets a flag, and no step clears one. */
  lemma FlagsOnlyFromHaltOrFail(m: Machine)
    requires m.Running() && 0 <= m.currentIndex < |m.numbers|
    ensures var o := Step(m); var op := OpCode(Instruction(m));
      && (o.next.halted <==> op == HALT)
      && (o.next.failed <==> op !in {ADD, MUL, INPUT, OUTPUT, JUMP_TRUE, JUMP_FALSE, LESS_THAN, EQUALS, ADJUST_RELATIVE_BASE, HALT})
  {
  }

  /** Input waits for its value at the resolved target; output reports the read value. */
  lemma InputOutput(m: Machine, value: int)
    requires 0 <= m.currentIndex < |m.numbers|
    ensures var o := Step(m); var ip := m.currentIndex; var modes := Modes(Instruction(m));
      && (OpCode(Instruction(m)) == INPUT && WriteTarget(m, modes, 0, ip + 1).Ok? ==>
            o == Outcome(AwaitingInput(WriteTarget(m, modes, 0, ip + 1).value), m))
      && (OpCode(Instruction(m)) == OUTPUT && ReadParameter(m, modes, 0, ip + 1).Ok? ==>
            o == Outcome(Produced(ReadParameter(m, modes, 0, ip + 1).value), m.(currentIndex := ip + 2)))
  {
  }

  /** Feeding a value writes exactly the target cell and advances past the input instruction. */
  lemma FeedWritesTarget(m: Machine, target: int, value: int)
    requires 0 <= target < |m.numbers|
    ensures Feed(m, target, value) == Outcome(Continued, m.(numbers := m.numbers[target := value], currentIndex := m.currentIndex + 2))
  {
  }

  /** A trapped step leaves the machine as it was. */
  lemma TrapChangesNothing(m: Machine)
    requires Step(m).event.Trapped? || Step(m).event.AwaitingInput?
    ensures Step(m).next == m
  {
  }

  // ---------------------------------------------------------------------------------
  // Whole runs

  /** The end of a run: the machine, the hooks' state, and why it stopped. */
  datatype Run<P> = Run(machine: Machine, port: P, stop: Stop)

  /** One pass of `execute`'s loop with the hooks: the next state, or why the run ends there. */
  datatype Progress<P> = Next(machine: Machine, port: P) | Ended(stop: Stop, port: P)

  /**
   * One pass of `execute`'s loop, with the hooks `accept` and `produce` given as functions of
   * their own state `P`; `produce` also says whether it sets `halted`, or refuses the value. An input instruction
   * whose hook answers is completed with `Feed`; one whose hook blocks or raises ends the run.
   */
  function Advance<P>(m: Machine, port: P, accept: P -> Accepted<P>, produce: (P, int) -> Delivered<P>): Progress<P>
  {
    var o := Step(m);
    match o.event
    case Continued => Next(o.next, port)
    case Trapped(t) => Ended(Raised(t), port)
    case Produced(v) =>
      (match produce(port, v)
       case Refused => Ended(OutputBlocked, port)
       case Delivered(port', halt) => Next(if halt then o.next.(halted := true) else o.next, port'))
    case AwaitingInput(target) =>
      match accept(port)
      case Blocked => Ended(InputBlocked, port)
      case Accepted(v, port') =>
        var fed := Feed(m, target, v);
        if fed.event.Trapped? then Ended(Raised(fed.event.trap), port') else Next(fed.next, port')
  }

  /**
   * `execute`: passes of the loop while neither flag is set, at most `fuel` of them
   * (Intcode programs need not terminate).
   */
  function RunWith<P>(m: Machine, port: P, accept: P -> Accepted<P>, produce: (P, int) -> Delivered<P>, fuel: nat): Run<P>
    decreases fuel, 0
  {
    if m.halted then Run(m, port, Halted)
    else if m.failed then Run(m, port, Failed)
    else if fuel == 0 then Run(m, port, OutOfFuel)
    else Resume(m, port, accept, produce, fuel - 1)
  }

  /** One pass, then the rest of the run: it ends where the pass ended, or goes on from the next state. */
  function Resume<P>(m: Machine, port: P, accept: P -> Accepted<P>, produce: (P, int) -> Delivered<P>, fuel: nat): Run<P>
    decreases fuel, 1
  {
    match Advance(m, port, accept, produce)
    case Ended(stop, port') => Run(m, port', stop)
    case Next(m', port') => RunWith(m', port', accept, produce, fuel)
  }

  /** `execute` loops exactly while neither flag is set: a run ends Halted or Failed iff the flag is set. */
  lemma {:induction false} RunEndsOnFlags<P>(m: Machine, port: P, accept: P -> Accepted<P>, produce: (P, int) -> Delivered<P>, fuel: nat)
    ensures var r := RunWith(m, port, accept, produce, fuel);
      && (r.stop == Halted <==> r.machine.halted)
      && (r.stop == Failed <==> !r.machine.halted && r.machine.failed)
      && (r.stop !in {Halted, Failed} ==> r.machine.Running())
    decreases fuel
  {
    if m.Running() && fuel > 0 {
      match Advance(m, port, accept, produce)
      case Ended(_, _) =>
      case Next(m', port') => RunEndsOnFlags(m', port', accept, produce, fuel - 1);
    }
  }

  /** More fuel does not change a run that already ended for another reason. */
  lemma {:induction false} RunFuelIrrelevant<P>(m: Machine, port: P, accept: P -> Accepted<P>, produce: (P, int) -> Delivered<P>, fuel: nat, more: nat)
    requires RunWith(m, port, accept, produce, fuel).stop != OutOfFuel
    ensures RunWith(m, port, accept, produce, fuel + more) == RunWith(m, port, accept, produce, fuel)
    decreases fuel
  {
    if m.Running() && fuel > 0 {
      var progress := Advance(m, port, accept, produce);
      if progress.Next? {
        RunFuelIrrelevant(progress.machine, progress.port, accept, produce, fuel - 1, more);
      }
    }
  }

  /** A property of the hooks' state that both hooks keep holds at the end of every run. */
  lemma {:induction false} RunPreserves<P>(m: Machine, port: P, accept: P -> Accepted<P>, produce: (P, int) -> Delivered<P>, fuel: nat, inv: P -> bool)
    requires inv(port)
    requires forall p :: inv(p) && accept(p).Accepted? ==> inv(accept(p).port)
    requires forall p, v :: inv(p) && produce(p, v).Delivered? ==> inv(produce(p, v).port)
    ensures inv(RunWith(m, port, accept, produce, fuel).port)
    decreases fuel
  {
    if m.Running() && fuel > 0 {
      match Advance(m, port, accept, produce)
      case Ended(_, _) =>
      case Next(m', port') => RunPreserves(m', port', accept, produce, fuel - 1, inv);
    }
  }

  /** A run over the abstract input sequence `inputs`: the final machine, outputs and stop reason. */
  function Execute(program: seq<int>, inputs: seq<int>, fuel: nat): Run<Console>
    requires |program| <= MEMORY_SIZE
  {
    RunWith(Load(program), Console(inputs, []), ConsoleAccept, ConsoleProduce, fuel)
  }

  /** One pass over the console appends at most one output and reads at most one input. */
  lemma ConsoleAdvance(m: Machine, c: Console)
    ensures var p := Advance(m, c, ConsoleAccept, ConsoleProduce).port;
      && (p.outputs == c.outputs || (|c.outputs| < |p.outputs| && p.outputs[..|c.outputs|] == c.outputs))
      && (p.inputs == c.inputs || (c.inputs != [] && p.inputs == c.inputs[1..]))
  {
    var o := Step(m);
    if o.event.Produced? {
      assert (c.outputs + [o.event.value])[..|c.outputs|] == c.outputs;
    }
  }

  /** The console only ever appends to its output log and consumes a prefix of its inputs. */
  lemma {:induction false} ConsoleRunAppends(m: Machine, c: Console, fuel: nat)
    ensures var r := RunWith(m, c, ConsoleAccept, ConsoleProduce, fuel);
      && |r.port.outputs| >= |c.outputs| && r.port.outputs[..|c.outputs|] == c.outputs
      && |r.port.inputs| <= |c.inputs| && r.port.inputs == c.inputs[|c.inputs| - |r.port.inputs|..]
    decreases fuel
  {
    if m.Running() && fuel > 0 {
      ConsoleAdvance(m, c);
      match Advance(m, c, ConsoleAccept, ConsoleProduce)
      case Ended(_, _) =>
      case Next(m', c') =>
        ConsoleRunAppends(m', c', fuel - 1);
        var r := RunWith(m', c', ConsoleAccept, ConsoleProduce, fuel - 1);
        assert r.port.outputs[..|c.outputs|] == r.port.outputs[..|c'.outputs|][..|c.outputs|];
        assert c.inputs[|c.inputs| - |r.port.inputs|..] == c'.inputs[|c'.inputs| - |r.port.inputs|..];
    }
  }

  // ---------------------------------------------------------------------------------
  // Worked examples

  /** A machine at instruction 0 of `program`, without the zero padding of `Load`. */
  function Start(program: seq<int>): Machine
  {
    Machine(program, 0, 0, false, false)
  }

  /** `1,0,0,0,99` adds cell 0 to itself into cell 0 and halts with `2,0,0,0,99`. */
  lemma ExampleAdd()
    ensures var r := RunWith(Start([1, 0, 0, 0, 99]), Console([], []), ConsoleAccept, ConsoleProduce, 2);
      r.stop == Halted && r.machine.numbers == [2, 0, 0, 0, 99] && r.port.outputs == []
  {
    var m0 := Start([1, 0, 0, 0, 99]);
    DecodeDigits(1);
    var m1 := m0.(numbers := [2, 0, 0, 0, 99], currentIndex := 4);
    assert Step(m0) == Outcome(Continued, m1);
    DecodeDigits(99);
    assert Step(m1) == Outcome(Continued, m1.(halted := true, currentIndex := 5));
  }

  /** `1002,4,3,4,33` multiplies cell 4 by the immediate 3 into cell 4 (99) and then halts. */
  lemma ExampleImmediateMultiply()
    ensures var r := RunWith(Start([1002, 4, 3, 4, 33]), Console([], []), ConsoleAccept, ConsoleProduce, 2);
      r.stop == Halted && r.machine.numbers == [1002, 4, 3, 4, 99]
  {
    var m0 := Start([1002, 4, 3, 4, 33]);
    DecodeDigits(1002);
    var m1 := m0.(numbers := [1002, 4, 3, 4, 99], currentIndex := 4);
    assert Step(m0) == Outcome(Continued, m1);
    DecodeDigits(99);
    assert Step(m1) == Outcome(Continued, m1.(halted := true, currentIndex := 5));
  }

  /** `3,0,4,0,99` echoes its input. */
  lemma ExampleEcho(x: int)
    ensures var r := RunWith(Start([3, 0, 4, 0, 99]), Console([x], []), ConsoleAccept, ConsoleProduce, 3);
      r.stop == Halted && r.port.outputs == [x] && r.port.inputs == []
  {
    var m0 := Start([3, 0, 4, 0, 99]);
    DecodeDigits(3);
    assert Step(m0) == Outcome(AwaitingInput(0), m0);
    var m1 := m0.(numbers := [x, 0, 4, 0, 99], currentIndex := 2);
    assert Feed(m0, 0, x) == Outcome(Continued, m1);
    DecodeDigits(4);
    var m2 := m1.(currentIndex := 4);
    assert Step(m1) == Outcome(Produced(x), m2);
    DecodeDigits(99);
    assert Step(m2) == Outcome(Continued, m2.(halted := true, currentIndex := 5));
  }

  /**
   * `5,0,0,99` in 10000 cells: the condition (cell 0, which is 5) is nonzero, and the target
   * is read in position mode through cell 2 (which is 0), so it is cell 0's value 5. The
   * jump lands on cell 5, a zero cell, whose opcode 0 is unknown: the executor fails there.
   */
  lemma ExampleJumpToPadding()
    ensures Execute([5, 0, 0, 99], [], 2).stop == Failed
  {
    var m0 := Load([5, 0, 0, 99]);
    DecodeDigits(5);
    assert m0.numbers[0] == 5 && m0.numbers[1] == 0 && m0.numbers[2] == 0 && m0.numbers[5] == 0;
    var m1 := m0.(currentIndex := 5);
    assert Step(m0) == Outcome(Continued, m1);
    DecodeDigits(0);
    assert Step(m1) == Outcome(Continued, m1.(failed := true));
  }

  // ---------------------------------------------------------------------------------
  // The executor object

  class IntcodeExecutor {
    const numbers: array<int>
    /** `currentIndex`, a local of Java's execute, kept here so an embedding can drive the loop. */
    var currentIndex: int
    var relativeBase: int
    var halted: bool
    var failed: bool

    function State(): Machine
      reads this, numbers
    {
      Machine(numbers[..], currentIndex, relativeBase, halted, failed)
    }

    constructor (program: seq<int>)
      requires |program| <= MEMORY_SIZE
      ensures State() == Load(program) && fresh(numbers)
    {
      numbers := new int[MEMORY_SIZE](i => if 0 <= i < |program| then program[i] else 0);
      currentIndex, relativeBase, halted, failed := 0, 0, false, false;
      new;
      assert numbers[..] == Load(program).numbers;
    }

    method GetInput(modes: int, modeIndex: nat, numbersIndex: int) returns (r: Result<int, Trap>)
      ensures r == ReadParameter(State(), modes, modeIndex, numbersIndex)
    {
      var mode := Mode(modes, modeIndex);
      if mode == MODE_POSITION || mode == MODE_IMMEDIATE || mode == MODE_RELATIVE {
        if !(0 <= numbersIndex < numbers.Length) {
          return Err(AddressOutOfRange(numbersIndex));
        }
        var parameter := numbers[numbersIndex];
        var address := if mode == MODE_POSITION then parameter
                       else if mode == MODE_RELATIVE then relativeBase + parameter
                       else numbersIndex;
        if !(0 <= address < numbers.Length) {
          return Err(AddressOutOfRange(address));
        }
        r := Ok(numbers[address]);
      } else {
        r := Err(InvalidMode(mode));
      }
    }

    method GetOutput(modes: int, modeIndex: nat, numbersIndex: int) returns (r: Result<int, Trap>)
      ensures r == WriteTarget(State(), modes, modeIndex, numbersIndex)
    {
      var mode := Mode(modes, modeIndex);
      if mode == MODE_IMMEDIATE {
        r := Ok(numbersIndex);
      } else if mode == MODE_POSITION || mode == MODE_RELATIVE {
        if !(0 <= numbersIndex < numbers.Length) {
          return Err(AddressOutOfRange(numbersIndex));
        }
        r := Ok(if mode == MODE_POSITION then numbers[numbersIndex] else relativeBase + numbers[numbersIndex]);
      } else {
        r := Err(InvalidMode(mode));
      }
    }

    /** `add`, `multiply`, `lessThan` and `equals`. */
    method ProcessArithmetic(opCode: int, modes: int) returns (e: Event)
      modifies this, numbers
      ensures Outcome(e, State()) == Arithmetic(old(State()), opCode, modes)
    {
      var inputA := GetInput(modes, 0, currentIndex + 1);
      if inputA.Err? { return Trapped(inputA.error); }
      var inputB := GetInput(modes, 1, currentIndex + 2);
      if inputB.Err? { return Trapped(inputB.error); }
      var output := GetOutput(modes, 2, currentIndex + 3);
      if output.Err? { return Trapped(output.error); }
      if !(0 <= output.value < numbers.Length) { return Trapped(AddressOutOfRange(output.value)); }
      numbers[output.value] := Combine(opCode, inputA.value, inputB.value);
      currentIndex := currentIndex + 4;
      e := Continued;
    }

    /** `jumpIfTrue` and `jumpIfFalse`. */
    method ProcessJump(modes: int, whenNonZero: bool) returns (e: Event)
      modifies this
      ensures Outcome(e, State()) == Jump(old(State()), modes, whenNonZero)
    {
      var input := GetInput(modes, 0, currentIndex + 1);
      if input.Err? { return Trapped(input.error); }
      if (input.value != 0) != whenNonZero {
        currentIndex := currentIndex + 3;
        return Continued;
      }
      var target := GetInput(modes, 1, currentIndex + 2);
      if target.Err? { return Trapped(target.error); }
      currentIndex := currentIndex + (-currentIndex + target.value);
      e := Continued;
    }

    /** The body of `execute`'s loop: `processInstruction` at `currentIndex`. */
    method ProcessInstruction() returns (e: Event)
      modifies this, numbers
      ensures Outcome(e, State()) == Step(old(State()))
    {
      if !(0 <= currentIndex < numbers.Length) {
        return Trapped(AddressOutOfRange(currentIndex));
      }
      var instruction := numbers[currentIndex];
      var opCode, modes := OpCode(instruction), Modes(instruction);
      if opCode == ADD || opCode == MUL || opCode == LESS_THAN || opCode == EQUALS {
        e := ProcessArithmetic(opCode, modes);
      } else if opCode == INPUT {
        var target := GetOutput(modes, 0, currentIndex + 1);
        e := if target.Err? then Trapped(target.error) else AwaitingInput(target.value);
      } else if opCode == OUTPUT {
        var value := GetInput(modes, 0, currentIndex + 1);
        if value.Err? {
          e := Trapped(value.error);
        } else {
          currentIndex := currentIndex + 2;
          e := Produced(value.value);
        }
      } else if opCode == JUMP_TRUE || opCode == JUMP_FALSE {
        e := ProcessJump(modes, opCode == JUMP_TRUE);
      } else if opCode == ADJUST_RELATIVE_BASE {
        var value := GetInput(modes, 0, currentIndex + 1);
        if value.Err? {
          e := Trapped(value.error);
        } else {
          relativeBase := relativeBase + value.value;
          currentIndex := currentIndex + 2;
          e := Continued;
        }
      } else if opCode == HALT {
        halted := true;
        currentIndex := currentIndex + 1;
        e := Continued;
      } else {
        failed := true;
        e := Continued;
      }
    }

    /** The rest of `input`: store the accepted value at `target` and advance by 2. */
    method StoreInput(target: int, value: int) returns (e: Event)
      modifies this, numbers
      ensures Outcome(e, State()) == Feed(old(State()), target, value)
    {
      if !(0 <= target < numbers.Length) {
        return Trapped(AddressOutOfRange(target));
      }
      numbers[target] := value;
      currentIndex := currentIndex + 2;
      e := Continued;
    }

    /** One pass of `execute`'s loop with the default hooks. */
    method Pass(console: Console, ghost fuel: nat) returns (next: Console, ended: Option<Stop>)
      requires State().Running() && fuel > 0
      modifies this, numbers
      ensures ended.Some? ==>
        State() == old(State()) && RunWith(old(State()), console, ConsoleAccept, ConsoleProduce, fuel) == Run(State(), next, ended.value)
      ensures ended.None? ==>
        RunWith(old(State()), console, ConsoleAccept, ConsoleProduce, fuel) == RunWith(State(), next, ConsoleAccept, ConsoleProduce, fuel - 1)
    {
      var e := ProcessInstruction();
      next, ended := console, None;
      match e {
        case Continued =>
        case Trapped(t) =>
          ended := Some(Raised(t));
        case Produced(v) =>
          next := console.(outputs := console.outputs + [v]);
        case AwaitingInput(target) =>
          if console.inputs == [] {
            ended := Some(InputBlocked);
          } else {
            next := console.(inputs := console.inputs[1..]);
            var fed := StoreInput(target, console.inputs[0]);
            if fed.Trapped? {
              ended := Some(Raised(fed.trap));
            }
          }
      }
    }

    /**
     * `execute` with the default hooks: `inputs` stands for what the scanner reads, and the
     * returned `outputs` for what is printed.
     */
    method Execute(inputs: seq<int>, fuel: nat) returns (outputs: seq<int>, stop: Stop)
      modifies this, numbers
      ensures var r := RunWith(old(State()), Console(inputs, []), ConsoleAccept, ConsoleProduce, fuel);
        State() == r.machine && outputs == r.port.outputs && stop == r.stop
    {
      var console := Console(inputs, []);
      var left := fuel;
      ghost var goal := RunWith(State(), console, ConsoleAccept, ConsoleProduce, fuel);
      while true
        invariant RunWith(State(), console, ConsoleAccept, ConsoleProduce, left) == goal
        decreases left
      {
        if halted { stop := Halted; break; }
        if failed { stop := Failed; break; }
        if left == 0 { stop := OutOfFuel; break; }
        var ended;
        console, ended := Pass(console, left);
        if ended.Some? {
          stop := ended.value;
          break;
        }
        left := left - 1;
      }
      outputs := console.outputs;
    }
  }
}
