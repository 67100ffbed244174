/**
 * The arcade cabinet (`Day13`): an Intcode game on the Day 9 machine whose outputs are
 * `(x, y, tile)` triples. Part 1 records every output (`Arcade`) and draws the screen from
 * them; part 2 (`InteractiveArcade`) tracks the paddle and ball from the triples and steers
 * the joystick towards the ball.
 */
module Day13 {
  import opened Wrappers
  import opened Intcode
  import Day09
  import JavaMath

  const BLOCK := 2
  const PADDLE := 3
  const BALL := 4

  /** A screen position. */
  datatype Point = Point(x: int, y: int)

  // ---------------------------------------------------------------------------------
  // Part 1: the screen drawn from the recorded outputs

  /** The position named by the `k`-th output triple. */
  function At(outputs: seq<int>, k: nat): Point
    requires 3 * k + 2 < |outputs|
  {
    Point(outputs[3 * k], outputs[3 * k + 1])
  }

  /** The screen after putting every triple into the map in order. */
  function Draw(outputs: seq<int>): map<Point, int>
    requires |outputs| % 3 == 0
    decreases |outputs|
  {
    if outputs == [] then map[]
    else
      var n := |outputs| - 3;
      Draw(outputs[..n])[Point(outputs[n], outputs[n + 1]) := outputs[n + 2]]
  }

  /**
   * The screen holds exactly the positions some triple names, and each one shows the tile of
   * the last triple naming it: later triples overwrite earlier ones.
   */
  lemma {:induction false} DrawLastWins(outputs: seq<int>)
    requires |outputs| % 3 == 0
    ensures forall p :: p in Draw(outputs) <==> exists k: nat :: 3 * k + 2 < |outputs| && At(outputs, k) == p
    ensures forall k: nat :: 3 * k + 2 < |outputs| && (forall j: nat :: k < j && 3 * j + 2 < |outputs| ==> At(outputs, j) != At(outputs, k)) ==>
      Draw(outputs)[At(outputs, k)] == outputs[3 * k + 2]
    decreases |outputs|
  {
    if outputs != [] {
      var n := |outputs| - 3;
      DrawLastWins(outputs[..n]);
      var last := n / 3;
      JavaMath.Euclidean(n, 3);
      DrawKeysStep(outputs, last);
      DrawValuesStep(outputs, last);
    }
  }

  lemma AtPrefix(outputs: seq<int>, n: nat, k: nat)
    requires n <= |outputs| && 3 * k + 2 < n
    ensures At(outputs[..n], k) == At(outputs, k)
  {
  }

  /** The keys of `DrawLastWins`, one triple further. */
  lemma DrawKeysStep(outputs: seq<int>, last: nat)
    requires |outputs| == 3 * last + 3
    requires forall p :: p in Draw(outputs[..3 * last]) <==> exists k: nat :: 3 * k + 2 < 3 * last && At(outputs[..3 * last], k) == p
    ensures forall p :: p in Draw(outputs) <==> exists k: nat :: 3 * k + 2 < |outputs| && At(outputs, k) == p
  {
    var n := 3 * last;
    var prefix := outputs[..n];
    assert Draw(outputs) == Draw(prefix)[At(outputs, last) := outputs[n + 2]];
    forall p | p in Draw(outputs)
      ensures exists k: nat :: 3 * k + 2 < |outputs| && At(outputs, k) == p
    {
      if p != At(outputs, last) {
        var k: nat :| 3 * k + 2 < n && At(prefix, k) == p;
        AtPrefix(outputs, n, k);
      }
    }
    forall p | exists k: nat :: 3 * k + 2 < |outputs| && At(outputs, k) == p
      ensures p in Draw(outputs)
    {
      var k: nat :| 3 * k + 2 < |outputs| && At(outputs, k) == p;
      if k < last {
        AtPrefix(outputs, n, k);
      }
    }
  }

  /** The values of `DrawLastWins`, one triple further. */
  lemma DrawValuesStep(outputs: seq<int>, last: nat)
    requires |outputs| == 3 * last + 3
    requires forall k: nat :: 3 * k + 2 < 3 * last ==> At(outputs[..3 * last], k) in Draw(outputs[..3 * last])
    requires forall k: nat :: 3 * k + 2 < |outputs| ==> At(outputs, k) in Draw(outputs)
    requires forall k: nat :: 3 * k + 2 < 3 * last && (forall j: nat :: k < j && 3 * j + 2 < 3 * last ==> At(outputs[..3 * last], j) != At(outputs[..3 * last], k)) ==>
      Draw(outputs[..3 * last])[At(outputs[..3 * last], k)] == outputs[..3 * last][3 * k + 2]
    ensures forall k: nat :: 3 * k + 2 < |outputs| && (forall j: nat :: k < j && 3 * j + 2 < |outputs| ==> At(outputs, j) != At(outputs, k)) ==>
      Draw(outputs)[At(outputs, k)] == outputs[3 * k + 2]
  {
    var n := 3 * last;
    var prefix := outputs[..n];
    assert Draw(outputs) == Draw(prefix)[At(outputs, last) := outputs[n + 2]];
    forall k: nat | 3 * k + 2 < |outputs| && (forall j: nat :: k < j && 3 * j + 2 < |outputs| ==> At(outputs, j) != At(outputs, k))
      ensures Draw(outputs)[At(outputs, k)] == outputs[3 * k + 2]
    {
      if k < last {
        assert At(outputs, last) != At(outputs, k);
        AtPrefix(outputs, n, k);
        forall j: nat | k < j && 3 * j + 2 < n
          ensures At(prefix, j) != At(prefix, k)
        {
          AtPrefix(outputs, n, j);
        }
        assert Draw(prefix)[At(prefix, k)] == prefix[3 * k + 2];
      }
    }
  }


  /**
   * The loop of `part01` over the recorded outputs, three at a time; a length that is not a
   * multiple of 3 makes `iterator.next()` raise, which is `None`.
   */
  method DrawScreen(outputs: seq<int>) returns (screen: Option<map<Point, int>>)
    ensures screen.Some? <==> |outputs| % 3 == 0
    ensures screen.Some? ==> screen.value == Draw(outputs)
  {
    var drawn: map<Point, int> := map[];
    var i := 0;
    while i < |outputs|
      invariant i <= |outputs| && i % 3 == 0
      invariant drawn == Draw(outputs[..i])
      decreases |outputs| - i
    {
      if i + 2 >= |outputs| {
        return None;
      }
      assert outputs[..i + 3][..i] == outputs[..i];
      drawn := drawn[Point(outputs[i], outputs[i + 1]) := outputs[i + 2]];
      i := i + 3;
    }
    assert outputs[..i] == outputs;
    screen := Some(drawn);
  }

  /** The answer of `part01`: how many positions of the screen show a block. */
  function BlockCount(screen: map<Point, int>): (n: nat)
    ensures n == 0 <==> forall p :: p in screen ==> screen[p] != BLOCK
  {
    var blocks := set p | p in screen && screen[p] == BLOCK;
    assert forall p :: p in screen && screen[p] == BLOCK ==> p in blocks;
    |blocks|
  }

  /** No position of the screen shows a block. */
  predicate NoBlock(screen: map<Point, int>)
  {
    forall p :: p in screen ==> screen[p] != BLOCK
  }

  /**
   * `part01`: run the arcade over `inputs` (standing for the console), draw and count blocks.
   * There is no count when the run raises (an exhausted console included, where `Scanner`
   * raises) or when the outputs do not come in threes (the iterator raises).
   */
  function Part01(program: seq<int>, inputs: seq<int>, fuel: nat): Option<nat>
    requires |program| <= Day09.MEMORY_SIZE
  {
    var run := Day09.Execute(program, inputs, fuel);
    var outputs := run.port.outputs;
    if (run.stop == Halted || run.stop == Failed) && |outputs| % 3 == 0 then Some(BlockCount(Draw(outputs))) else None
  }

  /**
   * `part01` prints a count exactly when the machine stopped on its `halted` or `failed` flag
   * with whole triples drawn, and the count is 0 exactly when no block is on the screen.
   */
  lemma Part01Answers(program: seq<int>, inputs: seq<int>, fuel: nat)
    requires |program| <= Day09.MEMORY_SIZE
    ensures var run := Day09.Execute(program, inputs, fuel);
      && (Part01(program, inputs, fuel).Some? <==> (run.machine.halted || run.machine.failed) && |run.port.outputs| % 3 == 0)
      && (Part01(program, inputs, fuel) == Some(0) <==>
            (run.machine.halted || run.machine.failed) && |run.port.outputs| % 3 == 0 &&
            NoBlock(Draw(run.port.outputs)))
  {
    var run := Day09.Execute(program, inputs, fuel);
    Day09.RunEndsOnFlags(Day09.Load(program), Console(inputs, []), ConsoleAccept, ConsoleProduce, fuel);
    if (run.machine.halted || run.machine.failed) && |run.port.outputs| % 3 == 0 {
      var screen := Draw(run.port.outputs);
      var count := BlockCount(screen);
      assert Part01(program, inputs, fuel) == Some(count);
      assert count == 0 <==> NoBlock(screen);
    } else {
      assert Part01(program, inputs, fuel) == None;
    }
  }

  /** `Arcade`: the Day 9 executor whose `produceLong` records each output instead of printing it. */
  class Arcade {
    const vm: Day09.IntcodeExecutor
    var outputs: seq<int>

    constructor (numbers: seq<int>)
      requires |numbers| <= Day09.MEMORY_SIZE
      ensures vm.State() == Day09.Load(numbers) && outputs == []
      ensures fresh(vm) && fresh(vm.numbers)
    {
      vm := new Day09.IntcodeExecutor(numbers);
      outputs := [];
    }

    /**
     * `execute` with the recording hook; `inputs` stands for what the default `acceptLong`
     * reads. Every output is appended, in the order it is produced.
     */
    method Execute(inputs: seq<int>, fuel: nat) returns (stop: Stop)
      modifies this, vm, vm.numbers
      ensures var r := Day09.RunWith(old(vm.State()), Console(inputs, old(outputs)), ConsoleAccept, ConsoleProduce, fuel);
        vm.State() == r.machine && outputs == r.port.outputs && stop == r.stop
      ensures |outputs| >= |old(outputs)| && outputs[..|old(outputs)|] == old(outputs)
    {
      var console := Console(inputs, outputs);
      var left := fuel;
      ghost var goal := Day09.RunWith(vm.State(), console, ConsoleAccept, ConsoleProduce, fuel);
      Day09.ConsoleRunAppends(vm.State(), console, fuel);
      while true
        invariant Day09.RunWith(vm.State(), console, ConsoleAccept, ConsoleProduce, left) == goal
        decreases left
      {
        if vm.halted { stop := Halted; break; }
        if vm.failed { stop := Failed; break; }
        if left == 0 { stop := OutOfFuel; break; }
        var ended;
        console, ended := vm.Pass(console, left);
        if ended.Some? {
          stop := ended.value;
          break;
        }
        left := left - 1;
      }
      outputs := console.outputs;
    }
  }

  /** `part01` on the objects. */
  method RunPart01(numbers: seq<int>, inputs: seq<int>, fuel: nat) returns (count: Option<nat>)
    requires |numbers| <= Day09.MEMORY_SIZE
    ensures count == Part01(numbers, inputs, fuel)
  {
    var executor := new Arcade(numbers);
    var stop := executor.Execute(inputs, fuel);
    if stop != Halted && stop != Failed {
      return None;
    }
    var screen := DrawScreen(executor.outputs);
    count := if screen.Some? then Some(BlockCount(screen.value)) else None;
  }

  // ---------------------------------------------------------------------------------
  // Part 2: the interactive cabinet

  /**
   * The interactive hooks' state: the partial triple read so far, the last known paddle and
   * ball, and the scores printed so far.
   */
  datatype Cabinet = Cabinet(output: seq<int>, paddle: Option<Point>, ball: Option<Point>, scores: seq<int>)

  const NEW_CABINET := Cabinet([], None, None, [])

  /** `acceptLong`: the joystick: 0 until both are known, then towards the ball. */
  function Accept(c: Cabinet): (a: Accepted<Cabinet>)
    ensures a.Accepted? && a.port == c && -1 <= a.value <= 1
    ensures (c.ball.None? || c.paddle.None?) ==> a.value == 0
    ensures c.ball.Some? && c.paddle.Some? ==>
      && (a.value == 1 <==> c.ball.value.x > c.paddle.value.x)
      && (a.value == -1 <==> c.ball.value.x < c.paddle.value.x)
  {
    if c.ball.None? || c.paddle.None? then Accepted(0, c)
    else Accepted(JavaMath.Sign(c.ball.value.x - c.paddle.value.x), c)
  }

  /** What a complete triple does: print a score, or move the paddle or the ball, or nothing. */
  function Interpret(c: Cabinet, x: int, y: int, tile: int): Cabinet
  {
    if x == -1 && y == 0 then c.(scores := c.scores + [tile])
    else if tile == PADDLE then c.(paddle := Some(Point(x, y)))
    else if tile == BALL then c.(ball := Some(Point(x, y)))
    else c
  }

  /** `produceLong`: buffer the value; on the third, interpret the triple and clear the buffer. */
  function Produce(c: Cabinet, value: int): (d: Delivered<Cabinet>)
    ensures d.Delivered? && !d.halt
    ensures |c.output| < 3 ==> |d.port.output| < 3
    ensures |c.output| < 2 ==> d.port == c.(output := c.output + [value])
  {
    var output := c.output + [value];
    if |output| == 3 then
      Delivered(Interpret(c, output[0], output[1], output[2]).(output := []), false)
    else
      Delivered(c.(output := output), false)
  }

  /**
   * The third value of a triple clears the buffer and: `(-1, 0, s)` prints score `s`;
   * otherwise tile 3 moves the paddle and tile 4 the ball; nothing else changes.
   */
  lemma TripleEffects(c: Cabinet, value: int)
    requires |c.output| == 2
    ensures var c' := Produce(c, value).port; var x, y := c.output[0], c.output[1];
      && c'.output == []
      && (x == -1 && y == 0 ==> c'.scores == c.scores + [value] && c'.paddle == c.paddle && c'.ball == c.ball)
      && (!(x == -1 && y == 0) ==> c'.scores == c.scores)
      && (!(x == -1 && y == 0) && value == PADDLE ==> c'.paddle == Some(Point(x, y)) && c'.ball == c.ball)
      && (!(x == -1 && y == 0) && value == BALL ==> c'.ball == Some(Point(x, y)) && c'.paddle == c.paddle)
      && (!(x == -1 && y == 0) && value != PADDLE && value != BALL ==> c'.paddle == c.paddle && c'.ball == c.ball)
  {
  }

  /** The run of `part02`, with cell 0 already set to 2. */
  function Play(program: seq<int>, fuel: nat): Day09.Run<Cabinet>
    requires |program| <= Day09.MEMORY_SIZE
  {
    Day09.RunWith(Day09.Load(program), NEW_CABINET, Accept, Produce, fuel)
  }

  /** The buffer never holds a complete triple between outputs: at most 2 values are pending. */
  lemma BufferBounded(program: seq<int>, fuel: nat)
    requires |program| <= Day09.MEMORY_SIZE
    ensures |Play(program, fuel).port.output| < 3
  {
    Day09.RunPreserves(Day09.Load(program), NEW_CABINET, Accept, Produce, fuel, (c: Cabinet) => |c.output| < 3);
  }

  /** Once the ball (or the paddle) has been seen it stays known, and scores are only appended. */
  lemma KnownStaysKnown(m: Day09.Machine, c: Cabinet, fuel: nat)
    ensures var c' := Day09.RunWith(m, c, Accept, Produce, fuel).port;
      && (c.ball.Some? ==> c'.ball.Some?) && (c.paddle.Some? ==> c'.paddle.Some?)
      && |c'.scores| >= |c.scores| && c'.scores[..|c.scores|] == c.scores
  {
    Day09.RunPreserves(m, c, Accept, Produce, fuel, (c': Cabinet) =>
      && (c.ball.Some? ==> c'.ball.Some?) && (c.paddle.Some? ==> c'.paddle.Some?)
      && |c'.scores| >= |c.scores| && c'.scores[..|c.scores|] == c.scores);
  }

  /** `InteractiveArcade`: the Day 9 executor with the joystick and triple hooks. */
  class InteractiveArcade {
    const vm: Day09.IntcodeExecutor
    var output: seq<int>
    var paddle: Option<Point>
    var ball: Option<Point>
    /** The scores printed so far. */
    var scores: seq<int>

    function Port(): Cabinet
      reads this
    {
      Cabinet(output, paddle, ball, scores)
    }

    constructor (numbers: seq<int>)
      requires |numbers| <= Day09.MEMORY_SIZE
      ensures vm.State() == Day09.Load(numbers) && Port() == NEW_CABINET
      ensures fresh(vm) && fresh(vm.numbers)
    {
      vm := new Day09.IntcodeExecutor(numbers);
      output, paddle, ball, scores := [], None, None, [];
    }

    method AcceptLong() returns (value: int)
      ensures Accept(Port()) == Accepted(value, Port())
    {
      if ball == None || paddle == None {
        return 0;
      }
      value := JavaMath.Sign(ball.value.x - paddle.value.x);
    }

    method ProduceLong(value: int)
      modifies this
      ensures Produce(old(Port()), value) == Delivered(Port(), false)
    {
      output := output + [value];
      if |output| == 3 {
        if output[0] == -1 && output[1] == 0 {
          scores := scores + [output[2]];
        } else if output[2] == PADDLE {
          paddle := Some(Point(output[0], output[1]));
        } else if output[2] == BALL {
          ball := Some(Point(output[0], output[1]));
        }
        output := [];
      }
    }

    /** One pass of `execute`'s loop with the cabinet's hooks. */
    method Pass(ghost fuel: nat) returns (ended: Option<Stop>)
      requires vm.State().Running() && fuel > 0
      modifies this, vm, vm.numbers
      ensures ended.Some? ==>
        vm.State() == old(vm.State()) && Day09.RunWith(old(vm.State()), old(Port()), Accept, Produce, fuel) == Day09.Run(vm.State(), Port(), ended.value)
      ensures ended.None? ==> Day09.RunWith(old(vm.State()), old(Port()), Accept, Produce, fuel) == Day09.RunWith(vm.State(), Port(), Accept, Produce, fuel - 1)
    {
      var e := vm.ProcessInstruction();
      ended := None;
      match e {
        case Continued =>
        case Trapped(t) =>
          ended := Some(Raised(t));
        case Produced(v) =>
          ProduceLong(v);
        case AwaitingInput(target) =>
          var value := AcceptLong();
          var fed := vm.StoreInput(target, value);
          if fed.Trapped? {
            ended := Some(Raised(fed.trap));
          }
      }
    }

    /** `execute` with the cabinet's hooks, for at most `fuel` passes. */
    method Execute(fuel: nat) returns (stop: Stop)
      modifies this, vm, vm.numbers
      ensures Day09.RunWith(old(vm.State()), old(Port()), Accept, Produce, fuel) == Day09.Run(vm.State(), Port(), stop)
    {
      var left := fuel;
      ghost var goal := Day09.RunWith(vm.State(), Port(), Accept, Produce, fuel);
      while true
        invariant Day09.RunWith(vm.State(), Port(), Accept, Produce, left) == goal
        decreases left
      {
        if vm.halted { stop := Halted; break; }
        if vm.failed { stop := Failed; break; }
        if left == 0 { stop := OutOfFuel; break; }
        var ended := Pass(left);
        if ended.Some? {
          stop := ended.value;
          break;
        }
        left := left - 1;
      }
    }
  }

  /**
   * `part02`: cell 0 of the caller's array is set to 2 (play for free), then the cabinet
   * runs; the thread it runs on in Java is not modelled.
   */
  method Part02(numbers: array<int>, fuel: nat) returns (scores: seq<int>)
    requires 1 <= numbers.Length <= Day09.MEMORY_SIZE
    modifies numbers
    ensures numbers[..] == old(numbers[..])[0 := 2]
    ensures scores == Play(numbers[..], fuel).port.scores
  {
    numbers[0] := 2;
    var executor := new InteractiveArcade(numbers[..]);
    var _ := executor.Execute(fuel);
    scores := executor.scores;
  }
}
