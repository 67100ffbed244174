/**
 * The repair droid (`Day15`). The area is explored path by path: each path is replayed on a
 * fresh Day 9 machine whose inputs are the path's moves, and the last output says what is at
 * the path's end (wall, open, oxygen system). Open ends are extended by one move in every
 * direction. A breadth-first search then measures the way to the oxygen system, and
 * `fillOxygen` counts the minutes until oxygen has filled every open cell.
 */
module Day15 {
  import opened Wrappers
  import opened Intcode
  import Day09

  const NORTH := 1
  const SOUTH := 2
  const WEST := 3
  const EAST := 4

  const WALL := 0
  const MOVED := 1
  const OXYGEN := 2

  datatype Point = Point(x: int, y: int)

  const ORIGIN := Point(0, 0)

  // ---------------------------------------------------------------------------------
  // Paths

  /** One move of `fromPath`'s switch; a value that is no direction leaves the point. */
  function Offset(p: Point, direction: int): Point
  {
    if direction == NORTH then p.(y := p.y + 1)
    else if direction == SOUTH then p.(y := p.y - 1)
    else if direction == WEST then p.(x := p.x - 1)
    else if direction == EAST then p.(x := p.x + 1)
    else p
  }

  /** The point a path of moves from the origin ends at. */
  function PathPoint(path: seq<int>): Point
    decreases |path|
  {
    if path == [] then ORIGIN
    else Offset(PathPoint(path[..|path| - 1]), path[|path| - 1])
  }

  /** `Point.fromPath`: the moves applied in order from the origin. */
  method FromPath(path: seq<int>) returns (p: Point)
    ensures p == PathPoint(path)
  {
    var x, y := 0, 0;
    for i := 0 to |path|
      invariant Point(x, y) == PathPoint(path[..i])
    {
      assert path[..i + 1][..i] == path[..i];
      var direction := path[i];
      if direction == NORTH {
        y := y + 1;
      } else if direction == SOUTH {
        y := y - 1;
      } else if direction == WEST {
        x := x - 1;
      } else if direction == EAST {
        x := x + 1;
      }
    }
    assert path[..|path|] == path;
    p := Point(x, y);
  }

  /** One more move moves the end of the path. */
  lemma PathPointSnoc(path: seq<int>, direction: int)
    ensures PathPoint(path + [direction]) == Offset(PathPoint(path), direction)
  {
    assert (path + [direction])[..|path|] == path;
  }

  /** The end of a path after another is the first path's end moved by the second path's end. */
  lemma {:induction false} PathsCompose(first: seq<int>, second: seq<int>)
    ensures PathPoint(first + second) == Point(PathPoint(first).x + PathPoint(second).x, PathPoint(first).y + PathPoint(second).y)
    decreases |second|
  {
    if second != [] {
      var n := |second| - 1;
      var d := second[n];
      assert first + second == (first + second[..n]) + [d];
      assert second == second[..n] + [d];
      PathPointSnoc(first + second[..n], d);
      PathPointSnoc(second[..n], d);
      PathsCompose(first, second[..n]);
    } else {
      assert first + second == first;
    }
  }

  /** North undoes south and west undoes east, whatever came before. */
  lemma OppositesCancel(path: seq<int>)
    ensures PathPoint(path + [NORTH, SOUTH]) == PathPoint(path) == PathPoint(path + [SOUTH, NORTH])
    ensures PathPoint(path + [WEST, EAST]) == PathPoint(path) == PathPoint(path + [EAST, WEST])
  {
    var pairs := [[NORTH, SOUTH], [SOUTH, NORTH], [WEST, EAST], [EAST, WEST]];
    forall k | 0 <= k < 4
      ensures PathPoint(path + pairs[k]) == PathPoint(path)
    {
      var a, b := pairs[k][0], pairs[k][1];
      assert path + pairs[k] == (path + [a]) + [b];
      PathPointSnoc(path, a);
      PathPointSnoc(path + [a], b);
    }
    assert path + [NORTH, SOUTH] == path + pairs[0] && path + [SOUTH, NORTH] == path + pairs[1];
    assert path + [WEST, EAST] == path + pairs[2] && path + [EAST, WEST] == path + pairs[3];
  }

  // ---------------------------------------------------------------------------------
  // Neighbours

  /** `p` and `q` are one unit apart, horizontally or vertically. */
  predicate Touching(p: Point, q: Point)
  {
    (p.x == q.x && (p.y - q.y == 1 || q.y - p.y == 1)) || (p.y == q.y && (p.x - q.x == 1 || q.x - p.x == 1))
  }

  /** The four adjacent points in `getNeighbours`' order: east, north, west, south. */
  function Adjacent(p: Point): (r: seq<Point>)
    ensures forall q :: q in r <==> Touching(p, q)
  {
    [Point(p.x + 1, p.y), Point(p.x, p.y + 1), Point(p.x - 1, p.y), Point(p.x, p.y - 1)]
  }

  /** Not a wall by `getOrDefault(point, WALL)`: unexplored points count as walls. */
  predicate Open(area: map<Point, int>, p: Point)
  {
    (if p in area then area[p] else WALL) != WALL
  }

  /** `removeIf` of the walls: the open candidates, in order. */
  function KeepOpen(area: map<Point, int>, candidates: seq<Point>): (r: seq<Point>)
    ensures forall q :: q in r <==> q in candidates && Open(area, q)
    ensures |r| <= |candidates|
    decreases |candidates|
  {
    if candidates == [] then []
    else (if Open(area, candidates[0]) then [candidates[0]] else []) + KeepOpen(area, candidates[1..])
  }

  /** `getNeighbours`: the adjacent points that are explored and not walls. */
  function Neighbours(area: map<Point, int>, p: Point): (r: seq<Point>)
    ensures |r| <= 4
    ensures forall q :: q in r <==> Touching(p, q) && q in area && area[q] != WALL
  {
    KeepOpen(area, Adjacent(p))
  }

  // ---------------------------------------------------------------------------------
  // The scripted executor

  /** The hooks' state: the moves not yet sent and the status codes received. */
  datatype Script = Script(inputs: seq<int>, outputs: seq<int>)

  /** `acceptLong`: the next move; `remove(0)` on an empty list raises, which ends the run. */
  function Accept(s: Script): (a: Accepted<Script>)
    ensures a.Accepted? <==> s.inputs != []
    ensures a.Accepted? ==> a.value == s.inputs[0] && a.port == s.(inputs := s.inputs[1..])
  {
    if s.inputs == [] then Blocked else Accepted(s.inputs[0], s.(inputs := s.inputs[1..]))
  }

  /** `produceLong`: record the status; once every move has been sent, stop the machine. */
  function Produce(s: Script, value: int): (d: Delivered<Script>)
    ensures d.Delivered? && d.port.inputs == s.inputs
    ensures d.halt <==> s.inputs == []
    ensures |d.port.outputs| == |s.outputs| + 1 && d.port.outputs[..|s.outputs|] == s.outputs
  {
    Delivered(s.(outputs := s.outputs + [value]), s.inputs == [])
  }

  /** `lastOutput`: the last status; `get(-1)` on an empty list raises, which is `None`. */
  function Last(outputs: seq<int>): Option<int>
  {
    if outputs == [] then None else Some(outputs[|outputs| - 1])
  }

  /** After any output, `lastOutput` is that output. */
  lemma LastOutputIsLatest(s: Script, value: int)
    ensures Last(Produce(s, value).port.outputs) == Some(value)
  {
  }

  /** The moves still to send are always what is left of the script after its first few. */
  lemma RemainingIsSuffix(m: Day09.Machine, path: seq<int>, fuel: nat)
    ensures var rest := Day09.RunWith(m, Script(path, []), Accept, Produce, fuel).port.inputs;
      |rest| <= |path| && rest == path[|path| - |rest|..]
  {
    Day09.RunPreserves(m, Script(path, []), Accept, Produce, fuel, (s: Script) =>
      |s.inputs| <= |path| && s.inputs == path[|path| - |s.inputs|..]);
  }

  /**
   * An input instruction met with the script used up ends the run without setting a flag:
   * Java's `remove(0)` raises out of `execute`.
   */
  lemma DryScriptRaises(m: Day09.Machine, s: Script, fuel: nat)
    requires m.Running() && fuel > 0 && s.inputs == [] && Day09.Step(m).event.AwaitingInput?
    ensures var run := Day09.RunWith(m, s, Accept, Produce, fuel);
      run.stop == InputBlocked && !run.machine.halted && !run.machine.failed
  {
  }

  /**
   * The replay of one path on a fresh machine, and what its last output says; no answer when
   * the run raised (the script ran dry, or the machine trapped), as the exception ends `main`.
   */
  function Probe(program: seq<int>, path: seq<int>, fuel: nat): Option<int>
    requires |program| <= Day09.MEMORY_SIZE
  {
    var run := Day09.RunWith(Day09.Load(program), Script(path, []), Accept, Produce, fuel);
    if run.stop == Halted || run.stop == Failed then Last(run.port.outputs) else None
  }

  /**
   * A program that reports a move and then reads two moves, replayed on a one-move path: the
   * second read finds the script empty and raises, so the replay gives no answer.
   */
  lemma ExampleScriptRunsDry()
    ensures Probe([104, 1, 3, 100, 3, 100, 99], [NORTH], 3) == None
  {
    var m := Day09.Load([104, 1, 3, 100, 3, 100, 99]);
    var s0 := Script([NORTH], []);
    assert Day09.Step(m).event == Produced(1);
    var m1 := Day09.Step(m).next;
    var s1 := Script([NORTH], [1]);
    assert Day09.Advance(m, s0, Accept, Produce) == Day09.Next(m1, s1);
    assert Day09.Step(m1).event == AwaitingInput(100);
    var m2 := Day09.Feed(m1, 100, NORTH).next;
    var s2 := Script([], [1]);
    assert [NORTH][1..] == [];
    assert Accept(s1) == Accepted(NORTH, s2);
    assert |m1.numbers| == Day09.MEMORY_SIZE;
    assert Day09.Feed(m1, 100, NORTH).event == Continued;
    assert Day09.Advance(m1, s1, Accept, Produce) == Day09.Next(m2, s2);
    assert Day09.Step(m2).event == AwaitingInput(100);
    DryScriptRaises(m2, s2, 1);
  }

  /** The scripted `IntcodeExecutor` of Day 15. */
  class IntcodeExecutor {
    const vm: Day09.IntcodeExecutor
    var inputs: seq<int>
    var outputs: seq<int>

    function Port(): Script
      reads this
    {
      Script(inputs, outputs)
    }

    constructor (numbers: seq<int>, inputs: seq<int>)
      requires |numbers| <= Day09.MEMORY_SIZE
      ensures vm.State() == Day09.Load(numbers) && Port() == Script(inputs, [])
      ensures fresh(vm) && fresh(vm.numbers)
    {
      vm := new Day09.IntcodeExecutor(numbers);
      this.inputs := inputs;
      outputs := [];
    }

    method AcceptLong() returns (value: Option<int>)
      modifies this
      ensures var a := Accept(old(Port()));
        if a.Accepted? then value == Some(a.value) && Port() == a.port else value == None && Port() == old(Port())
    {
      if inputs == [] {
        return None;
      }
      value := Some(inputs[0]);
      inputs := inputs[1..];
    }

    method ProduceLong(value: int)
      modifies this, vm
      ensures Port() == Produce(old(Port()), value).port
      ensures vm.halted == (old(vm.halted) || Produce(old(Port()), value).halt)
      ensures unchanged(vm`failed, vm`currentIndex, vm`relativeBase)
    {
      outputs := outputs + [value];
      if inputs == [] {
        vm.halted := true;
      }
    }

    method Pass(ghost fuel: nat) returns (ended: Option<Stop>)
      requires vm.State().Running() && fuel > 0
      modifies this, vm, vm.numbers
      ensures ended.Some? ==>
        vm.State() == old(vm.State()) && Day09.RunWith(old(vm.State()), old(Port()), Accept, Produce, fuel) == Day09.Run(vm.State(), Port(), ended.value)
      ensures ended.None? ==> Day09.RunWith(old(vm.State()), old(Port()), Accept, Produce, fuel) == Day09.RunWith(vm.State(), Port(), Accept, Produce, fuel - 1)
    {
      var e := vm.ProcessInstruction();
      ended := None;
      match e {
        case Continued =>
        case Trapped(t) =>
          ended := Some(Raised(t));
        case Produced(v) =>
          ProduceLong(v);
        case AwaitingInput(target) =>
          var value := AcceptLong();
          if value.None? {
            ended := Some(InputBlocked);
          } else {
            var fed := vm.StoreInput(target, value.value);
            if fed.Trapped? {
              ended := Some(Raised(fed.trap));
            }
          }
      }
    }

    method Execute(fuel: nat) returns (stop: Stop)
      modifies this, vm, vm.numbers
      ensures Day09.RunWith(old(vm.State()), old(Port()), Accept, Produce, fuel) == Day09.Run(vm.State(), Port(), stop)
    {
      var left := fuel;
      ghost var goal := Day09.RunWith(vm.State(), Port(), Accept, Produce, fuel);
      while true
        invariant Day09.RunWith(vm.State(), Port(), Accept, Produce, left) == goal
        decreases left
      {
        if vm.halted { stop := Halted; break; }
        if vm.failed { stop := Failed; break; }
        if left == 0 { stop := OutOfFuel; break; }
        var ended := Pass(left);
        if ended.Some? {
          stop := ended.value;
          break;
        }
        left := left - 1;
      }
    }

    method LastOutput() returns (last: Option<int>)
      ensures last == Last(outputs)
    {
      last := if outputs == [] then None else Some(outputs[|outputs| - 1]);
    }
  }

  // ---------------------------------------------------------------------------------
  // Exploration

  /** Whether one-move extension `direction` of `path` is queued by `handleMoved`. */
  predicate Qualifies(visited: map<Point, int>, path: seq<int>, inputs: seq<seq<int>>, direction: int)
  {
    PathPoint(path + [direction]) !in visited && path + [direction] !in inputs
  }

  /** The extensions `handleMoved` queues among its first `n` directions, in order. */
  function Extensions(visited: map<Point, int>, path: seq<int>, inputs: seq<seq<int>>, n: nat): (r: seq<seq<int>>)
    requires n <= 4
    ensures |r| <= n
    decreases n
  {
    if n == 0 then []
    else Extensions(visited, path, inputs, n - 1) + (if Qualifies(visited, path, inputs, n) then [path + [n]] else [])
  }

  /** An extension by direction `d` is not among those of the directions below `d`. */
  lemma {:induction false} ExtensionIsNew(visited: map<Point, int>, path: seq<int>, inputs: seq<seq<int>>, n: nat, d: int)
    requires n < d && n <= 4
    ensures path + [d] !in Extensions(visited, path, inputs, n)
    decreases n
  {
    if n > 0 {
      ExtensionIsNew(visited, path, inputs, n - 1, d);
      assert (path + [d])[|path|] != (path + [n])[|path|];
    }
  }

  /**
   * A one-move extension of `path` by direction `d` is queued by `handleMoved` exactly when
   * its end is unexplored and it was not queued already.
   */
  lemma {:induction false} ExtensionsExactly(visited: map<Point, int>, path: seq<int>, inputs: seq<seq<int>>, n: nat, d: int)
    requires 1 <= d <= n <= 4
    ensures path + [d] in Extensions(visited, path, inputs, n) <==> Qualifies(visited, path, inputs, d)
    decreases n
  {
    var before := Extensions(visited, path, inputs, n - 1);
    var qualifies := Qualifies(visited, path, inputs, n);
    assert Extensions(visited, path, inputs, n) == before + (if qualifies then [path + [n]] else []);
    if d == n {
      ExtensionIsNew(visited, path, inputs, n - 1, d);
    } else {
      ExtensionsExactly(visited, path, inputs, n - 1, d);
      assert path + [d] != path + [n] by {
        assert (path + [d])[|path|] != (path + [n])[|path|];
      }
    }
  }

  /** Every extension `handleMoved` queues leads somewhere unexplored and was not queued already. */
  lemma {:induction false} ExtensionsUnexplored(visited: map<Point, int>, path: seq<int>, inputs: seq<seq<int>>, n: nat)
    requires n <= 4
    ensures forall q :: q in Extensions(visited, path, inputs, n) ==> PathPoint(q) !in visited && q !in inputs
    decreases n
  {
    if n > 0 {
      ExtensionsUnexplored(visited, path, inputs, n - 1);
    }
  }

  /** `handleMoved` queues no extension twice. */
  lemma {:induction false} ExtensionsDistinct(visited: map<Point, int>, path: seq<int>, inputs: seq<seq<int>>, n: nat)
    requires n <= 4
    ensures Distinct(Extensions(visited, path, inputs, n))
    decreases n
  {
    if n > 0 {
      ExtensionsDistinct(visited, path, inputs, n - 1);
      if Qualifies(visited, path, inputs, n) {
        ExtensionIsNew(visited, path, inputs, n - 1, n);
        DistinctSnoc(Extensions(visited, path, inputs, n - 1), path + [n]);
      }
    }
  }

  /** Appending an element not yet present keeps a sequence free of duplicates. */
  lemma DistinctSnoc<T>(s: seq<T>, x: T)
    requires Distinct(s) && x !in s
    ensures Distinct(s + [x])
  {
    forall i, j | 0 <= i < j < |s| + 1
      ensures (s + [x])[i] != (s + [x])[j]
    {
      if j == |s| {
        assert (s + [x])[i] == s[i];
      }
    }
  }

  /** No element of `s` occurs twice. */
  predicate Distinct<T(==)>(s: seq<T>)
  {
    forall i, j :: 0 <= i < j < |s| ==> s[i] != s[j]
  }

  /** `handleMoved`: append each one-move extension whose end is unexplored and that is not queued yet. */
  method HandleMoved(visited: map<Point, int>, path: seq<int>, inputs: seq<seq<int>>) returns (queue: seq<seq<int>>)
    ensures queue == inputs + Extensions(visited, path, inputs, 4)
  {
    queue := inputs;
    for i := 1 to 5
      invariant queue == inputs + Extensions(visited, path, inputs, i - 1)
    {
      ghost var earlier := Extensions(visited, path, inputs, i - 1);
      var pathCopy := path + [i];
      var end := FromPath(pathCopy);
      ExtensionIsNew(visited, path, inputs, i - 1, i);
      assert pathCopy in queue <==> pathCopy in inputs;
      if end !in visited && pathCopy !in queue {
        queue := queue + [pathCopy];
        assert queue == inputs + (earlier + [pathCopy]);
      }
    }
  }

  /** A queue without duplicates stays without duplicates through `handleMoved`. */
  lemma HandleMovedKeepsDistinct(visited: map<Point, int>, path: seq<int>, inputs: seq<seq<int>>)
    requires Distinct(inputs)
    ensures Distinct(inputs + Extensions(visited, path, inputs, 4))
  {
    ExtensionsUnexplored(visited, path, inputs, 4);
    ExtensionsDistinct(visited, path, inputs, 4);
    var added := Extensions(visited, path, inputs, 4);
    var all := inputs + added;
    forall i, j | 0 <= i < j < |all|
      ensures all[i] != all[j]
    {
      if i < |inputs| && j >= |inputs| {
        assert all[j] == added[j - |inputs|];
        assert all[j] !in inputs;
      } else if i >= |inputs| {
        assert all[i] == added[i - |inputs|] && all[j] == added[j - |inputs|];
      }
    }
  }

  /** The explored area and the paths still to try. */
  datatype Exploration = Exploration(area: map<Point, int>, queue: seq<seq<int>>)

  /** The start of `main`: the origin is open, and the four one-move paths are queued. */
  const START := Exploration(map[ORIGIN := MOVED], [[NORTH], [SOUTH], [WEST], [EAST]])

  /** What the replay of each path reports (`None` when `lastOutput` raises). */
  type Prober = seq<int> -> Option<int>

  /** The replays of `program`, each for at most `fuel` passes. */
  function Replays(program: seq<int>, fuel: nat): Prober
    requires |program| <= Day09.MEMORY_SIZE
  {
    path => Probe(program, path, fuel)
  }

  /** One turn of `main`'s exploration loop; `None` when `lastOutput` raises. */
  function ExploreStep(probe: Prober, e: Exploration): Option<Exploration>
    requires e.queue != []
  {
    var path := e.queue[0];
    match probe(path)
    case None => None
    case Some(output) =>
      var area := e.area[PathPoint(path) := output];
      var rest := e.queue[1..];
      Some(Exploration(area, if output != WALL then rest + Extensions(area, path, rest, 4) else rest))
  }

  /** The exploration after `rounds` turns (or as soon as the queue is empty). */
  function Explored(probe: Prober, rounds: nat): Option<Exploration>
    decreases rounds
  {
    if rounds == 0 then Some(START)
    else
      match Explored(probe, rounds - 1)
      case None => None
      case Some(e) => if e.queue == [] then Some(e) else ExploreStep(probe, e)
  }

  /** The origin stays explored and open, and no queued path ever leads back to it. */
  predicate OriginKept(e: Exploration)
  {
    && ORIGIN in e.area && e.area[ORIGIN] == MOVED
    && forall k :: 0 <= k < |e.queue| ==> PathPoint(e.queue[k]) != ORIGIN
  }

  lemma ExploreStepKeepsOrigin(probe: Prober, e: Exploration)
    requires e.queue != [] && OriginKept(e)
    ensures var next := ExploreStep(probe, e); next.Some? ==> OriginKept(next.value)
  {
    var next := ExploreStep(probe, e);
    if next.Some? {
      var path := e.queue[0];
      var area := next.value.area;
      var rest := e.queue[1..];
      assert PathPoint(path) != ORIGIN;
      ExtensionsUnexplored(area, path, rest, 4);
      forall k | 0 <= k < |next.value.queue|
        ensures PathPoint(next.value.queue[k]) != ORIGIN
      {
        if k >= |rest| {
          assert next.value.queue[k] in Extensions(area, path, rest, 4);
        } else {
          assert next.value.queue[k] == e.queue[k + 1];
        }
      }
    }
  }

  /** However long it runs, the exploration never overwrites the open origin. */
  lemma {:induction false} ExploredKeepsOrigin(probe: Prober, rounds: nat)
    ensures var e := Explored(probe, rounds); e.Some? ==> OriginKept(e.value)
    decreases rounds
  {
    if rounds == 0 {
      forall k | 0 <= k < |START.queue|
        ensures PathPoint(START.queue[k]) != ORIGIN
      {
        PathPointSnoc([], START.queue[k][0]);
        assert [] + [START.queue[k][0]] == START.queue[k];
      }
    } else {
      ExploredKeepsOrigin(probe, rounds - 1);
      var before := Explored(probe, rounds - 1);
      if before.Some? && before.value.queue != [] {
        ExploreStepKeepsOrigin(probe, before.value);
      }
    }
  }

  /** One replay: a fresh scripted executor on `path`, run, and its last output. */
  method ProbePath(instructions: seq<int>, path: seq<int>, runFuel: nat) returns (output: Option<int>)
    requires |instructions| <= Day09.MEMORY_SIZE
    ensures output == Probe(instructions, path, runFuel)
  {
    var executor := new IntcodeExecutor(instructions, path);
    var stop := executor.Execute(runFuel);
    if stop != Halted && stop != Failed {
      return None;
    }
    output := executor.LastOutput();
  }

  /** The body of `main`'s exploration loop. */
  method ExploreTurn(instructions: seq<int>, runFuel: nat, e: Exploration) returns (next: Option<Exploration>)
    requires |instructions| <= Day09.MEMORY_SIZE && e.queue != []
    ensures next == ExploreStep(Replays(instructions, runFuel), e)
  {
    var path := e.queue[0];
    var inputs := e.queue[1..];
    var output := ProbePath(instructions, path, runFuel);
    if output.None? {
      return None;
    }
    var end := FromPath(path);
    var area := e.area[end := output.value];
    if output.value != WALL {
      inputs := HandleMoved(area, path, inputs);
    }
    next := Some(Exploration(area, inputs));
  }

  /** `main`'s exploration loop, for at most `rounds` turns, each replay for at most `runFuel` passes. */
  method Explore(instructions: seq<int>, runFuel: nat, rounds: nat) returns (explored: Option<Exploration>)
    requires |instructions| <= Day09.MEMORY_SIZE
    ensures explored == Explored(Replays(instructions, runFuel), rounds)
  {
    ghost var probe := Replays(instructions, runFuel);
    var e := START;
    for round := 0 to rounds
      invariant Explored(probe, round) == Some(e)
    {
      ExploredNext(probe, round, e);
      if e.queue != [] {
        var next := ExploreTurn(instructions, runFuel, e);
        if next.None? {
          ExploredStaysNone(probe, round + 1, rounds);
          return None;
        }
        e := next.value;
      }
    }
    explored := Some(e);
  }

  /** The turn after `round`: the same exploration once the queue is empty. */
  lemma ExploredNext(probe: Prober, round: nat, e: Exploration)
    requires Explored(probe, round) == Some(e)
    ensures Explored(probe, round + 1) == if e.queue == [] then Some(e) else ExploreStep(probe, e)
  {
  }

  /** Once a replay has raised, the exploration stays failed. */
  lemma {:induction false} ExploredStaysNone(probe: Prober, round: nat, rounds: nat)
    requires round <= rounds
    requires Explored(probe, round) == None
    ensures Explored(probe, rounds) == None
    decreases rounds - round
  {
    if round < rounds {
      ExploredStaysNone(probe, round + 1, rounds);
    }
  }

  // ---------------------------------------------------------------------------------
  // Part 1: breadth-first search

  /** Whether a walk of `d` moves through open cells leads from the origin to `p`. */
  ghost predicate Reach(area: map<Point, int>, p: Point, d: nat)
    decreases d
  {
    if d == 0 then p == ORIGIN
    else p in area && area[p] != WALL && exists q :: Touching(q, p) && Reach(area, q, d - 1)
  }

  /** Whether some cell holds `value` (`containsValue`). */
  predicate ContainsValue(area: map<Point, int>, value: int)
  {
    exists p :: p in area && area[p] == value
  }

  /** What `breadthFirstSearch` prints: no oxygen system (it raises), null, or a distance. */
  datatype Search = NoOxygen | Unreached | Distance(steps: nat) | Unfinished

  /** `removeIf(visited::contains)`. */
  function Unvisited(points: seq<Point>, visited: set<Point>): (r: seq<Point>)
    ensures forall q :: q in r <==> q in points && q !in visited
    decreases |points|
  {
    if points == [] then []
    else (if points[0] in visited then [] else [points[0]]) + Unvisited(points[1..], visited)
  }

  /** A walk to a cell extends by one move to each of its neighbours. */
  lemma ReachNext(area: map<Point, int>, current: Point, d: nat, q: Point)
    requires Touching(current, q) && q in area && area[q] != WALL && Reach(area, current, d)
    ensures Reach(area, q, d + 1)
  {
  }

  /**
   * `connected.forEach(point -> distances.put(point, distances.get(current) + 1))`: each
   * newly reached neighbour gets a distance one more than `current`'s.
   */
  method Relax(area: map<Point, int>, distances: map<Point, nat>, current: Point, connected: seq<Point>) returns (next: map<Point, nat>)
    requires current in distances && Reach(area, current, distances[current])
    requires forall k :: 0 <= k < |connected| ==> Touching(current, connected[k]) && connected[k] in area && area[connected[k]] != WALL
    requires forall p :: p in distances ==> Reach(area, p, distances[p])
    ensures forall p :: p in distances ==> p in next
    ensures forall k :: 0 <= k < |connected| ==> connected[k] in next && next[connected[k]] == distances[current] + 1
    ensures forall p :: p in next ==> Reach(area, p, next[p])
  {
    var d := distances[current];
    next := distances;
    for i := 0 to |connected|
      invariant current in next && next[current] == d
      invariant forall p :: p in distances ==> p in next
      invariant forall q :: q in connected[..i] ==> q in next && next[q] == d + 1
      invariant forall p :: p in next ==> Reach(area, p, next[p])
    {
      var point := connected[i];
      ReachNext(area, current, d, point);
      next := next[point := d + 1];
      assert connected[..i + 1] == connected[..i] + [point];
    }
    assert connected[..|connected|] == connected;
  }

  /**
   * `breadthFirstSearch`, for at most `fuel` turns: every distance it records, and so the one
   * it prints for the oxygen system, is the length of a walk from the origin through open cells.
   */
  method BreadthFirstSearch(area: map<Point, int>, fuel: nat) returns (r: Search)
    ensures r == NoOxygen <==> !ContainsValue(area, OXYGEN)
    ensures r.Distance? ==> exists target :: target in area && area[target] == OXYGEN && Reach(area, target, r.steps)
  {
    if !ContainsValue(area, OXYGEN) {
      return NoOxygen;
    }
    var target :| target in area && area[target] == OXYGEN;
    var distances: map<Point, nat> := map[ORIGIN := 0];
    var visited: set<Point> := {};
    var queue: seq<Point> := [ORIGIN];
    var left := fuel;
    while |queue| > 0
      invariant forall k :: 0 <= k < |queue| ==> queue[k] in distances
      invariant forall p :: p in distances ==> Reach(area, p, distances[p])
      decreases left
    {
      if left == 0 {
        return Unfinished;
      }
      left := left - 1;
      var current := queue[0];
      queue := queue[1..];
      visited := visited + {current};
      var neighbours := Neighbours(area, current);
      var connected := Unvisited(neighbours, visited);
      forall k | 0 <= k < |connected|
        ensures Touching(current, connected[k]) && connected[k] in area && area[connected[k]] != WALL
      {
        assert connected[k] in neighbours;
      }
      distances := Relax(area, distances, current, connected);
      queue := queue + connected;
    }
    r := if target in distances then Distance(distances[target]) else Unreached;
  }

  // ---------------------------------------------------------------------------------
  // Part 2: oxygen fill

  /** The cells one minute of spreading turns into oxygen: open, not oxygen, next to oxygen. */
  function ToSpread(area: map<Point, int>): set<Point>
  {
    set q | q in area && area[q] != OXYGEN && area[q] != WALL && exists p :: p in area && area[p] == OXYGEN && Touching(p, q)
  }

  /** The cells to spread to are exactly those `flatMap(getNeighbours)` and the filter select. */
  lemma ToSpreadIsNeighbours(area: map<Point, int>)
    ensures forall q :: q in ToSpread(area) <==>
      q in area && area[q] != OXYGEN && exists p :: p in area && area[p] == OXYGEN && q in Neighbours(area, p)
  {
  }

  /** One minute: every cell to spread to becomes oxygen. */
  function Spread(area: map<Point, int>): (next: map<Point, int>)
    ensures next.Keys == area.Keys
  {
    map p | p in area :: if p in ToSpread(area) then OXYGEN else area[p]
  }

  /** The map after `n` minutes. */
  function Fill(area: map<Point, int>, n: nat): (filled: map<Point, int>)
    ensures filled.Keys == area.Keys
    decreases n
  {
    if n == 0 then area else Spread(Fill(area, n - 1))
  }

  /**
   * One minute keeps oxygen and walls, turns every open non-oxygen neighbour of oxygen into
   * oxygen, and changes nothing else.
   */
  lemma SpreadEffect(area: map<Point, int>)
    ensures var next := Spread(area);
      && (forall p :: p in area && area[p] == OXYGEN ==> next[p] == OXYGEN)
      && (forall p :: p in area && area[p] == WALL ==> next[p] == WALL)
      && (forall p, q :: p in area && area[p] == OXYGEN && q in Neighbours(area, p) ==> next[q] == OXYGEN)
      && (forall q :: q in area && next[q] != area[q] ==>
            next[q] == OXYGEN && exists p :: p in area && area[p] == OXYGEN && q in Neighbours(area, p))
  {
  }

  /** One minute keeps the oxygen of cell `p`. */
  lemma SpreadKeepsOxygen(area: map<Point, int>, p: Point)
    requires p in area && area[p] == OXYGEN
    ensures Spread(area)[p] == OXYGEN
  {
  }

  /** Oxygen never reverts: a cell with oxygen after `i` minutes still has it after `j >= i`. */
  lemma {:induction false} OxygenStays(area: map<Point, int>, i: nat, j: nat, p: Point)
    requires i <= j && p in area && Fill(area, i)[p] == OXYGEN
    ensures Fill(area, j)[p] == OXYGEN
    decreases j - i
  {
    if i < j {
      OxygenStays(area, i, j - 1, p);
      SpreadKeepsOxygen(Fill(area, j - 1), p);
    }
  }

  /** `toSpread.forEach(point -> fillMap.put(point, OXYGEN))`. */
  method SpreadOxygen(fillMap: map<Point, int>) returns (next: map<Point, int>)
    ensures next == Spread(fillMap)
  {
    var toSpread := ToSpread(fillMap);
    next := fillMap;
    var rest := toSpread;
    while rest != {}
      invariant rest <= toSpread
      invariant next.Keys == fillMap.Keys
      invariant forall p :: p in fillMap ==> next[p] == if p in toSpread - rest then OXYGEN else fillMap[p]
      decreases rest
    {
      var point :| point in rest;
      next := next[point := OXYGEN];
      rest := rest - {point};
    }
  }

  /** Some cell is still open without oxygen after `n` minutes. */
  predicate StillOpen(area: map<Point, int>, n: nat)
  {
    ContainsValue(Fill(area, n), MOVED)
  }

  /**
   * `fillOxygen`, for at most `fuel` minutes: the number of minutes until no open cell
   * without oxygen is left. With open cells oxygen cannot reach, Java loops for ever; here
   * the fuel runs out and the answer is `None`.
   */
  method FillOxygen(area: map<Point, int>, fuel: nat) returns (steps: Option<nat>)
    ensures steps.Some? ==> !StillOpen(area, steps.value) && forall s :: 0 <= s < steps.value ==> StillOpen(area, s)
    ensures steps.None? ==> forall s :: 0 <= s <= fuel ==> StillOpen(area, s)
  {
    var fillMap := area;
    var count: nat := 0;
    while ContainsValue(fillMap, MOVED)
      invariant count <= fuel
      invariant fillMap == Fill(area, count)
      invariant forall s :: 0 <= s < count ==> StillOpen(area, s)
      decreases fuel - count
    {
      ghost var open := StillOpen(area, count);
      assert open;
      if count == fuel {
        return None;
      }
      fillMap := SpreadOxygen(fillMap);
      count := count + 1;
      forall s | 0 <= s < count
        ensures StillOpen(area, s)
      {
        if s == count - 1 {
          assert open;
        }
      }
    }
    steps := Some(count);
  }
}
