/**
 * The hull painting robot (`Day11.PaintRobot`): an Intcode program on the Day 9 machine whose
 * input reports the colour of the panel under the robot and whose outputs come in pairs,
 * a colour to paint and then a turn (0 left, otherwise right) followed by one step forward.
 *
 * The robot's state is a value (`Robot`) and its hooks are pure functions (`Accept`,
 * `Produce`) that plug into `Day09.RunWith`; the class `PaintRobot` updates the same state
 * in fields and is proved to follow those functions.
 */
module Day11 {
  import opened Wrappers
  import opened Intcode
  import Day09
  import JavaMath

  /** A panel position; a value, so a key stored in the map can never move with the robot. */
  datatype Point = Point(x: int, y: int)

  /** Up, right, down and left, in clockwise order. */
  const DIRECTIONS: seq<(int, int)> := [(0, 1), (1, 0), (0, -1), (-1, 0)]

  /** An index into `DIRECTIONS`. */
  type Direction = d: int | 0 <= d < 4

  /** `Point.move`. */
  function Move(p: Point, direction: (int, int)): Point
  {
    Point(p.x + direction.0, p.y + direction.1)
  }

  /** The update of `currentDirection` on a turn output, with its wrap-around at both ends. */
  function Turn(direction: Direction, value: int): (d: Direction)
    ensures d == (direction + if value == 0 then 3 else 1) % |DIRECTIONS|
  {
    var d := if value == 0 then direction - 1 else direction + 1;
    if d < 0 then |DIRECTIONS| - 1
    else if d == |DIRECTIONS| then 0
    else d
  }

  /**
   * The camera's view of the map: a panel never painted reads black (0), and painting a
   * panel changes what that panel reads to the colour painted and no other panel's.
   */
  lemma ColourOfPainted(drawMap: map<Point, int>, p: Point, value: int, q: Point)
    ensures Colour(map[], q) == 0
    ensures Colour(drawMap[p := value], q) == if q == p then value else Colour(drawMap, q)
  {
  }

  /** Turning left then right (or right then left) faces the robot the way it faced before. */
  lemma TurnBack(direction: Direction, value: int)
    ensures Turn(Turn(direction, 0), 1) == direction
    ensures value != 0 ==> Turn(Turn(direction, value), 0) == direction
  {
  }

  /** Four turns the same way face the robot the way it faced before. */
  lemma FullCircle(direction: Direction, value: int)
    ensures Turn(Turn(Turn(Turn(direction, value), value), value), value) == direction
  {
  }

  /** The hooks' state: the map of painted panels, the location, which output comes next, the heading. */
  datatype Robot = Robot(drawMap: map<Point, int>, location: Point, expectsDirection: bool, currentDirection: Direction)

  /** A fresh robot at the origin facing up, over the caller's map. */
  function NewRobot(drawMap: map<Point, int>): Robot
  {
    Robot(drawMap, Point(0, 0), false, 0)
  }

  /** `getOrDefault`: the colour of panel `p`, 0 (black) when it was never painted. */
  function Colour(drawMap: map<Point, int>, p: Point): (c: int)
    ensures p in drawMap ==> c == drawMap[p]
    ensures p !in drawMap ==> c == 0
  {
    if p in drawMap then drawMap[p] else 0
  }

  /** `acceptLong`: the colour under the robot; nothing changes. */
  function Accept(r: Robot): (a: Accepted<Robot>)
    ensures a.Accepted? && a.port == r && a.value == Colour(r.drawMap, r.location)
  {
    Accepted(Colour(r.drawMap, r.location), r)
  }

  /**
   * `produceLong`: the first output of a pair paints the panel under the robot, the second
   * turns the robot and moves it one step in its new heading.
   */
  function Produce(r: Robot, value: int): (d: Delivered<Robot>)
    ensures d.Delivered? && !d.halt
    ensures d.port.expectsDirection == !r.expectsDirection
  {
    if r.expectsDirection then
      var direction := Turn(r.currentDirection, value);
      Delivered(r.(currentDirection := direction, location := Move(r.location, DIRECTIONS[direction]), expectsDirection := false), false)
    else
      Delivered(r.(drawMap := r.drawMap[r.location := value], expectsDirection := true), false)
  }

  /**
   * A paint output records the colour at the current location and neither moves nor turns
   * the robot; no other panel changes.
   */
  lemma PaintStaysPut(r: Robot, value: int)
    requires !r.expectsDirection
    ensures var r' := Produce(r, value).port;
      && r'.location == r.location && r'.currentDirection == r.currentDirection
      && Colour(r'.drawMap, r.location) == value
      && r'.drawMap.Keys == r.drawMap.Keys + {r.location}
      && forall p :: p != r.location ==> Colour(r'.drawMap, p) == Colour(r.drawMap, p)
  {
  }

  /**
   * A turn output leaves the map alone, turns left on 0 and right otherwise, and moves the
   * robot exactly one unit, along the new heading.
   */
  lemma TurnMovesOneStep(r: Robot, value: int)
    requires r.expectsDirection
    ensures var r' := Produce(r, value).port;
      && r'.drawMap == r.drawMap
      && r'.currentDirection == (r.currentDirection + if value == 0 then 3 else 1) % 4
      && r'.location == Move(r.location, DIRECTIONS[r'.currentDirection])
      && JavaMath.Abs(r'.location.x - r.location.x) + JavaMath.Abs(r'.location.y - r.location.y) == 1
  {
  }

  /**
   * What the robot paints it reads back: after a paint output, the next input is the colour
   * just painted, and reading it changes nothing.
   */
  lemma CameraReadsPaint(r: Robot, value: int)
    requires !r.expectsDirection
    ensures var r' := Produce(r, value).port;
      Accept(r') == Accepted(value, r')
  {
  }

  /** The panels painted at the start of a run are still painted at its end: the map only grows. */
  lemma PaintedOnlyGrows(m: Day09.Machine, r: Robot, fuel: nat)
    ensures r.drawMap.Keys <= Day09.RunWith(m, r, Accept, Produce, fuel).port.drawMap.Keys
  {
    Day09.RunPreserves(m, r, Accept, Produce, fuel, (p: Robot) => r.drawMap.Keys <= p.drawMap.Keys);
  }

  /** The run of `part01` (an empty map) or `part02` (the origin painted white). */
  function Paint(program: seq<int>, drawMap: map<Point, int>, fuel: nat): Day09.Run<Robot>
    requires |program| <= Day09.MEMORY_SIZE
  {
    Day09.RunWith(Day09.Load(program), NewRobot(drawMap), Accept, Produce, fuel)
  }

  /**
   * `part01`: the number of panels painted at least once, printed once `execute` returns; a
   * run that raises ends `part01` with the exception and nothing is printed.
   */
  function Part01(program: seq<int>, fuel: nat): Option<nat>
    requires |program| <= Day09.MEMORY_SIZE
  {
    var run := Paint(program, map[], fuel);
    if run.stop == Halted || run.stop == Failed then Some(|run.port.drawMap|) else None
  }

  /** `part01` prints a count exactly when the machine stopped on its `halted` or `failed` flag. */
  lemma Part01Answers(program: seq<int>, fuel: nat)
    requires |program| <= Day09.MEMORY_SIZE
    ensures var run := Paint(program, map[], fuel);
      Part01(program, fuel).Some? <==> run.machine.halted || run.machine.failed
  {
    Day09.RunEndsOnFlags(Day09.Load(program), NewRobot(map[]), Accept, Produce, fuel);
  }

  /** A program that paints, turns and then reads with the invalid mode 3 raises: `part01` prints nothing. */
  lemma ExampleRaisingRun()
    ensures Part01([104, 1, 104, 0, 304, 0, 99], 3) == None
  {
    var m := Day09.Load([104, 1, 104, 0, 304, 0, 99]);
    var r0 := NewRobot(map[]);
    assert Day09.Step(m).event == Produced(1);
    var m1 := Day09.Step(m).next;
    var r1 := r0.(drawMap := map[Point(0, 0) := 1], expectsDirection := true);
    assert Day09.Advance(m, r0, Accept, Produce) == Day09.Next(m1, r1);
    assert Day09.Step(m1).event == Produced(0);
    var m2 := Day09.Step(m1).next;
    var r2 := Produce(r1, 0).port;
    assert Day09.Advance(m1, r1, Accept, Produce) == Day09.Next(m2, r2);
    assert Day09.Step(m2).event.Trapped?;
  }

  /** The map `part02` starts from: the origin painted white. */
  const PART02_MAP: map<Point, int> := map[Point(0, 0) := 1]

  /** In `part02` the starting panel stays painted (possibly in another colour). */
  lemma Part02KeepsOrigin(program: seq<int>, fuel: nat)
    requires |program| <= Day09.MEMORY_SIZE
    ensures Point(0, 0) in Paint(program, PART02_MAP, fuel).port.drawMap
  {
    PaintedOnlyGrows(Day09.Load(program), NewRobot(PART02_MAP), fuel);
  }

  /** A program that reads the panel, paints it white, turns right and halts. */
  lemma ExampleFirstPair()
    ensures var r := Paint([3, 100, 104, 1, 104, 1, 99], map[], 4).port;
      r.drawMap == map[Point(0, 0) := 1] && r.location == Point(1, 0) && r.currentDirection == 1
  {
    var m := Day09.Load([3, 100, 104, 1, 104, 1, 99]);
    var r0 := NewRobot(map[]);
    var m1 := Day09.Feed(m, 100, 0).next;
    assert Day09.Step(m).event == AwaitingInput(100);
    assert Day09.Advance(m, r0, Accept, Produce) == Day09.Next(m1, r0);
    var r1 := r0.(drawMap := map[Point(0, 0) := 1], expectsDirection := true);
    assert Day09.Step(m1).event == Produced(1);
    var m2 := Day09.Step(m1).next;
    assert Day09.Advance(m1, r0, Accept, Produce) == Day09.Next(m2, r1);
    var r2 := r1.(currentDirection := 1, location := Point(1, 0), expectsDirection := false);
    assert Day09.Step(m2).event == Produced(1);
    var m3 := Day09.Step(m2).next;
    assert Day09.Advance(m2, r1, Accept, Produce) == Day09.Next(m3, r2);
    assert Day09.Step(m3).next.halted;
  }

  // ---------------------------------------------------------------------------------
  // The robot object

  class PaintRobot {
    const vm: Day09.IntcodeExecutor
    var drawMap: map<Point, int>
    var location: Point
    var expectsDirection: bool
    var currentDirection: Direction

    /** The hooks' state held in the fields. */
    function Port(): Robot
      reads this
    {
      Robot(drawMap, location, expectsDirection, currentDirection)
    }

    constructor (drawMap: map<Point, int>, numbers: seq<int>)
      requires |numbers| <= Day09.MEMORY_SIZE
      ensures vm.State() == Day09.Load(numbers) && Port() == NewRobot(drawMap)
      ensures fresh(vm) && fresh(vm.numbers)
    {
      vm := new Day09.IntcodeExecutor(numbers);
      this.drawMap := drawMap;
      location := Point(0, 0);
      expectsDirection := false;
      currentDirection := 0;
    }

    method AcceptLong() returns (value: int)
      ensures Accept(Port()) == Accepted(value, Port())
    {
      value := if location in drawMap then drawMap[location] else 0;
    }

    method ProduceLong(value: int)
      modifies this
      ensures Produce(old(Port()), value) == Delivered(Port(), false)
    {
      if expectsDirection {
        var direction := currentDirection;
        if value == 0 {
          direction := direction - 1;
        } else {
          direction := direction + 1;
        }
        if direction < 0 {
          direction := |DIRECTIONS| - 1;
        }
        if direction == |DIRECTIONS| {
          direction := 0;
        }
        currentDirection := direction;
        location := Move(location, DIRECTIONS[currentDirection]);
        expectsDirection := false;
      } else {
        drawMap := drawMap[location := value];
        expectsDirection := true;
      }
    }

    /** One pass of `execute`'s loop with the robot's hooks. */
    method Pass(ghost fuel: nat) returns (ended: Option<Stop>)
      requires vm.State().Running() && fuel > 0
      modifies this, vm, vm.numbers
      ensures ended.Some? ==>
        vm.State() == old(vm.State()) && Day09.RunWith(old(vm.State()), old(Port()), Accept, Produce, fuel) == Day09.Run(vm.State(), Port(), ended.value)
      ensures ended.None? ==> Day09.RunWith(old(vm.State()), old(Port()), Accept, Produce, fuel) == Day09.RunWith(vm.State(), Port(), Accept, Produce, fuel - 1)
    {
      var e := vm.ProcessInstruction();
      ended := None;
      match e {
        case Continued =>
        case Trapped(t) =>
          ended := Some(Raised(t));
        case Produced(v) =>
          ProduceLong(v);
        case AwaitingInput(target) =>
          var value := AcceptLong();
          var fed := vm.StoreInput(target, value);
          if fed.Trapped? {
            ended := Some(Raised(fed.trap));
          }
      }
    }

    /** `execute` with the robot's hooks, for at most `fuel` passes. */
    method Execute(fuel: nat) returns (stop: Stop)
      modifies this, vm, vm.numbers
      ensures Day09.RunWith(old(vm.State()), old(Port()), Accept, Produce, fuel) == Day09.Run(vm.State(), Port(), stop)
    {
      var left := fuel;
      ghost var goal := Day09.RunWith(vm.State(), Port(), Accept, Produce, fuel);
      while true
        invariant Day09.RunWith(vm.State(), Port(), Accept, Produce, left) == goal
        decreases left
      {
        if vm.halted { stop := Halted; break; }
        if vm.failed { stop := Failed; break; }
        if left == 0 { stop := OutOfFuel; break; }
        var ended := Pass(left);
        if ended.Some? {
          stop := ended.value;
          break;
        }
        left := left - 1;
      }
    }
  }

  /** `part01` on the objects: run a fresh robot over an empty map and count the painted panels. */
  method RunPart01(instructions: seq<int>, fuel: nat) returns (painted: Option<nat>)
    requires |instructions| <= Day09.MEMORY_SIZE
    ensures painted == Part01(instructions, fuel)
  {
    var program := new PaintRobot(map[], instructions);
    var stop := program.Execute(fuel);
    if stop != Halted && stop != Failed {
      return None;
    }
    painted := Some(|program.drawMap|);
  }
}
