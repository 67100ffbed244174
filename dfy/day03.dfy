/**
 * The crossed wires (`Day03`): each wire is traced from the origin as the list of grid points
 * it enters, each numbered by its path length; part 1 reports the crossing nearest the origin
 * in Manhattan distance, part 2 the crossing with the smallest sum of path lengths, taking for
 * the second wire the first time it reaches the point.
 */
module Day03 {
  import opened Wrappers
  import JavaMath

  /** A point a wire enters, with the number of steps taken to get there. */
  datatype Point = Point(x: int, y: int, pathLength: int)

  /** One part of a wire: a direction letter and a number of steps. */
  datatype Move = Move(direction: char, amount: int)

  /** `equals`: points are equal when their coordinates are, whatever their path lengths. */
  predicate SameSpot(p: Point, q: Point)
  {
    p.x == q.x && p.y == q.y
  }

  /** `getManhattanDistance`. */
  function Manhattan(p: Point): (d: nat)
    ensures d == 0 <==> p.x == 0 && p.y == 0
  {
    JavaMath.Abs(p.x) + JavaMath.Abs(p.y)
  }

  /** The unit step of a direction letter: R, L and U, and down for any other letter. */
  function DeltaX(direction: char): int
  {
    if direction == 'R' then 1 else if direction == 'L' then -1 else 0
  }

  function DeltaY(direction: char): int
  {
    if direction == 'R' || direction == 'L' then 0 else if direction == 'U' then 1 else -1
  }

  /** The point k steps from p in the direction. */
  function Shift(p: Point, direction: char, k: int): Point
  {
    Point(p.x + k * DeltaX(direction), p.y + k * DeltaY(direction), p.pathLength + k)
  }

  /** The points a move from p enters, one per step; a negative amount enters none. */
  function Segment(p: Point, move: Move): (r: seq<Point>)
    ensures |r| == if move.amount > 0 then move.amount else 0
  {
    seq(if move.amount > 0 then move.amount else 0, i => Shift(p, move.direction, i + 1))
  }

  /** Where the wire stands: its last point, or the origin before the first step. */
  function Last(points: seq<Point>): Point
  {
    if points == [] then Point(0, 0, 0) else points[|points| - 1]
  }

  /** The points of a wire, in the order `toPoints` adds them. */
  function Trace(moves: seq<Move>): seq<Point>
  {
    if moves == [] then []
    else
      var front := Trace(moves[..|moves| - 1]);
      front + Segment(Last(front), moves[|moves| - 1])
  }

  /** `toPoints`: walk the moves, adding one new point per step. */
  method ToPoints(moves: seq<Move>) returns (points: seq<Point>)
    ensures points == Trace(moves)
  {
    points := [];
    var x, y, pathLength := 0, 0, 0;
    for m := 0 to |moves|
      invariant points == Trace(moves[..m])
      invariant Point(x, y, pathLength) == Last(points)
    {
      assert moves[..m + 1][..m] == moves[..m];
      var direction, amount := moves[m].direction, moves[m].amount;
      ghost var start := Point(x, y, pathLength);
      var i := 0;
      while i < amount
        invariant 0 <= i <= if amount > 0 then amount else 0
        invariant points == Trace(moves[..m]) + Segment(start, moves[m])[..i]
        invariant Point(x, y, pathLength) == Shift(start, direction, i)
      {
        var point;
        if direction == 'R' {
          x := x + 1;
          pathLength := pathLength + 1;
          point := Point(x, y, pathLength);
        } else if direction == 'L' {
          x := x - 1;
          pathLength := pathLength + 1;
          point := Point(x, y, pathLength);
        } else if direction == 'U' {
          y := y + 1;
          pathLength := pathLength + 1;
          point := Point(x, y, pathLength);
        } else {
          y := y - 1;
          pathLength := pathLength + 1;
          point := Point(x, y, pathLength);
        }
        assert point == Shift(start, direction, i + 1);
        assert Segment(start, moves[m])[..i + 1] == Segment(start, moves[m])[..i] + [point];
        points := points + [point];
        i := i + 1;
      }
      assert Segment(start, moves[m])[..i] == Segment(start, moves[m]);
    }
    assert moves[..|moves|] == moves;
  }

  /** The steps a wire takes: the sum of the positive amounts. */
  function Steps(moves: seq<Move>): nat
  {
    if moves == [] then 0
    else Steps(moves[..|moves| - 1]) + if moves[|moves| - 1].amount > 0 then moves[|moves| - 1].amount else 0
  }

  /**
   * The wire has one point per step, the k-th point entered has path length k, and each point
   * is one unit step from the one before it (the first from the origin).
   */
  lemma {:induction false} TraceShape(moves: seq<Move>)
    ensures |Trace(moves)| == Steps(moves)
    ensures forall k :: 0 <= k < |Trace(moves)| ==> Trace(moves)[k].pathLength == k + 1
    ensures forall k :: 0 <= k < |Trace(moves)| ==> UnitStep(Last(Trace(moves)[..k]), Trace(moves)[k])
  {
    if moves != [] {
      var front := Trace(moves[..|moves| - 1]);
      TraceShape(moves[..|moves| - 1]);
      var start := Last(front);
      assert start.pathLength == |front|;
      var t := Trace(moves);
      forall k | 0 <= k < |t|
        ensures t[k].pathLength == k + 1
        ensures UnitStep(Last(t[..k]), t[k])
      {
        if k < |front| {
          assert t[..k] == front[..k];
        } else {
          var i := k - |front|;
          var direction := moves[|moves| - 1].direction;
          assert t[k] == Shift(start, direction, i + 1);
          ShiftStep(start, direction, i);
          if i == 0 {
            assert t[..k] == front;
          } else {
            assert Last(t[..k]) == Shift(start, direction, i);
          }
        }
      }
    }
  }

  /** Consecutive points of a segment are a unit step apart, and the segment leaves from its start. */
  lemma ShiftStep(p: Point, direction: char, i: nat)
    ensures Shift(p, direction, 0) == p
    ensures UnitStep(Shift(p, direction, i), Shift(p, direction, i + 1))
  {
    var dx, dy := DeltaX(direction), DeltaY(direction);
    assert (i + 1) * dx == i * dx + dx && (i + 1) * dy == i * dy + dy;
    assert JavaMath.Abs(dx) + JavaMath.Abs(dy) == 1;
  }

  /** q is one unit step from p along an axis, one step further along the path. */
  predicate UnitStep(p: Point, q: Point)
  {
    && JavaMath.Abs(q.x - p.x) + JavaMath.Abs(q.y - p.y) == 1
    && q.pathLength == p.pathLength + 1
  }

  // ---------------------------------------------------------------------------------
  // The crossings

  /** Some point of b is at p's spot. */
  predicate Reaches(b: seq<Point>, p: Point)
  {
    exists q :: q in b && SameSpot(q, p)
  }

  /** `retainAll`: the points of a, in order, whose spot b reaches. */
  function RetainAll(a: seq<Point>, b: seq<Point>): (r: seq<Point>)
    ensures forall p :: p in r <==> p in a && Reaches(b, p)
  {
    if a == [] then []
    else
      var front := RetainAll(a[..|a| - 1], b);
      var p := a[|a| - 1];
      assert a == a[..|a| - 1] + [p];
      if Reaches(b, p) then front + [p] else front
  }

  /** `indexOf`: the first position of b at p's spot. */
  function IndexOf(b: seq<Point>, p: Point): (r: Option<nat>)
    ensures r.Some? ==> r.value < |b| && SameSpot(b[r.value], p) && forall j :: 0 <= j < r.value ==> !SameSpot(b[j], p)
    ensures r.None? ==> !Reaches(b, p)
  {
    if b == [] then None
    else if SameSpot(b[0], p) then Some(0)
    else match IndexOf(b[1..], p)
      case None =>
        assert forall q :: q in b ==> q == b[0] || q in b[1..];
        None
      case Some(i) => Some(i + 1)
  }

  /** The smallest value of a sequence (`IntStream.min`). */
  function Min(s: seq<int>): (r: Option<int>)
    ensures r.None? <==> s == []
    ensures r.Some? ==> r.value in s && forall v :: v in s ==> r.value <= v
  {
    if s == [] then None
    else match Min(s[..|s| - 1])
      case None =>
        assert s == [s[0]];
        Some(s[0])
      case Some(m) =>
        assert s == s[..|s| - 1] + [s[|s| - 1]];
        Some(if s[|s| - 1] < m then s[|s| - 1] else m)
  }

  /** Part 1: the smallest Manhattan distance of a crossing, if the wires cross. */
  function Part01(a: seq<Point>, b: seq<Point>): Option<int>
  {
    var crossings := RetainAll(a, b);
    Min(seq(|crossings|, i requires 0 <= i < |crossings| => Manhattan(crossings[i]) as int))
  }

  /** The combined length of a crossing: its own path length plus the second wire's at its first visit. */
  function CombinedLength(p: Point, b: seq<Point>): int
    requires Reaches(b, p)
  {
    b[IndexOf(b, p).value].pathLength + p.pathLength
  }

  /** Part 2: the smallest combined length of a crossing, if the wires cross. */
  function Part02(a: seq<Point>, b: seq<Point>): Option<int>
  {
    var crossings := RetainAll(a, b);
    Min(seq(|crossings|, i requires 0 <= i < |crossings| => CombinedLength(crossings[i], b)))
  }

  /**
   * Part 1 finds a crossing exactly when the wires cross; its answer is the distance of some
   * crossing, and no crossing is nearer.
   */
  lemma Part01Nearest(a: seq<Point>, b: seq<Point>)
    ensures Part01(a, b).Some? <==> exists p :: p in a && Reaches(b, p)
    ensures Part01(a, b).Some? ==> exists p :: p in a && Reaches(b, p) && Part01(a, b).value == Manhattan(p)
    ensures Part01(a, b).Some? ==> forall p :: p in a && Reaches(b, p) ==> Part01(a, b).value <= Manhattan(p)
  {
    var crossings := RetainAll(a, b);
    var distances := seq(|crossings|, i requires 0 <= i < |crossings| => Manhattan(crossings[i]) as int);
    if exists p :: p in a && Reaches(b, p) {
      var p :| p in a && Reaches(b, p);
      assert p in crossings;
    }
    if Part01(a, b).Some? {
      var i :| 0 <= i < |distances| && distances[i] == Part01(a, b).value;
      assert crossings[i] in a && Reaches(b, crossings[i]);
    }
    forall p | p in a && Reaches(b, p)
      ensures Manhattan(p) as int in distances
    {
      var i :| 0 <= i < |crossings| && crossings[i] == p;
      assert distances[i] == Manhattan(p) as int;
    }
  }

  /**
   * On a traced wire the first visit of a spot is the one with the shortest path, so part 2
   * pairs each crossing with the second wire's shortest way there.
   */
  lemma FirstVisitShortest(moves: seq<Move>, p: Point)
    requires Reaches(Trace(moves), p)
    ensures forall q :: q in Trace(moves) && SameSpot(q, p) ==> CombinedLength(p, Trace(moves)) <= q.pathLength + p.pathLength
  {
    var b := Trace(moves);
    TraceShape(moves);
    var first := IndexOf(b, p).value;
    forall q | q in b && SameSpot(q, p)
      ensures b[first].pathLength <= q.pathLength
    {
      var j :| 0 <= j < |b| && b[j] == q;
      assert first <= j;
    }
  }

  /**
   * Part 2 finds a crossing exactly when the wires cross, its answer is the combined length of
   * one crossing, and no crossing has a smaller combined length.
   */
  lemma Part02Least(a: seq<Point>, b: seq<Point>)
    ensures Part02(a, b).Some? <==> exists p :: p in a && Reaches(b, p)
    ensures Part02(a, b).Some? ==> exists p :: p in a && Reaches(b, p) && Part02(a, b).value == CombinedLength(p, b)
    ensures Part02(a, b).Some? ==> forall p :: p in a && Reaches(b, p) ==> Part02(a, b).value <= CombinedLength(p, b)
  {
    var crossings := RetainAll(a, b);
    var lengths := seq(|crossings|, i requires 0 <= i < |crossings| => CombinedLength(crossings[i], b));
    if exists p :: p in a && Reaches(b, p) {
      var p :| p in a && Reaches(b, p);
      assert p in crossings;
    }
    if Part02(a, b).Some? {
      var i :| 0 <= i < |lengths| && lengths[i] == Part02(a, b).value;
      assert crossings[i] in a && Reaches(b, crossings[i]);
    }
    forall p | p in a && Reaches(b, p)
      ensures CombinedLength(p, b) in lengths
    {
      var i :| 0 <= i < |crossings| && crossings[i] == p;
      assert lengths[i] == CombinedLength(p, b);
    }
  }

  /** Against a traced second wire, no pair of visits to a spot both wires reach is shorter than part 2's answer. */
  lemma Part02Shortest(a: seq<Point>, moves: seq<Move>, b: seq<Point>)
    requires b == Trace(moves)
    ensures Part02(a, b).Some? ==>
      forall p, q :: p in a && q in b && SameSpot(q, p) ==> Part02(a, b).value <= q.pathLength + p.pathLength
  {
    Part02Least(a, b);
    forall p, q | p in a && q in b && SameSpot(q, p)
      ensures Part02(a, b).Some? ==> Part02(a, b).value <= q.pathLength + p.pathLength
    {
      assert Reaches(b, p);
      FirstVisitShortest(moves, p);
    }
  }

  lemma Example()
    ensures Trace([Move('R', 2), Move('U', 1)]) == [Point(1, 0, 1), Point(2, 0, 2), Point(2, 1, 3)]
    ensures Trace([Move('X', 1)]) == [Point(0, -1, 1)]
  {
    var moves := [Move('R', 2), Move('U', 1)];
    assert moves[..1] == [Move('R', 2)] && moves[..1][..0] == [];
    var right := Trace(moves[..1]);
    assert right == [Point(1, 0, 1), Point(2, 0, 2)] by {
      assert Trace(moves[..1][..0]) == [];
      assert right == Segment(Point(0, 0, 0), Move('R', 2));
    }
    assert Segment(Point(2, 0, 2), Move('U', 1)) == [Point(2, 1, 3)];
    assert [Move('X', 1)][..0] == [];
    assert Segment(Point(0, 0, 0), Move('X', 1)) == [Point(0, -1, 1)];
  }
}
