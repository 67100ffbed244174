/**
 * The N-body problem of Jupiter's moons (`Day12`). Each tick first applies gravity: for every
 * pair of moons and every axis, the moon with the lower coordinate gains 1 speed on that axis
 * and the other loses 1. Then every moon moves by its speed. Part 1 reports the total energy
 * after 1000 ticks; part 2 finds, axis by axis, the first tick whose (position, speed) state
 * of that axis repeats an earlier one, and reports the least common multiple of the three.
 *
 * `Moon` keeps Java's two `Vec3` objects as two `Vec` values: each `Vec3` belongs to exactly
 * one moon and is never shared, so updating a coordinate of it in place is reassigning the
 * moon's field to a vector with that coordinate changed. The value functions `Gravity`,
 * `Velocity` and `Simulate` say what the methods do to the list of moons.
 */
module Day12 {
  import opened Wrappers
  import JavaMath
  import Euclid

  /** `Vec3`. */
  datatype Vec = Vec(x: int, y: int, z: int)

  const ZERO := Vec(0, 0, 0)

  function Add(a: Vec, b: Vec): Vec
  {
    Vec(a.x + b.x, a.y + b.y, a.z + b.z)
  }

  datatype Axis = X | Y | Z

  function Coord(v: Vec, axis: Axis): int
  {
    match axis
    case X => v.x
    case Y => v.y
    case Z => v.z
  }

  /** A moon's state: its position and its speed. */
  datatype Body = Body(position: Vec, speed: Vec)

  // ---------------------------------------------------------------------------------
  // Gravity on one axis

  /** The coordinates of all moons on one axis, in list order. */
  function Positions(s: seq<Body>, axis: Axis): (ps: seq<int>)
    ensures |ps| == |s|
  {
    seq(|s|, k requires 0 <= k < |s| => Coord(s[k].position, axis))
  }

  /** The speed change a moon at p gets from one other moon at q: towards it, or none when level. */
  function Attraction(p: int, q: int): int
  {
    JavaMath.Sign(q - p)
  }

  /** The pull on moon k from the moons before M. */
  function PullUpTo(ps: seq<int>, k: nat, m: nat): int
    requires k < |ps| && m <= |ps|
  {
    if m == 0 then 0 else PullUpTo(ps, k, m - 1) + Attraction(ps[k], ps[m - 1])
  }

  /**
   * The speed change of moon k in one gravity step on one axis: one unit towards every other
   * moon that is not level with it (the moon itself is level with itself).
   */
  function Pull(ps: seq<int>, k: nat): int
    requires k < |ps|
  {
    PullUpTo(ps, k, |ps|)
  }

  /** `gravityStep`'s loops have taken the pair (a, b), a < b: a row before i, or row i before column j. */
  predicate Taken(a: int, b: int, i: int, j: int)
  {
    a < i || (a == i && b < j)
  }

  /** The pair of moons k and m, in either order, has been taken. */
  predicate Done(k: int, m: int, i: int, j: int)
  {
    (k < m && Taken(k, m, i, j)) || (m < k && Taken(m, k, i, j))
  }

  /** The part of the pull on moon k, from the moons before M, that the pairs taken before (i, j) give. */
  function Partial(ps: seq<int>, k: nat, i: int, j: int, m: nat): int
    requires k < |ps| && m <= |ps|
  {
    if m == 0 then 0
    else Partial(ps, k, i, j, m - 1) + (if Done(k, m - 1, i, j) then Attraction(ps[k], ps[m - 1]) else 0)
  }

  /** Two loop positions that have taken the same pairs give the same partial pull. */
  lemma {:induction false} PartialSame(ps: seq<int>, k: nat, i: int, j: int, i': int, j': int, m: nat)
    requires k < |ps| && m <= |ps|
    requires forall n :: 0 <= n < m ==> Done(k, n, i, j) == Done(k, n, i', j')
    ensures Partial(ps, k, i, j, m) == Partial(ps, k, i', j', m)
  {
    if m > 0 {
      PartialSame(ps, k, i, j, i', j', m - 1);
    }
  }

  /** Before any pair is taken, nothing has changed. */
  lemma {:induction false} PartialNone(ps: seq<int>, k: nat, m: nat)
    requires k < |ps| && m <= |ps|
    ensures Partial(ps, k, 0, 0, m) == 0
  {
    if m > 0 {
      PartialNone(ps, k, m - 1);
    }
  }

  /** Once every pair is taken, the partial pull is the whole pull. */
  lemma {:induction false} PartialAll(ps: seq<int>, k: nat, m: nat)
    requires k < |ps| && m <= |ps|
    ensures Partial(ps, k, |ps|, 0, m) == PullUpTo(ps, k, m)
  {
    if m > 0 {
      PartialAll(ps, k, m - 1);
    }
  }

  /**
   * Taking the pair (i, j) adds the attraction of j to moon i and that of i to moon j, and
   * changes no other moon.
   */
  lemma {:induction false} PartialStep(ps: seq<int>, k: nat, i: nat, j: nat, m: nat)
    requires k < |ps| && m <= |ps| && i < j < |ps|
    ensures Partial(ps, k, i, j + 1, m) == Partial(ps, k, i, j, m)
      + (if k == i && j < m then Attraction(ps[i], ps[j]) else 0)
      + (if k == j && i < m then Attraction(ps[j], ps[i]) else 0)
  {
    if m > 0 {
      PartialStep(ps, k, i, j, m - 1);
    }
  }

  /** The end of row i is the start of row i + 1; row i starts at column i + 1. */
  lemma PartialRows(ps: seq<int>, k: nat, i: nat)
    requires k < |ps| && i < |ps|
    ensures Partial(ps, k, i, |ps|, |ps|) == Partial(ps, k, i + 1, 0, |ps|)
    ensures Partial(ps, k, i, i + 1, |ps|) == Partial(ps, k, i, 0, |ps|)
  {
    PartialSame(ps, k, i, |ps|, i + 1, 0, |ps|);
    PartialSame(ps, k, i, i + 1, i, 0, |ps|);
  }

  // ---------------------------------------------------------------------------------
  // Gravity conserves momentum

  /** The attraction is antisymmetric: what p gets from q, q gets back with the opposite sign. */
  lemma AttractionOpposite(p: int, q: int)
    ensures Attraction(q, p) == -Attraction(p, q)
  {
  }

  /** The pull on moon m from the moons before K, seen from the other side: `sum k < K, Attraction(ps[k], ps[m])`. */
  function PushUpTo(ps: seq<int>, m: nat, kk: nat): int
    requires m < |ps| && kk <= |ps|
  {
    if kk == 0 then 0 else PushUpTo(ps, m, kk - 1) + Attraction(ps[kk - 1], ps[m])
  }

  /** The sum, over moons k before K, of the pull on k from the moons before M. */
  function PullTotal(ps: seq<int>, kk: nat, m: nat): int
    requires kk <= |ps| && m <= |ps|
  {
    if kk == 0 then 0 else PullTotal(ps, kk - 1, m) + PullUpTo(ps, kk - 1, m)
  }

  /** A row of pulls is the opposite of the matching column of pushes. */
  lemma {:induction false} PullPush(ps: seq<int>, n: nat, m: nat)
    requires n < |ps| && m <= |ps|
    ensures PullUpTo(ps, n, m) == -PushUpTo(ps, n, m)
  {
    if m > 0 {
      PullPush(ps, n, m - 1);
      AttractionOpposite(ps[n], ps[m - 1]);
    }
  }

  /** Extending every row by moon M adds the column of M. */
  lemma {:induction false} PullTotalColumn(ps: seq<int>, kk: nat, m: nat)
    requires kk <= |ps| && m < |ps|
    ensures PullTotal(ps, kk, m + 1) == PullTotal(ps, kk, m) + PushUpTo(ps, m, kk)
  {
    if kk > 0 {
      PullTotalColumn(ps, kk - 1, m);
    }
  }

  /** Among the first n moons, every pull is matched by an opposite one: the pulls add up to 0. */
  lemma {:induction false} PullTotalZero(ps: seq<int>, n: nat)
    requires n <= |ps|
    ensures PullTotal(ps, n, n) == 0
  {
    if n > 0 {
      var m := n - 1;
      PullTotalZero(ps, m);
      PullTotalColumn(ps, n, m);
      assert PullTotal(ps, n, m) == PullTotal(ps, m, m) + PullUpTo(ps, m, m);
      PullPush(ps, m, m);
      assert PushUpTo(ps, m, n) == PushUpTo(ps, m, m) + Attraction(ps[m], ps[m]);
    }
  }

  // ---------------------------------------------------------------------------------
  // One tick on values

  /** The pull on moon k on all three axes. */
  function PullVec(s: seq<Body>, k: nat): Vec
    requires k < |s|
  {
    Vec(Pull(Positions(s, X), k), Pull(Positions(s, Y), k), Pull(Positions(s, Z), k))
  }

  /** `gravityStep` on values: each moon's speed changes by its pull; positions stay. */
  function Gravity(s: seq<Body>): (r: seq<Body>)
    ensures |r| == |s|
  {
    seq(|s|, k requires 0 <= k < |s| => Body(s[k].position, Add(s[k].speed, PullVec(s, k))))
  }

  /** `velocityStep` on values: each moon moves by its speed; speeds stay. */
  function Velocity(s: seq<Body>): (r: seq<Body>)
    ensures |r| == |s|
  {
    seq(|s|, k requires 0 <= k < |s| => Body(Add(s[k].position, s[k].speed), s[k].speed))
  }

  /** Moon k after one tick: its speed gains its pull, then it moves by the new speed. */
  function Moved(s: seq<Body>, k: nat): Body
    requires k < |s|
  {
    var speed := Add(s[k].speed, PullVec(s, k));
    Body(Add(s[k].position, speed), speed)
  }

  /** The first n moons after one tick. */
  function Stepped(s: seq<Body>, n: nat): (r: seq<Body>)
    requires n <= |s|
    ensures |r| == n
  {
    if n == 0 then [] else Stepped(s, n - 1) + [Moved(s, n - 1)]
  }

  /** One tick: gravity, then velocity, moon by moon. */
  function Step(s: seq<Body>): (r: seq<Body>)
    ensures |r| == |s|
  {
    Stepped(s, |s|)
  }

  lemma {:induction false} SteppedAt(s: seq<Body>, n: nat, k: nat)
    requires k < n <= |s|
    ensures Stepped(s, n)[k] == Moved(s, k)
  {
    if k < n - 1 {
      SteppedAt(s, n - 1, k);
    }
  }

  /** A tick is `gravityStep` followed by `velocityStep`. */
  lemma StepIsTick(s: seq<Body>)
    ensures Step(s) == Velocity(Gravity(s))
  {
    forall k | 0 <= k < |s|
      ensures Step(s)[k] == Velocity(Gravity(s))[k]
    {
      SteppedAt(s, |s|, k);
    }
  }

  /** x after t applications of f. */
  function Iterate<T>(f: T -> T, x: T, t: nat): T
  {
    if t == 0 then x else f(Iterate(f, x, t - 1))
  }

  /** A property that every application of f keeps holds after any number of them. */
  lemma {:induction false} IterateInvariant<T>(f: T -> T, inv: T -> bool, x: T, t: nat)
    requires inv(x) && forall a :: inv(a) ==> inv(f(a))
    ensures inv(Iterate(f, x, t))
  {
    if t > 0 {
      IterateInvariant(f, inv, x, t - 1);
    }
  }

  /** u applications and then m more are u + m applications. */
  lemma {:induction false} IterateAdd<T>(f: T -> T, x: T, u: nat, m: nat)
    ensures Iterate(f, Iterate(f, x, u), m) == Iterate(f, x, u + m)
  {
    if m > 0 {
      IterateAdd(f, x, u, m - 1);
    }
  }

  /** The state after t ticks. */
  function Simulate(s: seq<Body>, t: nat): seq<Body>
  {
    Iterate(Step, s, t)
  }

  /** The state after t + 1 ticks is one tick after the state after t. */
  lemma SimulateNext(s: seq<Body>, t: nat)
    ensures Simulate(s, t + 1) == Step(Simulate(s, t))
  {
  }

  /** No tick adds or removes a moon. */
  lemma SimulateLength(s: seq<Body>, t: nat)
    ensures |Simulate(s, t)| == |s|
  {
    var n := |s|;
    forall a: seq<Body> | |a| == n
      ensures |Step(a)| == n
    {
    }
    IterateInvariant(Step, (a: seq<Body>) => |a| == n, s, t);
  }

  /** The sum of the speeds of the moons before K on one axis. */
  function Momentum(s: seq<Body>, axis: Axis, kk: nat): int
    requires kk <= |s|
  {
    if kk == 0 then 0 else Momentum(s, axis, kk - 1) + Coord(s[kk - 1].speed, axis)
  }

  /** The momentum after gravity is the momentum before plus the pulls. */
  lemma {:induction false} GravityMomentum(s: seq<Body>, axis: Axis, kk: nat)
    requires kk <= |s|
    ensures Momentum(Gravity(s), axis, kk) == Momentum(s, axis, kk) + PullTotal(Positions(s, axis), kk, |s|)
  {
    if kk > 0 {
      GravityMomentum(s, axis, kk - 1);
      var k := kk - 1;
      assert Coord(Gravity(s)[k].speed, axis) == Coord(s[k].speed, axis) + Pull(Positions(s, axis), k) by {
        match axis
        case X =>
        case Y =>
        case Z =>
      }
    }
  }

  /** Gravity leaves the sum of the speeds on every axis unchanged. */
  lemma GravityConserves(s: seq<Body>, axis: Axis)
    ensures Momentum(Gravity(s), axis, |s|) == Momentum(s, axis, |s|)
  {
    GravityMomentum(s, axis, |s|);
    PullTotalZero(Positions(s, axis), |s|);
  }

  /** Moving leaves speeds alone, so a whole tick conserves the sum of the speeds too. */
  lemma StepConserves(s: seq<Body>, axis: Axis)
    ensures Momentum(Step(s), axis, |s|) == Momentum(s, axis, |s|)
  {
    StepIsTick(s);
    GravityConserves(s, axis);
    SameSpeedsMomentum(Gravity(s), Velocity(Gravity(s)), axis, |s|);
  }

  /** No number of ticks changes the sum of the speeds on an axis. */
  lemma SimulateConserves(s: seq<Body>, axis: Axis, t: nat)
    ensures |Simulate(s, t)| == |s| && Momentum(Simulate(s, t), axis, |s|) == Momentum(s, axis, |s|)
  {
    var n, total := |s|, Momentum(s, axis, |s|);
    forall a: seq<Body> | |a| == n && Momentum(a, axis, n) == total
      ensures |Step(a)| == n && Momentum(Step(a), axis, n) == total
    {
      StepConserves(a, axis);
    }
    IterateInvariant(Step, (a: seq<Body>) => |a| == n && Momentum(a, axis, n) == total, s, t);
  }

  lemma {:induction false} SameSpeedsMomentum(s: seq<Body>, r: seq<Body>, axis: Axis, kk: nat)
    requires |r| == |s| && kk <= |s|
    requires forall k :: 0 <= k < |s| ==> r[k].speed == s[k].speed
    ensures Momentum(r, axis, kk) == Momentum(s, axis, kk)
  {
    if kk > 0 {
      SameSpeedsMomentum(s, r, axis, kk - 1);
    }
  }

  // ---------------------------------------------------------------------------------
  // The axes are independent

  /** The moons agree on one axis: the same positions and speeds on it. */
  predicate SameOnAxis(s: seq<Body>, r: seq<Body>, axis: Axis)
  {
    |s| == |r| &&
    forall k :: 0 <= k < |s| ==>
      Coord(s[k].position, axis) == Coord(r[k].position, axis) && Coord(s[k].speed, axis) == Coord(r[k].speed, axis)
  }

  /** A tick's update of one axis reads only that axis. */
  lemma StepOnAxis(s: seq<Body>, r: seq<Body>, axis: Axis)
    requires SameOnAxis(s, r, axis)
    ensures SameOnAxis(Step(s), Step(r), axis)
  {
    StepIsTick(s);
    StepIsTick(r);
    assert Positions(s, axis) == Positions(r, axis);
    forall k | 0 <= k < |s|
      ensures Coord(Step(s)[k].position, axis) == Coord(Step(r)[k].position, axis)
      ensures Coord(Step(s)[k].speed, axis) == Coord(Step(r)[k].speed, axis)
    {
      match axis
      case X =>
      case Y =>
      case Z =>
    }
  }

  // ---------------------------------------------------------------------------------
  // Energy

  function VecEnergy(v: Vec): nat
  {
    JavaMath.Abs(v.x) + JavaMath.Abs(v.y) + JavaMath.Abs(v.z)
  }

  /** `Moon.getEnergy`: potential energy times kinetic energy. */
  function Energy(b: Body): nat
  {
    var potential, kinetic := VecEnergy(b.position), VecEnergy(b.speed);
    JavaMath.MulMonotone(potential, 0, kinetic);
    potential * kinetic
  }

  /** A vector has no energy exactly when it is zero. */
  lemma VecEnergyZero(v: Vec)
    ensures VecEnergy(v) == 0 <==> v == ZERO
  {
  }

  lemma ProductZero(p: nat, v: nat)
    ensures p * v == 0 <==> p == 0 || v == 0
  {
    if p > 0 && v > 0 {
      JavaMath.MulAtLeast(p, v);
    }
  }

  /** A moon has no energy exactly when it is at the origin or standing still. */
  lemma EnergyZero(b: Body)
    ensures Energy(b) == 0 <==> b.position == ZERO || b.speed == ZERO
  {
    VecEnergyZero(b.position);
    VecEnergyZero(b.speed);
    ProductZero(VecEnergy(b.position), VecEnergy(b.speed));
  }

  /** The total energy of the moons before K (`mapToInt(Moon::getEnergy).sum()`). */
  function TotalEnergy(s: seq<Body>, kk: nat): nat
    requires kk <= |s|
  {
    if kk == 0 then 0 else TotalEnergy(s, kk - 1) + Energy(s[kk - 1])
  }

  // ---------------------------------------------------------------------------------
  // Part 2 on values

  /**
   * The state of one axis as `part02` lists it: position and speed of each moon, in list
   * order.
   */
  function AxisState(s: seq<Body>, axis: Axis): (r: seq<int>)
    ensures |r| == 2 * |s|
  {
    if s == [] then []
    else AxisState(s[..|s| - 1], axis) + [Coord(s[|s| - 1].position, axis), Coord(s[|s| - 1].speed, axis)]
  }

  /** Entry 2k of the list is moon k's position, entry 2k + 1 its speed. */
  lemma {:induction false} AxisStateAt(s: seq<Body>, axis: Axis, k: nat)
    requires k < |s|
    ensures AxisState(s, axis)[2 * k] == Coord(s[k].position, axis)
    ensures AxisState(s, axis)[2 * k + 1] == Coord(s[k].speed, axis)
  {
    if k < |s| - 1 {
      AxisStateAt(s[..|s| - 1], axis, k);
    }
  }

  /** Two equally long states have the same list for an axis exactly when they agree on it. */
  lemma AxisStateSame(s: seq<Body>, r: seq<Body>, axis: Axis)
    requires |s| == |r|
    ensures AxisState(s, axis) == AxisState(r, axis) <==> SameOnAxis(s, r, axis)
  {
    if AxisState(s, axis) == AxisState(r, axis) {
      AxisStateSameOnly(s, r, axis);
    }
    if SameOnAxis(s, r, axis) {
      AxisStateSameIf(s, r, axis);
    }
  }

  lemma AxisStateSameOnly(s: seq<Body>, r: seq<Body>, axis: Axis)
    requires |s| == |r| && AxisState(s, axis) == AxisState(r, axis)
    ensures SameOnAxis(s, r, axis)
  {
    forall k | 0 <= k < |s|
      ensures Coord(s[k].position, axis) == Coord(r[k].position, axis) && Coord(s[k].speed, axis) == Coord(r[k].speed, axis)
    {
      AxisStateAt(s, axis, k);
      AxisStateAt(r, axis, k);
    }
  }

  lemma AxisStateSameIf(s: seq<Body>, r: seq<Body>, axis: Axis)
    requires SameOnAxis(s, r, axis)
    ensures AxisState(s, axis) == AxisState(r, axis)
  {
    forall i | 0 <= i < 2 * |s|
      ensures AxisState(s, axis)[i] == AxisState(r, axis)[i]
    {
      AxisStateAt(s, axis, i / 2);
      AxisStateAt(r, axis, i / 2);
    }
  }

  /** The axis states seen at the ticks before t (`positionsX` and the others). */
  function History(s: seq<Body>, axis: Axis, t: nat): set<seq<int>>
  {
    if t == 0 then {} else History(s, axis, t - 1) + {AxisState(Simulate(s, t - 1), axis)}
  }

  /** A list is in the history exactly when the axis had it at some tick before t. */
  lemma {:induction false} HistoryHas(s: seq<Body>, axis: Axis, t: nat, state: seq<int>)
    ensures state in History(s, axis, t) <==> exists u :: 0 <= u < t && AxisState(Simulate(s, u), axis) == state
  {
    if t > 0 {
      HistoryHas(s, axis, t - 1, state);
      var last := AxisState(Simulate(s, t - 1), axis);
      assert History(s, axis, t) == History(s, axis, t - 1) + {last};
      if state == last {
        assert 0 <= t - 1 < t && AxisState(Simulate(s, t - 1), axis) == state;
      } else if exists u :: 0 <= u < t && AxisState(Simulate(s, u), axis) == state {
        var u :| 0 <= u < t && AxisState(Simulate(s, u), axis) == state;
        assert u < t - 1;
      }
    }
  }

  /** The axis state at tick t is one seen before. */
  predicate Repeats(s: seq<Body>, axis: Axis, t: nat)
  {
    AxisState(Simulate(s, t), axis) in History(s, axis, t)
  }

  /** t is the first tick whose state of the axis repeats an earlier one. */
  predicate FirstRepeat(s: seq<Body>, axis: Axis, t: nat)
  {
    Repeats(s, axis, t) && forall u :: 0 <= u < t ==> !Repeats(s, axis, u)
  }

  /** The tick `part02` has recorded for an axis after looking at the ticks before t, 0 for none yet. */
  function Recorded(s: seq<Body>, axis: Axis, t: nat): nat
  {
    if t == 0 then 0
    else
      var found := Recorded(s, axis, t - 1);
      if found == 0 && Repeats(s, axis, t - 1) then t - 1 else found
  }

  /** The recorded tick is the first repeat among the ticks looked at, and 0 when there is none. */
  lemma {:induction false} RecordedFirst(s: seq<Body>, axis: Axis, t: nat)
    ensures Recorded(s, axis, t) != 0 ==> Recorded(s, axis, t) < t && FirstRepeat(s, axis, Recorded(s, axis, t))
    ensures Recorded(s, axis, t) == 0 ==> forall u :: 0 <= u < t ==> !Repeats(s, axis, u)
  {
    if t > 0 {
      RecordedFirst(s, axis, t - 1);
      assert !Repeats(s, axis, 0) by {
        assert History(s, axis, 0) == {};
      }
      RecordedStep(s, axis, t);
    }
  }

  /** Looking at tick t - 1 keeps the recorded tick the first repeat. */
  lemma RecordedStep(s: seq<Body>, axis: Axis, t: nat)
    requires t > 0 && !Repeats(s, axis, 0)
    requires Recorded(s, axis, t - 1) != 0 ==> Recorded(s, axis, t - 1) < t - 1 && FirstRepeat(s, axis, Recorded(s, axis, t - 1))
    requires Recorded(s, axis, t - 1) == 0 ==> forall u :: 0 <= u < t - 1 ==> !Repeats(s, axis, u)
    ensures Recorded(s, axis, t) != 0 ==> Recorded(s, axis, t) < t && FirstRepeat(s, axis, Recorded(s, axis, t))
    ensures Recorded(s, axis, t) == 0 ==> forall u :: 0 <= u < t ==> !Repeats(s, axis, u)
  {
    var found := Recorded(s, axis, t - 1);
    if found == 0 && Repeats(s, axis, t - 1) {
      assert Recorded(s, axis, t) == t - 1;
    } else {
      assert Recorded(s, axis, t) == found;
    }
  }

  /**
   * Once an axis repeats, it goes on repeating: if its state at tick u comes back at tick t,
   * then the state at u + m comes back at t + m for every m, so each axis is periodic from
   * the first repeat on.
   */
  lemma RepeatPersists(s: seq<Body>, axis: Axis, u: nat, t: nat, m: nat)
    requires AxisState(Simulate(s, u), axis) == AxisState(Simulate(s, t), axis)
    ensures AxisState(Simulate(s, u + m), axis) == AxisState(Simulate(s, t + m), axis)
  {
    SimulateOnAxis(Simulate(s, u), Simulate(s, t), axis, m);
    IterateAdd(Step, s, u, m);
    IterateAdd(Step, s, t, m);
  }

  /** Equal axis states stay equal after a tick: a tick's update of an axis reads only that axis. */
  lemma StepRepeats(a: seq<Body>, b: seq<Body>, axis: Axis)
    requires AxisState(a, axis) == AxisState(b, axis)
    ensures AxisState(Step(a), axis) == AxisState(Step(b), axis)
  {
    assert |a| == |b| by {
      assert |AxisState(a, axis)| == 2 * |a| && |AxisState(b, axis)| == 2 * |b|;
    }
    AxisStateSame(a, b, axis);
    StepOnAxis(a, b, axis);
    AxisStateSame(Step(a), Step(b), axis);
  }

  /** So states with the same list for an axis keep the same list for it after any number of ticks. */
  lemma {:induction false} SimulateOnAxis(s: seq<Body>, r: seq<Body>, axis: Axis, t: nat)
    requires AxisState(s, axis) == AxisState(r, axis)
    ensures AxisState(Simulate(s, t), axis) == AxisState(Simulate(r, t), axis)
    decreases t
  {
    if t > 0 {
      SimulateOnAxis(s, r, axis, t - 1);
      StepRepeats(Simulate(s, t - 1), Simulate(r, t - 1), axis);
      SimulateNext(s, t - 1);
      SimulateNext(r, t - 1);
    }
  }

  /** Looking at tick t adds its axis state to those seen. */
  lemma HistoryNext(s: seq<Body>, axis: Axis, t: nat)
    ensures History(s, axis, t + 1) == History(s, axis, t) + {AxisState(Simulate(s, t), axis)}
  {
  }

  // ---------------------------------------------------------------------------------
  // Least common multiple

  /** `greatestCommonDivisor`: Euclid's loop. */
  method GreatestCommonDivisor(a: int, b: int) returns (r: int)
    requires a >= 0 && b >= 0
    ensures r == Euclid.Gcd(a, b)
    ensures Euclid.Divides(r, a) && Euclid.Divides(r, b)
  {
    var x, y := a, b;
    while y != 0
      invariant x >= 0 && y >= 0 && Euclid.Gcd(x, y) == Euclid.Gcd(a, b)
      decreases y
    {
      var remainder := x % y;
      x := y;
      y := remainder;
    }
    Euclid.GcdDivides(a, b);
    return x;
  }

  /**
   * `leastCommonMultiplier`: the pair formula `a * b / gcd(a, b)` applied twice gives a
   * positive common multiple of the three values that divides every other common multiple.
   */
  method LeastCommonMultiplier(a: int, b: int, c: int) returns (r: int)
    requires a > 0 && b > 0 && c > 0
    ensures r > 0 && Euclid.Divides(a, r) && Euclid.Divides(b, r) && Euclid.Divides(c, r)
    ensures forall m: int :: Euclid.Divides(a, m) && Euclid.Divides(b, m) && Euclid.Divides(c, m) ==> Euclid.Divides(r, m)
  {
    var g := GreatestCommonDivisor(a, b);
    Euclid.LcmLeast(a, b);
    var abLcm := (a * b) / g;
    assert abLcm == Euclid.Lcm(a, b);
    var h := GreatestCommonDivisor(abLcm, c);
    Euclid.LcmLeast(abLcm, c);
    r := (abLcm * c) / h;
    assert r == Euclid.Lcm(abLcm, c);
    DividesTransitive(a, abLcm, r);
    DividesTransitive(b, abLcm, r);
  }

  lemma DividesTransitive(a: nat, b: nat, c: int)
    requires Euclid.Divides(a, b) && Euclid.Divides(b, c)
    ensures Euclid.Divides(a, c)
  {
    if a > 0 && b > 0 {
      Euclid.DividesQuotient(a, b);
      Euclid.DividesQuotient(b, c);
      var p, q := b / a, c / b;
      assert c == a * (p * q) by {
        assert c == (a * p) * q;
      }
      Euclid.DividesProduct(a, p * q);
    } else if a > 0 {
      Euclid.DividesProduct(a, 0);
    }
  }

  // ---------------------------------------------------------------------------------
  // The moons

  class Moon {
    var position: Vec
    var speed: Vec

    /** A moon at the parsed position, standing still. */
    constructor(x: int, y: int, z: int)
      ensures position == Vec(x, y, z) && speed == ZERO
    {
      position := Vec(x, y, z);
      speed := ZERO;
    }

    /** `move`: the position advances by the speed. */
    method Move()
      modifies this
      ensures position == Add(old(position), old(speed)) && speed == old(speed)
    {
      position := position.(x := position.x + speed.x);
      position := position.(y := position.y + speed.y);
      position := position.(z := position.z + speed.z);
    }

    /** `getEnergy`: the moon's total energy, which is 0 exactly when it is at the origin or standing still. */
    function GetEnergy(): (e: nat)
      reads this
      ensures e == Energy(Body(position, speed))
      ensures e == 0 <==> position == ZERO || speed == ZERO
    {
      EnergyZero(Body(position, speed));
      Energy(Body(position, speed))
    }
  }

  /** The moons are different objects, as the list of `new Moon(line)` is. */
  predicate Distinct(moons: seq<Moon>)
  {
    forall a, b :: 0 <= a < |moons| && 0 <= b < |moons| && a != b ==> moons[a] != moons[b]
  }

  /** The moons' states, in list order. */
  ghost function States(moons: seq<Moon>): (s: seq<Body>)
    reads moons
    ensures |s| == |moons|
  {
    seq(|moons|, k requires 0 <= k < |moons| reads moons => Body(moons[k].position, moons[k].speed))
  }

  /** The speed change of moon a from moon b on all three axes: one step towards it on each. */
  function Attractions(a: Vec, b: Vec): Vec
  {
    Vec(Attraction(a.x, b.x), Attraction(a.y, b.y), Attraction(a.z, b.z))
  }

  /** The body of `gravityStep`'s inner loop: the moons of one pair pull each other, axis by axis. */
  method Attract(moonA: Moon, moonB: Moon)
    requires moonA != moonB
    modifies moonA, moonB
    ensures moonA.position == old(moonA.position) && moonB.position == old(moonB.position)
    ensures moonA.speed == Add(old(moonA.speed), Attractions(old(moonA.position), old(moonB.position)))
    ensures moonB.speed == Add(old(moonB.speed), Attractions(old(moonB.position), old(moonA.position)))
  {
    if moonA.position.x < moonB.position.x {
      moonA.speed := moonA.speed.(x := moonA.speed.x + 1);
      moonB.speed := moonB.speed.(x := moonB.speed.x - 1);
    } else if moonA.position.x > moonB.position.x {
      moonA.speed := moonA.speed.(x := moonA.speed.x - 1);
      moonB.speed := moonB.speed.(x := moonB.speed.x + 1);
    }
    if moonA.position.y < moonB.position.y {
      moonA.speed := moonA.speed.(y := moonA.speed.y + 1);
      moonB.speed := moonB.speed.(y := moonB.speed.y - 1);
    } else if moonA.position.y > moonB.position.y {
      moonA.speed := moonA.speed.(y := moonA.speed.y - 1);
      moonB.speed := moonB.speed.(y := moonB.speed.y + 1);
    }
    if moonA.position.z < moonB.position.z {
      moonA.speed := moonA.speed.(z := moonA.speed.z + 1);
      moonB.speed := moonB.speed.(z := moonB.speed.z - 1);
    } else if moonA.position.z > moonB.position.z {
      moonA.speed := moonA.speed.(z := moonA.speed.z - 1);
      moonB.speed := moonB.speed.(z := moonB.speed.z + 1);
    }
  }

  /** The partial pull on moon k on all three axes once the pairs before (i, j) are taken. */
  function PartialVec(s: seq<Body>, k: nat, i: int, j: int): Vec
    requires k < |s|
  {
    Vec(Partial(Positions(s, X), k, i, j, |s|), Partial(Positions(s, Y), k, i, j, |s|), Partial(Positions(s, Z), k, i, j, |s|))
  }

  /** Taking the pair (i, j) changes the speeds of moons i and j by their attractions, and no other. */
  lemma PartialVecStep(s: seq<Body>, k: nat, i: nat, j: nat)
    requires k < |s| && i < j < |s|
    ensures PartialVec(s, k, i, j + 1) == Add(PartialVec(s, k, i, j),
      if k == i then Attractions(s[i].position, s[j].position)
      else if k == j then Attractions(s[j].position, s[i].position)
      else ZERO)
  {
    PartialStep(Positions(s, X), k, i, j, |s|);
    PartialStep(Positions(s, Y), k, i, j, |s|);
    PartialStep(Positions(s, Z), k, i, j, |s|);
  }

  lemma PartialVecRows(s: seq<Body>, k: nat, i: nat)
    requires k < |s| && i < |s|
    ensures PartialVec(s, k, i, |s|) == PartialVec(s, k, i + 1, 0)
    ensures PartialVec(s, k, i, i + 1) == PartialVec(s, k, i, 0)
  {
    PartialRows(Positions(s, X), k, i);
    PartialRows(Positions(s, Y), k, i);
    PartialRows(Positions(s, Z), k, i);
  }

  lemma PartialVecEnds(s: seq<Body>, k: nat)
    requires k < |s|
    ensures PartialVec(s, k, 0, 0) == ZERO
    ensures PartialVec(s, k, |s|, 0) == PullVec(s, k)
  {
    PartialNone(Positions(s, X), k, |s|);
    PartialNone(Positions(s, Y), k, |s|);
    PartialNone(Positions(s, Z), k, |s|);
    PartialAll(Positions(s, X), k, |s|);
    PartialAll(Positions(s, Y), k, |s|);
    PartialAll(Positions(s, Z), k, |s|);
  }

  /** The moons are at their starting positions and have the pull of the pairs before (i, j) added to their speeds. */
  ghost predicate Pulled(moons: seq<Moon>, s: seq<Body>, i: int, j: int)
    requires |s| == |moons|
    reads moons
  {
    forall k :: 0 <= k < |moons| ==>
      moons[k].position == s[k].position && moons[k].speed == Add(s[k].speed, PartialVec(s, k, i, j))
  }

  /** One pass of `gravityStep`'s inner loop. */
  method GravityPair(moons: seq<Moon>, ghost s: seq<Body>, i: nat, j: nat)
    requires Distinct(moons) && |s| == |moons| && i < j < |moons|
    requires Pulled(moons, s, i, j)
    modifies moons[i], moons[j]
    ensures Pulled(moons, s, i, j + 1)
  {
    Attract(moons[i], moons[j]);
    forall k | 0 <= k < |moons|
      ensures moons[k].position == s[k].position && moons[k].speed == Add(s[k].speed, PartialVec(s, k, i, j + 1))
    {
      PartialVecStep(s, k, i, j);
    }
  }

  /** One pass of `gravityStep`'s outer loop: moon i pulls and is pulled by every later moon. */
  method GravityRow(moons: seq<Moon>, ghost s: seq<Body>, i: nat)
    requires Distinct(moons) && |s| == |moons| && i < |moons|
    requires Pulled(moons, s, i, 0)
    modifies moons
    ensures Pulled(moons, s, i + 1, 0)
  {
    forall k | 0 <= k < |moons|
      ensures PartialVec(s, k, i, i + 1) == PartialVec(s, k, i, 0)
      ensures PartialVec(s, k, i, |s|) == PartialVec(s, k, i + 1, 0)
    {
      PartialVecRows(s, k, i);
    }
    var j: nat := i + 1;
    while j < |moons|
      invariant i < j <= |moons|
      invariant Pulled(moons, s, i, j)
    {
      GravityPair(moons, s, i, j);
      j := j + 1;
    }
  }

  /** `gravityStep`: every pair of moons, each once, pulls together on each axis. */
  method GravityStep(moons: seq<Moon>)
    requires Distinct(moons)
    modifies moons
    ensures States(moons) == Gravity(old(States(moons)))
  {
    ghost var s := States(moons);
    forall k | 0 <= k < |moons|
      ensures PartialVec(s, k, 0, 0) == ZERO && PartialVec(s, k, |s|, 0) == PullVec(s, k)
    {
      PartialVecEnds(s, k);
    }
    var i: nat := 0;
    while i < |moons|
      invariant i <= |moons|
      invariant Pulled(moons, s, i, 0)
    {
      GravityRow(moons, s, i);
      i := i + 1;
    }
    forall k | 0 <= k < |moons|
      ensures States(moons)[k] == Gravity(s)[k]
    {
    }
  }

  /** `velocityStep`: every moon moves. */
  method VelocityStep(moons: seq<Moon>)
    requires Distinct(moons)
    modifies moons
    ensures States(moons) == Velocity(old(States(moons)))
  {
    ghost var s := States(moons);
    var i: nat := 0;
    while i < |moons|
      invariant i <= |moons|
      invariant forall k :: 0 <= k < i ==> moons[k].position == Add(s[k].position, s[k].speed) && moons[k].speed == s[k].speed
      invariant forall k :: i <= k < |moons| ==> moons[k].position == s[k].position && moons[k].speed == s[k].speed
    {
      moons[i].Move();
      i := i + 1;
    }
  }

  /** One tick of the simulation on the moons. */
  method Tick(moons: seq<Moon>)
    requires Distinct(moons)
    modifies moons
    ensures States(moons) == Step(old(States(moons)))
  {
    StepIsTick(States(moons));
    GravityStep(moons);
    VelocityStep(moons);
  }

  /** `part01`: the total energy after 1000 ticks. */
  method Part01(moons: seq<Moon>) returns (energy: nat)
    requires Distinct(moons)
    modifies moons
    ensures States(moons) == Simulate(old(States(moons)), 1000)
    ensures energy == TotalEnergy(States(moons), |moons|)
  {
    ghost var s := States(moons);
    var i: nat := 0;
    while i < 1000
      invariant i <= 1000 && States(moons) == Simulate(s, i)
    {
      var next := i + 1;
      Advance(moons, s, i, next);
      i := next;
    }
    energy := SumEnergy(moons);
  }

  /** The sum of the moons' energies. */
  method SumEnergy(moons: seq<Moon>) returns (energy: nat)
    ensures energy == TotalEnergy(States(moons), |moons|)
  {
    energy := 0;
    var k: nat := 0;
    while k < |moons|
      invariant k <= |moons| && energy == TotalEnergy(States(moons), k)
    {
      energy := energy + moons[k].GetEnergy();
      k := k + 1;
    }
  }

  /** The lists `part02` builds for the three axes: position and speed of each moon, in order. */
  method Snapshot(moons: seq<Moon>) returns (currentX: seq<int>, currentY: seq<int>, currentZ: seq<int>)
    ensures currentX == AxisState(States(moons), X)
    ensures currentY == AxisState(States(moons), Y)
    ensures currentZ == AxisState(States(moons), Z)
  {
    ghost var s := States(moons);
    currentX, currentY, currentZ := [], [], [];
    var k: nat := 0;
    while k < |moons|
      invariant k <= |moons|
      invariant currentX == AxisState(s[..k], X)
      invariant currentY == AxisState(s[..k], Y)
      invariant currentZ == AxisState(s[..k], Z)
    {
      var moon := moons[k];
      assert s[..k + 1][..k] == s[..k];
      currentX := currentX + [moon.position.x, moon.speed.x];
      currentY := currentY + [moon.position.y, moon.speed.y];
      currentZ := currentZ + [moon.position.z, moon.speed.z];
      k := k + 1;
    }
    assert s[..|moons|] == s;
  }

  /**
   * One axis's share of a `part02` tick: record the tick if this is the first time the axis
   * state was seen before, then remember the state.
   */
  method Observe(ghost s: seq<Body>, axis: Axis, tick: nat, found: nat, seen: set<seq<int>>, current: seq<int>)
    returns (found': nat, seen': set<seq<int>>)
    requires found == Recorded(s, axis, tick) && seen == History(s, axis, tick)
    requires current == AxisState(Simulate(s, tick), axis)
    ensures found' == Recorded(s, axis, tick + 1) && seen' == History(s, axis, tick + 1)
  {
    found' := found;
    if found == 0 && current in seen {
      found' := tick;
    }
    seen' := seen + {current};
    HistoryNext(s, axis, tick);
  }

  /** The three axes looked at, before the tick. */
  method ObserveAll(moons: seq<Moon>, ghost s: seq<Body>, tick: nat, tickX: nat, tickY: nat, tickZ: nat,
                    positionsX: set<seq<int>>, positionsY: set<seq<int>>, positionsZ: set<seq<int>>, next: nat)
    returns (tickX': nat, tickY': nat, tickZ': nat,
             positionsX': set<seq<int>>, positionsY': set<seq<int>>, positionsZ': set<seq<int>>)
    requires States(moons) == Simulate(s, tick) && next == tick + 1
    requires positionsX == History(s, X, tick) && positionsY == History(s, Y, tick) && positionsZ == History(s, Z, tick)
    requires tickX == Recorded(s, X, tick) && tickY == Recorded(s, Y, tick) && tickZ == Recorded(s, Z, tick)
    ensures positionsX' == History(s, X, next) && positionsY' == History(s, Y, next)
    ensures positionsZ' == History(s, Z, next)
    ensures tickX' == Recorded(s, X, next) && tickY' == Recorded(s, Y, next)
    ensures tickZ' == Recorded(s, Z, next)
  {
    var currentX, currentY, currentZ := Snapshot(moons);
    tickX', positionsX' := Observe(s, X, tick, tickX, positionsX, currentX);
    tickY', positionsY' := Observe(s, Y, tick, tickY, positionsY, currentY);
    tickZ', positionsZ' := Observe(s, Z, tick, tickZ, positionsZ, currentZ);
  }

  /** One pass of the `part02` loop: look at the three axes, then tick. */
  method Look(moons: seq<Moon>, ghost s: seq<Body>, tick: nat, tickX: nat, tickY: nat, tickZ: nat,
              positionsX: set<seq<int>>, positionsY: set<seq<int>>, positionsZ: set<seq<int>>)
    returns (tickX': nat, tickY': nat, tickZ': nat,
             positionsX': set<seq<int>>, positionsY': set<seq<int>>, positionsZ': set<seq<int>>, next: nat)
    requires Distinct(moons) && States(moons) == Simulate(s, tick)
    requires positionsX == History(s, X, tick) && positionsY == History(s, Y, tick) && positionsZ == History(s, Z, tick)
    requires tickX == Recorded(s, X, tick) && tickY == Recorded(s, Y, tick) && tickZ == Recorded(s, Z, tick)
    modifies moons
    ensures next == tick + 1 && States(moons) == Simulate(s, next)
    ensures positionsX' == History(s, X, next) && positionsY' == History(s, Y, next)
    ensures positionsZ' == History(s, Z, next)
    ensures tickX' == Recorded(s, X, next) && tickY' == Recorded(s, Y, next)
    ensures tickZ' == Recorded(s, Z, next)
  {
    next := tick + 1;
    tickX', tickY', tickZ', positionsX', positionsY', positionsZ' :=
      ObserveAll(moons, s, tick, tickX, tickY, tickZ, positionsX, positionsY, positionsZ, next);
    Advance(moons, s, tick, next);
  }

  /** The tick of the `part02` loop, in step with the simulation. */
  method Advance(moons: seq<Moon>, ghost s: seq<Body>, tick: nat, next: nat)
    requires Distinct(moons) && States(moons) == Simulate(s, tick) && next == tick + 1
    modifies moons
    ensures States(moons) == Simulate(s, next)
  {
    Tick(moons);
    SimulateNext(s, tick);
  }

  /**
   * `part02`: tick until every axis has repeated, recording for each axis the first tick whose
   * state was seen before; the answer is the least common multiple of the three ticks. Java
   * loops until then; here at most `fuel` ticks are looked at, and `None` says they were not
   * enough.
   */
  method Part02(moons: seq<Moon>, fuel: nat) returns (ticks: (nat, nat, nat), answer: Option<int>)
    requires Distinct(moons)
    modifies moons
    ensures answer.Some? ==>
      && FirstRepeat(old(States(moons)), X, ticks.0) && ticks.0 > 0
      && FirstRepeat(old(States(moons)), Y, ticks.1) && ticks.1 > 0
      && FirstRepeat(old(States(moons)), Z, ticks.2) && ticks.2 > 0
      && answer.value > 0
      && Euclid.Divides(ticks.0, answer.value) && Euclid.Divides(ticks.1, answer.value) && Euclid.Divides(ticks.2, answer.value)
      && forall m: int :: Euclid.Divides(ticks.0, m) && Euclid.Divides(ticks.1, m) && Euclid.Divides(ticks.2, m) ==> Euclid.Divides(answer.value, m)
    ensures answer.None? ==>
      || (forall u :: 0 <= u < fuel ==> !Repeats(old(States(moons)), X, u))
      || (forall u :: 0 <= u < fuel ==> !Repeats(old(States(moons)), Y, u))
      || (forall u :: 0 <= u < fuel ==> !Repeats(old(States(moons)), Z, u))
  {
    ghost var s := States(moons);
    var tickX, tickY, tickZ := 0, 0, 0;
    var positionsX: set<seq<int>> := {};
    var positionsY: set<seq<int>> := {};
    var positionsZ: set<seq<int>> := {};
    var tick: nat := 0;
    while (tickX == 0 || tickY == 0 || tickZ == 0) && tick < fuel
      invariant tick <= fuel && States(moons) == Simulate(s, tick)
      invariant positionsX == History(s, X, tick) && positionsY == History(s, Y, tick) && positionsZ == History(s, Z, tick)
      invariant tickX == Recorded(s, X, tick) && tickY == Recorded(s, Y, tick) && tickZ == Recorded(s, Z, tick)
    {
      tickX, tickY, tickZ, positionsX, positionsY, positionsZ, tick :=
        Look(moons, s, tick, tickX, tickY, tickZ, positionsX, positionsY, positionsZ);
    }
    ticks := (tickX, tickY, tickZ);
    RecordedFirst(s, X, tick);
    RecordedFirst(s, Y, tick);
    RecordedFirst(s, Z, tick);
    if tickX == 0 || tickY == 0 || tickZ == 0 {
      return ticks, None;
    }
    var r := LeastCommonMultiplier(tickX, tickY, tickZ);
    answer := Some(r);
  }
}
