/**
 * The monitoring station (`Day10`): the asteroids of a map, and for each pair whether one
 * sees the other, by walking the lattice points between them with the reduced direction
 * step. Each asteroid collects the asteroids it sees; part 1 reports the largest count.
 */
module Day10 {
  import JavaMath
  import Euclid

  /** A grid position: column x, row y. */
  datatype Pos = Pos(x: int, y: int)

  /** The position t steps of d away from p. */
  function At(p: Pos, d: Pos, t: int): Pos
  {
    Pos(p.x + t * d.x, p.y + t * d.y)
  }

  // ---------------------------------------------------------------------------------
  // Reading the map

  /** Cell (x, y) of the map holds an asteroid. */
  predicate IsAsteroid(lines: seq<seq<char>>, p: Pos)
  {
    0 <= p.y < |lines| && 0 <= p.x < |lines[p.y]| && lines[p.y][p.x] == '#'
  }

  /** p comes before q in reading order: an earlier row, or the same row and an earlier column. */
  predicate Before(p: Pos, q: Pos)
  {
    p.y < q.y || (p.y == q.y && p.x < q.x)
  }

  /** The asteroids of row j among its first i columns, left to right. */
  function RowAsteroids(lines: seq<seq<char>>, j: nat, i: nat): seq<Pos>
    requires j < |lines| && i <= |lines[j]|
  {
    if i == 0 then []
    else RowAsteroids(lines, j, i - 1) + if lines[j][i - 1] == '#' then [Pos(i - 1, j)] else []
  }

  /** The asteroids of the first j rows in reading order. */
  function Asteroids(lines: seq<seq<char>>, j: nat): seq<Pos>
    requires j <= |lines|
  {
    if j == 0 then [] else Asteroids(lines, j - 1) + RowAsteroids(lines, j - 1, |lines[j - 1]|)
  }

  /** A row's scan holds exactly the row's asteroids among the columns scanned, in reading order. */
  lemma {:induction false} RowAsteroidsExactly(lines: seq<seq<char>>, j: nat, i: nat)
    requires j < |lines| && i <= |lines[j]|
    ensures forall p :: p in RowAsteroids(lines, j, i) <==> p.y == j && p.x < i && IsAsteroid(lines, p)
    ensures forall a, b :: 0 <= a < b < |RowAsteroids(lines, j, i)| ==> Before(RowAsteroids(lines, j, i)[a], RowAsteroids(lines, j, i)[b])
  {
    if i > 0 {
      RowAsteroidsExactly(lines, j, i - 1);
    }
  }

  /** The scan holds exactly the asteroids of the rows scanned, in reading order. */
  lemma {:induction false} AsteroidsExactly(lines: seq<seq<char>>, j: nat)
    requires j <= |lines|
    ensures forall p :: p in Asteroids(lines, j) <==> p.y < j && IsAsteroid(lines, p)
    ensures forall a, b :: 0 <= a < b < |Asteroids(lines, j)| ==> Before(Asteroids(lines, j)[a], Asteroids(lines, j)[b])
  {
    if j > 0 {
      AsteroidsExactly(lines, j - 1);
      RowAsteroidsExactly(lines, j - 1, |lines[j - 1]|);
      assert forall p :: p in Asteroids(lines, j - 1) ==> p.y < j - 1;
    }
  }

  /** `toAsteroids`: scan the rows of the map (already split at newlines) and each row's columns. */
  method ToAsteroids(lines: seq<seq<char>>) returns (result: seq<Pos>)
    ensures result == Asteroids(lines, |lines|)
  {
    result := [];
    for j := 0 to |lines|
      invariant result == Asteroids(lines, j)
    {
      var chars := lines[j];
      for i := 0 to |chars|
        invariant result == Asteroids(lines, j) + RowAsteroids(lines, j, i)
      {
        if chars[i] == '#' {
          result := result + [Pos(i, j)];
        }
      }
    }
  }

  // ---------------------------------------------------------------------------------
  // The field and the line of sight

  /** `Field`: the asteroids' positions and the largest column and row among them. */
  datatype Field = Field(asteroids: seq<Pos>, width: int, height: int)

  /** The largest column of the positions. */
  function MaxX(ps: seq<Pos>): (m: int)
    requires ps != []
    ensures exists p :: p in ps && p.x == m
    ensures forall p :: p in ps ==> p.x <= m
  {
    if |ps| == 1 then ps[0].x
    else
      var m := MaxX(ps[1..]);
      assert forall p :: p in ps ==> p == ps[0] || p in ps[1..];
      if ps[0].x > m then ps[0].x else m
  }

  /** The largest row of the positions. */
  function MaxY(ps: seq<Pos>): (m: int)
    requires ps != []
    ensures exists p :: p in ps && p.y == m
    ensures forall p :: p in ps ==> p.y <= m
  {
    if |ps| == 1 then ps[0].y
    else
      var m := MaxY(ps[1..]);
      assert forall p :: p in ps ==> p == ps[0] || p in ps[1..];
      if ps[0].y > m then ps[0].y else m
  }

  /** The `Field` constructor; an empty list is Java's `orElseThrow`, here excluded. */
  function NewField(ps: seq<Pos>): Field
    requires ps != []
  {
    Field(ps, MaxX(ps), MaxY(ps))
  }

  /** p lies in the field's bounds, 0..width by 0..height. */
  predicate InBounds(f: Field, p: Pos)
  {
    0 <= p.x <= f.width && 0 <= p.y <= f.height
  }

  /** How far the walk along d can still go inside the bounds. */
  function Room(f: Field, c: Pos, d: Pos): int
  {
    if d.x > 0 then f.width - c.x
    else if d.x < 0 then c.x
    else if d.y > 0 then f.height - c.y
    else c.y
  }

  /**
   * The result of `iterateLine` from c: true once the walk leaves the bounds or reaches the
   * goal, false at the first asteroid on the way.
   */
  function Clear(f: Field, c: Pos, d: Pos, goal: Pos): bool
    requires d != Pos(0, 0)
    decreases Room(f, c, d)
  {
    if !InBounds(f, c) || c == goal then true
    else if c in f.asteroids then false
    else Clear(f, Pos(c.x + d.x, c.y + d.y), d, goal)
  }

  /** `iterateLine`: step from (x, y) by (xDiff, yDiff) until out of bounds, at the goal, or at an asteroid. */
  method IterateLine(field: Field, x: int, y: int, xDiff: int, yDiff: int, goal: Pos) returns (clear: bool)
    requires xDiff != 0 || yDiff != 0
    ensures clear == Clear(field, Pos(x + xDiff, y + yDiff), Pos(xDiff, yDiff), goal)
  {
    var d := Pos(xDiff, yDiff);
    var currentX := x + xDiff;
    var currentY := y + yDiff;
    while currentX >= 0 && currentY >= 0 && currentX <= field.width && currentY <= field.height && !(currentX == goal.x && currentY == goal.y)
      invariant Clear(field, Pos(currentX, currentY), d, goal) == Clear(field, Pos(x + xDiff, y + yDiff), d, goal)
      decreases Room(field, Pos(currentX, currentY), d)
    {
      if Pos(currentX, currentY) in field.asteroids {
        return false;
      }
      currentX := currentX + xDiff;
      currentY := currentY + yDiff;
    }
    return true;
  }

  // ---------------------------------------------------------------------------------
  // The direction step

  /** `gcd`: Euclid's loop on non-negative arguments. */
  method Gcd(a: int, b: int) returns (r: int)
    requires a >= 0 && b >= 0
    ensures r == Euclid.Gcd(a, b)
  {
    var x, y := a, b;
    while y != 0
      invariant x >= 0 && y >= 0 && Euclid.Gcd(x, y) == Euclid.Gcd(a, b)
      decreases y
    {
      var remainder := x % y;
      x := y;
      y := remainder;
    }
    return x;
  }

  /** The step `updateVisibility` walks with from first towards second. */
  function Direction(first: Pos, second: Pos): Pos
  {
    var xDiff := second.x - first.x;
    var yDiff := second.y - first.y;
    if xDiff == 0 then Pos(0, JavaMath.Sign(yDiff))
    else if yDiff == 0 then Pos(JavaMath.Sign(xDiff), 0)
    else
      var g := Euclid.Gcd(JavaMath.Abs(xDiff), JavaMath.Abs(yDiff));
      Euclid.GcdPositive(JavaMath.Abs(xDiff), JavaMath.Abs(yDiff));
      Pos(JavaMath.Div(xDiff, g), JavaMath.Div(yDiff, g))
  }

  /** The number of steps from first to second. */
  function Steps(first: Pos, second: Pos): nat
  {
    var xDiff := second.x - first.x;
    var yDiff := second.y - first.y;
    if xDiff == 0 then JavaMath.Abs(yDiff)
    else if yDiff == 0 then JavaMath.Abs(xDiff)
    else Euclid.Gcd(JavaMath.Abs(xDiff), JavaMath.Abs(yDiff))
  }

  /**
   * The decision `updateVisibility` takes for first and second: seen at once when the
   * reduced step is the whole difference (a gcd of 1), otherwise by `iterateLine`.
   */
  function Sees(f: Field, first: Pos, second: Pos): bool
    requires first != second
  {
    var xDiff := second.x - first.x;
    var yDiff := second.y - first.y;
    if xDiff != 0 && yDiff != 0 && Euclid.Gcd(JavaMath.Abs(xDiff), JavaMath.Abs(yDiff)) == 1 then true
    else
      var d := Direction(first, second);
      assert d != Pos(0, 0) by {
        DirectionReaches(first, second);
      }
      Clear(f, Pos(first.x + d.x, first.y + d.y), d, second)
  }

  /** Truncating division by a divisor of the magnitude is exact, and negating commutes with it. */
  lemma ExactDiv(a: int, g: nat)
    requires g > 0 && Euclid.Divides(g, JavaMath.Abs(a))
    ensures g * JavaMath.Div(a, g) == a
    ensures JavaMath.Div(-a, g) == -JavaMath.Div(a, g)
    ensures a != 0 ==> JavaMath.Div(a, g) != 0
  {
    var n := JavaMath.Abs(a);
    Euclid.DividesQuotient(g, n);
    if a < 0 {
      assert JavaMath.Div(a, g) == -(n / g);
      assert g * (-(n / g)) == -(g * (n / g));
    }
  }

  /** The walk reaches second from first after `Steps` steps of a non-zero `Direction`. */
  lemma DirectionReaches(first: Pos, second: Pos)
    requires first != second
    ensures Direction(first, second) != Pos(0, 0)
    ensures Steps(first, second) >= 1
    ensures At(first, Direction(first, second), Steps(first, second)) == second
    ensures Direction(second, first) == Pos(-Direction(first, second).x, -Direction(first, second).y)
    ensures Steps(second, first) == Steps(first, second)
  {
    var xDiff := second.x - first.x;
    var yDiff := second.y - first.y;
    if xDiff == 0 {
      assert JavaMath.Abs(yDiff) * JavaMath.Sign(yDiff) == yDiff;
    } else if yDiff == 0 {
      assert JavaMath.Abs(xDiff) * JavaMath.Sign(xDiff) == xDiff;
    } else {
      DiagonalReaches(first, second);
    }
  }

  /** `DirectionReaches` off the axes, where the step is the difference over the gcd. */
  lemma DiagonalReaches(first: Pos, second: Pos)
    requires second.x != first.x && second.y != first.y
    ensures Direction(first, second) != Pos(0, 0)
    ensures Steps(first, second) >= 1
    ensures At(first, Direction(first, second), Steps(first, second)) == second
    ensures Direction(second, first) == Pos(-Direction(first, second).x, -Direction(first, second).y)
    ensures Steps(second, first) == Steps(first, second)
  {
    var xDiff := second.x - first.x;
    var yDiff := second.y - first.y;
    var ax, ay := JavaMath.Abs(xDiff), JavaMath.Abs(yDiff);
    var g := Euclid.Gcd(ax, ay);
    Euclid.GcdPositive(ax, ay);
    Euclid.GcdDivides(ax, ay);
    ExactDiv(xDiff, g);
    ExactDiv(yDiff, g);
    assert JavaMath.Abs(-xDiff) == ax && JavaMath.Abs(-yDiff) == ay;
  }

  /** Multiplying by a step count between 0 and n keeps a coordinate between its two ends. */
  lemma BetweenEnds(u: int, dx: int, s: int, n: int)
    requires 0 <= s <= n
    ensures dx >= 0 ==> u <= u + s * dx <= u + n * dx
    ensures dx <= 0 ==> u + n * dx <= u + s * dx <= u
  {
    if dx >= 0 {
      JavaMath.MulAtLeast(0, 1);
      assert s * dx <= n * dx by {
        assert n * dx - s * dx == (n - s) * dx;
      }
    } else {
      assert n * dx - s * dx == (n - s) * dx;
    }
  }

  /** Different step counts of a non-zero step give different positions. */
  lemma StepsDiffer(p: Pos, d: Pos, s: int, n: int)
    requires d != Pos(0, 0) && s != n
    ensures At(p, d, s) != At(p, d, n)
  {
    assert (n - s) * d.x == n * d.x - s * d.x && (n - s) * d.y == n * d.y - s * d.y;
    if d.x != 0 {
      assert (n - s) * d.x != 0;
    } else {
      assert (n - s) * d.y != 0;
    }
  }

  /** One more step. */
  lemma NextStep(p: Pos, d: Pos, t: int)
    ensures Pos(At(p, d, t).x + d.x, At(p, d, t).y + d.y) == At(p, d, t + 1)
  {
    assert (t + 1) * d.x == t * d.x + d.x && (t + 1) * d.y == t * d.y + d.y;
  }

  /**
   * Walking from step t towards the goal at step n, inside the bounds, finds the way clear
   * exactly when no asteroid sits at the steps t to n - 1.
   */
  lemma {:induction false} ClearAlong(f: Field, a: Pos, d: Pos, t: nat, n: nat)
    requires d != Pos(0, 0) && 1 <= t <= n
    requires InBounds(f, a) && InBounds(f, At(a, d, n))
    ensures Clear(f, At(a, d, t), d, At(a, d, n)) <==> forall s :: t <= s < n ==> At(a, d, s) !in f.asteroids
    decreases n - t
  {
    var c := At(a, d, t);
    BetweenEnds(a.x, d.x, t, n);
    BetweenEnds(a.y, d.y, t, n);
    assert InBounds(f, c);
    if t < n {
      StepsDiffer(a, d, t, n);
      NextStep(a, d, t);
      ClearAlong(f, a, d, t + 1, n);
    }
  }

  /** What `Sees` decides: no asteroid sits on a lattice point strictly between the two. */
  lemma SeesMeaning(f: Field, first: Pos, second: Pos)
    requires first != second && InBounds(f, first) && InBounds(f, second)
    ensures Sees(f, first, second) <==>
      forall s :: 1 <= s < Steps(first, second) ==> At(first, Direction(first, second), s) !in f.asteroids
  {
    DirectionReaches(first, second);
    var d := Direction(first, second);
    var n := Steps(first, second);
    var xDiff := second.x - first.x;
    var yDiff := second.y - first.y;
    if !(xDiff != 0 && yDiff != 0 && Euclid.Gcd(JavaMath.Abs(xDiff), JavaMath.Abs(yDiff)) == 1) {
      assert Pos(first.x + d.x, first.y + d.y) == At(first, d, 1);
      ClearAlong(f, first, d, 1, n);
    }
  }

  /** Seeing is symmetric: walking back from second meets the same lattice points. */
  lemma SeesSymmetric(f: Field, first: Pos, second: Pos)
    requires first != second && InBounds(f, first) && InBounds(f, second)
    ensures Sees(f, first, second) == Sees(f, second, first)
  {
    SeesMeaning(f, first, second);
    SeesMeaning(f, second, first);
    DirectionReaches(first, second);
    var d := Direction(first, second);
    var n := Steps(first, second);
    var back := Pos(-d.x, -d.y);
    forall s | 0 <= s <= n
      ensures At(second, back, s) == At(first, d, n - s)
    {
      WalkBack(first, d, n, s);
    }
    MirrorFree(f.asteroids, first, d, second, back, n);
  }

  /** Stepping back s times from the n-th step is the (n - s)-th step. */
  lemma WalkBack(p: Pos, d: Pos, n: int, s: int)
    ensures At(At(p, d, n), Pos(-d.x, -d.y), s) == At(p, d, n - s)
  {
    assert n * d.x - s * d.x == (n - s) * d.x && n * d.y - s * d.y == (n - s) * d.y;
    assert s * (-d.x) == -(s * d.x) && s * (-d.y) == -(s * d.y);
  }

  /** Two walks that meet the same points in opposite orders are free of asteroids together. */
  lemma MirrorFree(asteroids: seq<Pos>, first: Pos, d: Pos, second: Pos, back: Pos, n: nat)
    requires forall s :: 0 <= s <= n ==> At(second, back, s) == At(first, d, n - s)
    ensures (forall s :: 1 <= s < n ==> At(first, d, s) !in asteroids) <==> (forall s :: 1 <= s < n ==> At(second, back, s) !in asteroids)
  {
    if forall s :: 1 <= s < n ==> At(first, d, s) !in asteroids {
      forall s | 1 <= s < n
        ensures At(second, back, s) !in asteroids
      {
        assert At(second, back, s) == At(first, d, n - s);
      }
    }
    if forall s :: 1 <= s < n ==> At(second, back, s) !in asteroids {
      forall s | 1 <= s < n
        ensures At(first, d, s) !in asteroids
      {
        assert At(second, back, n - s) == At(first, d, s);
      }
    }
  }

  // ---------------------------------------------------------------------------------
  // The asteroids

  class Asteroid {
    const x: int
    const y: int
    var visibleAsteroids: set<Asteroid>

    constructor(x: int, y: int)
      ensures this.x == x && this.y == y && visibleAsteroids == {}
    {
      this.x, this.y := x, y;
      visibleAsteroids := {};
    }

    function Position(): Pos
    {
      Pos(x, y)
    }

    /** `addVisible`: add the other asteroid, never this one itself. */
    method AddVisible(asteroid: Asteroid)
      modifies this
      ensures visibleAsteroids == old(visibleAsteroids) + if asteroid != this then {asteroid} else {}
    {
      if asteroid != this {
        visibleAsteroids := visibleAsteroids + {asteroid};
      }
    }

    /** `getVisibility`: the number of asteroids this one sees. */
    function Visibility(): nat
      reads this
    {
      |visibleAsteroids|
    }
  }

  /** The positions of the asteroids, in list order. */
  function Positions(asteroids: seq<Asteroid>): (ps: seq<Pos>)
    ensures |ps| == |asteroids| && forall k :: 0 <= k < |asteroids| ==> ps[k] == asteroids[k].Position()
  {
    seq(|asteroids|, k requires 0 <= k < |asteroids| => asteroids[k].Position())
  }

  /** No two asteroids share a position, and none has a negative coordinate, as `toAsteroids` gives them. */
  predicate WellPlaced(asteroids: seq<Asteroid>)
  {
    && (forall a, b :: 0 <= a < b < |asteroids| ==> asteroids[a].Position() != asteroids[b].Position())
    && (forall a :: 0 <= a < |asteroids| ==> asteroids[a].x >= 0 && asteroids[a].y >= 0)
  }

  /** The asteroids that asteroid k sees (`Sees` from k's position), as the set `visibleAsteroids` gains them. */
  function Seen(f: Field, asteroids: seq<Asteroid>, k: nat): set<Asteroid>
    requires k < |asteroids|
  {
    set b | 0 <= b < |asteroids| && asteroids[b].Position() != asteroids[k].Position()
      && Sees(f, asteroids[k].Position(), asteroids[b].Position()) :: asteroids[b]
  }

  /** Every asteroid is inside the field's bounds, and no two share a position. */
  predicate Covers(f: Field, asteroids: seq<Asteroid>)
  {
    && (forall k :: 0 <= k < |asteroids| ==> InBounds(f, asteroids[k].Position()))
    && (forall a, b :: 0 <= a < b < |asteroids| ==> asteroids[a].Position() != asteroids[b].Position())
  }

  /** The field built from well placed asteroids covers them. */
  lemma FieldCovers(asteroids: seq<Asteroid>)
    requires asteroids != [] && WellPlaced(asteroids)
    ensures Covers(NewField(Positions(asteroids)), asteroids)
  {
    var ps := Positions(asteroids);
    forall k | 0 <= k < |asteroids|
      ensures InBounds(NewField(ps), asteroids[k].Position())
    {
      assert ps[k] in ps;
    }
  }

  /** Asteroids at different places of the list are different objects. */
  lemma Distinct(f: Field, asteroids: seq<Asteroid>, a: nat, b: nat)
    requires Covers(f, asteroids) && a < |asteroids| && b < |asteroids|
    ensures asteroids[a] == asteroids[b] <==> a == b
  {
    if a < b {
      assert asteroids[a].Position() != asteroids[b].Position();
    } else if b < a {
      assert asteroids[b].Position() != asteroids[a].Position();
    }
  }

  /** Who sees whom: row a, column b tells whether a is not at b's place and sees b. */
  ghost function SeesTable(f: Field, asteroids: seq<Asteroid>): (table: seq<seq<bool>>)
    ensures Square(table, |asteroids|)
  {
    seq(|asteroids|, a requires 0 <= a < |asteroids| =>
      seq(|asteroids|, b requires 0 <= b < |asteroids| =>
        asteroids[a].Position() != asteroids[b].Position() && Sees(f, asteroids[a].Position(), asteroids[b].Position())))
  }

  /** The entry of the table for the pair (a, b). */
  lemma TableEntry(f: Field, asteroids: seq<Asteroid>, a: nat, b: nat)
    requires a < |asteroids| && b < |asteroids|
    ensures SeesTable(f, asteroids)[a][b]
      == (asteroids[a].Position() != asteroids[b].Position() && Sees(f, asteroids[a].Position(), asteroids[b].Position()))
  {
  }

  /** A square table of size n. */
  predicate Square(table: seq<seq<bool>>, n: nat)
  {
    |table| == n && forall a :: 0 <= a < n ==> |table[a]| == n
  }

  /** The table of a covered field is symmetric, since seeing is. */
  lemma TableSymmetric(f: Field, asteroids: seq<Asteroid>, a: nat, b: nat)
    requires Covers(f, asteroids) && a < |asteroids| && b < |asteroids|
    ensures SeesTable(f, asteroids)[a][b] == SeesTable(f, asteroids)[b][a]
  {
    TableEntry(f, asteroids, a, b);
    TableEntry(f, asteroids, b, a);
    if asteroids[a].Position() != asteroids[b].Position() {
      SeesSymmetric(f, asteroids[a].Position(), asteroids[b].Position());
    }
  }

  /** `updateVisibility` has taken the ordered pair (a, b): a row before i, or row i before column j. */
  predicate Taken(a: int, b: int, i: int, j: int)
  {
    a < i || (a == i && b < j)
  }

  /** What asteroid k has gained, by the table, once the pairs before (i, j) are taken. */
  function Added(table: seq<seq<bool>>, asteroids: seq<Asteroid>, k: nat, i: nat, j: nat): set<Asteroid>
    requires Square(table, |asteroids|) && k < |asteroids|
  {
    set b | 0 <= b < |asteroids| && table[k][b] && (Taken(k, b, i, j) || Taken(b, k, i, j)) :: asteroids[b]
  }

  /** What asteroid k gains from the pair (i, j): j when k is i, i when k is j, if i sees j. */
  function Gain(table: seq<seq<bool>>, asteroids: seq<Asteroid>, k: nat, i: nat, j: nat): set<Asteroid>
    requires Square(table, |asteroids|) && i < |asteroids| && j < |asteroids|
  {
    if table[i][j] then (if k == i then {asteroids[j]} else {}) + (if k == j then {asteroids[i]} else {})
    else {}
  }

  /** What k gains from the pair (i, j) is what `Gain` says. */
  lemma AddedGrows(table: seq<seq<bool>>, asteroids: seq<Asteroid>, k: nat, i: nat, j: nat, x: Asteroid)
    requires Square(table, |asteroids|) && k < |asteroids| && i < |asteroids| && j < |asteroids|
    requires table[i][j] == table[j][i]
    requires x in Added(table, asteroids, k, i, j + 1)
    ensures x in Added(table, asteroids, k, i, j) || x in Gain(table, asteroids, k, i, j)
  {
    var b :| 0 <= b < |asteroids| && table[k][b] && (Taken(k, b, i, j + 1) || Taken(b, k, i, j + 1)) && x == asteroids[b];
  }

  /** What `Gain` says k gains is in k's set after the pair (i, j). */
  lemma AddedKeeps(table: seq<seq<bool>>, asteroids: seq<Asteroid>, k: nat, i: nat, j: nat, x: Asteroid)
    requires Square(table, |asteroids|) && k < |asteroids| && i < |asteroids| && j < |asteroids|
    requires table[i][j] == table[j][i]
    requires x in Added(table, asteroids, k, i, j) || x in Gain(table, asteroids, k, i, j)
    ensures x in Added(table, asteroids, k, i, j + 1)
  {
    if x !in Added(table, asteroids, k, i, j) {
      if k == i && x == asteroids[j] {
        assert Taken(k, j, i, j + 1);
      } else {
        assert Taken(i, k, i, j + 1);
      }
    }
  }

  /**
   * Taking the pair (i, j) adds j to i and i to j when i sees j (and so j sees i), and
   * nothing else.
   */
  lemma AddedStep(table: seq<seq<bool>>, asteroids: seq<Asteroid>, k: nat, i: nat, j: nat)
    requires Square(table, |asteroids|) && k < |asteroids| && i < |asteroids| && j < |asteroids|
    requires table[i][j] == table[j][i]
    ensures Added(table, asteroids, k, i, j + 1) == Added(table, asteroids, k, i, j) + Gain(table, asteroids, k, i, j)
  {
    forall x | x in Added(table, asteroids, k, i, j + 1)
      ensures x in Added(table, asteroids, k, i, j) + Gain(table, asteroids, k, i, j)
    {
      AddedGrows(table, asteroids, k, i, j, x);
    }
    forall x | x in Added(table, asteroids, k, i, j) + Gain(table, asteroids, k, i, j)
      ensures x in Added(table, asteroids, k, i, j + 1)
    {
      AddedKeeps(table, asteroids, k, i, j, x);
    }
  }

  /** Before the first pair nothing is gained. */
  lemma AddedNone(table: seq<seq<bool>>, asteroids: seq<Asteroid>, k: nat)
    requires Square(table, |asteroids|) && k < |asteroids|
    ensures Added(table, asteroids, k, 0, 0) == {}
  {
  }

  /** The end of row i is the start of row i + 1. */
  lemma AddedRowEnd(table: seq<seq<bool>>, asteroids: seq<Asteroid>, k: nat, i: nat)
    requires Square(table, |asteroids|) && k < |asteroids|
    ensures Added(table, asteroids, k, i, |asteroids|) == Added(table, asteroids, k, i + 1, 0)
  {
    forall b | 0 <= b < |asteroids|
      ensures (Taken(k, b, i, |asteroids|) || Taken(b, k, i, |asteroids|)) == (Taken(k, b, i + 1, 0) || Taken(b, k, i + 1, 0))
    {
    }
  }

  /** After the last row every pair is taken, and k has gained what it sees. */
  lemma AddedAll(f: Field, asteroids: seq<Asteroid>, k: nat)
    requires k < |asteroids|
    ensures Added(SeesTable(f, asteroids), asteroids, k, |asteroids|, 0) == Seen(f, asteroids, k)
  {
    forall b | 0 <= b < |asteroids| {
      TableEntry(f, asteroids, k, b);
    }
  }

  /**
   * The test `updateVisibility` makes for one pair: along an axis the step is the sign of
   * the difference, otherwise the difference divided by the gcd of its magnitudes, and a
   * gcd of 1 sees without walking.
   */
  method LineOfSight(field: Field, first: Asteroid, second: Asteroid) returns (visible: bool)
    requires first.Position() != second.Position()
    ensures visible == Sees(field, first.Position(), second.Position())
  {
    DirectionReaches(first.Position(), second.Position());
    var xDiff := second.x - first.x;
    var yDiff := second.y - first.y;
    if xDiff == 0 {
      yDiff := JavaMath.Sign(yDiff);
    } else if yDiff == 0 {
      xDiff := JavaMath.Sign(xDiff);
    } else {
      var gcd := Gcd(JavaMath.Abs(xDiff), JavaMath.Abs(yDiff));
      if gcd == 1 {
        return true;
      }
      Euclid.GcdPositive(JavaMath.Abs(xDiff), JavaMath.Abs(yDiff));
      xDiff := JavaMath.Div(xDiff, gcd);
      yDiff := JavaMath.Div(yDiff, gcd);
    }
    visible := IterateLine(field, first.x, first.y, xDiff, yDiff, second.Position());
  }

  /** Each asteroid's set is what it had before plus what it gained from the pairs before (i, j). */
  ghost predicate Gained(table: seq<seq<bool>>, asteroids: seq<Asteroid>, before: seq<set<Asteroid>>, i: nat, j: nat)
    requires Square(table, |asteroids|)
    reads asteroids
  {
    |before| == |asteroids| &&
    forall k {:trigger before[k]} :: 0 <= k < |asteroids| ==> asteroids[k].visibleAsteroids == before[k] + Added(table, asteroids, k, i, j)
  }

  /** Row i of the table holds what asteroid i sees, and agrees with column i. */
  ghost predicate RowOf(f: Field, asteroids: seq<Asteroid>, table: seq<seq<bool>>, i: nat)
    requires Square(table, |asteroids|) && i < |asteroids|
  {
    forall b :: 0 <= b < |asteroids| ==>
      && table[i][b] == table[b][i]
      && table[i][b] == (asteroids[i].Position() != asteroids[b].Position() && Sees(f, asteroids[i].Position(), asteroids[b].Position()))
  }

  /** The table of a covered field has every row right. */
  lemma TableRow(f: Field, asteroids: seq<Asteroid>, i: nat)
    requires Covers(f, asteroids) && i < |asteroids|
    ensures RowOf(f, asteroids, SeesTable(f, asteroids), i)
  {
    var table := SeesTable(f, asteroids);
    forall b | 0 <= b < |asteroids|
      ensures table[i][b] == table[b][i]
      ensures table[i][b] == (asteroids[i].Position() != asteroids[b].Position() && Sees(f, asteroids[i].Position(), asteroids[b].Position()))
    {
      TableSymmetric(f, asteroids, i, b);
      TableEntry(f, asteroids, i, b);
    }
  }

  /**
   * One pass of `updateVisibility`'s inner loop: two different asteroids that see each other
   * are added to each other's sets.
   */
  method TakePair(field: Field, asteroids: seq<Asteroid>, ghost table: seq<seq<bool>>, ghost before: seq<set<Asteroid>>, i: nat, j: nat)
    returns (next: nat)
    requires Covers(field, asteroids) && i < |asteroids| && j < |asteroids|
    requires Square(table, |asteroids|) && RowOf(field, asteroids, table, i)
    requires Gained(table, asteroids, before, i, j)
    modifies asteroids[i], asteroids[j]
    ensures next == j + 1 && Gained(table, asteroids, before, i, next)
  {
    next := j + 1;
    var first, second := asteroids[i], asteroids[j];
    Distinct(field, asteroids, i, j);
    if first != second {
      var visible := LineOfSight(field, first, second);
      if visible {
        first.AddVisible(second);
        second.AddVisible(first);
      }
    }
    assert table[i][j] == table[j][i];
    forall k | 0 <= k < |asteroids|
      ensures asteroids[k].visibleAsteroids == before[k] + Added(table, asteroids, k, i, j + 1)
    {
      Distinct(field, asteroids, k, i);
      Distinct(field, asteroids, k, j);
      AddedStep(table, asteroids, k, i, j);
    }
  }

  /**
   * One pass of `updateVisibility`'s outer loop: the asteroid at i is paired with every
   * asteroid in list order.
   */
  method TakeRow(field: Field, asteroids: seq<Asteroid>, ghost table: seq<seq<bool>>, ghost before: seq<set<Asteroid>>, i: nat)
    returns (next: nat)
    requires Covers(field, asteroids) && i < |asteroids|
    requires Square(table, |asteroids|) && RowOf(field, asteroids, table, i)
    requires Gained(table, asteroids, before, i, 0)
    modifies asteroids
    ensures next == i + 1 && Gained(table, asteroids, before, next, 0)
  {
    next := i + 1;
    var j: nat := 0;
    while j < |asteroids|
      invariant j <= |asteroids|
      invariant Gained(table, asteroids, before, i, j)
    {
      j := TakePair(field, asteroids, table, before, i, j);
    }
    GainedRowEnd(table, asteroids, before, i, next);
  }

  /** Having taken all of row i is having taken the pairs before row i + 1. */
  lemma GainedRowEnd(table: seq<seq<bool>>, asteroids: seq<Asteroid>, before: seq<set<Asteroid>>, i: nat, next: nat)
    requires Square(table, |asteroids|) && next == i + 1
    requires Gained(table, asteroids, before, i, |asteroids|)
    ensures Gained(table, asteroids, before, next, 0)
  {
    forall k | 0 <= k < |asteroids|
      ensures Added(table, asteroids, k, i, |asteroids|) == Added(table, asteroids, k, i + 1, 0)
    {
      AddedRowEnd(table, asteroids, k, i);
    }
  }

  /**
   * `updateVisibility`: for every ordered pair of different asteroids that see each other,
   * each is added to the other's set; in the end each asteroid has gained exactly the
   * asteroids it sees.
   */
  method UpdateVisibility(asteroids: seq<Asteroid>)
    requires asteroids != [] && WellPlaced(asteroids)
    modifies asteroids
    ensures forall k :: 0 <= k < |asteroids| ==>
      asteroids[k].visibleAsteroids == old(asteroids[k].visibleAsteroids) + Seen(NewField(Positions(asteroids)), asteroids, k)
  {
    var field := NewField(Positions(asteroids));
    FieldCovers(asteroids);
    ghost var before := VisibleSets(asteroids);
    GainedStart(SeesTable(field, asteroids), asteroids, before);
    TakeRows(field, asteroids, before);
    GainedAll(field, asteroids, before);
  }

  /** The outer loop of `updateVisibility`: every row of pairs is taken, in list order. */
  method TakeRows(field: Field, asteroids: seq<Asteroid>, ghost before: seq<set<Asteroid>>)
    requires Covers(field, asteroids)
    requires Gained(SeesTable(field, asteroids), asteroids, before, 0, 0)
    modifies asteroids
    ensures Gained(SeesTable(field, asteroids), asteroids, before, |asteroids|, 0)
  {
    ghost var table := SeesTable(field, asteroids);
    var i: nat := 0;
    while i < |asteroids|
      invariant i <= |asteroids|
      invariant Gained(table, asteroids, before, i, 0)
    {
      TableRow(field, asteroids, i);
      i := TakeRow(field, asteroids, table, before, i);
    }
  }

  /** The sets the asteroids hold, in list order. */
  ghost function VisibleSets(asteroids: seq<Asteroid>): (sets: seq<set<Asteroid>>)
    reads asteroids
    ensures |sets| == |asteroids|
    ensures forall k :: 0 <= k < |asteroids| ==> sets[k] == asteroids[k].visibleAsteroids
  {
    seq(|asteroids|, k requires 0 <= k < |asteroids| reads asteroids => asteroids[k].visibleAsteroids)
  }

  /** Before the first pair every asteroid holds what it held. */
  lemma GainedStart(table: seq<seq<bool>>, asteroids: seq<Asteroid>, before: seq<set<Asteroid>>)
    requires Square(table, |asteroids|) && before == VisibleSets(asteroids)
    ensures Gained(table, asteroids, before, 0, 0)
  {
    forall k | 0 <= k < |asteroids|
      ensures Added(table, asteroids, k, 0, 0) == {}
    {
      AddedNone(table, asteroids, k);
    }
  }

  /** After the last row every asteroid holds what it held and what it sees. */
  lemma GainedAll(f: Field, asteroids: seq<Asteroid>, before: seq<set<Asteroid>>)
    requires Gained(SeesTable(f, asteroids), asteroids, before, |asteroids|, 0)
    ensures forall k :: 0 <= k < |asteroids| ==> asteroids[k].visibleAsteroids == before[k] + Seen(f, asteroids, k)
  {
    forall k | 0 <= k < |asteroids|
      ensures Added(SeesTable(f, asteroids), asteroids, k, |asteroids|, 0) == Seen(f, asteroids, k)
    {
      AddedAll(f, asteroids, k);
    }
  }

  /**
   * The station of `main`: `max(Comparator.comparing(Asteroid::getVisibility))`, whose
   * reduction keeps the earlier of two equal asteroids, so the first in list order of those
   * that see the most. Part 1 prints its visibility.
   */
  function Station(asteroids: seq<Asteroid>): (r: nat)
    requires asteroids != []
    reads asteroids
    ensures r < |asteroids|
    ensures forall k :: 0 <= k < |asteroids| ==> asteroids[k].Visibility() <= asteroids[r].Visibility()
    ensures forall k :: 0 <= k < r ==> asteroids[k].Visibility() < asteroids[r].Visibility()
  {
    if |asteroids| == 1 then 0
    else
      var last := |asteroids| - 1;
      var r := Station(asteroids[..last]);
      if asteroids[r].Visibility() >= asteroids[last].Visibility() then r else last
  }
}
