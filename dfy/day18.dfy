/**
 * The vault of keys and doors (`Day18`): a map of walls ('#'), open cells, lower-case keys
 * and upper-case doors, where door 'D' opens once key 'd' is held. One or more robots
 * ('@' in part 1, '1' to '4' in part 2) collect every key in as few steps as they can.
 *
 * The source works in two stages. `findReachableKeys` runs a breadth-first search from a
 * robot or key position and lists every key it meets with its distance and the doors
 * (`gates`, a bit mask) crossed on the way. `findBestWalk` then searches the states
 * (robot positions, keys held as a bit mask, steps taken) over those lists, re-expanding a
 * state only when it is reached in strictly fewer steps, and returns the fewest steps of a
 * state that holds every key.
 *
 * Both searches are methods with the source's queues, visited sets and maps; the first is
 * proved sound against a relation of walks through the map (`Tracks`), the second against
 * the transition function `Successors`, whose meaning `SuccessorsIff` and `Moved` state.
 */
module Day18 {
  import opened Wrappers
  import JavaMath
  import opened Bitmask

  const WALL: char := '#'
  const MAX_INT: int := 0x7fff_ffff

  /** A cell of the map; `x` is the column and `y` the row. Equality is by position alone. */
  datatype Point = Point(x: int, y: int)

  /** A queued cell of `findReachableKeys`: the source's `Point` with its `distance` and `gates`. */
  datatype Reach = Reach(point: Point, distance: nat, gates: nat)

  /** A key found from a position: its distance and the doors (`obstacles`) on the way. */
  datatype ReachableKey = ReachableKey(distance: nat, value: char, obstacles: nat)

  /** A state of `findBestWalk`: where each robot stands, the keys held and the steps taken. */
  datatype State = State(positions: seq<Point>, keyChain: nat, steps: int)

  /** `PointSetInt`, the key of the visited map: a state without its steps. */
  datatype StateKey = StateKey(pointSet: seq<Point>, ownedKeys: nat)

  /** The outcome of a search: the fewest steps found, an exception, or the fuel running out. */
  datatype Outcome = Best(steps: int) | Raised | Unfinished

  // ---------------------------------------------------------------------------------------
  // Keys, doors and their bits
  // ---------------------------------------------------------------------------------------

  predicate IsLower(c: char)
  {
    'a' <= c <= 'z'
  }

  predicate IsUpper(c: char)
  {
    'A' <= c <= 'Z'
  }

  /** The bit that stands for key `c` (and for its door). */
  function Index(c: char): nat
    requires IsLower(c)
  {
    c as int - 'a' as int
  }

  /** `1 << (key.value - 'a')`: the mask of one key. */
  function KeyBit(c: char): (r: nat)
    requires IsLower(c)
    ensures forall i: nat :: Bit(r, i) <==> i == Index(c)
  {
    OnlyBit(Index(c));
    Shift(Index(c))
  }

  lemma OnlyBit(i: nat)
    ensures forall j: nat :: Bit(Shift(i), j) <==> j == i
  {
    forall j: nat
      ensures Bit(Shift(i), j) <==> j == i
    {
      BitShift(i, j);
    }
  }

  /** `1 << (currentValue - 'A')`: the mask of one door, which is the mask of its key. */
  function DoorBit(c: char): (r: nat)
    requires IsUpper(c)
    ensures r == KeyBit((c as int - 'A' as int + 'a' as int) as char)
  {
    Shift(c as int - 'A' as int)
  }

  /** The doors a cell adds to the gates of the cells after it: its own, when it is a door. */
  function Doors(c: char): nat
  {
    if IsUpper(c) then DoorBit(c) else 0
  }

  /** `State.hasKey`. */
  function HasKey(keyChain: nat, keyIndex: nat): bool
  {
    And(keyChain, keyIndex) == keyIndex
  }

  /** `State.isMissingRequiredKey`. */
  function IsMissingRequiredKey(keyChain: nat, obstacles: nat): bool
  {
    And(obstacles, keyChain) != obstacles
  }

  /** A key is held exactly when its bit is set in the key chain. */
  lemma HasKeyIff(keyChain: nat, c: char)
    requires IsLower(c)
    ensures HasKey(keyChain, KeyBit(c)) <==> Bit(keyChain, Index(c))
  {
    var bit := KeyBit(c);
    BitAnd(keyChain, bit, Index(c));
    if Bit(keyChain, Index(c)) {
      forall i: nat
        ensures Bit(And(keyChain, bit), i) <==> Bit(bit, i)
      {
        BitAnd(keyChain, bit, i);
      }
      SameBits(And(keyChain, bit), bit);
    }
  }

  /** The doors on a key's path bar it exactly when one of them has no key held for it. */
  lemma MissingIff(keyChain: nat, obstacles: nat)
    ensures IsMissingRequiredKey(keyChain, obstacles) <==>
      exists i: nat :: Bit(obstacles, i) && !Bit(keyChain, i)
  {
    var both := And(obstacles, keyChain);
    if both != obstacles {
      if forall i: nat :: Bit(both, i) <==> Bit(obstacles, i) {
        SameBits(both, obstacles);
      }
      var i: nat :| !(Bit(both, i) <==> Bit(obstacles, i));
      BitAnd(obstacles, keyChain, i);
    } else {
      forall i: nat | Bit(obstacles, i)
        ensures Bit(keyChain, i)
      {
        BitAnd(obstacles, keyChain, i);
      }
    }
  }

  /** `keyChain | keyIndex` holds the keys held before and the new one, and nothing else. */
  lemma AddKey(keyChain: nat, c: char)
    requires IsLower(c)
    ensures forall i: nat :: Bit(Or(keyChain, KeyBit(c)), i) <==> Bit(keyChain, i) || i == Index(c)
  {
    forall i: nat
      ensures Bit(Or(keyChain, KeyBit(c)), i) <==> Bit(keyChain, i) || i == Index(c)
    {
      BitOr(keyChain, KeyBit(c), i);
    }
  }

  /** Or-ing the same door in twice changes nothing. */
  lemma OrTwice(m: nat, bit: nat)
    ensures Or(Or(m, bit), bit) == Or(m, bit)
  {
    forall i: nat
      ensures Bit(Or(Or(m, bit), bit), i) <==> Bit(Or(m, bit), i)
    {
      BitOr(Or(m, bit), bit, i);
      BitOr(m, bit, i);
    }
    SameBits(Or(Or(m, bit), bit), Or(m, bit));
  }

  /** Or-ing nothing in changes nothing. */
  lemma OrNothing(m: nat)
    ensures Or(m, 0) == m
  {
  }

  // ---------------------------------------------------------------------------------------
  // The map
  // ---------------------------------------------------------------------------------------

  predicate InMap(grid: seq<string>, p: Point)
  {
    0 <= p.y < |grid| && 0 <= p.x < |grid[p.y]|
  }

  function At(grid: seq<string>, p: Point): char
    requires InMap(grid, p)
  {
    grid[p.y][p.x]
  }

  /** Two cells one step apart, across or down. */
  predicate Adjacent(p: Point, q: Point)
  {
    JavaMath.Abs(p.x - q.x) + JavaMath.Abs(p.y - q.y) == 1
  }

  /** The cells of `Point.surrounding`: up, left, right, down. */
  function Surrounding(p: Point): (r: seq<Point>)
    ensures |r| == 4 && forall k :: 0 <= k < 4 ==> Adjacent(p, r[k])
  {
    [Point(p.x, p.y - 1), Point(p.x - 1, p.y), Point(p.x + 1, p.y), Point(p.x, p.y + 1)]
  }

  /**
   * The source reads the neighbours of every open cell without a bounds check: the map's
   * open cells must be walled in.
   */
  ghost predicate Enclosed(grid: seq<string>)
  {
    forall p :: InMap(grid, p) && At(grid, p) != WALL ==>
      forall k :: 0 <= k < 4 ==> InMap(grid, Surrounding(p)[k])
  }

  ghost function Cells(grid: seq<string>): set<Point>
  {
    set y, x | 0 <= y < |grid| && 0 <= x < |grid[y]| :: Point(x, y)
  }

  /** `String.indexOf`: the first index of `c` in `line`, or -1. */
  function IndexOf(line: string, c: char): (r: int)
    ensures -1 <= r < |line|
    ensures r >= 0 ==> line[r] == c && c !in line[..r]
    ensures r == -1 <==> c !in line
  {
    if line == [] then -1
    else if line[0] == c then 0
    else
      var k := IndexOf(line[1..], c);
      assert forall j :: 0 <= j < |line| - 1 ==> line[1..][j] == line[j + 1];
      if k == -1 then -1 else k + 1
  }

  /** The first row from `y` on that holds `c`, and where. */
  function PointFrom(grid: seq<string>, c: char, y: nat): (r: Option<Point>)
    requires y <= |grid|
    ensures r.Some? ==> y <= r.value.y && InMap(grid, r.value) && At(grid, r.value) == c
    ensures r.Some? ==> c !in grid[r.value.y][..r.value.x] && forall row :: y <= row < r.value.y ==> c !in grid[row]
    ensures r.None? <==> forall row :: y <= row < |grid| ==> c !in grid[row]
    decreases |grid| - y
  {
    if y == |grid| then None
    else
      var x := IndexOf(grid[y], c);
      if x != -1 then Some(Point(x, y)) else PointFrom(grid, c, y + 1)
  }

  /** What `findPoint` returns: the first occurrence of `c`, row by row, or nothing. */
  function PointOf(c: char, grid: seq<string>): Option<Point>
  {
    PointFrom(grid, c, 0)
  }

  /**
   * `findPoint`: the first occurrence of `character`, scanning the rows in order; the
   * source raises `IllegalArgumentException` where this returns nothing.
   */
  method FindPoint(character: char, grid: seq<string>) returns (r: Option<Point>)
    ensures r == PointOf(character, grid)
    ensures r.Some? ==> InMap(grid, r.value) && At(grid, r.value) == character
    ensures r.None? <==> forall y :: 0 <= y < |grid| ==> character !in grid[y]
  {
    for y := 0 to |grid|
      invariant PointFrom(grid, character, y) == PointOf(character, grid)
    {
      var line := grid[y];
      var x := IndexOf(line, character);
      if x != -1 {
        return Some(Point(x, y));
      }
    }
    return None;
  }

  /** The keys of one row, in order (`interestingValues`). */
  function RowKeys(line: string): (r: seq<char>)
    ensures forall c :: c in r <==> IsLower(c) && c in line
  {
    if line == [] then []
    else
      assert forall c :: c in line <==> c == line[0] || c in line[1..];
      (if IsLower(line[0]) then [line[0]] else []) + RowKeys(line[1..])
  }

  /** `mapKeysFromMap`: every key of the map, row by row. */
  function MapKeys(grid: seq<string>): (r: seq<char>)
    ensures forall c :: c in r <==> IsLower(c) && exists y :: 0 <= y < |grid| && c in grid[y]
  {
    if grid == [] then []
    else
      var last := |grid| - 1;
      assert forall y :: 0 <= y < last ==> grid[..last][y] == grid[y];
      MapKeys(grid[..last]) + RowKeys(grid[last])
  }

  predicate Distinct(keys: seq<char>)
  {
    forall j, k :: 0 <= j < k < |keys| ==> keys[j] != keys[k]
  }

  /**
   * `getKeyPositions`: each key mapped to where `findPoint` finds it. The source's collector
   * raises on a key listed twice, and `findPoint` on a key the map lacks
   * (`KeyPositionsFail` says when).
   */
  function KeyPositions(grid: seq<string>, keys: seq<char>): (r: Option<map<char, Point>>)
    ensures r.Some? ==> forall c :: c in r.value <==> c in keys
    ensures r.Some? ==> forall c :: c in r.value ==> PointOf(c, grid) == Some(r.value[c])
    ensures r.Some? ==> |r.value| == |keys|
  {
    if keys == [] then Some(map[])
    else
      var last := |keys| - 1;
      var c := keys[last];
      assert forall d :: d in keys <==> d in keys[..last] || d == c;
      match KeyPositions(grid, keys[..last])
      case None => None
      case Some(m) =>
        var p := PointOf(c, grid);
        if p.None? || c in m then None else Some(m[c := p.value])
  }

  /** Every key listed is somewhere on the map. */
  predicate AllFound(grid: seq<string>, keys: seq<char>)
  {
    forall k :: 0 <= k < |keys| ==> PointOf(keys[k], grid).Some?
  }

  /** `getKeyPositions` succeeds exactly when no key is listed twice and the map holds each. */
  lemma {:induction false} KeyPositionsFail(grid: seq<string>, keys: seq<char>)
    ensures KeyPositions(grid, keys).Some? <==> Distinct(keys) && AllFound(grid, keys)
  {
    if keys != [] {
      var last := |keys| - 1;
      KeyPositionsFail(grid, keys[..last]);
      Snoc(grid, keys);
    }
  }

  lemma Snoc(grid: seq<string>, keys: seq<char>)
    requires keys != []
    ensures var last := |keys| - 1;
      && (Distinct(keys) <==> Distinct(keys[..last]) && keys[last] !in keys[..last])
      && (AllFound(grid, keys) <==> AllFound(grid, keys[..last]) && PointOf(keys[last], grid).Some?)
  {
    var last := |keys| - 1;
    var prefix := keys[..last];
    assert forall k :: 0 <= k < last ==> prefix[k] == keys[k];
    if keys[last] in prefix {
      var j :| 0 <= j < last && prefix[j] == keys[last];
      assert keys[j] == keys[last];
    }
  }

  // ---------------------------------------------------------------------------------------
  // findReachableKeys
  // ---------------------------------------------------------------------------------------

  /** A walk through the map: steps to adjacent cells, from open cells only. */
  ghost predicate Walk(grid: seq<string>, route: seq<Point>)
  {
    && |route| >= 1
    && (forall k :: 0 <= k < |route| ==> InMap(grid, route[k]))
    && (forall k :: 0 <= k < |route| - 1 ==> At(grid, route[k]) != WALL && Adjacent(route[k], route[k + 1]))
  }

  /** The doors a walk passes through, as a mask. */
  ghost function Gates(grid: seq<string>, route: seq<Point>): nat
    requires forall k :: 0 <= k < |route| ==> InMap(grid, route[k])
  {
    if route == [] then 0
    else Or(Gates(grid, route[..|route| - 1]), Doors(At(grid, route[|route| - 1])))
  }

  /**
   * A queued cell is what a walk from `start` leads to: its distance counts the walk's
   * steps and its gates are the doors crossed before it.
   */
  ghost predicate Tracks(grid: seq<string>, start: Point, r: Reach, route: seq<Point>)
  {
    && Walk(grid, route)
    && route[0] == start
    && route[|route| - 1] == r.point
    && r.distance == |route| - 1
    && r.gates == Gates(grid, route[..|route| - 1])
  }

  ghost predicate Searched(grid: seq<string>, start: Point, queue: seq<Reach>, routes: seq<seq<Point>>)
  {
    && |routes| == |queue|
    && forall i :: 0 <= i < |queue| ==> Tracks(grid, start, queue[i], routes[i])
  }

  /** A key found from `start` at `p`: a key there, met by a walk of its distance through its doors. */
  ghost predicate Finds(grid: seq<string>, start: Point, key: ReachableKey, p: Point)
  {
    && IsLower(key.value)
    && InMap(grid, p)
    && At(grid, p) == key.value
    && exists route :: Tracks(grid, start, Reach(p, key.distance, key.obstacles), route)
  }

  /** `Point.surrounding`: the four neighbours, one step further, with the same gates. */
  function Surround(r: Reach): (s: seq<Reach>)
    ensures |s| == 4
    ensures forall k :: 0 <= k < 4 ==>
      s[k].point == Surrounding(r.point)[k] && s[k].distance == r.distance + 1 && s[k].gates == r.gates
  {
    var around := Surrounding(r.point);
    seq(4, k requires 0 <= k < 4 => Reach(around[k], r.distance + 1, r.gates))
  }

  /** A walk to an open cell goes on to each of its neighbours, adding the cell's door. */
  lemma TracksOn(grid: seq<string>, start: Point, r: Reach, route: seq<Point>, next: Reach)
    requires Tracks(grid, start, r, route) && At(grid, r.point) != WALL
    requires InMap(grid, next.point) && Adjacent(r.point, next.point)
    requires next.distance == r.distance + 1 && next.gates == Or(r.gates, Doors(At(grid, r.point)))
    ensures Tracks(grid, start, next, route + [next.point])
  {
    var longer := route + [next.point];
    assert longer[..|longer| - 1] == route;
    assert route[..|route| - 1] == longer[..|longer| - 2];
  }

  lemma SearchedTail(grid: seq<string>, start: Point, queue: seq<Reach>, routes: seq<seq<Point>>)
    requires Searched(grid, start, queue, routes) && queue != []
    ensures Searched(grid, start, queue[1..], routes[1..]) && Tracks(grid, start, queue[0], routes[0])
  {
    forall i | 0 <= i < |queue| - 1
      ensures Tracks(grid, start, queue[1..][i], routes[1..][i])
    {
      assert queue[1..][i] == queue[i + 1] && routes[1..][i] == routes[i + 1];
    }
  }

  /** The neighbours of an open cell, with the gates they carry, are what walks lead to. */
  lemma SearchedOn(grid: seq<string>, start: Point, queue: seq<Reach>, routes: seq<seq<Point>>,
                   r: Reach, route: seq<Point>, around: seq<Reach>)
    requires Enclosed(grid) && Searched(grid, start, queue, routes)
    requires Tracks(grid, start, r, route) && At(grid, r.point) != WALL
    requires |around| == 4
    requires forall k :: 0 <= k < 4 ==>
      && around[k].point == Surrounding(r.point)[k]
      && around[k].distance == r.distance + 1
      && around[k].gates == Or(r.gates, Doors(At(grid, r.point)))
    ensures Searched(grid, start, queue + around, routes + Extended(route, around))
  {
    var more := Extended(route, around);
    forall i | 0 <= i < |queue| + 4
      ensures Tracks(grid, start, (queue + around)[i], (routes + more)[i])
    {
      if i < |queue| {
        assert (queue + around)[i] == queue[i] && (routes + more)[i] == routes[i];
      } else {
        var k := i - |queue|;
        assert (queue + around)[i] == around[k] && (routes + more)[i] == more[k];
        assert InMap(grid, Surrounding(r.point)[k]);
        TracksOn(grid, start, r, route, around[k]);
      }
    }
  }

  /**
   * The loop over the neighbours of a door: each takes the gates of the door's cell with the
   * door's bit added (the source adds it to the cell's own gates on every turn).
   */
  method PassDoor(point: Reach, bit: nat, surrounding: seq<Reach>) returns (passed: seq<Reach>)
    ensures |passed| == |surrounding|
    ensures forall j :: 0 <= j < |passed| ==> passed[j] == surrounding[j].(gates := Or(point.gates, bit))
  {
    passed := surrounding;
    var gates := point.gates;
    for k := 0 to |surrounding|
      invariant |passed| == |surrounding|
      invariant gates == if k == 0 then point.gates else Or(point.gates, bit)
      invariant forall j :: 0 <= j < k ==> passed[j] == surrounding[j].(gates := Or(point.gates, bit))
      invariant forall j :: k <= j < |passed| ==> passed[j] == surrounding[j]
    {
      OrTwice(point.gates, bit);
      gates := Or(gates, bit);
      passed := passed[k := passed[k].(gates := gates)];
    }
  }

  /** Visiting a cell of the map not visited before leaves fewer cells to visit. */
  lemma Unvisited(grid: seq<string>, visited: set<Point>, p: Point)
    requires InMap(grid, p) && p !in visited
    ensures |Cells(grid) - (visited + {p})| < |Cells(grid) - visited|
  {
    var a := Cells(grid) - visited;
    assert p in a;
    assert Cells(grid) - (visited + {p}) == a - {p};
    assert a == (a - {p}) + {p};
  }

  /** The routes to the neighbours: the route to their cell, one step on. */
  ghost function Extended(route: seq<Point>, around: seq<Reach>): (r: seq<seq<Point>>)
    ensures |r| == |around| && forall k :: 0 <= k < |around| ==> r[k] == route + [around[k].point]
  {
    seq(|around|, k requires 0 <= k < |around| => route + [around[k].point])
  }

  /**
   * What the search has listed so far: each key stands where a walk leads, at a cell it
   * expanded, and every expanded cell holding a key is listed; it expands each visited cell
   * at most once and never a wall.
   */
  ghost predicate Listed(grid: seq<string>, start: Point, list: seq<ReachableKey>, at: seq<Point>,
                         expanded: seq<Point>, visited: set<Point>)
  {
    && |at| == |list|
    && (forall k :: 0 <= k < |list| ==> Finds(grid, start, list[k], at[k]) && at[k] in visited && at[k] in expanded)
    && (forall j, k :: 0 <= j < k < |at| ==> at[j] != at[k])
    && (forall j, k :: 0 <= j < k < |expanded| ==> expanded[j] != expanded[k])
    && (forall k :: 0 <= k < |expanded| ==> expanded[k] in visited && InMap(grid, expanded[k]) && At(grid, expanded[k]) != WALL)
    && (forall k :: 0 <= k < |expanded| && IsLower(At(grid, expanded[k])) ==> expanded[k] in at)
  }

  /** Visiting a wall lists nothing. */
  lemma ListedVisit(grid: seq<string>, start: Point, list: seq<ReachableKey>, at: seq<Point>,
                    expanded: seq<Point>, visited: set<Point>, p: Point)
    requires Listed(grid, start, list, at, expanded, visited)
    ensures Listed(grid, start, list, at, expanded, visited + {p})
  {
  }

  /** Expanding a new open cell lists it, and the key on it if there is one. */
  lemma ListedOn(grid: seq<string>, start: Point, list: seq<ReachableKey>, at: seq<Point>,
                 expanded: seq<Point>, visited: set<Point>, p: Point, found: seq<ReachableKey>)
    requires Listed(grid, start, list, at, expanded, visited)
    requires p !in visited && InMap(grid, p) && At(grid, p) != WALL
    requires |found| <= 1 && (|found| == 1 <==> IsLower(At(grid, p)))
    requires forall k :: 0 <= k < |found| ==> Finds(grid, start, found[k], p)
    ensures Listed(grid, start, list + found, at + (if found == [] then [] else [p]), expanded + [p], visited + {p})
  {
    var at' := at + (if found == [] then [] else [p]);
    var expanded' := expanded + [p];
    forall j, k | 0 <= j < k < |at'|
      ensures at'[j] != at'[k]
    {
      if k >= |at| {
        assert at'[j] == at[j] && at[j] in visited;
      }
    }
    forall j, k | 0 <= j < k < |expanded'|
      ensures expanded'[j] != expanded'[k]
    {
      if k == |expanded| {
        assert expanded'[j] == expanded[j] && expanded[j] in visited;
      }
    }
    forall k | 0 <= k < |expanded'| && IsLower(At(grid, expanded'[k]))
      ensures expanded'[k] in at'
    {
      if k == |expanded| {
        assert at'[|at|] == p;
      } else {
        assert expanded'[k] == expanded[k];
      }
    }
  }

  /** Some queued cell is at `q`. */
  ghost predicate Pending(queue: seq<Reach>, q: Point)
  {
    exists j :: 0 <= j < |queue| && queue[j].point == q
  }

  /** Every neighbour of an expanded cell has been visited or is still queued. */
  ghost predicate Closed(expanded: seq<Point>, visited: set<Point>, queue: seq<Reach>)
  {
    forall k, d :: 0 <= k < |expanded| && 0 <= d < 4 ==>
      Surrounding(expanded[k])[d] in visited || Pending(queue, Surrounding(expanded[k])[d])
  }

  /** Taking the head of the queue, and expanding it when `grown`, keeps every neighbour accounted for. */
  lemma ClosedOn(expanded: seq<Point>, visited: set<Point>, queue: seq<Reach>, grown: bool, more: seq<Reach>)
    requires Closed(expanded, visited, queue) && queue != []
    requires grown ==> forall d :: 0 <= d < 4 ==> Pending(more, Surrounding(queue[0].point)[d])
    ensures Closed(if grown then expanded + [queue[0].point] else expanded, visited + {queue[0].point}, queue[1..] + more)
  {
    var p := queue[0].point;
    var expanded' := if grown then expanded + [p] else expanded;
    var queue' := queue[1..] + more;
    forall k, d | 0 <= k < |expanded'| && 0 <= d < 4
      ensures Surrounding(expanded'[k])[d] in visited + {p} || Pending(queue', Surrounding(expanded'[k])[d])
    {
      var n := Surrounding(expanded'[k])[d];
      if k < |expanded| {
        assert expanded'[k] == expanded[k];
        if n !in visited && n != p {
          var j :| 0 <= j < |queue| && queue[j].point == n;
          assert queue'[j - 1] == queue[j];
        }
      } else {
        var j :| 0 <= j < |more| && more[j].point == n;
        assert queue'[|queue| - 1 + j] == more[j];
      }
    }
  }

  /**
   * What a finished search has explored: every key it lists stands on a cell it expanded,
   * every expanded key cell is listed, the start is expanded unless it is a wall, and every
   * open neighbour of an expanded cell is expanded too.
   */
  ghost predicate Explored(grid: seq<string>, start: Point, at: seq<Point>, expanded: seq<Point>)
  {
    && (forall k :: 0 <= k < |at| ==> at[k] in expanded)
    && (forall k :: 0 <= k < |expanded| ==> InMap(grid, expanded[k]) && At(grid, expanded[k]) != WALL)
    && (forall k :: 0 <= k < |expanded| && IsLower(At(grid, expanded[k])) ==> expanded[k] in at)
    && (InMap(grid, start) && At(grid, start) != WALL ==> start in expanded)
    && (forall k, d :: 0 <= k < |expanded| && 0 <= d < 4 && InMap(grid, Surrounding(expanded[k])[d])
                       && At(grid, Surrounding(expanded[k])[d]) != WALL
                       ==> Surrounding(expanded[k])[d] in expanded)
  }

  /** Every visited cell was expanded or is a wall. */
  ghost predicate Settled(grid: seq<string>, expanded: seq<Point>, visited: set<Point>)
  {
    forall v :: v in visited ==> v in expanded || (InMap(grid, v) && At(grid, v) == WALL)
  }

  /** An open start is expanded, or is still the only thing the search has taken up. */
  ghost predicate StartTaken(grid: seq<string>, start: Point, expanded: seq<Point>, visited: set<Point>, queue: seq<Reach>)
  {
    InMap(grid, start) && At(grid, start) != WALL ==>
      start in expanded || (visited == {} && queue != [] && queue[0].point == start)
  }

  /** What the queue and the visited cells promise about the cells expanded so far. */
  ghost predicate Frontier(grid: seq<string>, start: Point, expanded: seq<Point>, visited: set<Point>, queue: seq<Reach>)
  {
    Closed(expanded, visited, queue) && Settled(grid, expanded, visited) && StartTaken(grid, start, expanded, visited, queue)
  }

  /** Dropping the head of the queue, already visited or a wall, keeps the frontier. */
  lemma FrontierSkip(grid: seq<string>, start: Point, expanded: seq<Point>, visited: set<Point>, queue: seq<Reach>)
    requires Frontier(grid, start, expanded, visited, queue) && queue != []
    requires queue[0].point in visited || (InMap(grid, queue[0].point) && At(grid, queue[0].point) == WALL)
    ensures Frontier(grid, start, expanded, visited + {queue[0].point}, queue[1..])
  {
    ClosedOn(expanded, visited, queue, false, []);
    assert queue[1..] + [] == queue[1..];
  }

  /** Expanding the head of the queue, an open cell not visited, and queueing its neighbours keeps the frontier. */
  lemma FrontierOn(grid: seq<string>, start: Point, expanded: seq<Point>, visited: set<Point>, queue: seq<Reach>,
                   more: seq<Reach>)
    requires Frontier(grid, start, expanded, visited, queue) && queue != []
    requires |more| == 4 && forall d :: 0 <= d < 4 ==> more[d].point == Surrounding(queue[0].point)[d]
    ensures Frontier(grid, start, expanded + [queue[0].point], visited + {queue[0].point}, queue[1..] + more)
  {
    forall d | 0 <= d < 4
      ensures Pending(more, Surrounding(queue[0].point)[d])
    {
      assert more[d].point == Surrounding(queue[0].point)[d];
    }
    ClosedOn(expanded, visited, queue, true, more);
  }

  /** The invariant of the search loop: the queue, the list and the frontier. */
  ghost predicate Searching(grid: seq<string>, start: Point, list: seq<ReachableKey>, at: seq<Point>, expanded: seq<Point>,
                            visited: set<Point>, queue: seq<Reach>, routes: seq<seq<Point>>)
  {
    && Searched(grid, start, queue, routes)
    && Listed(grid, start, list, at, expanded, visited)
    && Frontier(grid, start, expanded, visited, queue)
  }

  /** Dropping the head of the queue, already visited or a wall, keeps the loop's invariant. */
  lemma SearchingSkip(grid: seq<string>, start: Point, list: seq<ReachableKey>, at: seq<Point>, expanded: seq<Point>,
                      visited: set<Point>, queue: seq<Reach>, routes: seq<seq<Point>>)
    requires Searching(grid, start, list, at, expanded, visited, queue, routes) && queue != []
    requires queue[0].point in visited || (InMap(grid, queue[0].point) && At(grid, queue[0].point) == WALL)
    ensures Searching(grid, start, list, at, expanded, visited + {queue[0].point}, queue[1..], routes[1..])
  {
    SearchedTail(grid, start, queue, routes);
    ListedVisit(grid, start, list, at, expanded, visited, queue[0].point);
    FrontierSkip(grid, start, expanded, visited, queue);
  }

  /**
   * Expanding the head of the queue, an open cell not visited, listing its key if it holds
   * one and queueing its neighbours with its door added keeps the loop's invariant.
   */
  lemma SearchingOn(grid: seq<string>, start: Point, list: seq<ReachableKey>, at: seq<Point>, expanded: seq<Point>,
                    visited: set<Point>, queue: seq<Reach>, routes: seq<seq<Point>>,
                    found: seq<ReachableKey>, around: seq<Reach>)
    requires Enclosed(grid) && Searching(grid, start, list, at, expanded, visited, queue, routes) && queue != []
    requires var p := queue[0].point;
      && p !in visited && InMap(grid, p) && At(grid, p) != WALL
      && |found| <= 1 && (|found| == 1 <==> IsLower(At(grid, p)))
      && (forall k :: 0 <= k < |found| ==> Finds(grid, start, found[k], p))
    requires |around| == 4
    requires forall k :: 0 <= k < 4 ==>
      && around[k].point == Surrounding(queue[0].point)[k]
      && around[k].distance == queue[0].distance + 1
      && around[k].gates == Or(queue[0].gates, Doors(At(grid, queue[0].point)))
    ensures var p := queue[0].point;
      Searching(grid, start, list + found, at + (if found == [] then [] else [p]), expanded + [p], visited + {p},
                queue[1..] + around, routes[1..] + Extended(routes[0], around))
  {
    SearchedTail(grid, start, queue, routes);
    ListedOn(grid, start, list, at, expanded, visited, queue[0].point, found);
    FrontierOn(grid, start, expanded, visited, queue, around);
    SearchedOn(grid, start, queue[1..], routes[1..], queue[0], routes[0], around);
  }

  /** Once the queue is empty, what the search listed and expanded is explored. */
  lemma ExploredAtEnd(grid: seq<string>, start: Point, list: seq<ReachableKey>, at: seq<Point>,
                      expanded: seq<Point>, visited: set<Point>)
    requires Listed(grid, start, list, at, expanded, visited) && Frontier(grid, start, expanded, visited, [])
    ensures Explored(grid, start, at, expanded)
  {
    forall k, d | 0 <= k < |expanded| && 0 <= d < 4 && InMap(grid, Surrounding(expanded[k])[d])
                  && At(grid, Surrounding(expanded[k])[d]) != WALL
      ensures Surrounding(expanded[k])[d] in expanded
    {
      assert !Pending([], Surrounding(expanded[k])[d]);
    }
  }

  /**
   * One pass of the loop of `findReachableKeys`: take the head of the queue; skip it when
   * it was visited or is a wall; otherwise list its key, if any, and queue its neighbours,
   * carrying its door.
   */
  method Visit(grid: seq<string>, start: Point, list: seq<ReachableKey>, ghost at: seq<Point>, ghost expanded: seq<Point>,
               visited: set<Point>, queue: seq<Reach>, ghost routes: seq<seq<Point>>)
    returns (list': seq<ReachableKey>, ghost at': seq<Point>, ghost expanded': seq<Point>,
             visited': set<Point>, queue': seq<Reach>, ghost routes': seq<seq<Point>>)
    requires Enclosed(grid) && Searching(grid, start, list, at, expanded, visited, queue, routes) && queue != []
    ensures Searching(grid, start, list', at', expanded', visited', queue', routes')
    ensures |Cells(grid) - visited'| < |Cells(grid) - visited|
            || (|Cells(grid) - visited'| == |Cells(grid) - visited| && |queue'| < |queue|)
  {
    var point := queue[0];
    SearchedTail(grid, start, queue, routes);
    if point.point in visited {
      SearchingSkip(grid, start, list, at, expanded, visited, queue, routes);
      assert visited + {point.point} == visited;
      return list, at, expanded, visited, queue[1..], routes[1..];
    }

    Unvisited(grid, visited, point.point);
    var currentValue := At(grid, point.point);
    if currentValue == WALL {
      SearchingSkip(grid, start, list, at, expanded, visited, queue, routes);
      return list, at, expanded, visited + {point.point}, queue[1..], routes[1..];
    }

    // The source queues the neighbours before it writes the door into their gates; they
    // are the same objects, so what it queues carries the door.
    var surrounding := Surround(point);
    var found := [];
    if IsLower(currentValue) {
      found := [ReachableKey(point.distance, currentValue, point.gates)];
      assert Finds(grid, start, found[0], point.point);
    } else if IsUpper(currentValue) {
      surrounding := PassDoor(point, DoorBit(currentValue), surrounding);
    }
    OrNothing(point.gates);
    SearchingOn(grid, start, list, at, expanded, visited, queue, routes, found, surrounding);
    list', at' := list + found, at + (if found == [] then [] else [point.point]);
    expanded', visited' := expanded + [point.point], visited + {point.point};
    queue', routes' := queue[1..] + surrounding, routes[1..] + Extended(routes[0], surrounding);
  }

  /**
   * `findReachableKeys`: the breadth-first search from `start`. Every key it lists stands
   * where a walk from `start` leads, at the walk's length, behind exactly the doors the
   * walk crosses, and no cell's key is listed twice. The cells it expands (`expanded`, each
   * at most once, none a wall) hold every listed key, contain the start unless it is a wall,
   * and are closed under open neighbours, so every key a walk reaches is listed
   * (`KeysListed`).
   */
  method FindReachableKeys(grid: seq<string>, start: Point)
    returns (list: seq<ReachableKey>, ghost at: seq<Point>, ghost expanded: seq<Point>)
    requires Enclosed(grid) && InMap(grid, start)
    ensures |at| == |list| && forall k :: 0 <= k < |list| ==> Finds(grid, start, list[k], at[k])
    ensures forall j, k :: 0 <= j < k < |at| ==> at[j] != at[k]
    ensures forall j, k :: 0 <= j < k < |expanded| ==> expanded[j] != expanded[k]
    ensures Explored(grid, start, at, expanded)
  {
    list, at, expanded := [], [], [];
    var visited: set<Point> := {};
    var queue := [Reach(start, 0, 0)];
    ghost var routes: seq<seq<Point>> := [[start]];
    assert Tracks(grid, start, queue[0], routes[0]);
    while |queue| > 0
      invariant Searching(grid, start, list, at, expanded, visited, queue, routes)
      decreases |Cells(grid) - visited|, |queue|
    {
      list, at, expanded, visited, queue, routes := Visit(grid, start, list, at, expanded, visited, queue, routes);
    }
    ExploredAtEnd(grid, start, list, at, expanded, visited);
  }

  /** A cell one step from `p` is one of its four neighbours. */
  lemma AdjacentIsSurrounding(p: Point, q: Point)
    requires Adjacent(p, q)
    ensures exists d :: 0 <= d < 4 && Surrounding(p)[d] == q
  {
    if q.y < p.y { assert Surrounding(p)[0] == q; }
    else if q.x < p.x { assert Surrounding(p)[1] == q; }
    else if q.x > p.x { assert Surrounding(p)[2] == q; }
    else { assert Surrounding(p)[3] == q; }
  }

  /** Every open cell of a walk from the start is expanded. */
  lemma {:induction false} WalkExpanded(grid: seq<string>, start: Point, at: seq<Point>, expanded: seq<Point>,
                                        route: seq<Point>, k: nat)
    requires Explored(grid, start, at, expanded)
    requires Walk(grid, route) && route[0] == start && k < |route|
    ensures At(grid, route[k]) != WALL ==> route[k] in expanded
  {
    if k > 0 && At(grid, route[k]) != WALL {
      WalkExpanded(grid, start, at, expanded, route, k - 1);
      var e :| 0 <= e < |expanded| && expanded[e] == route[k - 1];
      AdjacentIsSurrounding(route[k - 1], route[k]);
      var d :| 0 <= d < 4 && Surrounding(route[k - 1])[d] == route[k];
      assert Surrounding(expanded[e])[d] == route[k];
    }
  }

  /**
   * The key list of a finished search is complete: a key that any walk from the start
   * reaches is listed, at its own cell.
   */
  lemma KeysListed(grid: seq<string>, start: Point, at: seq<Point>, expanded: seq<Point>, route: seq<Point>)
    requires Explored(grid, start, at, expanded)
    requires Walk(grid, route) && route[0] == start && IsLower(At(grid, route[|route| - 1]))
    ensures route[|route| - 1] in at
  {
    WalkExpanded(grid, start, at, expanded, route, |route| - 1);
    var e :| 0 <= e < |expanded| && expanded[e] == route[|route| - 1];
  }

  // ---------------------------------------------------------------------------------------
  // findBestWalk
  // ---------------------------------------------------------------------------------------

  /** Whether key `c` is on a key chain. */
  predicate Holds(keyChain: nat, c: char)
    requires IsLower(c)
  {
    Bit(keyChain, Index(c))
  }

  /**
   * The key tables fit together: every key listed from a position is a letter whose own
   * position has a list of its own (the source looks both up without a check).
   */
  ghost predicate Linked(keyPaths: map<Point, seq<ReachableKey>>, positions: map<char, Point>)
  {
    forall p, k :: p in keyPaths && 0 <= k < |keyPaths[p]| ==>
      && IsLower(keyPaths[p][k].value)
      && keyPaths[p][k].value in positions
      && positions[keyPaths[p][k].value] in keyPaths
  }

  /** Every robot stands where a list of keys starts. */
  ghost predicate Placed(keyPaths: map<Point, seq<ReachableKey>>, s: State)
  {
    forall i :: 0 <= i < |s.positions| ==> s.positions[i] in keyPaths
  }

  /** The test of the inner loop: the key is not held yet and no door on its path lacks its key. */
  predicate Opens(s: State, key: ReachableKey)
    requires IsLower(key.value)
  {
    !HasKey(s.keyChain, KeyBit(key.value)) && !IsMissingRequiredKey(s.keyChain, key.obstacles)
  }

  /** A key opens exactly when it is not held and every door on its path has its key held. */
  lemma OpensIff(s: State, key: ReachableKey)
    requires IsLower(key.value)
    ensures Opens(s, key) <==>
      !Holds(s.keyChain, key.value) && forall i: nat :: Bit(key.obstacles, i) ==> Bit(s.keyChain, i)
  {
    HasKeyIff(s.keyChain, key.value);
    MissingIff(s.keyChain, key.obstacles);
  }

  /**
   * Robot `i` walks to the key: only it moves, the chain gains the key's bit and no other,
   * and the steps grow by the key's distance.
   */
  function Moved(s: State, i: nat, key: ReachableKey, to: Point): (t: State)
    requires i < |s.positions| && IsLower(key.value)
    ensures |t.positions| == |s.positions| && t.positions[i] == to
    ensures forall j :: 0 <= j < |s.positions| && j != i ==> t.positions[j] == s.positions[j]
    ensures forall b: nat :: Bit(t.keyChain, b) <==> Bit(s.keyChain, b) || b == Index(key.value)
    ensures t.steps == s.steps + key.distance
  {
    AddKey(s.keyChain, key.value);
    State(s.positions[i := to], Or(s.keyChain, KeyBit(key.value)), s.steps + key.distance)
  }

  /** The states robot `i` reaches by the keys of `keys`, in the order of the list. */
  function KeyMoves(positions: map<char, Point>, s: State, i: nat, keys: seq<ReachableKey>): seq<State>
    requires i < |s.positions|
    requires forall k :: 0 <= k < |keys| ==> IsLower(keys[k].value) && keys[k].value in positions
  {
    if keys == [] then []
    else
      var key := keys[|keys| - 1];
      KeyMoves(positions, s, i, keys[..|keys| - 1])
        + (if Opens(s, key) then [Moved(s, i, key, positions[key.value])] else [])
  }

  /** The states the first `n` robots reach, robot by robot. */
  function RobotMoves(keyPaths: map<Point, seq<ReachableKey>>, positions: map<char, Point>, s: State, n: nat): seq<State>
    requires Linked(keyPaths, positions) && Placed(keyPaths, s) && n <= |s.positions|
  {
    if n == 0 then []
    else RobotMoves(keyPaths, positions, s, n - 1) + KeyMoves(positions, s, n - 1, keyPaths[s.positions[n - 1]])
  }

  /** What the two inner loops of `findBestWalk` queue after a state, in their order. */
  function Successors(keyPaths: map<Point, seq<ReachableKey>>, positions: map<char, Point>, s: State): seq<State>
    requires Linked(keyPaths, positions) && Placed(keyPaths, s)
  {
    RobotMoves(keyPaths, positions, s, |s.positions|)
  }

  /** One move: a robot takes a key listed from where it stands, if the key opens. */
  ghost predicate Step(keyPaths: map<Point, seq<ReachableKey>>, positions: map<char, Point>, s: State, t: State)
    requires Linked(keyPaths, positions) && Placed(keyPaths, s)
  {
    exists i, k :: 0 <= i < |s.positions| && 0 <= k < |keyPaths[s.positions[i]]| &&
      var key := keyPaths[s.positions[i]][k];
      Opens(s, key) && t == Moved(s, i, key, positions[key.value])
  }

  /** Robot `i` takes one of `keys`, one that opens. */
  ghost predicate KeyStep(positions: map<char, Point>, s: State, i: nat, keys: seq<ReachableKey>, t: State)
    requires i < |s.positions|
    requires forall k :: 0 <= k < |keys| ==> IsLower(keys[k].value) && keys[k].value in positions
  {
    exists k :: 0 <= k < |keys| && Opens(s, keys[k]) && t == Moved(s, i, keys[k], positions[keys[k].value])
  }

  /** One of the first `n` robots takes a key listed from where it stands, one that opens. */
  ghost predicate RobotStep(keyPaths: map<Point, seq<ReachableKey>>, positions: map<char, Point>, s: State, n: nat, t: State)
    requires Linked(keyPaths, positions) && Placed(keyPaths, s) && n <= |s.positions|
  {
    exists i :: 0 <= i < n && KeyStep(positions, s, i, keyPaths[s.positions[i]], t)
  }

  lemma {:induction false} KeyMovesIff(positions: map<char, Point>, s: State, i: nat, keys: seq<ReachableKey>, t: State)
    requires i < |s.positions|
    requires forall k :: 0 <= k < |keys| ==> IsLower(keys[k].value) && keys[k].value in positions
    ensures t in KeyMoves(positions, s, i, keys) <==> KeyStep(positions, s, i, keys, t)
  {
    if keys != [] {
      var last := |keys| - 1;
      var prefix := keys[..last];
      KeyMovesIff(positions, s, i, prefix, t);
      assert forall k :: 0 <= k < last ==> prefix[k] == keys[k];
      if KeyStep(positions, s, i, prefix, t) {
        var k :| 0 <= k < last && Opens(s, prefix[k]) && t == Moved(s, i, prefix[k], positions[prefix[k].value]);
        assert keys[k] == prefix[k];
      }
    }
  }

  lemma {:induction false} RobotMovesIff(keyPaths: map<Point, seq<ReachableKey>>, positions: map<char, Point>,
                                         s: State, n: nat, t: State)
    requires Linked(keyPaths, positions) && Placed(keyPaths, s) && n <= |s.positions|
    ensures t in RobotMoves(keyPaths, positions, s, n) <==> RobotStep(keyPaths, positions, s, n, t)
  {
    if n > 0 {
      var keys := keyPaths[s.positions[n - 1]];
      RobotMovesIff(keyPaths, positions, s, n - 1, t);
      KeyMovesIff(positions, s, n - 1, keys, t);
      if RobotStep(keyPaths, positions, s, n, t) {
        var i :| 0 <= i < n && KeyStep(positions, s, i, keyPaths[s.positions[i]], t);
        if i < n - 1 {
          assert RobotStep(keyPaths, positions, s, n - 1, t);
        }
      }
      if RobotStep(keyPaths, positions, s, n - 1, t) {
        var i :| 0 <= i < n - 1 && KeyStep(positions, s, i, keyPaths[s.positions[i]], t);
        assert RobotStep(keyPaths, positions, s, n, t);
      }
    }
  }

  /**
   * The states queued after `s` are exactly its moves: no robot takes a key it holds or one
   * behind a door whose key it lacks (`OpensIff`), and every other listed key is taken.
   */
  lemma SuccessorsIff(keyPaths: map<Point, seq<ReachableKey>>, positions: map<char, Point>, s: State, t: State)
    requires Linked(keyPaths, positions) && Placed(keyPaths, s)
    ensures t in Successors(keyPaths, positions, s) <==> Step(keyPaths, positions, s, t)
  {
    RobotMovesIff(keyPaths, positions, s, |s.positions|, t);
    if RobotStep(keyPaths, positions, s, |s.positions|, t) {
      var i :| 0 <= i < |s.positions| && KeyStep(positions, s, i, keyPaths[s.positions[i]], t);
      var keys := keyPaths[s.positions[i]];
      var k :| 0 <= k < |keys| && Opens(s, keys[k]) && t == Moved(s, i, keys[k], positions[keys[k].value]);
      assert Step(keyPaths, positions, s, t);
    }
    if Step(keyPaths, positions, s, t) {
      var i, k :| 0 <= i < |s.positions| && 0 <= k < |keyPaths[s.positions[i]]| &&
        var key := keyPaths[s.positions[i]][k];
        Opens(s, key) && t == Moved(s, i, key, positions[key.value]);
      assert KeyStep(positions, s, i, keyPaths[s.positions[i]], t);
    }
  }

  /** After a move every robot still stands where a list of keys starts. */
  lemma SuccessorsPlaced(keyPaths: map<Point, seq<ReachableKey>>, positions: map<char, Point>, s: State, t: State)
    requires Linked(keyPaths, positions) && Placed(keyPaths, s) && t in Successors(keyPaths, positions, s)
    ensures Placed(keyPaths, t)
  {
    SuccessorsIff(keyPaths, positions, s, t);
  }

  /** A chain of moves. */
  ghost predicate Leads(keyPaths: map<Point, seq<ReachableKey>>, positions: map<char, Point>, route: seq<State>)
    requires Linked(keyPaths, positions)
  {
    && |route| >= 1
    && (forall k :: 0 <= k < |route| ==> Placed(keyPaths, route[k]))
    && (forall k :: 0 <= k < |route| - 1 ==> route[k + 1] in Successors(keyPaths, positions, route[k]))
  }

  ghost predicate Reachable(keyPaths: map<Point, seq<ReachableKey>>, positions: map<char, Point>, start: State, s: State)
    requires Linked(keyPaths, positions)
  {
    exists route :: Leads(keyPaths, positions, route) && route[0] == start && route[|route| - 1] == s
  }

  ghost predicate AllReachable(keyPaths: map<Point, seq<ReachableKey>>, positions: map<char, Point>, start: State,
                               states: seq<State>)
    requires Linked(keyPaths, positions)
  {
    forall k :: 0 <= k < |states| ==> Reachable(keyPaths, positions, start, states[k])
  }

  lemma AllReachablePop(keyPaths: map<Point, seq<ReachableKey>>, positions: map<char, Point>, start: State,
                        states: seq<State>)
    requires Linked(keyPaths, positions) && AllReachable(keyPaths, positions, start, states) && states != []
    ensures Reachable(keyPaths, positions, start, states[0]) && AllReachable(keyPaths, positions, start, states[1..])
  {
    assert forall k :: 0 <= k < |states| - 1 ==> states[1..][k] == states[k + 1];
  }

  lemma AllReachablePush(keyPaths: map<Point, seq<ReachableKey>>, positions: map<char, Point>, start: State,
                         states: seq<State>, s: State)
    requires Linked(keyPaths, positions) && AllReachable(keyPaths, positions, start, states)
    requires Reachable(keyPaths, positions, start, s)
    ensures AllReachable(keyPaths, positions, start, states + [s])
  {
    assert forall k :: 0 <= k < |states| ==> (states + [s])[k] == states[k];
  }

  lemma ReachablePlaced(keyPaths: map<Point, seq<ReachableKey>>, positions: map<char, Point>, start: State, s: State)
    requires Linked(keyPaths, positions) && Reachable(keyPaths, positions, start, s)
    ensures Placed(keyPaths, s)
  {
  }

  /** A chain of moves extended by one more move is a chain of moves. */
  lemma LeadsOn(keyPaths: map<Point, seq<ReachableKey>>, positions: map<char, Point>, route: seq<State>, t: State)
    requires Linked(keyPaths, positions) && Leads(keyPaths, positions, route)
    requires t in Successors(keyPaths, positions, route[|route| - 1])
    ensures Leads(keyPaths, positions, route + [t])
  {
    SuccessorsPlaced(keyPaths, positions, route[|route| - 1], t);
    var longer := route + [t];
    assert forall j :: 0 <= j < |route| ==> longer[j] == route[j];
  }

  /** The moves after a reachable state are reachable, so what the queue gains is. */
  lemma ReachableOn(keyPaths: map<Point, seq<ReachableKey>>, positions: map<char, Point>, start: State,
                    queue: seq<State>, s: State)
    requires Linked(keyPaths, positions) && Reachable(keyPaths, positions, start, s)
    requires AllReachable(keyPaths, positions, start, queue)
    ensures Placed(keyPaths, s)
    ensures AllReachable(keyPaths, positions, start, queue + Successors(keyPaths, positions, s))
  {
    var route :| Leads(keyPaths, positions, route) && route[0] == start && route[|route| - 1] == s;
    var successors := Successors(keyPaths, positions, s);
    var next := queue + successors;
    forall k | 0 <= k < |next|
      ensures Reachable(keyPaths, positions, start, next[k])
    {
      if k >= |queue| {
        var t := successors[k - |queue|];
        assert next[k] == t;
        LeadsOn(keyPaths, positions, route, t);
        assert (route + [t])[|route|] == t;
      } else {
        assert next[k] == queue[k];
      }
    }
  }

  /** A state holding every key. */
  predicate Complete(s: State, allKeys: int)
  {
    s.keyChain == allKeys
  }

  /**
   * `currentMinimum`: at most `Integer.MAX_VALUE`, no more than the steps of any complete
   * state examined, and the steps of one of them unless it is still `Integer.MAX_VALUE`.
   */
  ghost predicate Cheapest(m: int, examined: seq<State>, allKeys: int)
  {
    && m <= MAX_INT
    && (forall j :: 0 <= j < |examined| && Complete(examined[j], allKeys) ==> m <= examined[j].steps)
    && (m == MAX_INT || exists j :: 0 <= j < |examined| && Complete(examined[j], allKeys) && examined[j].steps == m)
  }

  /** Examining one more state keeps `currentMinimum` the cheapest, taking the state in if complete. */
  lemma CheapestOn(m: int, examined: seq<State>, allKeys: int, s: State)
    requires Cheapest(m, examined, allKeys)
    ensures Complete(s, allKeys) ==> Cheapest(if s.steps < m then s.steps else m, examined + [s], allKeys)
    ensures !Complete(s, allKeys) ==> Cheapest(m, examined + [s], allKeys)
  {
    var longer := examined + [s];
    assert forall j :: 0 <= j < |examined| ==> longer[j] == examined[j];
    if m != MAX_INT {
      var j :| 0 <= j < |examined| && Complete(examined[j], allKeys) && examined[j].steps == m;
      assert longer[j] == examined[j];
    }
    if Complete(s, allKeys) && s.steps < m {
      assert longer[|examined|] == s;
    }
  }

  function KeyOf(s: State): StateKey
  {
    StateKey(s.positions, s.keyChain)
  }

  /** A state is examined again only when it comes back in strictly fewer steps. */
  ghost predicate Pruned(examined: seq<State>)
  {
    forall j, k :: 0 <= j < k < |examined| && KeyOf(examined[j]) == KeyOf(examined[k]) ==>
      examined[k].steps < examined[j].steps
  }

  /** The visited map holds, for each state examined, no more than the steps it had. */
  ghost predicate Remembers(visited: map<StateKey, int>, examined: seq<State>)
  {
    forall j :: 0 <= j < |examined| ==> KeyOf(examined[j]) in visited && visited[KeyOf(examined[j])] <= examined[j].steps
  }

  lemma PrunedOn(visited: map<StateKey, int>, examined: seq<State>, s: State)
    requires Pruned(examined) && Remembers(visited, examined)
    requires KeyOf(s) in visited ==> s.steps < visited[KeyOf(s)]
    ensures Pruned(examined + [s]) && Remembers(visited[KeyOf(s) := s.steps], examined + [s])
  {
    var longer := examined + [s];
    forall j, k | 0 <= j < k < |longer| && KeyOf(longer[j]) == KeyOf(longer[k])
      ensures longer[k].steps < longer[j].steps
    {
      if k == |examined| {
        assert longer[j] == examined[j];
      } else {
        assert longer[j] == examined[j] && longer[k] == examined[k];
      }
    }
  }

  /** Where `findPoint` finds each robot. */
  function StartPositions(grid: seq<string>, robots: seq<char>): (r: seq<Point>)
    requires AllFound(grid, robots)
    ensures |r| == |robots| && forall k :: 0 <= k < |robots| ==> Some(r[k]) == PointOf(robots[k], grid)
  {
    if robots == [] then []
    else
      var last := |robots| - 1;
      assert forall k :: 0 <= k < last ==> robots[..last][k] == robots[k];
      StartPositions(grid, robots[..last]) + [PointOf(robots[last], grid).value]
  }

  /** The state the search starts from: the robots where they stand, no keys, no steps. */
  function Start(grid: seq<string>, robots: seq<char>): State
    requires AllFound(grid, robots)
  {
    State(StartPositions(grid, robots), 0, 0)
  }

  /**
   * The two inner loops of `findBestWalk`: for each robot, each key listed from where it
   * stands, queued unless held or behind a door whose key is missing.
   */
  method Expand(keyPaths: map<Point, seq<ReachableKey>>, positions: map<char, Point>, state: State)
    returns (next: seq<State>)
    requires Linked(keyPaths, positions) && Placed(keyPaths, state)
    ensures next == Successors(keyPaths, positions, state)
  {
    next := [];
    for i := 0 to |state.positions|
      invariant next == RobotMoves(keyPaths, positions, state, i)
    {
      var keys := keyPaths[state.positions[i]];
      for j := 0 to |keys|
        invariant next == RobotMoves(keyPaths, positions, state, i) + KeyMoves(positions, state, i, keys[..j])
      {
        var key := keys[j];
        assert keys[..j + 1][..j] == keys[..j];
        var keyIndex := KeyBit(key.value);
        if HasKey(state.keyChain, keyIndex) || IsMissingRequiredKey(state.keyChain, key.obstacles) {
          continue;
        }
        var newOwned := Or(state.keyChain, keyIndex);
        var newPositions := state.positions[i := positions[key.value]];
        next := next + [State(newPositions, newOwned, state.steps + key.distance)];
      }
      assert keys[..|keys|] == keys;
    }
  }

  /**
   * `findBestWalk`, for at most `fuel` turns of its loop. It raises when a robot is not on
   * the map. Otherwise every state it examines is reachable from the start by moves, a state
   * is examined again only in strictly fewer steps (`Pruned`), and the result is the fewest
   * steps of a complete state examined, or `Integer.MAX_VALUE` when none was.
   */
  method FindBestWalk(grid: seq<string>, keyPaths: map<Point, seq<ReachableKey>>, positions: map<char, Point>,
                      robots: seq<char>, fuel: nat)
    returns (r: Outcome, ghost examined: seq<State>)
    requires |robots| <= 4 && Linked(keyPaths, positions)
    requires forall k :: 0 <= k < |robots| && PointOf(robots[k], grid).Some? ==> PointOf(robots[k], grid).value in keyPaths
    ensures r.Raised? <==> !AllFound(grid, robots)
    ensures r.Best? ==> AllFound(grid, robots) && Cheapest(r.steps, examined, JavaMath.Pow2(|positions|) - 1)
    ensures r.Best? ==> AllReachable(keyPaths, positions, Start(grid, robots), examined)
    ensures Pruned(examined)
  {
    examined := [];
    var robotPositions := [];
    for k := 0 to |robots|
      invariant |robotPositions| == k && forall j :: 0 <= j < k ==> PointOf(robots[j], grid) == Some(robotPositions[j])
    {
      var point := FindPoint(robots[k], grid);
      if point.None? {
        return Raised, examined;
      }
      robotPositions := robotPositions + [point.value];
    }
    var currentMinimum := MAX_INT;
    var start := State(robotPositions, 0, 0);
    assert start == Start(grid, robots);
    var queue := [start];
    assert Leads(keyPaths, positions, [start]);
    var visited: map<StateKey, int> := map[];
    var allKeys := JavaMath.Pow2(|positions|) - 1;
    var turns := 0;
    while queue != []
      invariant turns <= fuel
      invariant AllReachable(keyPaths, positions, start, queue)
      invariant AllReachable(keyPaths, positions, start, examined)
      invariant Cheapest(currentMinimum, examined, allKeys)
      invariant Pruned(examined) && Remembers(visited, examined)
      decreases fuel - turns
    {
      if turns == fuel {
        return Unfinished, examined;
      }
      turns := turns + 1;
      var state := queue[0];
      AllReachablePop(keyPaths, positions, start, queue);
      queue := queue[1..];

      var stateKey := StateKey(state.positions, state.keyChain);
      if stateKey in visited {
        var steps := visited[stateKey];
        if steps <= state.steps {
          continue;
        }
      }
      PrunedOn(visited, examined, state);
      CheapestOn(currentMinimum, examined, allKeys, state);
      ReachableOn(keyPaths, positions, start, queue, state);
      AllReachablePush(keyPaths, positions, start, examined, state);
      visited := visited[stateKey := state.steps];
      examined := examined + [state];

      if state.keyChain == allKeys {
        currentMinimum := if state.steps < currentMinimum then state.steps else currentMinimum;
        continue;
      }

      var next := Expand(keyPaths, positions, state);
      queue := queue + next;
    }
    return Best(currentMinimum), examined;
  }

  // ---------------------------------------------------------------------------------------
  // part01, part02
  // ---------------------------------------------------------------------------------------

  /** The search from `start` may find `key` somewhere. */
  ghost predicate Found(grid: seq<string>, start: Point, key: ReachableKey)
  {
    exists q :: Finds(grid, start, key, q)
  }

  /** Every list of keys is what the search from its position finds. */
  ghost predicate Sound(grid: seq<string>, keyPaths: map<Point, seq<ReachableKey>>)
  {
    forall p, k :: p in keyPaths && 0 <= k < |keyPaths[p]| ==> Found(grid, p, keyPaths[p][k])
  }

  lemma SoundOn(grid: seq<string>, keyPaths: map<Point, seq<ReachableKey>>, p: Point, list: seq<ReachableKey>, at: seq<Point>)
    requires Sound(grid, keyPaths)
    requires |at| == |list| && forall k :: 0 <= k < |list| ==> Finds(grid, p, list[k], at[k])
    ensures Sound(grid, keyPaths[p := list])
  {
    var updated := keyPaths[p := list];
    forall r, k | r in updated && 0 <= k < |updated[r]|
      ensures Found(grid, r, updated[r][k])
    {
      if r == p {
        assert Finds(grid, p, list[k], at[k]);
      }
    }
  }

  /** A key found on the map is one of its keys, so it has a position and a list. */
  lemma LinkedFrom(grid: seq<string>, keyPaths: map<Point, seq<ReachableKey>>, positions: map<char, Point>)
    requires Sound(grid, keyPaths)
    requires forall c :: c in positions <==> c in MapKeys(grid)
    requires forall c :: c in positions ==> positions[c] in keyPaths
    ensures Linked(keyPaths, positions)
  {
    forall p, k | p in keyPaths && 0 <= k < |keyPaths[p]|
      ensures IsLower(keyPaths[p][k].value) && keyPaths[p][k].value in positions
    {
      assert Found(grid, p, keyPaths[p][k]);
      var q :| Finds(grid, p, keyPaths[p][k], q);
      assert grid[q.y][q.x] == keyPaths[p][k].value;
    }
  }

  /** The first `n` of `chars` are on the map, and their positions have lists of keys. */
  ghost predicate Covers(grid: seq<string>, chars: seq<char>, n: nat, keyPaths: map<Point, seq<ReachableKey>>)
    requires n <= |chars|
  {
    forall j :: 0 <= j < n ==> PointOf(chars[j], grid).Some? && PointOf(chars[j], grid).value in keyPaths
  }

  lemma CoversOn(grid: seq<string>, chars: seq<char>, n: nat, keyPaths: map<Point, seq<ReachableKey>>, p: Point,
                 list: seq<ReachableKey>)
    requires n < |chars| && Covers(grid, chars, n, keyPaths) && PointOf(chars[n], grid) == Some(p)
    ensures Covers(grid, chars, n + 1, keyPaths[p := list])
  {
  }

  lemma CoversMore(grid: seq<string>, chars: seq<char>, keyPaths: map<Point, seq<ReachableKey>>, p: Point,
                   list: seq<ReachableKey>)
    requires Covers(grid, chars, |chars|, keyPaths)
    ensures Covers(grid, chars, |chars|, keyPaths[p := list])
  {
  }

  /** A key of the map is on the map. */
  lemma KeyFound(grid: seq<string>, c: char)
    requires c in MapKeys(grid)
    ensures PointOf(c, grid).Some?
  {
    var y :| 0 <= y < |grid| && c in grid[y];
  }

  /**
   * What `part01` and `part02` promise: they raise exactly when a robot is missing from the
   * map or a key is on it twice; otherwise the key lists are the searches' findings, the
   * tables fit together, and the result is the cheapest complete state examined by the walk
   * search, every examined state being reachable from the robots' start.
   */
  ghost predicate Walked(grid: seq<string>, robots: seq<char>, r: Outcome, keyPaths: map<Point, seq<ReachableKey>>,
                         positions: map<char, Point>, examined: seq<State>)
  {
    && (r.Raised? <==> !AllFound(grid, robots) || !Distinct(MapKeys(grid)))
    && (r.Best? ==>
      && AllFound(grid, robots)
      && Sound(grid, keyPaths)
      && Linked(keyPaths, positions)
      && (forall c :: c in positions <==> c in MapKeys(grid))
      && (forall c :: c in positions ==> PointOf(c, grid) == Some(positions[c]))
      && Cheapest(r.steps, examined, JavaMath.Pow2(|positions|) - 1)
      && AllReachable(keyPaths, positions, Start(grid, robots), examined))
  }

  /**
   * The shared body of `part01` and `part02`: the keys of the map, the keys reachable from
   * each robot and from each key, their positions, and the walk search over them.
   */
  method Solve(grid: seq<string>, robots: seq<char>, fuel: nat)
    returns (r: Outcome, ghost keyPaths: map<Point, seq<ReachableKey>>, ghost positions: map<char, Point>,
             ghost examined: seq<State>)
    requires Enclosed(grid) && |robots| <= 4
    ensures r.Unfinished? || Walked(grid, robots, r, keyPaths, positions, examined)
  {
    positions, examined := map[], [];
    var keys := MapKeys(grid);
    var keysFromPoint: map<Point, seq<ReachableKey>> := map[];
    for k := 0 to |robots|
      invariant Sound(grid, keysFromPoint) && Covers(grid, robots, k, keysFromPoint)
    {
      var start := FindPoint(robots[k], grid);
      if start.None? {
        assert !AllFound(grid, robots) by {
          assert PointOf(robots[k], grid).None?;
        }
        assert Walked(grid, robots, Raised, keysFromPoint, positions, examined);
        return Raised, keysFromPoint, positions, examined;
      }
      var list, at, _ := FindReachableKeys(grid, start.value);
      SoundOn(grid, keysFromPoint, start.value, list, at);
      CoversOn(grid, robots, k, keysFromPoint, start.value, list);
      keysFromPoint := keysFromPoint[start.value := list];
    }
    for k := 0 to |keys|
      invariant Sound(grid, keysFromPoint) && Covers(grid, robots, |robots|, keysFromPoint)
      invariant Covers(grid, keys, k, keysFromPoint)
    {
      KeyFound(grid, keys[k]);
      var position := FindPoint(keys[k], grid);
      var list, at, _ := FindReachableKeys(grid, position.value);
      SoundOn(grid, keysFromPoint, position.value, list, at);
      CoversOn(grid, keys, k, keysFromPoint, position.value, list);
      CoversMore(grid, robots, keysFromPoint, position.value, list);
      keysFromPoint := keysFromPoint[position.value := list];
    }
    keyPaths := keysFromPoint;
    assert AllFound(grid, robots);
    assert AllFound(grid, keys);
    var keyPositions := KeyPositions(grid, keys);
    KeyPositionsFail(grid, keys);
    if keyPositions.None? {
      assert !Distinct(MapKeys(grid));
      assert Walked(grid, robots, Raised, keyPaths, positions, examined);
      return Raised, keyPaths, positions, examined;
    }
    var keyPosition := keyPositions.value;
    positions := keyPosition;
    LinkedFrom(grid, keyPaths, positions);
    r, examined := FindBestWalk(grid, keysFromPoint, keyPosition, robots, fuel);
    WalkedOn(grid, robots, r, keyPaths, positions, examined);
  }

  lemma WalkedOn(grid: seq<string>, robots: seq<char>, r: Outcome, keyPaths: map<Point, seq<ReachableKey>>,
                 positions: map<char, Point>, examined: seq<State>)
    requires AllFound(grid, robots) && Distinct(MapKeys(grid)) && Sound(grid, keyPaths) && Linked(keyPaths, positions)
    requires forall c :: c in positions <==> c in MapKeys(grid)
    requires forall c :: c in positions ==> PointOf(c, grid) == Some(positions[c])
    requires !r.Raised?
    requires r.Best? ==> Cheapest(r.steps, examined, JavaMath.Pow2(|positions|) - 1)
    requires r.Best? ==> AllReachable(keyPaths, positions, Start(grid, robots), examined)
    ensures r.Unfinished? || Walked(grid, robots, r, keyPaths, positions, examined)
  {
  }

  /** `part01`: one robot, at '@'. */
  method Part01(grid: seq<string>, fuel: nat)
    returns (r: Outcome, ghost keyPaths: map<Point, seq<ReachableKey>>, ghost positions: map<char, Point>,
             ghost examined: seq<State>)
    requires Enclosed(grid)
    ensures r.Unfinished? || Walked(grid, "@", r, keyPaths, positions, examined)
  {
    r, keyPaths, positions, examined := Solve(grid, "@", fuel);
  }

  /** `part02`: four robots, at '1' to '4'. */
  method Part02(grid: seq<string>, fuel: nat)
    returns (r: Outcome, ghost keyPaths: map<Point, seq<ReachableKey>>, ghost positions: map<char, Point>,
             ghost examined: seq<State>)
    requires Enclosed(grid)
    ensures r.Unfinished? || Walked(grid, "1234", r, keyPaths, positions, examined)
  {
    r, keyPaths, positions, examined := Solve(grid, "1234", fuel);
  }
}
