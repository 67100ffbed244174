/**
 * The donut maze (`Day20.GateMap`): a map of open cells ('.') and walls ('#') whose
 * portals are labelled by two capital letters next to an open cell. Walking one cell or
 * jumping through a portal each take a step; part 1 looks for the shortest walk from AA to
 * ZZ, part 2 does the same in the recursive maze, where an inner portal leads one level
 * down, an outer portal one level up, the outermost level's outer portals are walls and AA
 * and ZZ exist only on the outermost level.
 *
 * The map's `values` grid is filled in place by the constructor; the portal tables are
 * fields that `ProcessPortals` fills; `FindPath` is the breadth-first search of the source,
 * proved sound against a step relation (`Move`) that follows the source's rules.
 */
module Day20 {
  import opened Wrappers

  /** A cell of the map; `x` is the column and `y` the row. */
  datatype Point = Point(x: int, y: int)
  {
    function Subtract(other: Point): Point
    {
      Point(x - other.x, y - other.y)
    }

    function Add(other: Point): Point
    {
      Point(x + other.x, y + other.y)
    }
  }

  const OPEN: char := '.'
  const WALL: char := '#'
  const BLANK: char := ' '
  const START: string := "AA"
  const EXIT: string := "ZZ"

  predicate InBounds(p: Point, width: int, height: int)
  {
    0 <= p.x < width && 0 <= p.y < height
  }

  /** q is one of the four cells orthogonally next to p. */
  predicate Orthogonal(p: Point, q: Point)
  {
    (p.x == q.x && (q.y == p.y - 1 || q.y == p.y + 1)) || (p.y == q.y && (q.x == p.x - 1 || q.x == p.x + 1))
  }

  /** The list `surrounding` starts from: left, right, up, down. */
  function Candidates(p: Point): seq<Point>
  {
    [Point(p.x - 1, p.y), Point(p.x + 1, p.y), Point(p.x, p.y - 1), Point(p.x, p.y + 1)]
  }

  /** `removeIf` of the points outside the map, keeping the order of the rest. */
  function KeepInBounds(points: seq<Point>, width: int, height: int): (r: seq<Point>)
    ensures forall q :: q in r <==> q in points && InBounds(q, width, height)
    ensures |r| <= |points|
  {
    if points == [] then []
    else (if InBounds(points[0], width, height) then [points[0]] else []) + KeepInBounds(points[1..], width, height)
  }

  /** `Point.surrounding(width, height)`: the orthogonal neighbours of p inside the map. */
  function Surrounding(p: Point, width: int, height: int): (r: seq<Point>)
    ensures forall q :: q in r <==> InBounds(q, width, height) && Orthogonal(p, q)
    ensures |r| <= 4
  {
    assert forall q :: q in Candidates(p) <==> Orthogonal(p, q);
    KeepInBounds(Candidates(p), width, height)
  }

  /** The cell `loadCharacters` stores for an input character: a blank becomes a wall. */
  function LoadedCell(c: char): (r: char)
    ensures c == BLANK ==> r == WALL
    ensures c != BLANK ==> r == c
  {
    if c == BLANK then WALL else c
  }

  /** A character of the `default` branch of `loadCharacters`: part of a portal's label. */
  predicate IsLabel(c: char)
  {
    c != BLANK && c != WALL && c != OPEN
  }

  /** `Character.isUpperCase`, for the ASCII letters of the puzzle's labels. */
  predicate IsUpper(c: char)
  {
    'A' <= c <= 'Z'
  }

  /** Row-major order: p is scanned before the cell (x, y). */
  predicate Before(p: Point, x: int, y: int)
  {
    p.y < y || (p.y == y && p.x < x)
  }

  /** `filter(point -> Character.isUpperCase(...)).findFirst()`: the first cell showing a capital. */
  function FirstUpper(points: seq<Point>, values: array2<char>): (r: Option<Point>)
    requires forall k :: 0 <= k < |points| ==> 0 <= points[k].y < values.Length0 && 0 <= points[k].x < values.Length1
    reads values
    ensures r.Some? ==> r.value in points && IsUpper(values[r.value.y, r.value.x])
    ensures r.None? ==> forall q :: q in points ==> !IsUpper(values[q.y, q.x])
  {
    if points == [] then None
    else if IsUpper(values[points[0].y, points[0].x]) then Some(points[0])
    else FirstUpper(points[1..], values)
  }

  /** `filter(point -> !point.equals(p)).findFirst()`: the first entrance other than p. */
  function FirstOther(points: seq<Point>, p: Point): (r: Option<Point>)
    ensures r.Some? ==> r.value in points && r.value != p
    ensures r.None? ==> forall q :: q in points ==> q == p
  {
    if points == [] then None
    else if points[0] != p then Some(points[0])
    else
      assert forall q :: q in points ==> q == p || q in points[1..];
      FirstOther(points[1..], p)
  }

  /** A search state: a cell, the steps taken to it and the level of the recursive maze. */
  datatype State = State(point: Point, distance: nat, level: int)

  /**
   * What a search gives: the state at ZZ; an exception (the queue ran dry, or AA has no
   * entrance to start from); or no answer within the fuel.
   */
  datatype Search = Found(state: State) | Raises | Unfinished

  /** The route to a state, extended by each of the given next states in turn. */
  function Extended(route: seq<State>, next: seq<State>): (r: seq<seq<State>>)
    ensures |r| == |next| && forall k :: 0 <= k < |next| ==> r[k] == route + [next[k]]
  {
    if next == [] then [] else [route + [next[0]]] + Extended(route, next[1..])
  }

  /** A cell at a level: what `findPath` marks visited. */
  datatype PointLevel = PointLevel(point: Point, level: int)

  /**
   * The walking half of `findPath`'s turn: the neighbours that are open and not yet visited at
   * the current level, in order, each one step further at the same level.
   */
  function Walks(current: State, neighbours: seq<Point>, values: array2<char>, visited: set<PointLevel>): (r: seq<State>)
    requires forall q :: q in neighbours ==> 0 <= q.y < values.Length0 && 0 <= q.x < values.Length1
    reads values
    ensures forall s :: s in r <==>
      && s.point in neighbours && values[s.point.y, s.point.x] == OPEN && PointLevel(s.point, current.level) !in visited
      && s.distance == current.distance + 1 && s.level == current.level
    ensures |r| <= |neighbours|
  {
    if neighbours == [] then []
    else
      var q := neighbours[0];
      var rest := Walks(current, neighbours[1..], values, visited);
      assert forall q' :: q' in neighbours <==> q' == q || q' in neighbours[1..];
      if values[q.y, q.x] == OPEN && PointLevel(q, current.level) !in visited then [State(q, current.distance + 1, current.level)] + rest
      else rest
  }

  /** The entrance of a portal and its two-letter name. */
  datatype Portal = Portal(entrance: Point, name: string)

  /** An entrance more than three cells from every edge belongs to the inner ring of portals. */
  predicate Inner(e: Point, width: int, height: int)
  {
    e.y > 3 && e.y < height - 3 && e.x > 3 && e.x < width - 3
  }

  /** The entrances listed under a name, none before the first. */
  function Listed(portalEntrances: map<string, seq<Point>>, name: string): seq<Point>
  {
    if name in portalEntrances then portalEntrances[name] else []
  }

  /** Every named entrance is listed under its name, every listed entrance is named, and inner gates map to true. */
  predicate Named(locationNames: map<Point, string>, portalEntrances: map<string, seq<Point>>, innerGate: map<Point, bool>)
  {
    && (forall e :: e in locationNames ==> locationNames[e] in portalEntrances && e in portalEntrances[locationNames[e]])
    && (forall name, e :: name in portalEntrances && e in portalEntrances[name] ==> e in locationNames)
    && (forall e :: e in innerGate ==> innerGate[e] && e in locationNames)
  }

  /** Each recorded portal's entrance is named and listed under the portal's name. */
  predicate Entered(recorded: map<Point, Portal>, locationNames: map<Point, string>, portalEntrances: map<string, seq<Point>>)
  {
    forall p :: p in recorded ==>
      recorded[p].entrance in locationNames && recorded[p].name in portalEntrances && recorded[p].entrance in portalEntrances[recorded[p].name]
  }

  /** Each name is that of a recorded portal with that entrance. */
  ghost predicate Sourced(recorded: map<Point, Portal>, locationNames: map<Point, string>)
  {
    forall e :: e in locationNames ==> exists p :: p in recorded && recorded[p] == Portal(e, locationNames[e])
  }

  /** Exactly the inner entrances are inner gates. */
  predicate InnerExactly(locationNames: map<Point, string>, innerGate: map<Point, bool>, width: int, height: int)
  {
    forall e :: e in locationNames ==> (e in innerGate <==> Inner(e, width, height))
  }

  /** The tables `processPortals` builds from the recorded portals. */
  ghost predicate Tables(recorded: map<Point, Portal>, locationNames: map<Point, string>, portalEntrances: map<string, seq<Point>>,
                         innerGate: map<Point, bool>, width: int, height: int)
  {
    && Named(locationNames, portalEntrances, innerGate)
    && Entered(recorded, locationNames, portalEntrances)
    && Sourced(recorded, locationNames)
    && InnerExactly(locationNames, innerGate, width, height)
  }

  /** While processing, the cells still to do and those with a recorded portal split the registered cells. */
  predicate Progress(cells: set<Point>, remaining: set<Point>, recorded: map<Point, Portal>)
  {
    remaining <= cells && recorded.Keys == cells - remaining
  }

  /** Recording a portal for one more remaining cell. */
  lemma ProgressStep(cells: set<Point>, remaining: set<Point>, recorded: map<Point, Portal>, p: Point, portal: Portal)
    requires Progress(cells, remaining, recorded) && p in remaining
    ensures Progress(cells, remaining - {p}, recorded[p := portal])
    ensures |remaining - {p}| < |remaining|
  {
  }

  /** Registering one more portal keeps the tables those of the recorded portals. */
  lemma RegisterKeepsTables(recorded: map<Point, Portal>, locationNames: map<Point, string>, portalEntrances: map<string, seq<Point>>,
                            innerGate: map<Point, bool>, width: int, height: int, p: Point, portal: Portal)
    requires p !in recorded && Tables(recorded, locationNames, portalEntrances, innerGate, width, height)
    ensures
      var names := locationNames[portal.entrance := portal.name];
      var entrances := portalEntrances[portal.name := Listed(portalEntrances, portal.name) + [portal.entrance]];
      var gates := if Inner(portal.entrance, width, height) then innerGate[portal.entrance := true] else innerGate;
      Tables(recorded[p := portal], names, entrances, gates, width, height)
  {
    var names := locationNames[portal.entrance := portal.name];
    var entrances := portalEntrances[portal.name := Listed(portalEntrances, portal.name) + [portal.entrance]];
    var gates := if Inner(portal.entrance, width, height) then innerGate[portal.entrance := true] else innerGate;
    var recorded' := recorded[p := portal];
    assert Named(names, entrances, gates) by {
      forall e | e in names
        ensures names[e] in entrances && e in entrances[names[e]]
      {
        if e != portal.entrance && names[e] != portal.name {
          assert entrances[names[e]] == portalEntrances[names[e]];
        }
      }
    }
    assert Sourced(recorded', names) by {
      forall e | e in names
        ensures exists q :: q in recorded' && recorded'[q] == Portal(e, names[e])
      {
        if e == portal.entrance {
          assert recorded'[p] == Portal(e, names[e]);
        } else {
          var q :| q in recorded && recorded[q] == Portal(e, locationNames[e]);
          assert recorded'[q] == Portal(e, names[e]);
        }
      }
    }
  }

  class GateMap {
    const height: nat
    const width: nat
    const values: array2<char>
    var portalCharacters: map<Point, char>
    var locationNames: map<Point, string>
    var portalEntrances: map<string, seq<Point>>
    var innerGate: map<Point, bool>

    /** The grid has the map's size. */
    predicate Shaped()
    {
      values.Length0 == height && values.Length1 == width
    }

    // -------------------------------------------------------------------------------
    // Loading

    /** Every registered cell is a label cell of the input, stored with its character. */
    predicate RegisteredSound(input: seq<string>)
      requires |input| == height && forall y :: 0 <= y < height ==> |input[y]| >= width
      reads this
    {
      forall p :: p in portalCharacters ==>
        InBounds(p, width, height) && IsLabel(input[p.y][p.x]) && portalCharacters[p] == input[p.y][p.x]
    }

    /** No two registered cells touch, so each two-letter label registers at most one of its cells. */
    predicate NoneAdjacent()
      reads this
    {
      forall p, q :: p in portalCharacters && q in portalCharacters ==> !Orthogonal(p, q)
    }

    /** Each label cell scanned before (x, y) is registered or touches a registered cell. */
    ghost predicate Covered(input: seq<string>, x: int, y: int)
      requires |input| == height && forall y :: 0 <= y < height ==> |input[y]| >= width
      reads this
    {
      forall p :: InBounds(p, width, height) && Before(p, x, y) && IsLabel(input[p.y][p.x]) ==>
        p in portalCharacters || exists q :: q in portalCharacters && Orthogonal(p, q)
    }

    /** What loading leaves behind: the grid and the registered label cells. */
    ghost predicate Loaded(input: seq<string>)
      requires |input| == height && forall y :: 0 <= y < height ==> |input[y]| >= width
      reads this, values
    {
      && Shaped()
      && (forall y, x :: 0 <= y < height && 0 <= x < width ==> values[y, x] == LoadedCell(input[y][x]))
      && RegisteredSound(input) && NoneAdjacent() && Covered(input, 0, height)
    }

    /**
     * `GateMap(input)` up to `processPortals`: the grid is as wide as the first line, a blank
     * becomes a wall, every other character is kept, and label cells are registered. Java
     * raises for an empty input or a line shorter than the first.
     */
    constructor (input: seq<string>)
      requires |input| >= 1 && forall y :: 0 <= y < |input| ==> |input[y]| >= |input[0]|
      ensures height == |input| && width == |input[0]| && fresh(values)
      ensures Loaded(input)
      ensures locationNames == map[] && portalEntrances == map[] && innerGate == map[]
    {
      height := |input|;
      width := |input[0]|;
      values := new char[|input|, |input[0]|];
      portalCharacters := map[];
      locationNames := map[];
      portalEntrances := map[];
      innerGate := map[];
      new;
      LoadCharacters(input);
    }

    /** `loadCharacters`: every row in turn. */
    method LoadCharacters(input: seq<string>)
      requires |input| == height && forall y :: 0 <= y < height ==> |input[y]| >= width
      requires Shaped() && portalCharacters == map[]
      modifies values, this`portalCharacters
      ensures Loaded(input)
    {
      for y := 0 to height
        invariant forall y', x :: 0 <= y' < y && 0 <= x < width ==> values[y', x] == LoadedCell(input[y'][x])
        invariant RegisteredSound(input) && NoneAdjacent() && Covered(input, 0, y)
      {
        LoadRow(input, y);
      }
    }

    /** One row of `loadCharacters`, cell by cell from the left. */
    method LoadRow(input: seq<string>, y: nat)
      requires |input| == height && forall y :: 0 <= y < height ==> |input[y]| >= width
      requires Shaped() && y < height
      requires RegisteredSound(input) && NoneAdjacent() && Covered(input, 0, y)
      modifies values, this`portalCharacters
      ensures forall y', x :: 0 <= y' < height && 0 <= x < width && y' != y ==> values[y', x] == old(values[y', x])
      ensures forall x :: 0 <= x < width ==> values[y, x] == LoadedCell(input[y][x])
      ensures RegisteredSound(input) && NoneAdjacent() && Covered(input, 0, y + 1)
    {
      for x := 0 to width
        invariant forall y', x' :: 0 <= y' < height && 0 <= x' < width && y' != y ==> values[y', x'] == old(values[y', x'])
        invariant forall x' :: 0 <= x' < x ==> values[y, x'] == LoadedCell(input[y][x'])
        invariant RegisteredSound(input) && NoneAdjacent() && Covered(input, x, y)
      {
        LoadCell(input, x, y);
      }
      assert forall p: Point :: Before(p, width, y) && InBounds(p, width, height) ==> Before(p, 0, y + 1);
    }

    /** The `switch` of `loadCharacters` on the cell (x, y). */
    method LoadCell(input: seq<string>, x: int, y: int)
      requires |input| == height && forall y :: 0 <= y < height ==> |input[y]| >= width
      requires Shaped() && 0 <= x < width && 0 <= y < height
      requires RegisteredSound(input) && NoneAdjacent() && Covered(input, x, y)
      modifies values, this`portalCharacters
      ensures forall y', x' :: 0 <= y' < height && 0 <= x' < width && (y', x') != (y, x) ==> values[y', x'] == old(values[y', x'])
      ensures values[y, x] == LoadedCell(input[y][x])
      ensures RegisteredSound(input) && NoneAdjacent() && Covered(input, x + 1, y)
    {
      var current := input[y][x];
      if current == BLANK {
        values[y, x] := WALL;
      } else if current == WALL || current == OPEN {
        values[y, x] := current;
      } else {
        values[y, x] := current;
        TryFindPortals(input, x, y, current);
      }
      CoveredNext(input, x, y);
    }

    /** Scanning (x, y) covers it: a label cell there was just registered or touches a registered one. */
    lemma CoveredNext(input: seq<string>, x: int, y: int)
      requires |input| == height && forall y :: 0 <= y < height ==> |input[y]| >= width
      requires 0 <= x < width && 0 <= y < height && Covered(input, x, y)
      requires IsLabel(input[y][x]) ==> Point(x, y) in portalCharacters || exists q :: q in portalCharacters && Orthogonal(Point(x, y), q)
      ensures Covered(input, x + 1, y)
    {
    }

    /**
     * `tryFindPortals`: the cell is registered with its character only when none of its
     * neighbours is registered already; otherwise nothing changes.
     */
    method TryFindPortals(ghost input: seq<string>, x: int, y: int, current: char)
      requires |input| == height && forall y :: 0 <= y < height ==> |input[y]| >= width
      requires 0 <= x < width && 0 <= y < height && IsLabel(input[y][x]) && current == input[y][x]
      requires RegisteredSound(input) && NoneAdjacent()
      modifies this`portalCharacters
      ensures var p := Point(x, y);
        portalCharacters == if forall q :: q in Surrounding(p, width, height) ==> q !in old(portalCharacters)
          then old(portalCharacters)[p := current] else old(portalCharacters)
      ensures RegisteredSound(input) && NoneAdjacent()
      ensures Point(x, y) in portalCharacters || exists q :: q in portalCharacters && Orthogonal(Point(x, y), q)
    {
      var currentPoint := Point(x, y);
      var isNew := forall q :: q in Surrounding(currentPoint, width, height) ==> q !in portalCharacters;
      if isNew {
        portalCharacters := portalCharacters[currentPoint := current];
      } else {
        var q :| q in Surrounding(currentPoint, width, height) && q in portalCharacters;
        assert Orthogonal(currentPoint, q);
      }
    }

    // -------------------------------------------------------------------------------
    // Portals

    /**
     * The entrance `processPortals` picks for the label cells p and `other`: the cell beyond
     * `other` when it is inside the map and open, otherwise the cell beyond p. None where
     * Java raises, reading the grid at a negative index.
     */
    function EntranceOf(p: Point, other: Point): Option<Point>
      requires Shaped()
      reads values
    {
      var difference := other.Subtract(p);
      var entrance := other.Add(difference);
      if entrance.x >= width || entrance.y >= height then Some(p.Subtract(difference))
      else if entrance.x < 0 || entrance.y < 0 then None
      else if values[entrance.y, entrance.x] != OPEN then Some(p.Subtract(difference))
      else Some(entrance)
    }

    /**
     * What `processPortals` records for the registered cell p: the entrance and the portal's
     * name, p's letter followed by that of the first neighbour showing a capital. None where
     * Java raises: no such neighbour (`orElseThrow`) or a negative index.
     */
    function PortalOf(p: Point): Option<Portal>
      requires Shaped() && InBounds(p, width, height)
      reads values
    {
      var neighbours := Surrounding(p, width, height);
      assert forall k :: 0 <= k < |neighbours| ==> InBounds(neighbours[k], width, height);
      match FirstUpper(neighbours, values)
      case None => None
      case Some(other) =>
        match EntranceOf(p, other)
        case None => None
        case Some(entrance) => Some(Portal(entrance, [values[p.y, p.x], values[other.y, other.x]]))
    }

    /**
     * The name of a portal is the registered letter and then a capital orthogonally next to it;
     * its entrance lies on their line, either the open cell just past the second letter or the
     * cell just before the first.
     */
    lemma PortalShape(p: Point)
      requires Shaped() && InBounds(p, width, height) && PortalOf(p).Some?
      ensures var portal := PortalOf(p).value;
        exists other :: InBounds(other, width, height) && Orthogonal(p, other) && IsUpper(values[other.y, other.x])
          && portal.name == [values[p.y, p.x], values[other.y, other.x]]
          && ((portal.entrance == Point(2 * other.x - p.x, 2 * other.y - p.y) && InBounds(portal.entrance, width, height)
               && values[portal.entrance.y, portal.entrance.x] == OPEN)
              || portal.entrance == Point(2 * p.x - other.x, 2 * p.y - other.y))
    {
      var neighbours := Surrounding(p, width, height);
      assert forall k :: 0 <= k < |neighbours| ==> InBounds(neighbours[k], width, height);
      var other := FirstUpper(neighbours, values).value;
      assert other in neighbours;
    }

    /** `found` holds, for each of its cells, the portal found there. */
    ghost predicate Records(found: map<Point, Portal>)
      requires Shaped()
      reads values
    {
      && (forall p :: p in found ==> InBounds(p, width, height))
      && (forall p {:trigger PortalOf(p)} :: p in found ==> PortalOf(p) == Some(found[p]))
    }

    /**
     * `processPortals`, in whatever order the map of registered cells yields them: false where
     * Java raises, which happens exactly when some registered cell yields no portal. Otherwise
     * `found` holds the portal of every registered cell, and the tables are those portals':
     * every entrance named, listed under its name, and an inner gate exactly when it is inner.
     */
    method ProcessPortals() returns (ok: bool, ghost found: map<Point, Portal>)
      requires Shaped() && forall p :: p in portalCharacters ==> InBounds(p, width, height)
      requires locationNames == map[] && portalEntrances == map[] && innerGate == map[]
      modifies this`locationNames, this`portalEntrances, this`innerGate
      ensures ok ==> found.Keys == portalCharacters.Keys && Records(found)
      ensures ok ==> Tables(found, locationNames, portalEntrances, innerGate, width, height)
      ensures !ok ==> exists p :: p in portalCharacters && InBounds(p, width, height) && PortalOf(p).None?
    {
      var remaining := portalCharacters.Keys;
      found := map[];
      while remaining != {}
        invariant Progress(portalCharacters.Keys, remaining, found) && Records(found)
        invariant Tables(found, locationNames, portalEntrances, innerGate, width, height)
        decreases |remaining|
      {
        var p :| p in remaining;
        var added;
        added, remaining, found := ProcessOne(p, remaining, found);
        if !added {
          return false, found;
        }
      }
      return true, found;
    }

    /** One turn of `processPortals`' loop: the portal at p is recorded and p is done, or none is there. */
    method ProcessOne(p: Point, remaining: set<Point>, ghost recorded: map<Point, Portal>)
      returns (added: bool, remaining': set<Point>, ghost recorded': map<Point, Portal>)
      requires Shaped() && Progress(portalCharacters.Keys, remaining, recorded) && Records(recorded)
      requires p in remaining && InBounds(p, width, height)
      requires Tables(recorded, locationNames, portalEntrances, innerGate, width, height)
      modifies this`locationNames, this`portalEntrances, this`innerGate
      ensures added <==> PortalOf(p).Some?
      ensures added ==> Progress(portalCharacters.Keys, remaining', recorded') && |remaining'| < |remaining| && Records(recorded')
      ensures added ==> Tables(recorded', locationNames, portalEntrances, innerGate, width, height)
    {
      added := AddPortal(p, recorded, PortalOf(p));
      remaining', recorded' := remaining, recorded;
      if added {
        ProgressStep(portalCharacters.Keys, remaining, recorded, p, PortalOf(p).value);
        remaining', recorded' := remaining - {p}, recorded[p := PortalOf(p).value];
      }
    }

    /** The body of `processPortals`' loop for the registered cell p. */
    method AddPortal(p: Point, ghost recorded: map<Point, Portal>, ghost portal: Option<Portal>) returns (added: bool)
      requires Shaped() && InBounds(p, width, height) && p !in recorded && portal == PortalOf(p)
      requires Tables(recorded, locationNames, portalEntrances, innerGate, width, height)
      modifies this`locationNames, this`portalEntrances, this`innerGate
      ensures added <==> portal.Some?
      ensures added ==> Tables(recorded[p := portal.value], locationNames, portalEntrances, innerGate, width, height)
    {
      var neighbours := Surrounding(p, width, height);
      assert forall k :: 0 <= k < |neighbours| ==> InBounds(neighbours[k], width, height);
      var otherPoint := FirstUpper(neighbours, values);
      if otherPoint.None? {
        return false;
      }
      var other := otherPoint.value;
      var difference := other.Subtract(p);
      var entrance := other.Add(difference);
      if entrance.x >= width || entrance.y >= height {
        entrance := p.Subtract(difference);
      } else if entrance.x < 0 || entrance.y < 0 {
        return false;
      } else if values[entrance.y, entrance.x] != OPEN {
        entrance := p.Subtract(difference);
      }
      var portalName := [values[p.y, p.x], values[other.y, other.x]];
      assert PortalOf(p) == Some(Portal(entrance, portalName));
      Register(entrance, portalName);
      RegisterKeepsTables(recorded, old(locationNames), old(portalEntrances), old(innerGate), width, height, p, Portal(entrance, portalName));
      return true;
    }

    // -------------------------------------------------------------------------------
    // Searching

    /** The other entrance listed under the name of the portal at p, if any. */
    function Gate(p: Point): Option<Point>
      reads this
    {
      if p in locationNames then FirstOther(Listed(portalEntrances, locationNames[p]), p) else None
    }

    /** The level a jump from p adds: none in the flat maze, one down from an inner gate, one up otherwise. */
    function LevelChange(p: Point, recursive: bool): int
      reads this
    {
      if !recursive then 0 else if p in innerGate && innerGate[p] then 1 else -1
    }

    /**
     * `isPortalOpen`: always in the flat maze; towards AA or ZZ only on the outermost level;
     * otherwise below the outermost level, or through an inner gate.
     */
    predicate IsPortalOpen(state: State, target: Point, recursive: bool)
      reads this
    {
      if !recursive then true
      else if target in locationNames && (locationNames[target] == START || locationNames[target] == EXIT) then state.level == 0
      else state.level != 0 || state.point in innerGate
    }

    /**
     * One step of the maze: through the open portal at s's cell to its other entrance, at the
     * level the portal leads to, or to an open neighbour at the same level.
     */
    ghost predicate Move(s: State, t: State, recursive: bool)
      requires Shaped()
      reads this, values
    {
      && t.distance == s.distance + 1
      && ((Gate(s.point) == Some(t.point) && IsPortalOpen(s, t.point, recursive) && t.level == s.level + LevelChange(s.point, recursive))
          || (t.point in Surrounding(s.point, width, height) && values[t.point.y, t.point.x] == OPEN && t.level == s.level))
    }

    /** A sequence of moves from `route[0]` to its last state, whose distance counts the moves. */
    ghost predicate Leads(route: seq<State>, recursive: bool)
      requires Shaped()
      reads this, values
    {
      && |route| >= 1
      && (forall i :: 0 <= i < |route| - 1 ==> Move(route[i], route[i + 1], recursive))
      && route[|route| - 1].distance == route[0].distance + |route| - 1
    }

    /** A route extended by one move is a route. */
    lemma LeadsOn(route: seq<State>, next: State, recursive: bool)
      requires Shaped() && Leads(route, recursive) && Move(route[|route| - 1], next, recursive)
      ensures Leads(route + [next], recursive) && (route + [next])[0] == route[0]
    {
      var longer := route + [next];
      forall i | 0 <= i < |longer| - 1
        ensures Move(longer[i], longer[i + 1], recursive)
      {
        if i < |route| - 1 {
          assert longer[i] == route[i] && longer[i + 1] == route[i + 1];
        }
      }
    }

    /** Each queued state has a route from `start` that ends in it. */
    ghost predicate Queued(queue: seq<State>, routes: seq<seq<State>>, start: State, recursive: bool)
      requires Shaped()
      reads this, values
    {
      && |routes| == |queue|
      && forall i :: 0 <= i < |queue| ==>
        Leads(routes[i], recursive) && routes[i][0] == start && routes[i][|routes[i]| - 1] == queue[i]
    }

    lemma QueuedTail(queue: seq<State>, routes: seq<seq<State>>, start: State, recursive: bool)
      requires Shaped() && Queued(queue, routes, start, recursive) && queue != []
      ensures Queued(queue[1..], routes[1..], start, recursive)
      ensures Leads(routes[0], recursive) && routes[0][0] == start && routes[0][|routes[0]| - 1] == queue[0]
    {
      forall i | 0 <= i < |queue| - 1
        ensures Leads(routes[1..][i], recursive) && routes[1..][i][0] == start && routes[1..][i][|routes[1..][i]| - 1] == queue[1..][i]
      {
        assert routes[1..][i] == routes[i + 1] && queue[1..][i] == queue[i + 1];
      }
    }

    lemma QueuedAppend(queue: seq<State>, routes: seq<seq<State>>, more: seq<State>, moreRoutes: seq<seq<State>>,
                       start: State, recursive: bool)
      requires Shaped() && Queued(queue, routes, start, recursive) && Queued(more, moreRoutes, start, recursive)
      ensures Queued(queue + more, routes + moreRoutes, start, recursive)
    {
      forall i | 0 <= i < |queue + more|
        ensures Leads((routes + moreRoutes)[i], recursive) && (routes + moreRoutes)[i][0] == start
          && (routes + moreRoutes)[i][|(routes + moreRoutes)[i]| - 1] == (queue + more)[i]
      {
        if i < |queue| {
          assert (routes + moreRoutes)[i] == routes[i] && (queue + more)[i] == queue[i];
        } else {
          assert (routes + moreRoutes)[i] == moreRoutes[i - |queue|] && (queue + more)[i] == more[i - |queue|];
        }
      }
    }

    /** Every state `Walks` gives is one move on from `current`, so the route to `current` leads on to it. */
    lemma WalksLead(route: seq<State>, start: State, current: State, visited: set<PointLevel>, recursive: bool)
      requires Shaped() && Leads(route, recursive) && route[0] == start && route[|route| - 1] == current
      ensures var walks := Walks(current, Surrounding(current.point, width, height), values, visited);
        Queued(walks, Extended(route, walks), start, recursive)
    {
      var walks := Walks(current, Surrounding(current.point, width, height), values, visited);
      var extended := Extended(route, walks);
      forall k | 0 <= k < |walks|
        ensures Leads(extended[k], recursive) && extended[k][0] == start && extended[k][|extended[k]| - 1] == walks[k]
      {
        assert walks[k] in walks;
        LeadsOn(route, walks[k], recursive);
      }
    }

    /**
     * The rules of the levels: the flat maze stays on its level; a jump in the recursive maze goes
     * one level down through an inner gate and one up otherwise; and from the outermost level the
     * only way further out leads to AA or ZZ.
     */
    lemma MoveLevels(s: State, t: State, recursive: bool)
      requires Shaped() && Named(locationNames, portalEntrances, innerGate) && Move(s, t, recursive)
      ensures !recursive ==> t.level == s.level
      ensures t.level == s.level || t.level == s.level + 1 || t.level == s.level - 1
      ensures t.level == s.level + 1 ==> s.point in innerGate
      ensures s.level == 0 && t.level < 0 ==> t.point in locationNames && (locationNames[t.point] == START || locationNames[t.point] == EXIT)
    {
    }

    /**
     * `findPath`, for at most `fuel` turns of its loop: a state it returns stands on ZZ at the
     * outermost level and is reached from `state` by moves of the maze, its distance counting them.
     */
    method FindPath(state: State, recursive: bool, fuel: nat) returns (r: Search)
      requires Shaped() && Named(locationNames, portalEntrances, innerGate)
      ensures r.Found? ==> r.state.point in locationNames && locationNames[r.state.point] == EXIT && r.state.level == 0
      ensures r.Found? ==> exists route :: Leads(route, recursive) && route[0] == state && route[|route| - 1] == r.state
    {
      var queue := [state];
      var visited: set<PointLevel> := {};
      ghost var routes: seq<seq<State>> := [[state]];
      var turns := 0;
      while queue != []
        invariant turns <= fuel && Queued(queue, routes, state, recursive)
        decreases fuel - turns
      {
        if turns == fuel {
          return Unfinished;
        }
        turns := turns + 1;
        var current := queue[0];
        ghost var route := routes[0];
        QueuedTail(queue, routes, state, recursive);
        queue, routes := queue[1..], routes[1..];
        visited := visited + {PointLevel(current.point, current.level)};

        if current.point in locationNames {
          if locationNames[current.point] == EXIT && current.level == 0 {
            return Found(current);
          }
          var gate := FirstOther(portalEntrances[locationNames[current.point]], current.point);
          if gate.Some? {
            var otherPoint := gate.value;
            var destination := PointLevel(otherPoint, current.level);
            if recursive {
              destination := destination.(level := destination.level + if current.point in innerGate && innerGate[current.point] then 1 else -1);
            }
            if destination !in visited && IsPortalOpen(current, otherPoint, recursive) {
              var nextState := State(otherPoint, current.distance + 1, destination.level);
              assert Move(current, nextState, recursive);
              LeadsOn(route, nextState, recursive);
              QueuedAppend(queue, routes, [nextState], [route + [nextState]], state, recursive);
              queue, routes := queue + [nextState], routes + [route + [nextState]];
              continue;
            }
          }
        }

        var walks := Walks(current, Surrounding(current.point, width, height), values, visited);
        ghost var extended := Extended(route, walks);
        WalksLead(route, state, current, visited, recursive);
        QueuedAppend(queue, routes, walks, extended, state, recursive);
        queue, routes := queue + walks, routes + extended;
      }
      return Raises;
    }

    /** In the flat maze every state of a route is on the level it starts from. */
    lemma {:induction false} FlatLevels(route: seq<State>)
      requires Shaped() && Named(locationNames, portalEntrances, innerGate) && Leads(route, false)
      ensures forall i :: 0 <= i < |route| ==> route[i].level == route[0].level
    {
      if |route| > 1 {
        var prefix := route[..|route| - 1];
        assert Leads(prefix, false) by {
          forall i | 0 <= i < |prefix| - 1
            ensures Move(prefix[i], prefix[i + 1], false)
          {
            assert prefix[i] == route[i] && prefix[i + 1] == route[i + 1];
          }
          FlatDistance(route, |prefix| - 1);
        }
        FlatLevels(prefix);
        MoveLevels(route[|route| - 2], route[|route| - 1], false);
        assert forall i :: 0 <= i < |prefix| ==> route[i] == prefix[i];
      }
    }

    /** The distances along a route grow by one per move. */
    lemma {:induction false} FlatDistance(route: seq<State>, i: nat)
      requires Shaped() && |route| >= 1 && i < |route|
      requires forall j :: 0 <= j < |route| - 1 ==> Move(route[j], route[j + 1], false)
      ensures route[i].distance == route[0].distance + i
    {
      if i > 0 {
        FlatDistance(route, i - 1);
      }
    }

    /**
     * `part01`/`part02`: the search from the first entrance of AA at distance 0 on the
     * outermost level; Java raises when AA has no entrance. A state found stands on ZZ,
     * reached from there by as many moves as its distance says.
     */
    method Part(recursive: bool, fuel: nat) returns (r: Search)
      requires Shaped() && Named(locationNames, portalEntrances, innerGate)
      ensures START !in portalEntrances || portalEntrances[START] == [] ==> r == Raises
      ensures r.Found? ==> START in portalEntrances && portalEntrances[START] != []
      ensures r.Found? ==> r.state.point in locationNames && locationNames[r.state.point] == EXIT && r.state.level == 0
      ensures r.Found? ==> exists route ::
                             && Leads(route, recursive) && route[0] == State(portalEntrances[START][0], 0, 0)
                             && route[|route| - 1] == r.state && r.state.distance == |route| - 1
    {
      if START !in portalEntrances || portalEntrances[START] == [] {
        return Raises;
      }
      r := FindPath(State(portalEntrances[START][0], 0, 0), recursive, fuel);
    }

    /** `locationNames.put`, the `portalEntrances` append and the `innerGate` entry for one entrance. */
    method Register(entrance: Point, portalName: string)
      modifies this`locationNames, this`portalEntrances, this`innerGate
      ensures locationNames == old(locationNames)[entrance := portalName]
      ensures portalEntrances == old(portalEntrances)[portalName := Listed(old(portalEntrances), portalName) + [entrance]]
      ensures innerGate == if Inner(entrance, width, height) then old(innerGate)[entrance := true] else old(innerGate)
    {
      locationNames := locationNames[entrance := portalName];
      if portalName !in portalEntrances {
        portalEntrances := portalEntrances[portalName := []];
      }
      portalEntrances := portalEntrances[portalName := portalEntrances[portalName] + [entrance]];
      if entrance.y > 3 && entrance.y < height - 3 && entrance.x > 3 && entrance.x < width - 3 {
        innerGate := innerGate[entrance := true];
      }
    }
  }

  /**
   * `new GateMap(input)`: loading and then `processPortals`, None where Java raises while
   * processing. The tables of a map it builds hold exactly the portals found at the registered
   * cells, every one of which yields a portal.
   */
  method NewGateMap(input: seq<string>) returns (r: Option<GateMap>)
    requires |input| >= 1 && forall y :: 0 <= y < |input| ==> |input[y]| >= |input[0]|
    ensures r.Some? ==> var g := r.value;
      && g.height == |input| && g.width == |input[0]| && g.Loaded(input)
      && exists found: map<Point, Portal> ::
           && found.Keys == g.portalCharacters.Keys && g.Records(found)
           && Tables(found, g.locationNames, g.portalEntrances, g.innerGate, g.width, g.height)
  {
    var g := new GateMap(input);
    var ok, found := g.ProcessPortals();
    if !ok {
      return None;
    }
    return Some(g);
  }
}
