/**
 * Planet of discord (`Day24`): a game of life on a grid of bugs ('#') and empty cells ('.').
 * A bug survives only with exactly one bug next to it, an empty cell is infested by one or two.
 * Part 1 steps the flat grid until a layout repeats and reports its biodiversity; part 2 runs
 * the rule on the recursive grid, where the centre of every level holds a smaller level and
 * the edges of every level border the cells around the centre of the level outside it.
 */
module Day24 {
  import opened Wrappers
  import JavaMath
  import Day20

  const BUG: char := '#'
  const EMPTY: char := '.'
  const NEWLINE: char := '\n'
  /** What `new char[5][5]` holds before a cell is written: the centre of a stepped level. */
  const UNSET: char := '\0'
  const ITERATIONS: nat := 200

  /** A grid as rows of cells, `g[y][x]`. */
  type Grid = seq<seq<char>>

  predicate Shaped(g: Grid, height: int, width: int)
  {
    |g| == height && forall y :: 0 <= y < |g| ==> |g[y]| == width
  }

  // ---------------------------------------------------------------------------------
  // The rule

  /** 1 for a bug at (x, y) inside the grid, 0 otherwise. */
  function Bug(g: Grid, x: int, y: int): nat
  {
    if 0 <= y < |g| && 0 <= x < |g[y]| && g[y][x] == BUG then 1 else 0
  }

  /** The bugs on the four cells orthogonally next to (x, y); there are none outside the grid. */
  function Neighbours(g: Grid, x: int, y: int): nat
  {
    Bug(g, x - 1, y) + Bug(g, x + 1, y) + Bug(g, x, y - 1) + Bug(g, x, y + 1)
  }

  /** `shouldSpawnOnEmpty`. */
  predicate SpawnsOn(surrounding: int)
  {
    surrounding == 1 || surrounding == 2
  }

  /**
   * The cell after a step with `surrounding` bugs next to it: a bug survives exactly with one,
   * an empty cell is infested exactly by one or two, and any other character is copied.
   */
  function NextCell(c: char, surrounding: int): (r: char)
    ensures c == BUG ==> (r == BUG <==> surrounding == 1) && (r != BUG ==> r == EMPTY)
    ensures c == EMPTY ==> (r == BUG <==> SpawnsOn(surrounding)) && (r != BUG ==> r == EMPTY)
    ensures c != BUG && c != EMPTY ==> r == c
  {
    if c == BUG && surrounding != 1 then EMPTY
    else if c == EMPTY && SpawnsOn(surrounding) then BUG
    else c
  }

  /** One step of the flat grid, every cell at once. */
  function Step(g: Grid): (r: Grid)
    ensures |r| == |g| && forall y :: 0 <= y < |g| ==> |r[y]| == |g[y]|
  {
    seq(|g|, y requires 0 <= y < |g| => seq(|g[y]|, x requires 0 <= x < |g[y]| => Next(g, x, y)))
  }

  /** The cell (x, y) after a step. */
  function Next(g: Grid, x: int, y: int): char
    requires 0 <= y < |g| && 0 <= x < |g[y]|
  {
    NextCell(g[y][x], Neighbours(g, x, y))
  }

  /** The grid after k steps. */
  function Iterate(g: Grid, k: nat): Grid
  {
    if k == 0 then g else Step(Iterate(g, k - 1))
  }

  // ---------------------------------------------------------------------------------
  // The flat grid in arrays

  /** The cells of an array as rows. */
  function Rows(a: array2<char>): (r: Grid)
    reads a
    ensures Shaped(r, a.Length0, a.Length1)
    ensures forall y, x :: 0 <= y < a.Length0 && 0 <= x < a.Length1 ==> r[y][x] == a[y, x]
  {
    seq(a.Length0, y requires 0 <= y < a.Length0 reads a => seq(a.Length1, x requires 0 <= x < a.Length1 reads a => a[y, x]))
  }

  /** `mapToInt(point -> grid[point.y][point.x] == '#' ? 1 : 0).sum()` over the given cells. */
  function BugsAt(a: array2<char>, points: seq<Day20.Point>): nat
    requires forall p :: p in points ==> 0 <= p.y < a.Length0 && 0 <= p.x < a.Length1
    reads a
  {
    if points == [] then 0
    else (if a[points[0].y, points[0].x] == BUG then 1 else 0) + BugsAt(a, points[1..])
  }

  /** The bugs on the given cells of a grid, none for a cell outside it. */
  function BugSum(g: Grid, points: seq<Day20.Point>): nat
  {
    if points == [] then 0 else Bug(g, points[0].x, points[0].y) + BugSum(g, points[1..])
  }

  /** Dropping the cells outside the grid drops no bug. */
  lemma {:induction false} KeptBugs(a: array2<char>, points: seq<Day20.Point>)
    ensures var kept := Day20.KeepInBounds(points, a.Length1, a.Length0);
      (forall p :: p in kept ==> 0 <= p.y < a.Length0 && 0 <= p.x < a.Length1) && BugsAt(a, kept) == BugSum(Rows(a), points)
  {
    var kept := Day20.KeepInBounds(points, a.Length1, a.Length0);
    if points != [] {
      var p := points[0];
      var rest := Day20.KeepInBounds(points[1..], a.Length1, a.Length0);
      KeptBugs(a, points[1..]);
      if Day20.InBounds(p, a.Length1, a.Length0) {
        assert kept == [p] + rest;
        assert kept[1..] == rest;
      } else {
        assert kept == rest;
        assert Bug(Rows(a), p.x, p.y) == 0;
      }
    }
  }

  /** The four candidate cells hold the bugs next to (x, y). */
  lemma CandidatesSum(g: Grid, x: int, y: int)
    ensures BugSum(g, Day20.Candidates(Day20.Point(x, y))) == Neighbours(g, x, y)
  {
    var candidates := Day20.Candidates(Day20.Point(x, y));
    assert candidates[3..][1..] == [];
    assert BugSum(g, candidates[3..]) == Bug(g, x, y + 1);
    assert candidates[2..][1..] == candidates[3..];
    assert BugSum(g, candidates[2..]) == Bug(g, x, y - 1) + Bug(g, x, y + 1);
    assert candidates[1..][1..] == candidates[2..];
    assert BugSum(g, candidates[1..]) == Bug(g, x + 1, y) + Bug(g, x, y - 1) + Bug(g, x, y + 1);
  }

  /** Summing over `Point.surrounding` counts the bugs next to (x, y). */
  lemma SurroundingBugs(a: array2<char>, x: int, y: int)
    ensures var around := Day20.Surrounding(Day20.Point(x, y), a.Length1, a.Length0);
      (forall p :: p in around ==> 0 <= p.y < a.Length0 && 0 <= p.x < a.Length1) && BugsAt(a, around) == Neighbours(Rows(a), x, y)
  {
    KeptBugs(a, Day20.Candidates(Day20.Point(x, y)));
    CandidatesSum(Rows(a), x, y);
  }

  /** `shouldDie`: the bugs next to (x, y) are not exactly one. */
  function ShouldDie(grid: array2<char>, x: int, y: int): (r: bool)
    requires grid.Length0 >= 1
    reads grid
    ensures r <==> Neighbours(Rows(grid), x, y) != 1
  {
    var around := Day20.Surrounding(Day20.Point(x, y), grid.Length1, grid.Length0);
    SurroundingBugs(grid, x, y);
    BugsAt(grid, around) != 1
  }

  /** `shouldInfest`: one or two bugs next to (x, y). */
  function ShouldInfest(grid: array2<char>, x: int, y: int): (r: bool)
    requires grid.Length0 >= 1
    reads grid
    ensures r <==> SpawnsOn(Neighbours(Rows(grid), x, y))
  {
    var around := Day20.Surrounding(Day20.Point(x, y), grid.Length1, grid.Length0);
    SurroundingBugs(grid, x, y);
    var surrounding := BugsAt(grid, around);
    surrounding == 1 || surrounding == 2
  }

  /**
   * `updateStep`: a fresh grid of the same shape holding the next step of every cell; the
   * input is left as it was.
   */
  method UpdateStep(grid: array2<char>) returns (result: array2<char>)
    requires grid.Length0 >= 1
    ensures fresh(result) && result.Length0 == grid.Length0 && result.Length1 == grid.Length1
    ensures Rows(result) == Step(Rows(grid))
  {
    result := new char[grid.Length0, grid.Length1];
    ghost var rows := Rows(grid);
    for y := 0 to grid.Length0
      invariant forall y', x :: 0 <= y' < y && 0 <= x < grid.Length1 ==> result[y', x] == Next(rows, x, y')
    {
      UpdateRow(grid, result, y, rows);
    }
    assert forall y :: 0 <= y < grid.Length0 ==> Rows(result)[y] == Step(rows)[y];
  }

  /** The inner loop of `updateStep`: row y, cell by cell. */
  method UpdateRow(grid: array2<char>, result: array2<char>, y: int, ghost rows: Grid)
    requires grid != result && result.Length0 == grid.Length0 && result.Length1 == grid.Length1
    requires 0 <= y < grid.Length0 && rows == Rows(grid)
    modifies result
    ensures forall x :: 0 <= x < grid.Length1 ==> result[y, x] == Next(rows, x, y)
    ensures forall y', x :: 0 <= y' < grid.Length0 && 0 <= x < grid.Length1 && y' != y ==> result[y', x] == old(result[y', x])
  {
    for x := 0 to grid.Length1
      invariant forall x' :: 0 <= x' < x ==> result[y, x'] == Next(rows, x', y)
      invariant forall y', x' :: 0 <= y' < grid.Length0 && 0 <= x' < grid.Length1 && y' != y ==> result[y', x'] == old(result[y', x'])
    {
      UpdateCell(grid, result, x, y, rows);
    }
  }

  /** The body of `updateStep`'s loops: the cell (x, y) of the result. */
  method UpdateCell(grid: array2<char>, result: array2<char>, x: int, y: int, ghost rows: Grid)
    requires grid != result && result.Length0 == grid.Length0 && result.Length1 == grid.Length1
    requires 0 <= y < grid.Length0 && 0 <= x < grid.Length1 && rows == Rows(grid)
    modifies result
    ensures result[y, x] == Next(rows, x, y)
    ensures forall y', x' :: 0 <= y' < grid.Length0 && 0 <= x' < grid.Length1 && (y', x') != (y, x) ==> result[y', x'] == old(result[y', x'])
  {
    if grid[y, x] == BUG && ShouldDie(grid, x, y) {
      result[y, x] := EMPTY;
    } else if grid[y, x] == EMPTY && ShouldInfest(grid, x, y) {
      result[y, x] := BUG;
    } else {
      result[y, x] := grid[y, x];
    }
  }

  // ---------------------------------------------------------------------------------
  // Layouts and biodiversity

  /** `createGrid`: every row followed by a newline. */
  function Render(rows: Grid): string
  {
    if rows == [] then [] else Render(rows[..|rows| - 1]) + rows[|rows| - 1] + [NEWLINE]
  }

  /** The rows one after another. */
  function Flatten(rows: Grid): seq<char>
  {
    if rows == [] then [] else Flatten(rows[..|rows| - 1]) + rows[|rows| - 1]
  }

  /** `replaceAll("\n", "")`. */
  function RemoveNewlines(s: string): string
  {
    if s == [] then [] else RemoveNewlines(s[..|s| - 1]) + (if s[|s| - 1] == NEWLINE then [] else [s[|s| - 1]])
  }

  /** `createGrid` in the source's own loop: the rows appended in order. */
  method CreateGrid(grid: array2<char>) returns (s: string)
    ensures s == Render(Rows(grid))
  {
    ghost var rows := Rows(grid);
    s := [];
    for y := 0 to grid.Length0
      invariant s == Render(rows[..y])
    {
      assert rows[..y + 1][..y] == rows[..y];
      s := s + Rows(grid)[y] + [NEWLINE];
    }
    assert rows[..grid.Length0] == rows;
  }

  lemma {:induction false} RemoveNewlinesAppend(s: string, t: string)
    ensures RemoveNewlines(s + t) == RemoveNewlines(s) + RemoveNewlines(t)
  {
    if t == [] {
      assert s + t == s;
    } else {
      var t' := t[..|t| - 1];
      assert (s + t)[..|s + t| - 1] == s + t';
      assert (s + t)[|s + t| - 1] == t[|t| - 1];
      RemoveNewlinesAppend(s, t');
    }
  }

  lemma {:induction false} NoNewlines(s: string)
    requires NEWLINE !in s
    ensures RemoveNewlines(s) == s
  {
    if s != [] {
      NoNewlines(s[..|s| - 1]);
    }
  }

  /** Without its newlines, a rendered layout is the cells in row-major order. */
  lemma {:induction false} RenderFlattens(rows: Grid)
    requires forall y :: 0 <= y < |rows| ==> NEWLINE !in rows[y]
    ensures RemoveNewlines(Render(rows)) == Flatten(rows)
  {
    if rows != [] {
      var init := rows[..|rows| - 1];
      var last := rows[|rows| - 1];
      RenderFlattens(init);
      RemoveNewlinesAppend(Render(init) + last, [NEWLINE]);
      RemoveNewlinesAppend(Render(init), last);
      NoNewlines(last);
      assert RemoveNewlines([NEWLINE]) == [];
    }
  }

  /** The biodiversity rating: 2^i for every bug at position i. */
  function Biodiversity(cells: seq<char>): nat
  {
    if cells == [] then 0
    else Biodiversity(cells[..|cells| - 1]) + (if cells[|cells| - 1] == BUG then JavaMath.Pow2(|cells| - 1) else 0)
  }

  /** `calculateBiodiversity`: the rating of the layout with its newlines removed. */
  method CalculateBiodiversity(stringValue: string) returns (sum: nat)
    ensures sum == Biodiversity(RemoveNewlines(stringValue))
  {
    var chars := RemoveNewlines(stringValue);
    sum := 0;
    for i := 0 to |chars|
      invariant sum == Biodiversity(chars[..i])
    {
      assert chars[..i + 1][..i] == chars[..i];
      if chars[i] == BUG {
        sum := sum + JavaMath.Pow2(i);
      }
    }
    assert chars[..|chars|] == chars;
  }

  /** A rating stays below 2^n for n cells. */
  lemma {:induction false} BiodiversityBound(cells: seq<char>)
    ensures Biodiversity(cells) < JavaMath.Pow2(|cells|)
  {
    if cells != [] {
      BiodiversityBound(cells[..|cells| - 1]);
    }
  }

  /** Two layouts of the same size with the same rating have their bugs in the same places. */
  lemma {:induction false} BiodiversityDetermines(a: seq<char>, b: seq<char>)
    requires |a| == |b| && Biodiversity(a) == Biodiversity(b)
    ensures forall i :: 0 <= i < |a| ==> (a[i] == BUG <==> b[i] == BUG)
  {
    if a != [] {
      var n := |a| - 1;
      var a', b' := a[..n], b[..n];
      BiodiversityBound(a');
      BiodiversityBound(b');
      assert (a[n] == BUG) == (b[n] == BUG);
      BiodiversityDetermines(a', b');
      assert forall i :: 0 <= i < n ==> a[i] == a'[i] && b[i] == b'[i];
    }
  }

  // ---------------------------------------------------------------------------------
  // Part 1

  /** The rendered layout after k steps. */
  function Layout(g: Grid, k: nat): string
  {
    Render(Iterate(g, k))
  }

  /** The layout after k steps was already seen after some earlier step (not the start). */
  ghost predicate Repeats(g: Grid, k: nat)
  {
    exists j :: 1 <= j < k && Layout(g, j) == Layout(g, k)
  }

  /** Step k, one or more, is the first whose layout repeats. */
  ghost predicate FirstRepeat(g: Grid, k: nat)
  {
    1 <= k && Repeats(g, k) && forall k' :: 1 <= k' < k ==> !Repeats(g, k')
  }

  /** `seen` holds the layouts after steps 1 to `turns`, none of which repeats an earlier one. */
  ghost predicate SeenUpTo(seen: set<string>, g: Grid, turns: nat)
  {
    && (forall s :: s in seen <==> exists j :: 1 <= j <= turns && Layout(g, j) == s)
    && forall k :: 1 <= k <= turns ==> !Repeats(g, k)
  }

  /** A new layout after step `turns + 1` joins the seen ones without repeating. */
  lemma SeenNext(seen: set<string>, g: Grid, turns: nat)
    requires SeenUpTo(seen, g, turns) && Layout(g, turns + 1) !in seen
    ensures SeenUpTo(seen + {Layout(g, turns + 1)}, g, turns + 1)
  {
    var seen' := seen + {Layout(g, turns + 1)};
    forall s
      ensures s in seen' <==> exists j :: 1 <= j <= turns + 1 && Layout(g, j) == s
    {
      if s in seen' && s != Layout(g, turns + 1) {
        var j :| 1 <= j <= turns && Layout(g, j) == s;
        assert 1 <= j <= turns + 1;
      }
    }
  }

  /** A layout after step `turns + 1` that was seen is the first repeat. */
  lemma SeenAgain(seen: set<string>, g: Grid, turns: nat)
    requires SeenUpTo(seen, g, turns) && Layout(g, turns + 1) in seen
    ensures FirstRepeat(g, turns + 1)
  {
    var j :| 1 <= j <= turns && Layout(g, j) == Layout(g, turns + 1);
  }

  /**
   * `part01`, for at most `fuel` steps: the rating of the first layout, among those after one
   * or more steps, that was seen before.
   */
  method Part01(initial: array2<char>, fuel: nat) returns (r: Option<nat>)
    requires initial.Length0 >= 1
    ensures r.Some? ==> exists k :: FirstRepeat(Rows(initial), k) && r.value == Biodiversity(RemoveNewlines(Layout(Rows(initial), k)))
  {
    ghost var start := Rows(initial);
    var grid := initial;
    var seen: set<string> := {};
    var turns := 0;
    while turns < fuel
      invariant grid.Length0 >= 1 && Rows(grid) == Iterate(start, turns) && Rows(initial) == start
      invariant SeenUpTo(seen, start, turns)
    {
      grid := UpdateStep(grid);
      var stringValue := CreateGrid(grid);
      assert stringValue == Layout(start, turns + 1);
      if stringValue in seen {
        SeenAgain(seen, start, turns);
        var rating := CalculateBiodiversity(stringValue);
        assert Rows(initial) == start;
        assert FirstRepeat(start, turns + 1) && rating == Biodiversity(RemoveNewlines(Layout(start, turns + 1)));
        return Some(rating);
      }
      SeenNext(seen, start, turns);
      seen := seen + {stringValue};
      turns := turns + 1;
    }
    return None;
  }

  // ---------------------------------------------------------------------------------
  // The recursive grid

  /** A level of the recursive grid: five rows of five cells. */
  predicate Square(g: Grid)
  {
    Shaped(g, 5, 5)
  }

  /** `emptyGrid()`: a level without bugs. */
  const Blank: Grid := [BlankRow, BlankRow, BlankRow, BlankRow, BlankRow]

  /** A row of five empty cells. */
  const BlankRow: seq<char> := [EMPTY, EMPTY, EMPTY, EMPTY, EMPTY]

  /** `valueOf`: 1 for a bug at (x, y). */
  function CellValue(g: Grid, x: int, y: int): nat
    requires Square(g) && 0 <= x < 5 && 0 <= y < 5
  {
    if g[y][x] == BUG then 1 else 0
  }

  /** The bugs in column x, rows 0 to n - 1. */
  function ColumnBugs(g: Grid, x: int, n: nat): nat
    requires Square(g) && 0 <= x < 5 && n <= 5
  {
    if n == 0 then 0 else ColumnBugs(g, x, n - 1) + CellValue(g, x, n - 1)
  }

  /** The bugs in row y, columns 0 to n - 1. */
  function RowBugs(g: Grid, y: int, n: nat): nat
    requires Square(g) && 0 <= y < 5 && n <= 5
  {
    if n == 0 then 0 else RowBugs(g, y, n - 1) + CellValue(g, n - 1, y)
  }

  /**
   * `calculateLeft`: left of the left edge is the cell left of the centre of the level outside;
   * left of the cell right of the centre is the whole right column of the level inside.
   */
  function LeftOf(x: int, y: int, current: Grid, previous: Grid, next: Grid): nat
    requires Square(current) && Square(previous) && Square(next) && 0 <= x < 5 && 0 <= y < 5
  {
    if x == 0 then CellValue(previous, 1, 2)
    else if x == 3 && y == 2 then ColumnBugs(next, 4, 5)
    else CellValue(current, x - 1, y)
  }

  /** `calculateRight`, the mirror image of `LeftOf`. */
  function RightOf(x: int, y: int, current: Grid, previous: Grid, next: Grid): nat
    requires Square(current) && Square(previous) && Square(next) && 0 <= x < 5 && 0 <= y < 5
  {
    if x == 4 then CellValue(previous, 3, 2)
    else if x == 1 && y == 2 then ColumnBugs(next, 0, 5)
    else CellValue(current, x + 1, y)
  }

  /** `calculateTop`: above the top edge, and above the cell below the centre. */
  function TopOf(x: int, y: int, current: Grid, previous: Grid, next: Grid): nat
    requires Square(current) && Square(previous) && Square(next) && 0 <= x < 5 && 0 <= y < 5
  {
    if y == 0 then CellValue(previous, 2, 1)
    else if y == 3 && x == 2 then RowBugs(next, 4, 5)
    else CellValue(current, x, y - 1)
  }

  /** `calculateBottom`, the mirror image of `TopOf`. */
  function BottomOf(x: int, y: int, current: Grid, previous: Grid, next: Grid): nat
    requires Square(current) && Square(previous) && Square(next) && 0 <= x < 5 && 0 <= y < 5
  {
    if y == 4 then CellValue(previous, 2, 3)
    else if y == 1 && x == 2 then RowBugs(next, 0, 5)
    else CellValue(current, x, y + 1)
  }

  /** The bugs next to (x, y) in the recursive grid, on its own level and the two beside it. */
  function Around(x: int, y: int, current: Grid, previous: Grid, next: Grid): nat
    requires Square(current) && Square(previous) && Square(next) && 0 <= x < 5 && 0 <= y < 5
  {
    LeftOf(x, y, current, previous, next) + RightOf(x, y, current, previous, next)
      + TopOf(x, y, current, previous, next) + BottomOf(x, y, current, previous, next)
  }

  /** The cells on the edge of a level. */
  predicate OnEdge(x: int, y: int)
  {
    x == 0 || x == 4 || y == 0 || y == 4
  }

  /** The four cells next to the centre. */
  predicate NextToCentre(x: int, y: int)
  {
    (x == 2 && (y == 1 || y == 3)) || (y == 2 && (x == 1 || x == 3))
  }

  /** The same level with its centre replaced. */
  function WithCentre(g: Grid, c: char): (r: Grid)
    requires Square(g)
    ensures Square(r)
  {
    g[2 := g[2][2 := c]]
  }

  /** The edge columns and rows of a level never include its centre. */
  lemma {:induction false} EdgeSumsSkipCentre(g: Grid, c: char, n: nat)
    requires Square(g) && n <= 5
    ensures ColumnBugs(WithCentre(g, c), 0, n) == ColumnBugs(g, 0, n)
    ensures ColumnBugs(WithCentre(g, c), 4, n) == ColumnBugs(g, 4, n)
    ensures RowBugs(WithCentre(g, c), 0, n) == RowBugs(g, 0, n)
    ensures RowBugs(WithCentre(g, c), 4, n) == RowBugs(g, 4, n)
  {
    if n > 0 {
      EdgeSumsSkipCentre(g, c, n - 1);
    }
  }

  /** No level's centre is ever read when counting the bugs next to another cell. */
  lemma CentreNeverRead(x: int, y: int, current: Grid, previous: Grid, next: Grid, c: char)
    requires Square(current) && Square(previous) && Square(next)
    requires 0 <= x < 5 && 0 <= y < 5 && (x, y) != (2, 2)
    ensures Around(x, y, WithCentre(current, c), WithCentre(previous, c), WithCentre(next, c)) == Around(x, y, current, previous, next)
  {
    EdgeSumsSkipCentre(next, c, 5);
    var current', previous', next' := WithCentre(current, c), WithCentre(previous, c), WithCentre(next, c);
    assert LeftOf(x, y, current', previous', next') == LeftOf(x, y, current, previous, next);
    assert RightOf(x, y, current', previous', next') == RightOf(x, y, current, previous, next);
    assert TopOf(x, y, current', previous', next') == TopOf(x, y, current, previous, next);
    assert BottomOf(x, y, current', previous', next') == BottomOf(x, y, current, previous, next);
  }

  /**
   * The level outside is read only from the edge, the level inside only from next to the centre,
   * and a cell of the inner ring that is neither counts its own level like the flat grid.
   */
  lemma AroundSources(x: int, y: int, current: Grid, previous: Grid, next: Grid, previous': Grid, next': Grid)
    requires Square(current) && Square(previous) && Square(next) && Square(previous') && Square(next')
    requires 0 <= x < 5 && 0 <= y < 5 && (x, y) != (2, 2)
    ensures !OnEdge(x, y) ==> Around(x, y, current, previous', next) == Around(x, y, current, previous, next)
    ensures !NextToCentre(x, y) ==> Around(x, y, current, previous, next') == Around(x, y, current, previous, next)
    ensures !OnEdge(x, y) && !NextToCentre(x, y) ==> Around(x, y, current, previous, next) == Neighbours(current, x, y)
  {
  }

  /** A step of one level of the recursive grid; the centre is left as `new char[5][5]` made it. */
  function RecursiveStep(current: Grid, previous: Grid, next: Grid): (r: Grid)
    requires Square(current) && Square(previous) && Square(next)
    ensures Square(r) && r[2][2] == UNSET
  {
    seq(5, y requires 0 <= y < 5 => seq(5, x requires 0 <= x < 5 =>
      if x == 2 && y == 2 then UNSET else Stepped(x, y, current, previous, next)))
  }

  /** The cell (x, y) of a level after a step of the recursive grid. */
  function Stepped(x: int, y: int, current: Grid, previous: Grid, next: Grid): char
    requires Square(current) && Square(previous) && Square(next) && 0 <= x < 5 && 0 <= y < 5
  {
    NextCell(current[y][x], Around(x, y, current, previous, next))
  }

  /** The bugs an empty level just outside `current` sees from it: only the four cells around its centre do. */
  function PreviousCount(current: Grid, x: int, y: int): nat
    requires Square(current)
  {
    if (x, y) == (1, 2) then ColumnBugs(current, 0, 5)
    else if (x, y) == (3, 2) then ColumnBugs(current, 4, 5)
    else if (x, y) == (2, 1) then RowBugs(current, 0, 5)
    else if (x, y) == (2, 3) then RowBugs(current, 4, 5)
    else 0
  }

  /** The bugs an empty level just inside `current` sees from it: only its edge cells do, corners twice. */
  function NextCount(current: Grid, x: int, y: int): nat
    requires Square(current)
  {
    (if y == 0 then CellValue(current, 2, 1) else 0)
      + (if y == 4 then CellValue(current, 2, 3) else 0)
      + (if x == 0 then CellValue(current, 1, 2) else 0)
      + (if x == 4 then CellValue(current, 3, 2) else 0)
  }

  /** `previous` with a bug spawned on every cell that sees one or two of `current`'s. */
  function SpawnPrevious(previous: Grid, current: Grid): (r: Grid)
    requires Square(previous) && Square(current)
    ensures Square(r)
  {
    seq(5, y requires 0 <= y < 5 => seq(5, x requires 0 <= x < 5 =>
      if SpawnsOn(PreviousCount(current, x, y)) then BUG else previous[y][x]))
  }

  /** `next` with a bug spawned on every cell that sees one or two of `current`'s. */
  function SpawnNext(next: Grid, current: Grid): (r: Grid)
    requires Square(next) && Square(current)
    ensures Square(r)
  {
    seq(5, y requires 0 <= y < 5 => seq(5, x requires 0 <= x < 5 =>
      if SpawnsOn(NextCount(current, x, y)) then BUG else next[y][x]))
  }

  /** An empty level has no bugs in any column or row. */
  lemma {:induction false} BlankSums(n: nat)
    requires n <= 5
    ensures forall x :: 0 <= x < 5 ==> ColumnBugs(Blank, x, n) == 0
    ensures forall y :: 0 <= y < 5 ==> RowBugs(Blank, y, n) == 0
  {
    if n > 0 {
      BlankSums(n - 1);
    }
  }

  /** Two levels with the same cells are the same level. */
  lemma SameCells(g: Grid, h: Grid)
    requires Square(g) && Square(h)
    requires forall y, x :: 0 <= y < 5 && 0 <= x < 5 ==> g[y][x] == h[y][x]
    ensures g == h
  {
    forall y | 0 <= y < 5
      ensures g[y] == h[y]
    {
    }
  }

  /** Outside `current`, with nothing further out, a cell sees exactly `PreviousCount`. */
  lemma AroundPrevious(current: Grid, x: int, y: int)
    requires Square(current) && 0 <= x < 5 && 0 <= y < 5
    ensures Around(x, y, Blank, Blank, current) == PreviousCount(current, x, y)
  {
    assert forall a, b :: 0 <= a < 5 && 0 <= b < 5 ==> CellValue(Blank, a, b) == 0;
  }

  /** Inside `current`, with nothing further in, a cell sees exactly `NextCount`. */
  lemma AroundNext(current: Grid, x: int, y: int)
    requires Square(current) && 0 <= x < 5 && 0 <= y < 5
    ensures Around(x, y, Blank, current, Blank) == NextCount(current, x, y)
  {
    assert forall a, b :: 0 <= a < 5 && 0 <= b < 5 ==> CellValue(Blank, a, b) == 0;
    BlankSums(5);
  }

  /**
   * Clearing a new level outside `current` is the step of an empty level with nothing further
   * out, apart from the centre that the step leaves unset and the clearing leaves empty.
   */
  lemma ClearedPreviousIsStep(current: Grid)
    requires Square(current)
    ensures WithCentre(SpawnPrevious(Blank, current), UNSET) == RecursiveStep(Blank, Blank, current)
  {
    var cleared, stepped := WithCentre(SpawnPrevious(Blank, current), UNSET), RecursiveStep(Blank, Blank, current);
    forall y, x | 0 <= y < 5 && 0 <= x < 5
      ensures cleared[y][x] == stepped[y][x]
    {
      if (x, y) != (2, 2) {
        AroundPrevious(current, x, y);
      }
    }
    SameCells(cleared, stepped);
  }

  /** Clearing a new level inside `current` is likewise the step of an empty level with nothing further in. */
  lemma ClearedNextIsStep(current: Grid)
    requires Square(current)
    ensures WithCentre(SpawnNext(Blank, current), UNSET) == RecursiveStep(Blank, current, Blank)
  {
    var cleared, stepped := WithCentre(SpawnNext(Blank, current), UNSET), RecursiveStep(Blank, current, Blank);
    forall y, x | 0 <= y < 5 && 0 <= x < 5
      ensures cleared[y][x] == stepped[y][x]
    {
      if (x, y) != (2, 2) {
        AroundNext(current, x, y);
      }
    }
    SameCells(cleared, stepped);
  }

  // ---------------------------------------------------------------------------------
  // The recursive grid in arrays

  /** A level that is there: a 5 by 5 array. */
  predicate Level5(a: array2?<char>)
  {
    a != null && a.Length0 == 5 && a.Length1 == 5
  }

  /** The rows of a level that may be missing (`null`); a missing level reads as an empty one. */
  function View(a: array2?<char>): (r: Grid)
    reads a
    ensures Square(r)
  {
    if Level5(a) then Rows(a) else Blank
  }

  /** `valueOf`. */
  function ValueOf(a: array2<char>, x: int, y: int): (r: nat)
    requires Level5(a) && 0 <= x < 5 && 0 <= y < 5
    reads a
    ensures r == CellValue(Rows(a), x, y)
  {
    if a[y, x] == BUG then 1 else 0
  }

  /** The loop of `calculateLeft` and `calculateRight` over a column of the level inside. */
  method SumColumn(a: array2<char>, x: int) returns (sum: nat)
    requires Level5(a) && 0 <= x < 5
    ensures sum == ColumnBugs(Rows(a), x, 5)
  {
    sum := 0;
    for line := 0 to 5
      invariant sum == ColumnBugs(Rows(a), x, line)
    {
      sum := sum + ValueOf(a, x, line);
    }
  }

  /** The loop of `calculateTop` and `calculateBottom` over a row of the level inside. */
  method SumRow(a: array2<char>, y: int) returns (sum: nat)
    requires Level5(a) && 0 <= y < 5
    ensures sum == RowBugs(Rows(a), y, 5)
  {
    sum := 0;
    for column := 0 to 5
      invariant sum == RowBugs(Rows(a), y, column)
    {
      sum := sum + ValueOf(a, column, y);
    }
  }

  /** `calculateLeft`; only the level the branch reads needs to be there. */
  method CalculateLeft(x: int, y: int, current: array2?<char>, previous: array2?<char>, next: array2?<char>) returns (sum: nat)
    requires 0 <= x < 5 && 0 <= y < 5
    requires x == 0 ==> Level5(previous)
    requires x == 3 && y == 2 ==> Level5(next)
    requires x != 0 && (x, y) != (3, 2) ==> Level5(current)
    ensures sum == LeftOf(x, y, View(current), View(previous), View(next))
  {
    sum := 0;
    if x == 0 {
      sum := sum + ValueOf(previous, 1, 2);
    } else if x == 3 && y == 2 {
      sum := SumColumn(next, 4);
    } else {
      sum := sum + ValueOf(current, x - 1, y);
    }
  }

  /** `calculateRight`. */
  method CalculateRight(x: int, y: int, current: array2?<char>, previous: array2?<char>, next: array2?<char>) returns (sum: nat)
    requires 0 <= x < 5 && 0 <= y < 5
    requires x == 4 ==> Level5(previous)
    requires x == 1 && y == 2 ==> Level5(next)
    requires x != 4 && (x, y) != (1, 2) ==> Level5(current)
    ensures sum == RightOf(x, y, View(current), View(previous), View(next))
  {
    sum := 0;
    if x == 4 {
      sum := sum + ValueOf(previous, 3, 2);
    } else if x == 1 && y == 2 {
      sum := SumColumn(next, 0);
    } else {
      sum := sum + ValueOf(current, x + 1, y);
    }
  }

  /** `calculateTop`. */
  method CalculateTop(x: int, y: int, current: array2?<char>, previous: array2?<char>, next: array2?<char>) returns (sum: nat)
    requires 0 <= x < 5 && 0 <= y < 5
    requires y == 0 ==> Level5(previous)
    requires y == 3 && x == 2 ==> Level5(next)
    requires y != 0 && (x, y) != (2, 3) ==> Level5(current)
    ensures sum == TopOf(x, y, View(current), View(previous), View(next))
  {
    sum := 0;
    if y == 0 {
      sum := sum + ValueOf(previous, 2, 1);
    } else if y == 3 && x == 2 {
      sum := SumRow(next, 4);
    } else {
      sum := sum + ValueOf(current, x, y - 1);
    }
  }

  /** `calculateBottom`. */
  method CalculateBottom(x: int, y: int, current: array2?<char>, previous: array2?<char>, next: array2?<char>) returns (sum: nat)
    requires 0 <= x < 5 && 0 <= y < 5
    requires y == 4 ==> Level5(previous)
    requires y == 1 && x == 2 ==> Level5(next)
    requires y != 4 && (x, y) != (2, 1) ==> Level5(current)
    ensures sum == BottomOf(x, y, View(current), View(previous), View(next))
  {
    sum := 0;
    if y == 4 {
      sum := sum + ValueOf(previous, 2, 3);
    } else if y == 1 && x == 2 {
      sum := SumRow(next, 0);
    } else {
      sum := sum + ValueOf(current, x, y + 1);
    }
  }

  /** `emptyGrid()`: a new level of empty cells. */
  method EmptyGrid() returns (output: array2<char>)
    ensures fresh(output) && Level5(output) && Rows(output) == Blank
  {
    output := new char[5, 5]((_, _) => UNSET);
    for i := 0 to 5
      invariant forall y, x :: 0 <= y < i && 0 <= x < 5 ==> output[y, x] == EMPTY
    {
      for j := 0 to 5
        invariant forall y, x :: 0 <= y < i && 0 <= x < 5 ==> output[y, x] == EMPTY
        invariant forall x :: 0 <= x < j ==> output[i, x] == EMPTY
      {
        output[i, j] := EMPTY;
      }
    }
    SameCells(Rows(output), Blank);
  }

  /** `level` with a bug spawned at (x, y) if it sees one or two. */
  function Spawn(level: Grid, x: int, y: int, surrounding: nat): (r: Grid)
    requires Square(level) && 0 <= x < 5 && 0 <= y < 5
    ensures Square(r)
  {
    if SpawnsOn(surrounding) then level[y := level[y][x := BUG]] else level
  }

  /** `if (shouldSpawnOnEmpty(surrounding)) level[y][x] = '#'`. */
  method SpawnCell(level: array2<char>, x: int, y: int, surrounding: nat)
    requires Level5(level) && 0 <= x < 5 && 0 <= y < 5
    modifies level
    ensures Rows(level) == Spawn(old(Rows(level)), x, y, surrounding)
  {
    ghost var before := Rows(level);
    if SpawnsOn(surrounding) {
      level[y, x] := BUG;
    }
    SameCells(Rows(level), Spawn(before, x, y, surrounding));
  }

  /** The cell (a, b) after a spawn at (x, y). */
  lemma SpawnedCell(level: Grid, x: int, y: int, surrounding: nat, a: int, b: int)
    requires Square(level) && 0 <= x < 5 && 0 <= y < 5 && 0 <= a < 5 && 0 <= b < 5
    ensures Spawn(level, x, y, surrounding)[b][a] == if (a, b) == (x, y) && SpawnsOn(surrounding) then BUG else level[b][a]
  {
  }

  /** Where `PreviousCount` finds its bugs. */
  lemma PreviousCountSeen(current: Grid, x: int, y: int)
    requires Square(current)
    ensures PreviousCount(current, x, y)
      == PreviousSeen(ColumnBugs(current, 0, 5), ColumnBugs(current, 4, 5), RowBugs(current, 0, 5), RowBugs(current, 4, 5), x, y)
  {
  }

  /** The four spawns of `updateClearPrevious`, one after the other, are `SpawnPrevious`. */
  lemma SpawnsPrevious(previous: Grid, current: Grid)
    requires Square(previous) && Square(current)
    ensures Spawn(Spawn(Spawn(Spawn(previous, 1, 2, ColumnBugs(current, 0, 5)), 3, 2, ColumnBugs(current, 4, 5)),
      2, 1, RowBugs(current, 0, 5)), 2, 3, RowBugs(current, 4, 5)) == SpawnPrevious(previous, current)
  {
    var right, left, bottom, top := ColumnBugs(current, 0, 5), ColumnBugs(current, 4, 5), RowBugs(current, 0, 5), RowBugs(current, 4, 5);
    var first := Spawn(previous, 1, 2, right);
    var second := Spawn(first, 3, 2, left);
    var third := Spawn(second, 2, 1, bottom);
    var spawned := Spawn(third, 2, 3, top);
    forall y, x | 0 <= y < 5 && 0 <= x < 5
      ensures spawned[y][x] == SpawnPrevious(previous, current)[y][x]
    {
      SpawnedCell(previous, 1, 2, right, x, y);
      SpawnedCell(first, 3, 2, left, x, y);
      SpawnedCell(second, 2, 1, bottom, x, y);
      SpawnedCell(third, 2, 3, top, x, y);
      PreviousCountSeen(current, x, y);
    }
    SameCells(spawned, SpawnPrevious(previous, current));
  }

  /** `updateClearPrevious`: spawns bugs on a level outside `current` where it sees one or two. */
  method UpdateClearPrevious(previous: array2<char>, current: array2<char>)
    requires Level5(previous) && Level5(current) && previous != current
    modifies previous
    ensures Rows(previous) == SpawnPrevious(old(Rows(previous)), Rows(current))
  {
    ghost var start, cur := Rows(previous), Rows(current);
    var right := CalculateRight(1, 2, null, null, current);
    SpawnCell(previous, 1, 2, right);
    var left := CalculateLeft(3, 2, null, null, current);
    SpawnCell(previous, 3, 2, left);
    var bottom := CalculateBottom(2, 1, null, null, current);
    SpawnCell(previous, 2, 1, bottom);
    var top := CalculateTop(2, 3, null, null, current);
    SpawnCell(previous, 2, 3, top);
    SpawnsPrevious(start, cur);
  }

  /** `PreviousCount` in terms of the four sums over `current`'s edges. */
  function PreviousSeen(right: nat, left: nat, bottom: nat, top: nat, x: int, y: int): nat
  {
    if (x, y) == (1, 2) then right
    else if (x, y) == (3, 2) then left
    else if (x, y) == (2, 1) then bottom
    else if (x, y) == (2, 3) then top
    else 0
  }

  /** The counts of `updateClearNext`'s first loop after its first `i` rounds, from the four cells around `current`'s centre. */
  function PartialCount(top: nat, bottom: nat, left: nat, right: nat, x: int, y: int, i: int): nat
  {
    (if y == 0 && x < i then top else 0)
      + (if y == 4 && x < i then bottom else 0)
      + (if x == 0 && y < i then left else 0)
      + (if x == 4 && y < i then right else 0)
  }

  /** The edge cells `updateClearNext`'s second loop has visited after its first `i` rounds. */
  predicate Swept(x: int, y: int, i: int)
  {
    ((y == 0 || y == 4) && x < i) || ((x == 0 || x == 4) && y < i)
  }

  /** The counts `updateClearNext` adds up are `NextCount`. */
  lemma NextCountPartial(current: Grid, x: int, y: int)
    requires Square(current) && 0 <= x < 5 && 0 <= y < 5
    ensures NextCount(current, x, y)
      == PartialCount(CellValue(current, 2, 1), CellValue(current, 2, 3), CellValue(current, 1, 2), CellValue(current, 3, 2), x, y, 5)
    ensures !Swept(x, y, 5) ==> NextCount(current, x, y) == 0
  {
  }

  /** The four counts `updateClearNext`'s first loop adds in round `i`, each a cell next to `current`'s centre. */
  method EdgeValues(current: array2<char>, i: int) returns (top: nat, bottom: nat, left: nat, right: nat)
    requires Level5(current) && 0 <= i < 5
    ensures top == CellValue(Rows(current), 2, 1) && bottom == CellValue(Rows(current), 2, 3)
    ensures left == CellValue(Rows(current), 1, 2) && right == CellValue(Rows(current), 3, 2)
  {
    top := CalculateTop(i, 0, null, current, null);
    bottom := CalculateBottom(i, 4, null, current, null);
    left := CalculateLeft(0, i, null, current, null);
    right := CalculateRight(4, i, null, current, null);
  }

  /** One round of `updateClearNext`'s first loop: the cells in column and row `i` on the edge get their counts. */
  method AddEdges(grid: array2<int>, i: int, top: nat, bottom: nat, left: nat, right: nat)
    requires grid.Length0 == 5 && grid.Length1 == 5 && 0 <= i < 5
    requires forall y, x :: 0 <= y < 5 && 0 <= x < 5 ==> grid[y, x] == PartialCount(top, bottom, left, right, x, y, i)
    modifies grid
    ensures forall y, x :: 0 <= y < 5 && 0 <= x < 5 ==> grid[y, x] == PartialCount(top, bottom, left, right, x, y, i + 1)
  {
    grid[0, i] := grid[0, i] + top;
    grid[4, i] := grid[4, i] + bottom;
    grid[i, 0] := grid[i, 0] + left;
    grid[i, 4] := grid[i, 4] + right;
  }

  /** One round of `updateClearNext`'s second loop: the cells in column and row `i` on the edge may spawn. */
  method SpawnEdges(next: array2<char>, grid: array2<int>, i: int, ghost start: Grid)
    requires Level5(next) && grid.Length0 == 5 && grid.Length1 == 5 && 0 <= i < 5 && Square(start)
    requires forall y, x :: 0 <= y < 5 && 0 <= x < 5 ==>
      next[y, x] == if Swept(x, y, i) && SpawnsOn(grid[y, x]) then BUG else start[y][x]
    modifies next
    ensures forall y, x :: 0 <= y < 5 && 0 <= x < 5 ==>
      next[y, x] == if Swept(x, y, i + 1) && SpawnsOn(grid[y, x]) then BUG else start[y][x]
  {
    if SpawnsOn(grid[0, i]) {
      next[0, i] := BUG;
    }
    if SpawnsOn(grid[4, i]) {
      next[4, i] := BUG;
    }
    if SpawnsOn(grid[i, 0]) {
      next[i, 0] := BUG;
    }
    if SpawnsOn(grid[i, 4]) {
      next[i, 4] := BUG;
    }
  }

  /** `updateClearNext`: spawns bugs on a level inside `current` where it sees one or two. */
  method UpdateClearNext(next: array2<char>, current: array2<char>)
    requires Level5(next) && Level5(current) && next != current
    modifies next
    ensures Rows(next) == SpawnNext(old(Rows(next)), Rows(current))
  {
    ghost var start, cur := Rows(next), Rows(current);
    ghost var t, b, l, r := CellValue(cur, 2, 1), CellValue(cur, 2, 3), CellValue(cur, 1, 2), CellValue(cur, 3, 2);
    var grid := new int[5, 5]((_, _) => 0);
    for i := 0 to 5
      modifies grid
      invariant forall y, x :: 0 <= y < 5 && 0 <= x < 5 ==> grid[y, x] == PartialCount(t, b, l, r, x, y, i)
    {
      var top, bottom, left, right := EdgeValues(current, i);
      AddEdges(grid, i, top, bottom, left, right);
    }
    for i := 0 to 5
      modifies next
      invariant forall y, x :: 0 <= y < 5 && 0 <= x < 5 ==>
        next[y, x] == if Swept(x, y, i) && SpawnsOn(grid[y, x]) then BUG else start[y][x]
    {
      SpawnEdges(next, grid, i, start);
    }
    forall y, x | 0 <= y < 5 && 0 <= x < 5
      ensures next[y, x] == SpawnNext(start, cur)[y][x]
    {
      NextCountPartial(cur, x, y);
    }
    SameCells(Rows(next), SpawnNext(start, cur));
  }

  /** `doGridStep`'s output cell (x, y): the bugs around it on three levels, and the rule. */
  method StepCell(x: int, y: int, current: array2<char>, previous: array2<char>, next: array2<char>) returns (c: char)
    requires Level5(current) && Level5(previous) && Level5(next) && 0 <= x < 5 && 0 <= y < 5 && (x, y) != (2, 2)
    ensures c == Stepped(x, y, Rows(current), Rows(previous), Rows(next))
  {
    assert View(current) == Rows(current) && View(previous) == Rows(previous) && View(next) == Rows(next);
    var surrounding := 0;
    var left := CalculateLeft(x, y, current, previous, next);
    surrounding := surrounding + left;
    var right := CalculateRight(x, y, current, previous, next);
    surrounding := surrounding + right;
    var top := CalculateTop(x, y, current, previous, next);
    surrounding := surrounding + top;
    var bottom := CalculateBottom(x, y, current, previous, next);
    surrounding := surrounding + bottom;
    if current[y, x] == BUG && surrounding != 1 {
      c := EMPTY;
    } else if current[y, x] == EMPTY && SpawnsOn(surrounding) {
      c := BUG;
    } else {
      c := current[y, x];
    }
  }

  /** One row of `doGridStep`'s output, skipping the centre. */
  method StepRow(output: array2<char>, y: int, current: array2<char>, previous: array2<char>, next: array2<char>, ghost row: seq<char>)
    requires Level5(output) && Level5(current) && Level5(previous) && Level5(next) && 0 <= y < 5
    requires output != current && output != previous && output != next
    requires |row| == 5 && forall a :: 0 <= a < 5 && !(a == 2 && y == 2) ==> row[a] == Stepped(a, y, Rows(current), Rows(previous), Rows(next))
    modifies output
    ensures forall a :: 0 <= a < 5 && !(a == 2 && y == 2) ==> output[y, a] == row[a]
    ensures forall b, a :: 0 <= b < 5 && 0 <= a < 5 && (b != y || (a == 2 && b == 2)) ==> output[b, a] == old(output[b, a])
  {
    for x := 0 to 5
      invariant forall a :: 0 <= a < x && !(a == 2 && y == 2) ==> output[y, a] == row[a]
      invariant forall b, a :: 0 <= b < 5 && 0 <= a < 5 && (b != y || a >= x || (a == 2 && b == 2)) ==> output[b, a] == old(output[b, a])
    {
      if x == 2 && y == 2 {
        continue;
      }
      var c := StepCell(x, y, current, previous, next);
      output[y, x] := c;
    }
  }

  /** `new char[5][5]` filled by `doGridStep`'s loops: the step of `current` between `previous` and `next`. */
  method StepLevel(current: array2<char>, previous: array2<char>, next: array2<char>) returns (output: array2<char>)
    requires Level5(current) && Level5(previous) && Level5(next)
    ensures fresh(output) && Level5(output)
    ensures Rows(output) == RecursiveStep(Rows(current), Rows(previous), Rows(next))
  {
    ghost var target := RecursiveStep(Rows(current), Rows(previous), Rows(next));
    output := new char[5, 5]((_, _) => UNSET);
    for y := 0 to 5
      invariant forall b, a :: 0 <= b < 5 && 0 <= a < 5 ==> output[b, a] == if b < y then target[b][a] else UNSET
    {
      StepRow(output, y, current, previous, next, target[y]);
    }
    SameCells(Rows(output), target);
  }

  /** The levels as arrays, 5 by 5 each, hold the grids `views`. */
  ghost predicate Holds(levels: map<int, array2<char>>, views: map<int, Grid>)
    reads levels.Values
  {
    && (forall k :: k in levels <==> k in views)
    && (forall k :: k in levels ==> Level5(levels[k]))
    && (forall k :: k in levels ==> Rows(levels[k]) == views[k])
  }

  /** `getOrDefault(key, emptyGrid())` on the grids: a missing level is empty. */
  function Level(views: map<int, Grid>, key: int): (r: Grid)
    requires forall k :: k in views ==> Square(views[k])
    ensures Square(r)
  {
    if key in views then views[key] else Blank
  }

  /** `doGridStep`'s first two lines: the levels on either side, a new empty one where there is none. */
  method Beside(levels: map<int, array2<char>>, key: int, ghost views: map<int, Grid>)
    returns (previousLevel: array2<char>, nextLevel: array2<char>)
    requires Holds(levels, views)
    ensures Level5(previousLevel) && Rows(previousLevel) == Level(views, key - 1)
    ensures Level5(nextLevel) && Rows(nextLevel) == Level(views, key + 1)
    ensures key - 1 in levels ==> previousLevel == levels[key - 1]
    ensures key + 1 in levels ==> nextLevel == levels[key + 1]
    ensures key - 1 !in levels ==> fresh(previousLevel)
    ensures key + 1 !in levels ==> fresh(nextLevel)
    ensures key - 1 !in levels || key + 1 !in levels ==> previousLevel != nextLevel
  {
    var defaultPrevious := EmptyGrid();
    previousLevel := if key - 1 in levels then levels[key - 1] else defaultPrevious;
    var defaultNext := EmptyGrid();
    nextLevel := if key + 1 in levels then levels[key + 1] else defaultNext;
  }

  /**
   * `doGridStep`: puts the step of level `key` into `nextLevels`, and a new cleared level beside it
   * on each side where `levels` has none; every other entry of `nextLevels` and every existing
   * array is left as it was.
   */
  method DoGridStep(levels: map<int, array2<char>>, nextLevels: map<int, array2<char>>, key: int, currentLevel: array2<char>, ghost views: map<int, Grid>)
    returns (updated: map<int, array2<char>>)
    requires Holds(levels, views) && key in levels && levels[key] == currentLevel
    ensures forall k :: k in updated <==>
      || k in nextLevels || k == key || (k == key - 1 && key - 1 !in levels) || (k == key + 1 && key + 1 !in levels)
    ensures forall k ::
      && k in nextLevels && k != key && (k == key - 1 ==> key - 1 in levels) && (k == key + 1 ==> key + 1 in levels)
      ==> updated[k] == nextLevels[k]
    ensures fresh(updated[key]) && Level5(updated[key])
    ensures Rows(updated[key]) == RecursiveStep(views[key], Level(views, key - 1), Level(views, key + 1))
    ensures key - 1 !in levels ==> fresh(updated[key - 1]) && Level5(updated[key - 1]) && Rows(updated[key - 1]) == SpawnPrevious(Blank, views[key])
    ensures key + 1 !in levels ==> fresh(updated[key + 1]) && Level5(updated[key + 1]) && Rows(updated[key + 1]) == SpawnNext(Blank, views[key])
  {
    var previousLevel, nextLevel := Beside(levels, key, views);
    var output := StepLevel(currentLevel, previousLevel, nextLevel);
    updated := nextLevels[key := output];
    if key - 1 !in levels {
      UpdateClearPrevious(previousLevel, currentLevel);
      updated := updated[key - 1 := previousLevel];
    }
    if key + 1 !in levels {
      UpdateClearNext(nextLevel, currentLevel);
      updated := updated[key + 1 := nextLevel];
    }
  }

  // ---------------------------------------------------------------------------------
  // Rounds of the recursive grid

  /** The levels are exactly those from lo to hi, each 5 by 5. */
  ghost predicate Levels(views: map<int, Grid>, lo: int, hi: int)
  {
    && lo <= hi
    && (forall k :: k in views <==> lo <= k <= hi)
    && (forall k :: k in views ==> Square(views[k]))
  }

  /**
   * The level `key` after a round of `doGridStep` over the levels lo to hi: a new level just
   * outside and just inside, cleared from the outermost and innermost level, and every other
   * level stepped between its neighbours.
   */
  ghost function NextLevel(views: map<int, Grid>, lo: int, hi: int, key: int): (r: Grid)
    requires Levels(views, lo, hi) && lo - 1 <= key <= hi + 1
    ensures Square(r)
  {
    if key == lo - 1 then SpawnPrevious(Blank, views[lo])
    else if key == hi + 1 then SpawnNext(Blank, views[hi])
    else RecursiveStep(views[key], Level(views, key - 1), Level(views, key + 1))
  }

  /** A round over every level: one more level on each side. */
  ghost function StepLevels(views: map<int, Grid>, lo: int, hi: int): (r: map<int, Grid>)
    requires Levels(views, lo, hi)
    ensures Levels(r, lo - 1, hi + 1)
    ensures forall k :: lo - 1 <= k <= hi + 1 ==> r[k] == NextLevel(views, lo, hi, k)
  {
    map k | lo - 1 <= k <= hi + 1 :: NextLevel(views, lo, hi, k)
  }

  /** The levels after n rounds from a single level 0. */
  ghost function Evolve(initial: Grid, n: nat): (r: map<int, Grid>)
    requires Square(initial)
    ensures Levels(r, -(n as int), n)
  {
    if n == 0 then map[0 := initial] else StepLevels(Evolve(initial, n - 1), -(n as int - 1), n - 1)
  }

  /**
   * What a round has built while the levels in `remaining` are still to be stepped: the steps of
   * the others, and the new outer or inner level once the outermost or innermost is stepped.
   */
  ghost predicate Built(nextViews: map<int, Grid>, views: map<int, Grid>, lo: int, hi: int, remaining: set<int>)
    requires Levels(views, lo, hi)
  {
    && (forall k :: k in nextViews <==>
          || (lo <= k <= hi && k !in remaining)
          || (k == lo - 1 && lo !in remaining)
          || (k == hi + 1 && hi !in remaining))
    && forall k :: k in nextViews ==> lo - 1 <= k <= hi + 1 && nextViews[k] == NextLevel(views, lo, hi, k)
  }

  /** Once every level is done, a round has built `StepLevels`. */
  lemma BuiltAll(nextViews: map<int, Grid>, views: map<int, Grid>, lo: int, hi: int)
    requires Levels(views, lo, hi) && Built(nextViews, views, lo, hi, {})
    ensures nextViews == StepLevels(views, lo, hi)
  {
  }

  /** The state of a round's loop while the levels in `remaining` are still to be stepped. */
  ghost predicate Midway(levels: map<int, array2<char>>, views: map<int, Grid>, lo: int, hi: int,
                         nextLevels: map<int, array2<char>>, nextViews: map<int, Grid>, remaining: set<int>)
    reads levels.Values, nextLevels.Values
  {
    && Holds(levels, views) && Levels(views, lo, hi) && remaining <= levels.Keys
    && Holds(nextLevels, nextViews) && Built(nextViews, views, lo, hi, remaining)
  }

  /** What a round's turn for level `key` adds to the levels built so far. */
  ghost function Record(nextViews: map<int, Grid>, views: map<int, Grid>, lo: int, hi: int, key: int): map<int, Grid>
    requires Levels(views, lo, hi) && lo <= key <= hi
  {
    var stepped := nextViews[key := NextLevel(views, lo, hi, key)];
    var outer := if key == lo then stepped[key - 1 := NextLevel(views, lo, hi, key - 1)] else stepped;
    if key == hi then outer[key + 1 := NextLevel(views, lo, hi, key + 1)] else outer
  }

  /** The levels a turn for level `key` records: their keys, and the grid under each. */
  lemma RecordKeys(nextViews: map<int, Grid>, views: map<int, Grid>, lo: int, hi: int, key: int)
    requires Levels(views, lo, hi) && lo <= key <= hi
    ensures forall k :: k in Record(nextViews, views, lo, hi, key) <==>
      || k in nextViews || k == key || (k == lo - 1 && key == lo) || (k == hi + 1 && key == hi)
    ensures forall k :: k in Record(nextViews, views, lo, hi, key) ==>
      Record(nextViews, views, lo, hi, key)[k]
        == if k == key || (k == lo - 1 && key == lo) || (k == hi + 1 && key == hi) then NextLevel(views, lo, hi, k) else nextViews[k]
  {
    var stepped := nextViews[key := NextLevel(views, lo, hi, key)];
    var outer := if key == lo then stepped[key - 1 := NextLevel(views, lo, hi, key - 1)] else stepped;
    var recorded := if key == hi then outer[key + 1 := NextLevel(views, lo, hi, key + 1)] else outer;
    assert Record(nextViews, views, lo, hi, key) == recorded;
  }

  /** A turn keeps `Built`, with one more level done. */
  lemma RecordBuilt(nextViews: map<int, Grid>, views: map<int, Grid>, lo: int, hi: int, remaining: set<int>, key: int)
    requires Levels(views, lo, hi) && lo <= key <= hi && key in remaining && Built(nextViews, views, lo, hi, remaining)
    ensures Built(Record(nextViews, views, lo, hi, key), views, lo, hi, remaining - {key})
  {
    RecordKeys(nextViews, views, lo, hi, key);
  }

  /** The arrays `doGridStep` leaves in `nextLevels` hold what `Record` adds. */
  lemma RecordHolds(nextLevels: map<int, array2<char>>, nextViews: map<int, Grid>, updated: map<int, array2<char>>,
                    views: map<int, Grid>, lo: int, hi: int, key: int)
    requires Levels(views, lo, hi) && lo <= key <= hi && Holds(nextLevels, nextViews)
    requires forall k :: k in updated <==>
      || k in nextLevels || k == key || (k == lo - 1 && key == lo) || (k == hi + 1 && key == hi)
    requires forall k ::
      && k in nextLevels && k != key && (k == key - 1 ==> key != lo) && (k == key + 1 ==> key != hi)
      ==> updated[k] == nextLevels[k]
    requires Level5(updated[key]) && Rows(updated[key]) == NextLevel(views, lo, hi, key)
    requires key == lo ==> Level5(updated[key - 1]) && Rows(updated[key - 1]) == NextLevel(views, lo, hi, key - 1)
    requires key == hi ==> Level5(updated[key + 1]) && Rows(updated[key + 1]) == NextLevel(views, lo, hi, key + 1)
    ensures Holds(updated, Record(nextViews, views, lo, hi, key))
  {
    var recorded := Record(nextViews, views, lo, hi, key);
    RecordKeys(nextViews, views, lo, hi, key);
    forall k | k in updated
      ensures Level5(updated[k]) && Rows(updated[k]) == recorded[k]
    {
      if !(k == key || (k == lo - 1 && key == lo) || (k == hi + 1 && key == hi)) {
        assert updated[k] == nextLevels[k];
      }
    }
  }

  /** One turn of `levels.forEach(doGridStep)`, for level `key`. */
  method RoundStep(levels: map<int, array2<char>>, nextLevels: map<int, array2<char>>, key: int,
                   ghost views: map<int, Grid>, ghost nextViews: map<int, Grid>, ghost lo: int, ghost hi: int,
                   remaining: set<int>)
    returns (updated: map<int, array2<char>>, ghost updatedViews: map<int, Grid>)
    requires Midway(levels, views, lo, hi, nextLevels, nextViews, remaining) && key in remaining
    ensures Midway(levels, views, lo, hi, updated, updatedViews, remaining - {key})
  {
    updated := DoGridStep(levels, nextLevels, key, levels[key], views);
    updatedViews := Record(nextViews, views, lo, hi, key);
    RecordBuilt(nextViews, views, lo, hi, remaining, key);
    assert key - 1 in levels <==> key != lo;
    assert key + 1 in levels <==> key != hi;
    RecordHolds(nextLevels, nextViews, updated, views, lo, hi, key);
  }

  /** The next key `forEach` visits: the order of a `HashMap` is left open. */
  method AnyKey(remaining: set<int>) returns (key: int)
    requires remaining != {}
    ensures key in remaining
  {
    if forall k :: k !in remaining {
      assert false;
    }
    key :| key in remaining;
  }

  /** The loop of a round, `levels.forEach(doGridStep)`, in any order of the keys. */
  method Round(levels: map<int, array2<char>>, ghost views: map<int, Grid>, ghost lo: int, ghost hi: int)
    returns (nextLevels: map<int, array2<char>>)
    requires Holds(levels, views) && Levels(views, lo, hi)
    ensures Holds(nextLevels, StepLevels(views, lo, hi))
  {
    nextLevels := map[];
    ghost var nextViews: map<int, Grid> := map[];
    var remaining := levels.Keys;
    while remaining != {}
      invariant Midway(levels, views, lo, hi, nextLevels, nextViews, remaining)
      decreases |remaining|
    {
      var key := AnyKey(remaining);
      nextLevels, nextViews := RoundStep(levels, nextLevels, key, views, nextViews, lo, hi, remaining);
      remaining := remaining - {key};
    }
    BuiltAll(nextViews, views, lo, hi);
  }

  /** `filter(value -> value == c).count()` over the characters of a string. */
  function Occurrences(s: string, c: char): nat
  {
    if s == [] then 0 else Occurrences(s[..|s| - 1], c) + (if s[|s| - 1] == c then 1 else 0)
  }

  lemma {:induction false} OccurrencesAppend(s: string, t: string, c: char)
    ensures Occurrences(s + t, c) == Occurrences(s, c) + Occurrences(t, c)
  {
    if t == [] {
      assert s + t == s;
    } else {
      assert (s + t)[..|s + t| - 1] == s + t[..|t| - 1];
      OccurrencesAppend(s, t[..|t| - 1], c);
    }
  }

  /** Rendering a layout adds no bugs: the count over the rendering is the count over the cells. */
  lemma {:induction false} RenderedBugs(rows: Grid)
    ensures Occurrences(Render(rows), BUG) == Occurrences(Flatten(rows), BUG)
  {
    if rows != [] {
      var init, last := rows[..|rows| - 1], rows[|rows| - 1];
      RenderedBugs(init);
      OccurrencesAppend(Render(init) + last, [NEWLINE], BUG);
      OccurrencesAppend(Render(init), last, BUG);
      OccurrencesAppend(Flatten(init), last, BUG);
      assert Occurrences([NEWLINE], BUG) == 0;
    }
  }

  /** The bugs on the levels lo to hi - 1, each counted in its rendering. */
  ghost function BugsBetween(views: map<int, Grid>, lo: int, hi: int): nat
    requires forall k :: lo <= k < hi ==> k in views
    decreases hi - lo
  {
    if hi <= lo then 0 else BugsBetween(views, lo, hi - 1) + Occurrences(Render(views[hi - 1]), BUG)
  }

  /** `part02`'s final count: every level rendered by `createGrid` and its '#' characters counted. */
  method CountBugs(levels: map<int, array2<char>>, ghost views: map<int, Grid>, lo: int, hi: int) returns (result: nat)
    requires Holds(levels, views) && Levels(views, lo, hi)
    ensures result == BugsBetween(views, lo, hi + 1)
  {
    result := 0;
    for k := lo to hi + 1
      invariant result == BugsBetween(views, lo, k)
    {
      var s := CreateGrid(levels[k]);
      result := result + Occurrences(s, BUG);
    }
  }

  /** One round of `part02`'s loop: the levels after round i + 1. */
  method NextRound(levels: map<int, array2<char>>, ghost start: Grid, i: nat) returns (nextLevels: map<int, array2<char>>)
    requires Square(start) && Holds(levels, Evolve(start, i))
    ensures Holds(nextLevels, Evolve(start, i + 1))
  {
    nextLevels := Round(levels, Evolve(start, i), -(i as int), i);
  }

  /** `part02`: the bugs on every level after 200 rounds from the loaded grid as level 0. */
  method Part02(initial: array2<char>) returns (result: nat)
    requires Level5(initial)
    ensures result == BugsBetween(Evolve(Rows(initial), ITERATIONS), -(ITERATIONS as int), ITERATIONS + 1)
  {
    ghost var start := Rows(initial);
    var levels: map<int, array2<char>> := map[0 := initial];
    assert Holds(levels, Evolve(start, 0));
    for i := 0 to ITERATIONS
      invariant Holds(levels, Evolve(start, i))
    {
      levels := NextRound(levels, start, i);
    }
    result := CountBugs(levels, Evolve(start, ITERATIONS), -(ITERATIONS as int), ITERATIONS);
  }

  /** A level made by a round never has a bug at its centre. */
  lemma NextLevelCentre(views: map<int, Grid>, lo: int, hi: int, key: int)
    requires Levels(views, lo, hi) && lo - 1 <= key <= hi + 1
    ensures NextLevel(views, lo, hi, key)[2][2] != BUG
  {
    if key == lo - 1 {
      assert PreviousCount(views[lo], 2, 2) == 0;
    } else if key == hi + 1 {
      assert NextCount(views[hi], 2, 2) == 0;
    }
  }

  /** After the first round no level has a bug at its centre, so the count never includes one. */
  lemma EvolveCentre(initial: Grid, n: nat)
    requires Square(initial) && n >= 1
    ensures forall k :: k in Evolve(initial, n) ==> Evolve(initial, n)[k][2][2] != BUG
  {
    var before := Evolve(initial, n - 1);
    forall k | k in Evolve(initial, n)
      ensures Evolve(initial, n)[k][2][2] != BUG
    {
      NextLevelCentre(before, -(n as int - 1), n - 1, k);
    }
  }
}
