/**
 * The scaffold camera and the vacuum robot (`Day17`): an Intcode program on the Day 9 machine
 * fed a fixed ASCII movement script, whose small outputs are characters of a picture of the
 * scaffold and whose large outputs are printed as numbers. Part 1 splits the picture into
 * rows and sums the alignment parameters (row times column) of the scaffold intersections.
 *
 * Text is a sequence of UTF-16 code units, as a Java `String` is: `(char) value` keeps the
 * low 16 bits of the value, which Dafny's `char` (Unicode scalar values only) cannot hold.
 */
module Day17 {
  import opened Wrappers
  import opened Intcode
  import Day09

  /** A Java `char`. */
  type CodeUnit = c: int | 0 <= c < 0x1_0000

  const NEWLINE: CodeUnit := '\n' as int
  const SCAFFOLD: CodeUnit := '#' as int

  /** The movement script: main routine, functions A, B and C, and "no video feed". */
  const PATH_PROGRAM: seq<char> :=
    "A,A,B,C,B,C,B,C,B,A\nL,10,L,8,R,8,L,8,R,6\nR,6,R,8,R,8\nR,6,R,6,L,8,L,10\nn\n\n"

  /** The narrowing cast `(char) value`: the low 16 bits of the value. */
  function ToChar(value: int): (c: CodeUnit)
    ensures 0 <= value < 0x1_0000 ==> c == value
    ensures (c - value) % 0x1_0000 == 0
  {
    value % 0x1_0000
  }

  // ---------------------------------------------------------------------------------
  // The script-fed executor

  /** The hooks' state: the script, how much of it was read, the text so far, the printed numbers. */
  datatype Ascii = Ascii(script: seq<char>, index: nat, builder: seq<CodeUnit>, printed: seq<int>)

  /** A fresh executor's hooks over `script`. */
  function NewAscii(script: seq<char>): Ascii
  {
    Ascii(script, 0, [], [])
  }

  /**
   * `acceptLong`: the next character of the script, and the index moves on by one; past the
   * end of the script the array access raises, which ends the run.
   */
  function Accept(a: Ascii): (r: Accepted<Ascii>)
    ensures r.Accepted? <==> a.index < |a.script|
    ensures r.Accepted? ==> r.value == a.script[a.index] as int && r.port == a.(index := a.index + 1)
  {
    if a.index < |a.script| then Accepted(a.script[a.index] as int, a.(index := a.index + 1)) else Blocked
  }

  /** `produceLong`: a value below 127 is appended to the text as a character, any other is printed. */
  function Produce(a: Ascii, value: int): (d: Delivered<Ascii>)
    ensures d.Delivered? && !d.halt && d.port.script == a.script && d.port.index == a.index
    ensures value < 127 ==> d.port.builder == a.builder + [ToChar(value)] && d.port.printed == a.printed
    ensures value >= 127 ==> d.port.builder == a.builder && d.port.printed == a.printed + [value]
  {
    if value < 127 then Delivered(a.(builder := a.builder + [ToChar(value)]), false)
    else Delivered(a.(printed := a.printed + [value]), false)
  }

  /**
   * An input instruction met past the end of the script ends the run without setting a flag:
   * Java's `asciiProgram[index++]` raises out of `execute`.
   */
  lemma ScriptEndRaises(m: Day09.Machine, a: Ascii, fuel: nat)
    requires m.Running() && fuel > 0 && a.index >= |a.script| && Day09.Step(m).event.AwaitingInput?
    ensures var run := Day09.RunWith(m, a, Accept, Produce, fuel);
      run.stop == InputBlocked && !run.machine.halted && !run.machine.failed
  {
  }

  /** The hooks' state after `produceLong` has taken each of `values` in turn. */
  function ProduceAll(a: Ascii, values: seq<int>): Ascii
    decreases |values|
  {
    if values == [] then a else ProduceAll(Produce(a, values[0]).port, values[1..])
  }

  /** The values below 127, as the characters they are cast to, in order. */
  function TextOf(values: seq<int>): seq<CodeUnit>
    decreases |values|
  {
    if values == [] then []
    else (if values[0] < 127 then [ToChar(values[0])] else []) + TextOf(values[1..])
  }

  /** The values of 127 and above, in order. */
  function NumbersOf(values: seq<int>): seq<int>
    decreases |values|
  {
    if values == [] then []
    else (if values[0] >= 127 then [values[0]] else []) + NumbersOf(values[1..])
  }

  /**
   * The outputs are split between the two channels and none is lost: the text gains exactly the
   * outputs below 127, as characters, and the printed numbers exactly the others, each in the
   * order produced; the script and its index stay.
   */
  lemma {:induction false} OutputsSplit(a: Ascii, values: seq<int>)
    ensures var p := ProduceAll(a, values);
      && p.builder == a.builder + TextOf(values) && p.printed == a.printed + NumbersOf(values)
      && p.script == a.script && p.index == a.index
      && |TextOf(values)| + |NumbersOf(values)| == |values|
    decreases |values|
  {
    if values != [] {
      var a' := Produce(a, values[0]).port;
      var rest := values[1..];
      OutputsSplit(a', rest);
      assert ProduceAll(a, values) == ProduceAll(a', rest);
      if values[0] < 127 {
        SplitText(a.builder, a'.builder, values);
      } else {
        SplitNumbers(a.printed, a'.printed, values);
      }
    }
  }

  /** A value below 127 goes to the text, ahead of the rest's text; the printed numbers are the rest's. */
  lemma SplitText(builder: seq<CodeUnit>, builder': seq<CodeUnit>, values: seq<int>)
    requires values != [] && values[0] < 127 && builder' == builder + [ToChar(values[0])]
    ensures builder' + TextOf(values[1..]) == builder + TextOf(values)
    ensures NumbersOf(values) == NumbersOf(values[1..])
  {
    var c := ToChar(values[0]);
    var tail := TextOf(values[1..]);
    assert TextOf(values) == [c] + tail;
    Associate(builder, [c], tail);
  }

  /** A value of 127 or more is printed, ahead of the rest's numbers; the text is the rest's. */
  lemma SplitNumbers(printed: seq<int>, printed': seq<int>, values: seq<int>)
    requires values != [] && values[0] >= 127 && printed' == printed + [values[0]]
    ensures printed' + NumbersOf(values[1..]) == printed + NumbersOf(values)
    ensures TextOf(values) == TextOf(values[1..])
  {
    var tail := NumbersOf(values[1..]);
    assert NumbersOf(values) == [values[0]] + tail;
    Associate(printed, [values[0]], tail);
  }

  /** Concatenation is associative. */
  lemma Associate<T>(a: seq<T>, b: seq<T>, c: seq<T>)
    ensures (a + b) + c == a + (b + c)
  {
  }

  /** What the hooks keep through a run that started from `a`: the script, and only ever more read and written. */
  ghost predicate Extends(a: Ascii, p: Ascii)
  {
    && p.script == a.script && a.index <= p.index <= |a.script| + a.index
    && a.builder <= p.builder && a.printed <= p.printed
  }

  /**
   * Through a whole run the script is read in order from where it stood, never beyond its end,
   * and the text and the printed numbers only grow at their ends.
   */
  lemma RunReadsScriptInOrder(m: Day09.Machine, a: Ascii, fuel: nat)
    requires a.index <= |a.script|
    ensures var p := Day09.RunWith(m, a, Accept, Produce, fuel).port;
      Extends(a, p) && p.index <= |a.script|
  {
    Day09.RunPreserves(m, a, Accept, Produce, fuel, (p: Ascii) => Extends(a, p) && p.index <= |a.script|);
  }

  /** The run of either part: a fresh executor fed `PATH_PROGRAM`. */
  function Scan(program: seq<int>, fuel: nat): Day09.Run<Ascii>
    requires |program| <= Day09.MEMORY_SIZE
  {
    Day09.RunWith(Day09.Load(program), NewAscii(PATH_PROGRAM), Accept, Produce, fuel)
  }

  class IntcodeExecutor {
    const vm: Day09.IntcodeExecutor
    const asciiProgram: seq<char>
    var builder: seq<CodeUnit>
    var index: nat
    /** The numbers `produceLong` printed. */
    var printed: seq<int>

    function Port(): Ascii
      reads this
    {
      Ascii(asciiProgram, index, builder, printed)
    }

    constructor (numbers: seq<int>, asciiProgram: seq<char>)
      requires |numbers| <= Day09.MEMORY_SIZE
      ensures vm.State() == Day09.Load(numbers) && Port() == NewAscii(asciiProgram)
      ensures fresh(vm) && fresh(vm.numbers)
    {
      vm := new Day09.IntcodeExecutor(numbers);
      this.asciiProgram := asciiProgram;
      builder, index, printed := [], 0, [];
    }

    /** `acceptLong`; `None` when `asciiProgram[index++]` raises. */
    method AcceptLong() returns (value: Option<int>)
      modifies this
      ensures var a := Accept(old(Port()));
        if a.Accepted? then value == Some(a.value) && Port() == a.port else value == None && Port() == old(Port())
    {
      if index >= |asciiProgram| {
        return None;
      }
      value := Some(asciiProgram[index] as int);
      index := index + 1;
    }

    method ProduceLong(value: int)
      modifies this
      ensures Produce(old(Port()), value) == Delivered(Port(), false)
    {
      if value < 127 {
        builder := builder + [value % 0x1_0000];
      } else {
        printed := printed + [value];
      }
    }

    /** `getOutput`: the text so far, and the buffer is emptied. */
    method GetOutput() returns (result: seq<CodeUnit>)
      modifies this
      ensures result == old(builder) && Port() == old(Port()).(builder := [])
    {
      result := builder;
      builder := [];
    }

    /** One pass of `execute`'s loop with the script hooks. */
    method Pass(ghost fuel: nat) returns (ended: Option<Stop>)
      requires vm.State().Running() && fuel > 0
      modifies this, vm, vm.numbers
      ensures ended.Some? ==>
        vm.State() == old(vm.State()) && Day09.RunWith(old(vm.State()), old(Port()), Accept, Produce, fuel) == Day09.Run(vm.State(), Port(), ended.value)
      ensures ended.None? ==> Day09.RunWith(old(vm.State()), old(Port()), Accept, Produce, fuel) == Day09.RunWith(vm.State(), Port(), Accept, Produce, fuel - 1)
    {
      var e := vm.ProcessInstruction();
      ended := None;
      match e {
        case Continued =>
        case Trapped(t) =>
          ended := Some(Raised(t));
        case Produced(v) =>
          ProduceLong(v);
        case AwaitingInput(target) =>
          var value := AcceptLong();
          if value.None? {
            ended := Some(InputBlocked);
          } else {
            var fed := vm.StoreInput(target, value.value);
            if fed.Trapped? {
              ended := Some(Raised(fed.trap));
            }
          }
      }
    }

    /** `execute` with the script hooks, for at most `fuel` passes. */
    method Execute(fuel: nat) returns (stop: Stop)
      modifies this, vm, vm.numbers
      ensures Day09.RunWith(old(vm.State()), old(Port()), Accept, Produce, fuel) == Day09.Run(vm.State(), Port(), stop)
    {
      var left := fuel;
      ghost var goal := Day09.RunWith(vm.State(), Port(), Accept, Produce, fuel);
      while true
        invariant Day09.RunWith(vm.State(), Port(), Accept, Produce, left) == goal
        decreases left
      {
        if vm.halted { stop := Halted; break; }
        if vm.failed { stop := Failed; break; }
        if left == 0 { stop := OutOfFuel; break; }
        var ended := Pass(left);
        if ended.Some? {
          stop := ended.value;
          break;
        }
        left := left - 1;
      }
    }
  }

  // ---------------------------------------------------------------------------------
  // Splitting the picture into rows

  /** The text cut at every newline; one more piece than there are newlines. */
  function Pieces(s: seq<CodeUnit>): (r: seq<seq<CodeUnit>>)
    ensures |r| >= 1
    decreases |s|
  {
    if s == [] then [[]]
    else
      var rest := Pieces(s[1..]);
      if s[0] == NEWLINE then [[]] + rest else [[s[0]] + rest[0]] + rest[1..]
  }

  /** The pieces put back together with a newline between each two. */
  function Join(lines: seq<seq<CodeUnit>>): seq<CodeUnit>
  {
    if |lines| <= 1 then (if lines == [] then [] else lines[0])
    else lines[0] + [NEWLINE] + Join(lines[1..])
  }

  /** Cutting at the newlines loses nothing, and no piece holds a newline. */
  lemma {:induction false} PiecesJoin(s: seq<CodeUnit>)
    ensures Join(Pieces(s)) == s
    ensures forall k :: 0 <= k < |Pieces(s)| ==> NEWLINE !in Pieces(s)[k]
    ensures NEWLINE !in s ==> Pieces(s) == [s]
    decreases |s|
  {
    if s != [] {
      PiecesJoin(s[1..]);
      if s[0] == NEWLINE {
        PiecesAfterNewline(s);
      } else {
        PiecesAfterUnit(s);
      }
    }
  }

  /** The step of `PiecesJoin` for a text that starts with a newline. */
  lemma PiecesAfterNewline(s: seq<CodeUnit>)
    requires s != [] && s[0] == NEWLINE
    requires Join(Pieces(s[1..])) == s[1..]
    requires forall k :: 0 <= k < |Pieces(s[1..])| ==> NEWLINE !in Pieces(s[1..])[k]
    ensures Join(Pieces(s)) == s
    ensures forall k :: 0 <= k < |Pieces(s)| ==> NEWLINE !in Pieces(s)[k]
  {
    var rest := Pieces(s[1..]);
    assert Pieces(s) == [[]] + rest;
    assert Join(Pieces(s)) == [] + [NEWLINE] + Join(rest);
    assert s == [s[0]] + s[1..];
    forall k | 0 <= k < |Pieces(s)|
      ensures NEWLINE !in Pieces(s)[k]
    {
      if k > 0 {
        assert Pieces(s)[k] == rest[k - 1];
      }
    }
  }

  lemma JoinCons(line: seq<CodeUnit>, lines: seq<seq<CodeUnit>>)
    requires lines != []
    ensures Join([line] + lines) == line + [NEWLINE] + Join(lines)
  {
    assert ([line] + lines)[1..] == lines;
  }

  /** The step of `PiecesJoin` for a text that starts with anything but a newline. */
  lemma PiecesAfterUnit(s: seq<CodeUnit>)
    requires s != [] && s[0] != NEWLINE
    requires Join(Pieces(s[1..])) == s[1..]
    requires forall k :: 0 <= k < |Pieces(s[1..])| ==> NEWLINE !in Pieces(s[1..])[k]
    requires NEWLINE !in s[1..] ==> Pieces(s[1..]) == [s[1..]]
    ensures Join(Pieces(s)) == s
    ensures forall k :: 0 <= k < |Pieces(s)| ==> NEWLINE !in Pieces(s)[k]
    ensures NEWLINE !in s ==> Pieces(s) == [s]
  {
    var rest := Pieces(s[1..]);
    var head := [s[0]] + rest[0];
    assert Pieces(s) == [head] + rest[1..];
    JoinAfterUnit(s[0], s[1..], rest);
    GlueKeepsNoNewline(s[0], rest);
    if NEWLINE !in s {
      assert s == [s[0]] + s[1..];
      assert NEWLINE !in s[1..];
      assert head == s;
    }
  }

  /** Gluing a unit other than a newline to the first of newline-free pieces keeps them newline-free. */
  lemma GlueKeepsNoNewline(unit: CodeUnit, rest: seq<seq<CodeUnit>>)
    requires unit != NEWLINE && rest != []
    requires forall k :: 0 <= k < |rest| ==> NEWLINE !in rest[k]
    ensures var glued := [[unit] + rest[0]] + rest[1..];
      forall k :: 0 <= k < |glued| ==> NEWLINE !in glued[k]
  {
    var glued := [[unit] + rest[0]] + rest[1..];
    forall k | 0 <= k < |glued|
      ensures NEWLINE !in glued[k]
    {
      if k == 0 {
        assert NEWLINE !in rest[0];
      } else {
        assert glued[k] == rest[k];
      }
    }
  }

  /** Gluing a unit to the first piece glues it to the front of the joined text. */
  lemma JoinAfterUnit(unit: CodeUnit, t: seq<CodeUnit>, rest: seq<seq<CodeUnit>>)
    requires rest != [] && Join(rest) == t
    ensures Join([[unit] + rest[0]] + rest[1..]) == [unit] + t
  {
    var head := [unit] + rest[0];
    if |rest| == 1 {
      assert [head] + rest[1..] == [head];
    } else {
      JoinCons(rest[0], rest[1..]);
      JoinCons(head, rest[1..]);
      assert rest == [rest[0]] + rest[1..];
      var tail := Join(rest[1..]);
      assert head + [NEWLINE] + tail == [unit] + (rest[0] + [NEWLINE] + tail);
    }
  }

  /** `split` drops the empty strings at the end of its result. */
  function StripTrailingEmpty(lines: seq<seq<CodeUnit>>): (r: seq<seq<CodeUnit>>)
    ensures r <= lines
    ensures forall k :: |r| <= k < |lines| ==> lines[k] == []
    ensures r == [] || r[|r| - 1] != []
    decreases |lines|
  {
    if lines != [] && lines[|lines| - 1] == [] then StripTrailingEmpty(lines[..|lines| - 1]) else lines
  }

  /**
   * `output.split("\n")`: the text itself when it holds no newline (even when it is empty),
   * otherwise the pieces between newlines with the empty ones at the end dropped.
   */
  function Lines(s: seq<CodeUnit>): seq<seq<CodeUnit>>
  {
    if NEWLINE !in s then [s] else StripTrailingEmpty(Pieces(s))
  }

  /**
   * The rows are the text's newline-separated pieces in order, no row holds a newline, only
   * empty pieces at the end are dropped, and the last row is not empty unless it is the whole text.
   */
  lemma LinesArePieces(s: seq<CodeUnit>)
    ensures Lines(s) <= Pieces(s)
    ensures forall k :: |Lines(s)| <= k < |Pieces(s)| ==> Pieces(s)[k] == []
    ensures forall k :: 0 <= k < |Lines(s)| ==> NEWLINE !in Lines(s)[k]
    ensures Lines(s) == [] || Lines(s)[|Lines(s)| - 1] != [] || Lines(s) == [s]
  {
    PiecesJoin(s);
    var lines := Lines(s);
    forall k | 0 <= k < |lines|
      ensures NEWLINE !in lines[k]
    {
      assert lines[k] == Pieces(s)[k];
    }
  }

  /** The edge cases of Java's `split`: trailing empty rows vanish, an empty text is one empty row. */
  lemma ExampleLines()
    ensures Lines([SCAFFOLD, NEWLINE, NEWLINE, SCAFFOLD, NEWLINE, NEWLINE]) == [[SCAFFOLD], [], [SCAFFOLD]]
    ensures Lines([]) == [[]]
    ensures Lines([NEWLINE]) == []
  {
    var s := [SCAFFOLD, NEWLINE, NEWLINE, SCAFFOLD, NEWLINE, NEWLINE];
    assert Pieces(s[6..]) == [[]];
    assert s[5..][1..] == s[6..] && s[5..][0] == s[5];
    assert Pieces(s[5..]) == [[], []];
    assert s[4..][1..] == s[5..] && s[4..][0] == s[4];
    assert Pieces(s[4..]) == [[], [], []];
    assert s[3..][1..] == s[4..] && s[3..][0] == s[3];
    assert Pieces(s[3..]) == [[s[3]] + Pieces(s[4..])[0]] + Pieces(s[4..])[1..];
    assert [s[3]] + Pieces(s[4..])[0] == [SCAFFOLD];
    assert Pieces(s[3..]) == [[SCAFFOLD], [], []];
    assert s[2..][1..] == s[3..] && s[2..][0] == s[2];
    assert Pieces(s[2..]) == [[], [SCAFFOLD], [], []];
    assert s[1..][1..] == s[2..] && s[1..][0] == s[1];
    assert Pieces(s[1..]) == [[], [], [SCAFFOLD], [], []];
    assert Pieces(s) == [[s[0]] + Pieces(s[1..])[0]] + Pieces(s[1..])[1..];
    assert [s[0]] + Pieces(s[1..])[0] == [SCAFFOLD];
    assert Pieces(s) == [[SCAFFOLD], [], [SCAFFOLD], [], []];
    assert NEWLINE in s by { assert s[1] == NEWLINE; }
    var pieces := [[SCAFFOLD], [], [SCAFFOLD], [], []];
    assert pieces[..4][..3] == [[SCAFFOLD], [], [SCAFFOLD]];
    assert StripTrailingEmpty(pieces[..4][..3]) == [[SCAFFOLD], [], [SCAFFOLD]];
    assert StripTrailingEmpty(pieces) == StripTrailingEmpty(pieces[..4]);
    assert Pieces([NEWLINE]) == [[], []];
  }

  /** `toField`: one row of the field per row of the text, in order. */
  method ToField(output: seq<CodeUnit>) returns (field: array<seq<CodeUnit>>)
    ensures fresh(field) && field[..] == Lines(output)
  {
    var lines := Lines(output);
    field := new seq<CodeUnit>[|lines|];
    for i := 0 to |lines|
      invariant field[..i] == lines[..i]
    {
      field[i] := lines[i];
    }
  }

  // ---------------------------------------------------------------------------------
  // Alignment parameters

  /** Cell (i, j) exists and is scaffold. */
  predicate Scaffold(field: seq<seq<CodeUnit>>, i: int, j: int)
  {
    0 <= i < |field| && 0 <= j < |field[i]| && field[i][j] == SCAFFOLD
  }

  /** Cell (i, j) is an interior scaffold cell whose four neighbours are scaffold. */
  predicate Intersection(field: seq<seq<CodeUnit>>, i: int, j: int)
  {
    && 1 <= i < |field| - 1 && 1 <= j < |field[i]| - 1
    && Scaffold(field, i, j)
    && Scaffold(field, i - 1, j) && Scaffold(field, i + 1, j)
    && Scaffold(field, i, j - 1) && Scaffold(field, i, j + 1)
  }

  /** The sum of the alignment parameters i * j of the intersections in row i before column n. */
  function RowAlignment(field: seq<seq<CodeUnit>>, i: int, n: nat): int
  {
    if n == 0 then 0
    else RowAlignment(field, i, n - 1) + if Intersection(field, i, n - 1) then i * (n - 1) else 0
  }

  /** The sum of the alignment parameters of the intersections in the rows before row m. */
  function Alignment(field: seq<seq<CodeUnit>>, m: nat): int
    requires m <= |field|
  {
    if m == 0 then 0 else Alignment(field, m - 1) + RowAlignment(field, m - 1, |field[m - 1]|)
  }

  /** The sum over the whole field. */
  function TotalAlignment(field: seq<seq<CodeUnit>>): int
  {
    Alignment(field, |field|)
  }

  /**
   * The rows that `intersectionSum` reads never raise: a scaffold cell's row above is long
   * enough, and so is the row below when the cell above is scaffold too.
   */
  predicate Fits(field: seq<seq<CodeUnit>>)
  {
    forall i, j :: 1 <= i < |field| - 1 && 1 <= j < |field[i]| - 1 && field[i][j] == SCAFFOLD ==>
      j < |field[i - 1]| && (field[i - 1][j] == SCAFFOLD ==> j < |field[i + 1]|)
  }

  /** A row whose later columns hold no intersection gains nothing from them. */
  lemma {:induction false} RowAlignmentStops(field: seq<seq<CodeUnit>>, i: int, n: nat, m: nat)
    requires n <= m
    requires forall j :: n <= j < m ==> !Intersection(field, i, j)
    ensures RowAlignment(field, i, m) == RowAlignment(field, i, n)
    decreases m
  {
    if n < m {
      RowAlignmentStops(field, i, n, m - 1);
    }
  }

  /**
   * `intersectionSum`: the interior cells only, row by row; it is the sum over every cell,
   * as the cells of the border are never intersections.
   */
  method IntersectionSum(field: array<seq<CodeUnit>>) returns (sum: int)
    requires Fits(field[..])
    ensures sum == TotalAlignment(field[..])
  {
    ghost var rows := field[..];
    sum := 0;
    var i := 1;
    if field.Length > 0 {
      RowAlignmentStops(rows, 0, 0, |rows[0]|);
    }
    while i < field.Length - 1
      invariant 1 <= i && (field.Length >= 2 ==> i <= field.Length - 1) && (field.Length >= 1 ==> i <= field.Length)
      invariant field.Length >= 1 ==> sum == Alignment(rows, i)
      invariant field.Length == 0 ==> sum == 0
    {
      var j := 1;
      RowAlignmentStops(rows, i, 0, 1);
      while j < |field[i]| - 1
        invariant 1 <= j && (|field[i]| >= 2 ==> j <= |field[i]| - 1)
        invariant sum == Alignment(rows, i) + RowAlignment(rows, i, j)
      {
        if field[i][j] == SCAFFOLD && field[i - 1][j] == SCAFFOLD && field[i + 1][j] == SCAFFOLD
          && field[i][j - 1] == SCAFFOLD && field[i][j + 1] == SCAFFOLD
        {
          sum := sum + i * j;
        }
        j := j + 1;
      }
      if j <= |rows[i]| {
        RowAlignmentStops(rows, i, j, |rows[i]|);
      } else {
        RowAlignmentStops(rows, i, |rows[i]|, j);
      }
      i := i + 1;
    }
    if field.Length > 1 {
      RowAlignmentStops(rows, field.Length - 1, 0, |rows[field.Length - 1]|);
    }
  }

  /** Within a row, the sum is positive exactly when the row has an intersection before column n. */
  lemma {:induction false} RowAlignmentPositive(field: seq<seq<CodeUnit>>, i: int, n: nat)
    ensures RowAlignment(field, i, n) >= 0
    ensures RowAlignment(field, i, n) > 0 <==> exists j :: 0 <= j < n && Intersection(field, i, j)
    ensures forall j :: 0 <= j < n && Intersection(field, i, j) ==> RowAlignment(field, i, n) >= i * j
    decreases n
  {
    if n > 0 {
      RowAlignmentPositive(field, i, n - 1);
      RowAlignmentStep(field, i, n);
    }
  }

  /** Column n - 1 adds its parameter, which is positive, when it is an intersection. */
  lemma RowAlignmentStep(field: seq<seq<CodeUnit>>, i: int, n: nat)
    requires n > 0
    requires RowAlignment(field, i, n - 1) >= 0
    requires RowAlignment(field, i, n - 1) > 0 <==> exists j :: 0 <= j < n - 1 && Intersection(field, i, j)
    requires forall j :: 0 <= j < n - 1 && Intersection(field, i, j) ==> RowAlignment(field, i, n - 1) >= i * j
    ensures RowAlignment(field, i, n) >= 0
    ensures RowAlignment(field, i, n) > 0 <==> exists j :: 0 <= j < n && Intersection(field, i, j)
    ensures forall j :: 0 <= j < n && Intersection(field, i, j) ==> RowAlignment(field, i, n) >= i * j
  {
    var last := n - 1;
    var before := RowAlignment(field, i, last);
    if Intersection(field, i, last) {
      var p := i * last;
      assert p >= 1 by {
        ProductPositive(i, last);
      }
      assert RowAlignment(field, i, n) == before + p;
      assert forall j :: 0 <= j < n && Intersection(field, i, j) ==> before + p >= i * j;
    } else {
      assert RowAlignment(field, i, n) == before;
      assert forall j :: 0 <= j < n && Intersection(field, i, j) ==> j < last;
    }
  }

  lemma ProductPositive(a: int, b: int)
    requires a >= 1 && b >= 1
    ensures a * b >= 1
  {
  }

  /**
   * The answer is positive exactly when the field has an intersection, and it is at least the
   * alignment parameter of each one; every term counts since the border is never an intersection.
   */
  lemma {:induction false} AlignmentPositive(field: seq<seq<CodeUnit>>, m: nat)
    requires m <= |field|
    ensures Alignment(field, m) >= 0
    ensures Alignment(field, m) > 0 <==> exists i, j :: 0 <= i < m && Intersection(field, i, j)
    ensures forall i, j :: 0 <= i < m && Intersection(field, i, j) ==> Alignment(field, m) >= i * j
    decreases m
  {
    if m > 0 {
      AlignmentPositive(field, m - 1);
      RowAlignmentPositive(field, m - 1, |field[m - 1]|);
      forall i, j | 0 <= i < m && Intersection(field, i, j)
        ensures Alignment(field, m) >= i * j
      {
        if i == m - 1 {
          assert 0 <= j < |field[m - 1]|;
        }
      }
      if Alignment(field, m) > 0 {
        if Alignment(field, m - 1) <= 0 {
          var j :| 0 <= j < |field[m - 1]| && Intersection(field, m - 1, j);
          assert 0 <= m - 1 < m && Intersection(field, m - 1, j);
        }
      }
    }
  }

  // ---------------------------------------------------------------------------------
  // The two parts

  /**
   * `part01`: the sum of the alignment parameters of the picture the program draws, printed
   * once `execute` returns; a run that raises ends `part01` with the exception, no sum.
   */
  function Part01(program: seq<int>, fuel: nat): Option<int>
    requires |program| <= Day09.MEMORY_SIZE
  {
    var run := Scan(program, fuel);
    if run.stop == Halted || run.stop == Failed then Some(TotalAlignment(Lines(run.port.builder))) else None
  }

  /**
   * `part01` prints a sum exactly when the machine stopped on its `halted` or `failed` flag,
   * and the sum is positive exactly when the picture has an intersection.
   */
  lemma Part01Answers(program: seq<int>, fuel: nat)
    requires |program| <= Day09.MEMORY_SIZE
    ensures var run := Scan(program, fuel);
      && (Part01(program, fuel).Some? <==> run.machine.halted || run.machine.failed)
      && (Part01(program, fuel).Some? ==>
            (Part01(program, fuel).value > 0 <==> exists i, j :: Intersection(Lines(run.port.builder), i, j)))
  {
    var run := Scan(program, fuel);
    Day09.RunEndsOnFlags(Day09.Load(program), NewAscii(PATH_PROGRAM), Accept, Produce, fuel);
    var field := Lines(run.port.builder);
    AlignmentPositive(field, |field|);
  }

  /** `part01` on the objects. */
  method RunPart01(instructions: seq<int>, fuel: nat) returns (sum: Option<int>)
    requires |instructions| <= Day09.MEMORY_SIZE
    requires Fits(Lines(Scan(instructions, fuel).port.builder))
    ensures sum == Part01(instructions, fuel)
  {
    var executor := new IntcodeExecutor(instructions, PATH_PROGRAM);
    var stop := executor.Execute(fuel);
    if stop != Halted && stop != Failed {
      return None;
    }
    var field := ToField(executor.builder);
    var total := IntersectionSum(field);
    sum := Some(total);
  }

  /**
   * `part02`: cell 0 of the caller's array is set to 2 (wake the robot), then the script is
   * run; the result is the text drawn and the numbers printed (the dust collected).
   */
  method Part02(numbers: array<int>, fuel: nat) returns (text: seq<CodeUnit>, printed: seq<int>)
    requires 1 <= numbers.Length <= Day09.MEMORY_SIZE
    modifies numbers
    ensures numbers[..] == old(numbers[..])[0 := 2]
    ensures text == Scan(numbers[..], fuel).port.builder && printed == Scan(numbers[..], fuel).port.printed
  {
    numbers[0] := 2;
    var executor := new IntcodeExecutor(numbers[..], PATH_PROGRAM);
    var _ := executor.Execute(fuel);
    text, printed := executor.builder, executor.printed;
  }
}
