/**
 * The flawed frequency transmission (`Day16`): a phase replaces each digit of the signal by the
 * last digit of a weighted sum of the whole signal, the weights following the pattern
 * 0, 1, 0, -1 stretched by the digit's position; part 1 runs a hundred phases in place, part 2
 * repeats the signal ten thousand times and, behind an offset read from its first seven digits,
 * runs the phases as backward running sums.
 */
module Day16 {
  import opened Wrappers
  import JavaMath

  const OUTPUT_LENGTH: nat := 8
  const ITERATIONS: nat := 100
  const INPUT_REPEATS: nat := 10000

  /** The base pattern `0, 1, 0, -1`. */
  const BASE: seq<int> := [0, 1, 0, -1]

  // ---------------------------------------------------------------------------------
  // Digits

  predicate IsDigit(c: char)
  {
    '0' <= c <= '9'
  }

  /** Every character of the input is a decimal digit, as `Integer.parseInt` of each one needs. */
  predicate AllDigits(input: string)
  {
    forall i :: 0 <= i < |input| ==> IsDigit(input[i])
  }

  /** `Stream.of(input.split("")).mapToInt(Integer::parseInt).toArray()`: the digits of the input. */
  function Digits(input: string): (ds: seq<int>)
    requires AllDigits(input)
    ensures |ds| == |input| && InRange(ds)
  {
    seq(|input|, i requires 0 <= i < |input| => input[i] as int - '0' as int)
  }

  /** Every entry is a decimal digit. */
  predicate InRange(s: seq<int>)
  {
    forall i :: 0 <= i < |s| ==> 0 <= s[i] <= 9
  }

  // ---------------------------------------------------------------------------------
  // The pattern

  /** `x < q * d` bounds the quotient `x / d` below `q`. */
  lemma QuotientBelow(x: nat, d: nat, q: nat)
    requires d > 0 && x < q * d
    ensures x / d < q
  {
  }

  /** The pattern for output k: each element of the base pattern repeated k + 1 times. */
  function Extended(k: nat): (p: seq<int>)
    ensures |p| == 4 * (k + 1)
  {
    seq(4 * (k + 1), j requires 0 <= j < 4 * (k + 1) => QuotientBelow(j, k + 1, 4); BASE[j / (k + 1)])
  }

  /** Entry `e * (k + 1) + r` of the stretched pattern is base element e. */
  lemma ExtendedAt(k: nat, e: nat, r: nat)
    requires e < 4 && r <= k
    ensures e * (k + 1) + r < 4 * (k + 1) && Extended(k)[e * (k + 1) + r] == BASE[e]
  {
    assert e * (k + 1) + r < 4 * (k + 1) by {
      assert e * (k + 1) <= 3 * (k + 1);
    }
    JavaMath.DivideUnique(e * (k + 1) + r, k + 1, e, r);
  }

  /** The weight of digit i in the sum for output k: the pattern shifted left by one. */
  function Coefficient(k: nat, i: nat): (c: int)
    ensures -1 <= c <= 1
  {
    var p := Extended(k);
    p[(i + 1) % |p|]
  }

  /** The digits before output k weigh nothing in its sum. */
  lemma CoefficientBelow(k: nat, i: nat)
    requires i < k
    ensures Coefficient(k, i) == 0
  {
    JavaMath.DivideUnique(i + 1, 4 * (k + 1), 0, i + 1);
    JavaMath.DivideUnique(i + 1, k + 1, 0, i + 1);
  }

  /** From output k on, the next k + 1 digits weigh one each. */
  lemma CoefficientOne(k: nat, i: nat)
    requires k <= i <= 2 * k
    ensures Coefficient(k, i) == 1
  {
    JavaMath.DivideUnique(i + 1, 4 * (k + 1), 0, i + 1);
    JavaMath.DivideUnique(i + 1, k + 1, 1, i - k);
  }

  // ---------------------------------------------------------------------------------
  // One phase

  /** The weighted sum of the first n digits for output k. */
  function RowSum(s: seq<int>, k: nat, n: nat): int
    requires n <= |s|
  {
    if n == 0 then 0 else RowSum(s, k, n - 1) + s[n - 1] * Coefficient(k, n - 1)
  }

  /** `Math.abs(sum) % 10`: the last digit of the sum. */
  function Digit(sum: int): (d: int)
    ensures 0 <= d <= 9
  {
    JavaMath.Abs(sum) % 10
  }

  /** Output k of a phase. */
  function PhaseAt(s: seq<int>, k: nat): int
    requires k < |s|
  {
    Digit(RowSum(s, k, |s|))
  }

  /** A phase on values: every output computed from the whole input. */
  function Phase(s: seq<int>): (r: seq<int>)
    ensures |r| == |s| && InRange(r)
  {
    seq(|s|, k requires 0 <= k < |s| => PhaseAt(s, k))
  }

  /** The signal after t phases. */
  function Phases(s: seq<int>, t: nat): (r: seq<int>)
    ensures |r| == |s|
  {
    if t == 0 then s else Phase(Phases(s, t - 1))
  }

  /** The sum for output k reads only the digits from k on. */
  lemma {:induction false} RowSumFrom(a: seq<int>, b: seq<int>, k: nat, n: nat)
    requires n <= |a| == |b|
    requires forall i :: k <= i < |a| ==> a[i] == b[i]
    ensures RowSum(a, k, n) == RowSum(b, k, n)
  {
    if n > 0 {
      RowSumFrom(a, b, k, n - 1);
      if n - 1 < k {
        CoefficientBelow(k, n - 1);
      }
    }
  }

  /** `newPattern` for output k, built as the nested loops build it. */
  method ExtendPattern(k: nat) returns (newPattern: seq<int>)
    ensures newPattern == Extended(k)
  {
    var pattern := BASE;
    newPattern := [];
    var e: nat := 0;
    while e < |pattern|
      invariant e <= 4 && e * (k + 1) <= 4 * (k + 1)
      invariant newPattern == Extended(k)[..e * (k + 1)]
    {
      var repeats: nat := 0;
      while repeats < k + 1
        invariant repeats <= k + 1
        invariant newPattern == Extended(k)[..e * (k + 1) + repeats]
      {
        ExtendedAt(k, e, repeats);
        newPattern := newPattern + [pattern[e]];
        repeats := repeats + 1;
      }
      assert e * (k + 1) + (k + 1) == (e + 1) * (k + 1);
      e := e + 1;
    }
  }

  /** The summation with the pattern for output k over the current list. */
  method PatternSum(list: array<int>, k: nat, newPattern: seq<int>) returns (sum: int)
    requires newPattern == Extended(k)
    ensures sum == RowSum(list[..], k, list.Length)
  {
    sum := 0;
    var index: nat := 0;
    while index < list.Length
      invariant index <= list.Length && sum == RowSum(list[..], k, index)
    {
      sum := sum + list[index] * newPattern[(index + 1) % |newPattern|];
      index := index + 1;
    }
  }

  /**
   * One phase of `part01`, in place: output k overwrites digit k before the sums of the later
   * outputs are taken, which is harmless since those sums give the earlier digits no weight.
   */
  method PhaseInPlace(list: array<int>)
    modifies list
    ensures list[..] == Phase(old(list[..]))
  {
    ghost var s := list[..];
    var listIndex: nat := 0;
    while listIndex < list.Length
      invariant listIndex <= list.Length
      invariant forall k :: 0 <= k < listIndex ==> list[k] == Phase(s)[k]
      invariant forall k :: listIndex <= k < list.Length ==> list[k] == s[k]
    {
      var newPattern := ExtendPattern(listIndex);
      var sum := PatternSum(list, listIndex, newPattern);
      RowSumFrom(list[..], s, listIndex, list.Length);
      list[listIndex] := Digit(sum);
      listIndex := listIndex + 1;
    }
  }

  /** `part01`: the first eight digits after a hundred phases. */
  method Part01(input: string) returns (message: seq<int>)
    requires |input| >= OUTPUT_LENGTH && AllDigits(input)
    ensures message == Phases(Digits(input), ITERATIONS)[..OUTPUT_LENGTH]
    ensures InRange(message)
  {
    var digits := Digits(input);
    var list := new int[|digits|](i requires 0 <= i < |digits| => digits[i]);
    var iteration: nat := 0;
    while iteration < ITERATIONS
      invariant iteration <= ITERATIONS && list[..] == Phases(digits, iteration)
    {
      PhaseInPlace(list);
      iteration := iteration + 1;
    }
    message := list[..OUTPUT_LENGTH];
  }

  // ---------------------------------------------------------------------------------
  // Part 2: the backward pass

  /** The signal repeated r times. */
  function Repeat(s: seq<int>, r: nat): (l: seq<int>)
    ensures |l| == |s| * r
  {
    if r == 0 then [] else Repeat(s, r - 1) + s
  }

  lemma {:induction false} RepeatInRange(s: seq<int>, r: nat)
    requires InRange(s)
    ensures InRange(Repeat(s, r))
  {
    if r > 0 {
      RepeatInRange(s, r - 1);
      assert Repeat(s, r) == Repeat(s, r - 1) + s;
    }
  }

  /** The digits read as a decimal number, as `Integer.parseInt` reads the offset. */
  function Decimal(ds: seq<int>): int
  {
    if ds == [] then 0 else Decimal(ds[..|ds| - 1]) * 10 + ds[|ds| - 1]
  }

  /** Seven digits make a number below ten million. */
  lemma {:induction false} DecimalBound(ds: seq<int>)
    requires InRange(ds)
    ensures 0 <= Decimal(ds) < JavaMath.Pow10(|ds|)
  {
    if ds != [] {
      DecimalBound(ds[..|ds| - 1]);
    }
  }

  /**
   * The list after the backward loop has written the cells from n - 2 down to j: each cell
   * becomes the last digit of itself plus the cell after it (Java's `%`, which truncates).
   */
  function Swept(s: seq<int>, j: nat): (r: seq<int>)
    ensures |r| == |s|
    decreases |s| - j
  {
    if j + 1 >= |s| then s
    else
      var t := Swept(s, j + 1);
      t[j := JavaMath.Rem(t[j] + t[j + 1], 10)]
  }

  /** The signal after t backward passes down to cell `low`. */
  function BackPasses(s: seq<int>, low: nat, t: nat): (r: seq<int>)
    ensures |r| == |s|
  {
    if t == 0 then s else Swept(BackPasses(s, low, t - 1), low)
  }

  /** The sum of the digits from `from` up to `to`. */
  function Sum(s: seq<int>, from: nat, to: nat): int
    requires to <= |s|
  {
    if to <= from then 0 else Sum(s, from, to - 1) + s[to - 1]
  }

  lemma {:induction false} SumFront(s: seq<int>, from: nat, to: nat)
    requires from < to <= |s|
    ensures Sum(s, from, to) == s[from] + Sum(s, from + 1, to)
  {
    if to - 1 > from {
      SumFront(s, from, to - 1);
    }
  }

  /** Sums of digits are not negative. */
  lemma {:induction false} SumNonNegative(s: seq<int>, from: nat, to: nat)
    requires to <= |s| && InRange(s)
    ensures Sum(s, from, to) >= 0
  {
    if to > from {
      SumNonNegative(s, from, to - 1);
    }
  }

  /** A sum reads only the cells it covers. */
  lemma {:induction false} SumSame(a: seq<int>, b: seq<int>, from: nat, to: nat)
    requires to <= |a| && to <= |b|
    requires forall i :: from <= i < to ==> a[i] == b[i]
    ensures Sum(a, from, to) == Sum(b, from, to)
  {
    if to > from {
      SumSame(a, b, from, to - 1);
    }
  }

  /** Taking the last digit before adding does not change the last digit of the sum. */
  lemma LastDigitSum(a: int, b: int)
    requires a >= 0 && b >= 0
    ensures (a + b % 10) % 10 == (a + b) % 10
  {
    JavaMath.DivideUnique(a + b, 10, (a + b % 10) / 10 + b / 10, (a + b % 10) % 10);
  }

  /**
   * On digits the backward loop leaves, from cell j on, the last digit of the running sum of
   * the cells up to the end, and the cells before j as they were.
   */
  lemma {:induction false} SweptSums(s: seq<int>, j: nat)
    requires InRange(s) && j < |s|
    ensures forall m :: j <= m < |s| ==> Swept(s, j)[m] == Sum(s, m, |s|) % 10
    ensures forall m :: 0 <= m < j ==> Swept(s, j)[m] == s[m]
    ensures InRange(Swept(s, j))
    decreases |s| - j
  {
    var n := |s|;
    if j + 1 >= n {
      SumFront(s, j, n);
    } else {
      SweptSums(s, j + 1);
      var t := Swept(s, j + 1);
      SumFront(s, j, n);
      SumNonNegative(s, j + 1, n);
      LastDigitSum(s[j], Sum(s, j + 1, n));
      assert t[j] == s[j] && t[j + 1] == Sum(s, j + 1, n) % 10;
    }
  }

  /** One backward loop of `part02`, writing cells n - 2 down to offset - 1. */
  method BackPass(list: array<int>, offset: nat)
    requires offset >= 1 && list.Length >= 1
    modifies list
    ensures list[..] == Swept(old(list[..]), offset - 1)
  {
    ghost var s := list[..];
    var j: nat := list.Length - 1;
    while j > offset - 1
      invariant j <= list.Length - 1 && (j >= offset - 1 || j == list.Length - 1)
      invariant list[..] == Swept(s, j)
    {
      list[j - 1] := list[j - 1] + list[j];
      list[j - 1] := JavaMath.Rem(list[j - 1], 10);
      j := j - 1;
    }
  }

  /** Behind the middle of the signal, output k of a phase is the last digit of the sum from k on. */
  lemma {:induction false} PhaseSecondHalf(s: seq<int>, k: nat)
    requires InRange(s) && k < |s| <= 2 * k + 1
    ensures PhaseAt(s, k) == Sum(s, k, |s|) % 10
  {
    RowSumTail(s, k, |s|);
    SumNonNegative(s, k, |s|);
  }

  /** A digit weighs itself, nothing or its opposite. */
  lemma Weighted(x: int, c: int)
    requires -1 <= c <= 1
    ensures x * c == (if c == 1 then x else if c == 0 then 0 else -x)
  {
  }

  lemma {:induction false} RowSumTail(s: seq<int>, k: nat, n: nat)
    requires n <= |s| && n <= 2 * k + 1
    ensures RowSum(s, k, n) == Sum(s, k, n)
  {
    if n > 0 {
      RowSumTail(s, k, n - 1);
      if n - 1 < k {
        CoefficientBelow(k, n - 1);
      } else {
        CoefficientOne(k, n - 1);
      }
      Weighted(s[n - 1], Coefficient(k, n - 1));
    }
  }

  /**
   * The shortcut of `part02` is exact behind the middle: when the offset lies in the second
   * half of the signal, the backward passes agree with the phases from the offset on.
   */
  lemma {:induction false} BackPassesArePhases(s: seq<int>, offset: nat, t: nat)
    requires InRange(s) && 1 <= offset < |s| <= 2 * offset + 1
    ensures InRange(BackPasses(s, offset - 1, t))
    ensures forall m :: offset <= m < |s| ==> BackPasses(s, offset - 1, t)[m] == Phases(s, t)[m]
  {
    if t > 0 {
      BackPassesArePhases(s, offset, t - 1);
      var a, p := BackPasses(s, offset - 1, t - 1), Phases(s, t - 1);
      SweptSums(a, offset - 1);
      forall m | offset <= m < |s|
        ensures Swept(a, offset - 1)[m] == Phase(p)[m]
      {
        SumSame(a, p, m, |s|);
        PhaseSecondHalf(p, m);
      }
    }
  }

  /** The offset: the first seven digits of the list read as a number. */
  method ReadOffset(list: array<int>) returns (offset: int)
    requires list.Length >= 7
    ensures offset == Decimal(list[..7])
  {
    var offsetBuilder: seq<int> := [];
    var i: nat := 0;
    while i < 7
      invariant i <= 7 && offsetBuilder == list[..i]
    {
      offsetBuilder := offsetBuilder + [list[i]];
      i := i + 1;
    }
    offset := Decimal(offsetBuilder);
  }

  /** The part-2 list: the input copied ten thousand times (`System.arraycopy` per copy). */
  method RepeatSignal(inputInts: seq<int>) returns (list: array<int>)
    ensures fresh(list) && list[..] == Repeat(inputInts, INPUT_REPEATS)
  {
    var n := |inputInts|;
    list := new int[n * INPUT_REPEATS];
    var i: nat := 0;
    while i < INPUT_REPEATS
      invariant i <= INPUT_REPEATS && list[..i * n] == Repeat(inputInts, i)
    {
      assert (i + 1) * n <= n * INPUT_REPEATS;
      forall j | 0 <= j < n {
        list[i * n + j] := inputInts[j];
      }
      assert list[..(i + 1) * n] == list[..i * n] + inputInts;
      i := i + 1;
    }
  }

  /** The hundred backward passes of `part02`. */
  method RunBackPasses(list: array<int>, offset: nat)
    requires offset >= 1 && list.Length >= 1
    modifies list
    ensures list[..] == BackPasses(old(list[..]), offset - 1, ITERATIONS)
  {
    ghost var signal := list[..];
    var iteration: nat := 0;
    while iteration < ITERATIONS
      invariant iteration <= ITERATIONS && list[..] == BackPasses(signal, offset - 1, iteration)
    {
      BackPass(list, offset);
      iteration := iteration + 1;
    }
  }

  /**
   * `part02`: the eight digits at the offset after a hundred backward passes over the input
   * repeated ten thousand times. Java indexes `list[-1]` when the offset is 0 and reads past the
   * end when the offset is within eight cells of it; both raise, which is `None` here. Behind the
   * middle of the signal the digits are those of a hundred true phases.
   */
  method Part02(input: string) returns (message: Option<seq<int>>)
    requires |input| >= 1 && AllDigits(input)
    ensures
      var signal := Repeat(Digits(input), INPUT_REPEATS);
      var offset := Decimal(signal[..7]);
      && (message.Some? <==> 1 <= offset && offset + OUTPUT_LENGTH <= |signal|)
      && (message.Some? ==> message.value == BackPasses(signal, offset - 1, ITERATIONS)[offset..offset + OUTPUT_LENGTH])
      && (message.Some? && |signal| <= 2 * offset + 1 ==>
            message.value == Phases(signal, ITERATIONS)[offset..offset + OUTPUT_LENGTH])
  {
    var inputInts := Digits(input);
    var list := RepeatSignal(inputInts);
    RepeatInRange(inputInts, INPUT_REPEATS);
    var offset := ReadOffset(list);
    message := MessageAt(list, offset);
  }

  /** The backward passes behind the offset and the eight digits they leave there. */
  method MessageAt(list: array<int>, offset: int) returns (message: Option<seq<int>>)
    requires list.Length >= 7 && InRange(list[..]) && offset == Decimal(list[..7])
    modifies list
    ensures
      var signal := old(list[..]);
      && (message.Some? <==> 1 <= offset && offset + OUTPUT_LENGTH <= |signal|)
      && (message.Some? ==> message.value == BackPasses(signal, offset - 1, ITERATIONS)[offset..offset + OUTPUT_LENGTH])
      && (message.Some? && |signal| <= 2 * offset + 1 ==>
            message.value == Phases(signal, ITERATIONS)[offset..offset + OUTPUT_LENGTH])
  {
    ghost var signal := list[..];
    DecimalBound(list[..7]);
    if offset == 0 {
      return None;
    }
    RunBackPasses(list, offset);
    if offset + OUTPUT_LENGTH > list.Length {
      return None;
    }
    message := Some(list[offset..offset + OUTPUT_LENGTH]);
    if list.Length <= 2 * offset + 1 {
      BackPassesArePhases(signal, offset, ITERATIONS);
    }
  }
}
