/**
 * The password counter (`Day04`): the numbers of a range whose decimal digits never decrease
 * and have two equal neighbours (part 1), and among those the ones in which some run of equal
 * digits is exactly two long (part 2).
 */
module Day04 {

  // ---------------------------------------------------------------------------------
  // Decimal text

  /** The digit character for 0 to 9. */
  function DigitChar(d: nat): char
    requires d < 10
  {
    ['0', '1', '2', '3', '4', '5', '6', '7', '8', '9'][d]
  }

  /** The decimal digits of `n`, without leading zeros. */
  function Digits(n: nat): (s: seq<char>)
    ensures |s| >= 1
  {
    if n < 10 then [DigitChar(n)] else Digits(n / 10) + [DigitChar(n % 10)]
  }

  /** `Integer.toString`. */
  function ToString(i: int): seq<char>
  {
    if i < 0 then ['-'] + Digits(-i) else Digits(i)
  }

  // ---------------------------------------------------------------------------------
  // Sorting characters

  /** No character is smaller than the one before it. */
  predicate NonDecreasing(s: seq<char>)
  {
    forall i, j :: 0 <= i < j < |s| ==> s[i] <= s[j]
  }

  /** `c` put in place into a sorted sequence, from its end. */
  function Insert(t: seq<char>, c: char): (r: seq<char>)
    ensures multiset(r) == multiset(t) + multiset{c}
    ensures |r| == |t| + 1
    decreases |t|
  {
    if t == [] || t[|t| - 1] <= c then t + [c]
    else
      assert t == t[..|t| - 1] + [t[|t| - 1]];
      Insert(t[..|t| - 1], c) + [t[|t| - 1]]
  }

  /** `chars().sorted()`: insertion sort. */
  function Sort(s: seq<char>): (r: seq<char>)
    ensures multiset(r) == multiset(s) && |r| == |s|
    decreases |s|
  {
    if s == [] then []
    else
      assert s == s[..|s| - 1] + [s[|s| - 1]];
      Insert(Sort(s[..|s| - 1]), s[|s| - 1])
  }

  lemma {:induction false} InsertSorted(t: seq<char>, c: char)
    requires NonDecreasing(t)
    ensures NonDecreasing(Insert(t, c))
    decreases |t|
  {
    if !(t == [] || t[|t| - 1] <= c) {
      var front := t[..|t| - 1];
      var last := t[|t| - 1];
      InsertSorted(front, c);
      var r := Insert(front, c);
      forall k | 0 <= k < |r|
        ensures r[k] <= last
      {
        assert r[k] in multiset(r);
        if r[k] != c {
          assert r[k] in multiset(front);
          var i :| 0 <= i < |front| && front[i] == r[k];
          assert t[i] == r[k];
        }
      }
    }
  }

  /** The sort gives a non-decreasing rearrangement. */
  lemma {:induction false} SortSorted(s: seq<char>)
    ensures NonDecreasing(Sort(s))
    decreases |s|
  {
    if s != [] {
      SortSorted(s[..|s| - 1]);
      InsertSorted(Sort(s[..|s| - 1]), s[|s| - 1]);
    }
  }

  /** A non-decreasing sequence is its own sort. */
  lemma {:induction false} SortKeepsSorted(s: seq<char>)
    requires NonDecreasing(s)
    ensures Sort(s) == s
    decreases |s|
  {
    if s != [] {
      var front, last := s[..|s| - 1], s[|s| - 1];
      FrontNonDecreasing(s);
      SortKeepsSorted(front);
      assert front == [] || front[|front| - 1] <= last by {
        if front != [] {
          assert front[|front| - 1] == s[|s| - 2];
        }
      }
      SortGrows(s);
    }
  }

  /** Sorting a sequence whose front is sorted and whose last character is largest changes nothing. */
  lemma SortGrows(s: seq<char>)
    requires s != [] && Sort(s[..|s| - 1]) == s[..|s| - 1]
    requires |s| == 1 || s[|s| - 2] <= s[|s| - 1]
    ensures Sort(s) == s
  {
    var front, last := s[..|s| - 1], s[|s| - 1];
    SortLast(s);
    InsertAtEnd(front, last);
    assert front + [last] == s;
  }

  lemma FrontNonDecreasing(s: seq<char>)
    requires NonDecreasing(s) && s != []
    ensures NonDecreasing(s[..|s| - 1])
  {
    var front := s[..|s| - 1];
    forall i, j | 0 <= i < j < |front|
      ensures front[i] <= front[j]
    {
      assert front[i] == s[i] && front[j] == s[j];
    }
  }

  lemma SortLast(s: seq<char>)
    requires s != []
    ensures Sort(s) == Insert(Sort(s[..|s| - 1]), s[|s| - 1])
  {
  }

  lemma InsertAtEnd(t: seq<char>, c: char)
    requires t == [] || t[|t| - 1] <= c
    ensures Insert(t, c) == t + [c]
  {
  }

  /** A sequence equals its sort exactly when its characters never decrease. */
  lemma SortedIffNonDecreasing(s: seq<char>)
    ensures s == Sort(s) <==> NonDecreasing(s)
  {
    SortSorted(s);
    if NonDecreasing(s) {
      SortKeepsSorted(s);
    }
  }

  // ---------------------------------------------------------------------------------
  // Part 1

  /** Two neighbouring characters are equal. */
  predicate HasDouble(s: seq<char>)
  {
    exists i :: 0 < i < |s| && s[i] == s[i - 1]
  }

  /** `isValidPasswordPart01`: compare with the sorted characters, and look for equal neighbours. */
  method IsValidPasswordPart01(value: seq<char>) returns (valid: bool)
    ensures valid <==> value == Sort(value) && HasDouble(value)
  {
    var sorted := Sort(value);
    var hasDouble := false;
    for i := 0 to |value|
      invariant value[..i] == sorted[..i]
      invariant hasDouble <==> exists k :: 0 < k < i && value[k] == value[k - 1]
    {
      if value[i] != sorted[i] {
        return false;
      }
      if i != 0 && value[i] == value[i - 1] {
        hasDouble := true;
      }
    }
    assert value == value[..|value|] && sorted == sorted[..|value|];
    return hasDouble;
  }

  /** Part 1's rule: the digits never decrease and two neighbours are equal. */
  predicate ValidPart01(value: seq<char>)
  {
    NonDecreasing(value) && HasDouble(value)
  }

  // ---------------------------------------------------------------------------------
  // Part 2

  /** A maximal run of equal characters starts at i and is exactly two long. */
  predicate PairRunAt(s: seq<char>, i: int)
  {
    && 0 <= i && i + 1 < |s| && s[i] == s[i + 1]
    && (i == 0 || s[i - 1] != s[i])
    && (i + 2 == |s| || s[i + 2] != s[i])
  }

  /** Part 2's rule: some maximal run of equal characters is exactly two long. */
  predicate ValidPart02(value: seq<char>)
  {
    exists i :: 0 <= i < |value| && PairRunAt(value, i)
  }

  /**
   * `isValidPasswordPart02`: walk the characters keeping the length of the current run; a run
   * is checked when it ends, and the last one after the loop.
   */
  method IsValidPasswordPart02(value: seq<char>) returns (valid: bool)
    ensures valid == ValidPart02(value)
  {
    var lastChar: int := -1;
    var matchLength := 0;
    var hasDouble := false;
    for i := 0 to |value|
      invariant i == 0 ==> lastChar == -1 && matchLength == 0 && !hasDouble
      invariant i > 0 ==>
        && lastChar == value[i - 1] as int && 1 <= matchLength <= i
        && (forall k :: i - matchLength <= k < i ==> value[k] == value[i - 1])
        && (i - matchLength == 0 || value[i - matchLength - 1] != value[i - 1])
        && (hasDouble <==> exists j :: 0 <= j && j + 2 <= i - matchLength && PairRunAt(value, j))
    {
      var single := value[i];
      if single as int == lastChar {
        matchLength := matchLength + 1;
      } else {
        ghost var start := i - matchLength;
        if matchLength == 2 {
          assert PairRunAt(value, start);
          hasDouble := true;
        }
        if i > 0 {
          forall j | start - 2 < j <= i - 2
            ensures PairRunAt(value, j) <==> j == start && matchLength == 2
          {
            if j == start - 1 {
              assert value[j + 1] == value[i - 1];
            } else if j > start {
              assert value[j - 1] == value[i - 1] && value[j] == value[i - 1];
            }
          }
        }
        matchLength := 1;
      }
      lastChar := single as int;
    }
    if matchLength == 2 {
      assert PairRunAt(value, |value| - 2);
      hasDouble := true;
    }
    if value != [] {
      var start := |value| - matchLength;
      forall j | start - 2 < j < |value|
        ensures PairRunAt(value, j) <==> j == start && matchLength == 2
      {
        if j == start - 1 {
          assert value[j + 1] == value[|value| - 1];
        } else if j > start {
          assert value[j - 1] == value[|value| - 1] && value[j] == value[|value| - 1];
        }
      }
    }
    return hasDouble;
  }

  /** A run of exactly two is a pair of equal neighbours. */
  lemma Part02HasDouble(value: seq<char>)
    requires ValidPart02(value)
    ensures HasDouble(value)
  {
    var i :| 0 <= i < |value| && PairRunAt(value, i);
    assert value[i + 1] == value[i];
  }

  // ---------------------------------------------------------------------------------
  // Counting

  /** The numbers in [lo, hi) valid for part 1, and (`both`) also for part 2. */
  function CountValid(lo: int, hi: int, both: bool): nat
    decreases hi - lo
  {
    if lo >= hi then 0
    else
      var s := ToString(hi - 1);
      CountValid(lo, hi - 1, both) + if ValidPart01(s) && (!both || ValidPart02(s)) then 1 else 0
  }

  /** `main`: count the valid numbers from `rangeMin` up to, not including, `rangeMax`. */
  method CountPasswords(rangeMin: int, rangeMax: int) returns (validPart01: nat, validPart02: nat)
    ensures validPart01 == CountValid(rangeMin, rangeMax, false)
    ensures validPart02 == CountValid(rangeMin, rangeMax, true)
  {
    validPart01, validPart02 := 0, 0;
    var i := rangeMin;
    while i < rangeMax
      invariant rangeMin <= i || rangeMax <= rangeMin
      invariant i <= rangeMax || rangeMax <= rangeMin
      invariant validPart01 == CountValid(rangeMin, if rangeMax <= rangeMin then rangeMin else i, false)
      invariant validPart02 == CountValid(rangeMin, if rangeMax <= rangeMin then rangeMin else i, true)
      decreases rangeMax - i
    {
      var stringValue := ToString(i);
      var first := IsValidPasswordPart01(stringValue);
      SortedIffNonDecreasing(stringValue);
      if first {
        validPart01 := validPart01 + 1;
        var second := IsValidPasswordPart02(stringValue);
        if second {
          validPart02 := validPart02 + 1;
        }
      }
      i := i + 1;
    }
  }

  /** Part 2 counts a subset of part 1's numbers: never more. */
  lemma {:induction false} Part02AtMostPart01(lo: int, hi: int)
    ensures CountValid(lo, hi, true) <= CountValid(lo, hi, false)
    decreases hi - lo
  {
    if lo < hi {
      Part02AtMostPart01(lo, hi - 1);
    }
  }

  /** The upper end of the range is not counted. */
  lemma UpperBoundExcluded(lo: int, hi: int)
    requires lo < hi
    ensures CountValid(lo, hi, false) == CountValid(lo, hi - 1, false) + (if ValidPart01(ToString(hi - 1)) then 1 else 0)
    ensures CountValid(lo, lo + 1, false) == (if ValidPart01(ToString(lo)) then 1 else 0)
  {
  }

  lemma ExamplesPart01()
    ensures ValidPart01("111111")
    ensures !ValidPart01("223450")
    ensures !ValidPart01("123789")
  {
    assert "111111"[1] == "111111"[0];
    assert "223450"[4] > "223450"[5];
  }

  lemma ExamplesPart02()
    ensures !ValidPart02("111111")
    ensures ValidPart02("112233") && ValidPart02("111122")
    ensures !ValidPart02("123444")
  {
    assert PairRunAt("112233", 0);
    assert PairRunAt("111122", 4);
  }
}
