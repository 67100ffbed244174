/**
 * The space-card shuffle (`Day22`). Part 1 shuffles a deck of 10007 cards with three
 * techniques (deal into a new stack, cut, deal with an increment), each building a new array,
 * and looks for card 2019. Part 2 does not move cards: it folds the instructions, last to first,
 * into two factors (scale, offset) modulo 119315717514047, so that the card at position p is
 * `(scale * p + offset) mod n`, and then repeats that linear map 101741582076661 times in closed
 * form.
 *
 * The model proves what ties the two parts together: each technique is a rearrangement of the
 * deck (the increment one when the increment is invertible modulo the deck size), and the
 * factors of part 2 describe exactly the deck part 1 builds.
 */
module Day22 {
  import opened Wrappers
  import JavaMath
  import Day04

  const DECK_SIZE_PART_1: nat := 10007
  const DECK_SIZE_PART_2: nat := 119315717514047
  const REPEAT_COUNT: nat := 101741582076661
  /** The card part 1 looks for, and the position part 2 asks about. */
  const SEARCHED_CARD := 2019
  const SEARCHED_POSITION := 2020

  const NEW_STACK: seq<char> := "deal into new stack"
  const CUT: seq<char> := "cut"
  /** Part 2 reads an increment from this offset on ("deal with increment " is 20 characters). */
  const INCREMENT_OFFSET: nat := 20

  /** The three shuffle techniques, with the number each one reads. */
  datatype Technique = NewStack | Cut(amount: int) | Increment(increment: int)

  // ---------------------------------------------------------------------------------
  // Reading instructions

  predicate IsDigit(c: char)
  {
    '0' <= c <= '9'
  }

  predicate AllDigits(s: seq<char>)
  {
    forall i :: 0 <= i < |s| ==> IsDigit(s[i])
  }

  /** The value of a string of decimal digits. */
  function DigitsValue(s: seq<char>): nat
    requires AllDigits(s)
  {
    if s == [] then 0 else 10 * DigitsValue(s[..|s| - 1]) + (s[|s| - 1] as int - '0' as int)
  }

  /**
   * `Integer.parseInt` (and `new BigInteger(String)`): an optional sign, then at least one
   * digit and nothing else; anything else raises `NumberFormatException`, here `None`.
   */
  function ParseInt(s: seq<char>): Option<int>
  {
    var signed := |s| > 0 && (s[0] == '-' || s[0] == '+');
    var digits := if signed then s[1..] else s;
    if digits != [] && AllDigits(digits) then
      Some(if signed && s[0] == '-' then -(DigitsValue(digits) as int) else DigitsValue(digits))
    else None
  }

  lemma {:induction false} DigitsRoundTrip(n: nat)
    ensures AllDigits(Day04.Digits(n)) && DigitsValue(Day04.Digits(n)) == n
  {
    var s := Day04.Digits(n);
    if n >= 10 {
      DigitsRoundTrip(n / 10);
      assert s[..|s| - 1] == Day04.Digits(n / 10);
    }
  }

  /** Reading the decimal text of a number gives the number back. */
  lemma ParseIntRoundTrip(v: int)
    ensures ParseInt(Day04.ToString(v)) == Some(v)
  {
    var s := Day04.ToString(v);
    if v < 0 {
      DigitsRoundTrip(-v);
      assert s[1..] == Day04.Digits(-v);
    } else {
      DigitsRoundTrip(v);
      assert s[0] != '-' && s[0] != '+' by {
        var d := Day04.Digits(v);
        assert IsDigit(d[0]);
      }
    }
  }

  predicate StartsWith(s: seq<char>, prefix: seq<char>)
  {
    |prefix| <= |s| && s[..|prefix|] == prefix
  }

  /** `split(" ")` drops the empty strings at the end: the trailing spaces do not count. */
  function TrimTrailingSpaces(s: seq<char>): (r: seq<char>)
    ensures r == [] || r[|r| - 1] != ' '
    ensures StartsWith(s, r)
  {
    if s != [] && s[|s| - 1] == ' ' then TrimTrailingSpaces(s[..|s| - 1]) else s
  }

  /** The text after the last space. */
  function AfterLastSpace(s: seq<char>): (r: seq<char>)
    ensures ' ' !in r
  {
    if s == [] || s[|s| - 1] == ' ' then [] else AfterLastSpace(s[..|s| - 1]) + [s[|s| - 1]]
  }

  /**
   * `parts[parts.length - 1]` of `split(" ")`. When nothing but spaces is left the Java index is
   * -1 and raises; the empty text here fails to parse instead, which ends the same way.
   */
  function LastToken(s: seq<char>): seq<char>
  {
    AfterLastSpace(TrimTrailingSpaces(s))
  }

  lemma {:induction false} AfterLastSpaceOf(p: seq<char>, t: seq<char>)
    requires p != [] && p[|p| - 1] == ' ' && ' ' !in t
    ensures AfterLastSpace(p + t) == t
    decreases |t|
  {
    if t == [] {
      assert p + t == p;
    } else {
      assert (p + t)[..|p + t| - 1] == p + t[..|t| - 1];
      AfterLastSpaceOf(p, t[..|t| - 1]);
    }
  }

  /** `apply(String, int[])`: the exact text reverses, a "cut" prefix cuts, anything else is an increment. */
  function DeckTechnique(instruction: seq<char>): Option<Technique>
  {
    if instruction == NEW_STACK then Some(NewStack)
    else if StartsWith(instruction, CUT) then
      if |instruction| < 4 then None
      else match ParseInt(instruction[4..]) case Some(v) => Some(Cut(v)) case None => None
    else match ParseInt(LastToken(instruction)) case Some(v) => Some(Increment(v)) case None => None
  }

  /** `apply(String, BigInteger[])`: as `DeckTechnique`, but the increment is read from offset 20. */
  function FactorTechnique(instruction: seq<char>): Option<Technique>
  {
    if instruction == NEW_STACK then Some(NewStack)
    else if StartsWith(instruction, CUT) then
      if |instruction| < 4 then None
      else match ParseInt(instruction[4..]) case Some(v) => Some(Cut(v)) case None => None
    else if |instruction| < INCREMENT_OFFSET then None
    else match ParseInt(instruction[INCREMENT_OFFSET..]) case Some(v) => Some(Increment(v)) case None => None
  }

  /** The text of a technique, as the puzzle input writes it. */
  function Text(t: Technique): seq<char>
  {
    match t
    case NewStack => NEW_STACK
    case Cut(v) => CUT + " " + Day04.ToString(v)
    case Increment(v) => "deal with increment " + Day04.ToString(v)
  }

  lemma ReadCut(v: int)
    ensures DeckTechnique(Text(Cut(v))) == Some(Cut(v))
    ensures FactorTechnique(Text(Cut(v))) == Some(Cut(v))
  {
    var s := Text(Cut(v));
    assert s[..3] == CUT && s[4..] == Day04.ToString(v);
    assert s != NEW_STACK by { assert s[0] != NEW_STACK[0]; }
    ParseIntRoundTrip(v);
  }

  /** Decimal text has no space in it. */
  lemma NoSpaceInNumber(v: int)
    ensures ' ' !in Day04.ToString(v)
  {
    var s := Day04.ToString(v);
    var d := Day04.Digits(if v < 0 then -v else v);
    DigitsRoundTrip(if v < 0 then -v else v);
    forall i | 0 <= i < |s|
      ensures s[i] != ' '
    {
      if v < 0 && i > 0 {
        assert s[i] == d[i - 1];
      } else if v >= 0 {
        assert s[i] == d[i];
      }
    }
  }

  lemma ReadIncrement(v: int)
    ensures DeckTechnique(Text(Increment(v))) == Some(Increment(v))
    ensures FactorTechnique(Text(Increment(v))) == Some(Increment(v))
  {
    var p: seq<char> := "deal with increment ";
    var digits := Day04.ToString(v);
    var s := p + digits;
    assert s == Text(Increment(v));
    assert |p| == INCREMENT_OFFSET;
    assert s != NEW_STACK by { assert |s| != |NEW_STACK|; }
    assert !StartsWith(s, CUT) by { assert s[0] != CUT[0]; }
    NoSpaceInNumber(v);
    assert s[|s| - 1] == digits[|digits| - 1];
    assert TrimTrailingSpaces(s) == s;
    AfterLastSpaceOf(p, digits);
    assert s[INCREMENT_OFFSET..] == digits;
    ParseIntRoundTrip(v);
  }

  /** Both readers give back the technique of every well-formed line. */
  lemma ReadText(t: Technique)
    ensures DeckTechnique(Text(t)) == Some(t)
    ensures FactorTechnique(Text(t)) == Some(t)
  {
    match t
    case NewStack =>
    case Cut(v) => ReadCut(v);
    case Increment(v) => ReadIncrement(v);
  }

  // ---------------------------------------------------------------------------------
  // The techniques on a deck

  /** `reverseArray`: position i takes the card at n - 1 - i. */
  function Reverse(deck: seq<int>): (r: seq<int>)
    ensures |r| == |deck|
  {
    seq(|deck|, i requires 0 <= i < |deck| => deck[|deck| - 1 - i])
  }

  method ReverseArray(deck: array<int>) returns (output: array<int>)
    ensures fresh(output) && output[..] == Reverse(deck[..])
  {
    output := new int[deck.Length];
    for i := 0 to deck.Length
      invariant forall k :: 0 <= k < i ==> output[k] == deck[deck.Length - 1 - k]
    {
      output[i] := deck[deck.Length - i - 1];
    }
  }

  /** `cut`: a positive amount moves that many cards from the top to the bottom, a negative one from the bottom to the top. */
  function CutDeck(deck: seq<int>, amount: int): (r: seq<int>)
    requires -|deck| <= amount <= |deck|
    ensures |r| == |deck|
  {
    if amount >= 0 then deck[amount..] + deck[..amount]
    else deck[|deck| + amount..] + deck[..|deck| + amount]
  }

  /** `System.arraycopy` between two different arrays. */
  method ArrayCopy(src: array<int>, srcPos: nat, dest: array<int>, destPos: nat, length: nat)
    requires src != dest
    requires srcPos + length <= src.Length && destPos + length <= dest.Length
    modifies dest
    ensures forall j :: 0 <= j < dest.Length ==>
      dest[j] == if destPos <= j < destPos + length then src[srcPos + j - destPos] else old(dest[j])
  {
    for k := 0 to length
      invariant forall j :: 0 <= j < dest.Length ==>
        dest[j] == if destPos <= j < destPos + k then src[srcPos + j - destPos] else old(dest[j])
    {
      dest[destPos + k] := src[srcPos + k];
    }
  }

  /** `cut`: an amount of 0 hands back the very same array; otherwise two block copies into a new one. */
  method CutArray(amount: int, deck: array<int>) returns (output: array<int>)
    requires -deck.Length <= amount <= deck.Length
    ensures output[..] == CutDeck(deck[..], amount)
    ensures amount == 0 ==> output == deck
    ensures amount != 0 ==> fresh(output)
  {
    output := new int[deck.Length](_ => 0);
    if amount == 0 {
      return deck;
    } else if amount > 0 {
      ArrayCopy(deck, amount, output, 0, deck.Length - amount);
      ArrayCopy(deck, 0, output, output.Length - amount, amount);
    } else {
      var size := JavaMath.Abs(amount);
      ArrayCopy(deck, deck.Length - size, output, 0, size);
      ArrayCopy(deck, 0, output, size, deck.Length - size);
    }
    assert output[..] == CutDeck(deck[..], amount);
  }

  /**
   * `dealWithIncrement` after its first m cards: a new array of zeros in which the card at i
   * has been written to `(i * increment) % n`, later writes winning.
   */
  function DealPrefix(deck: seq<int>, increment: nat, m: nat): (r: seq<int>)
    requires m <= |deck|
    ensures |r| == |deck|
  {
    if m == 0 then seq(|deck|, _ => 0)
    else DealPrefix(deck, increment, m - 1)[((m - 1) * increment) % |deck| := deck[m - 1]]
  }

  function Deal(deck: seq<int>, increment: nat): (r: seq<int>)
    ensures |r| == |deck|
  {
    DealPrefix(deck, increment, |deck|)
  }

  /** `dealWithIncrement`; a negative increment would make a negative index, so it is excluded. */
  method DealWithIncrement(increment: int, deck: array<int>) returns (output: array<int>)
    requires increment >= 0
    ensures fresh(output) && output[..] == Deal(deck[..], increment)
  {
    output := new int[deck.Length](_ => 0);
    for i := 0 to deck.Length
      invariant output[..] == DealPrefix(deck[..], increment, i)
    {
      var targetIndex := (i * increment) % deck.Length;
      output[targetIndex] := deck[i];
    }
  }

  /** What each technique needs of the deck size so that no index is out of range. */
  predicate Fits(t: Technique, n: nat)
  {
    match t
    case NewStack => true
    case Cut(v) => -(n as int) <= v <= n
    case Increment(v) => v >= 0
  }

  function ApplyTechnique(deck: seq<int>, t: Technique): (r: seq<int>)
    requires Fits(t, |deck|)
    ensures |r| == |deck|
  {
    match t
    case NewStack => Reverse(deck)
    case Cut(v) => CutDeck(deck, v)
    case Increment(v) => Deal(deck, v)
  }

  /** The instruction can be applied to a deck of n cards without an exception. */
  predicate DeckReady(instruction: seq<char>, n: nat)
  {
    DeckTechnique(instruction).Some? && Fits(DeckTechnique(instruction).value, n)
  }

  /** `apply(String, int[])`. */
  method Apply(instruction: seq<char>, deck: array<int>) returns (output: array<int>)
    requires DeckReady(instruction, deck.Length)
    ensures output[..] == ApplyTechnique(deck[..], DeckTechnique(instruction).value)
  {
    if NEW_STACK == instruction {
      output := ReverseArray(deck);
    } else if StartsWith(instruction, CUT) {
      output := CutArray(ParseInt(instruction[4..]).value, deck);
    } else {
      var increment := ParseInt(LastToken(instruction)).value;
      output := DealWithIncrement(increment, deck);
    }
  }

  // ---------------------------------------------------------------------------------
  // Rearrangements

  /** A sequence that takes each element of `a` from a different position is a rearrangement of `a`. */
  lemma {:induction false} InjectionPermutes(a: seq<int>, b: seq<int>, pick: int -> int)
    requires |a| == |b|
    requires forall t :: 0 <= t < |b| ==> 0 <= pick(t) < |a| && b[t] == a[pick(t)]
    requires forall s, t :: 0 <= s < t < |b| ==> pick(s) != pick(t)
    ensures multiset(a) == multiset(b)
    decreases |b|
  {
    if b != [] {
      var n := |b|;
      var k := pick(n - 1);
      var a' := a[..k] + a[k + 1..];
      var b' := b[..n - 1];
      var pick' := t => if pick(t) < k then pick(t) else pick(t) - 1;
      forall t | 0 <= t < |b'|
        ensures 0 <= pick'(t) < |a'| && b'[t] == a'[pick'(t)]
      {
        assert pick(t) != k;
      }
      forall s, t | 0 <= s < t < |b'|
        ensures pick'(s) != pick'(t)
      {
        assert pick(s) != k && pick(t) != k;
      }
      InjectionPermutes(a', b', pick');
      assert a == a[..k] + [a[k]] + a[k + 1..];
      assert b == b' + [b[n - 1]];
    }
  }

  /** Dealing into a new stack twice gives the deck back, and it only rearranges the cards. */
  lemma ReverseTwice(deck: seq<int>)
    ensures Reverse(Reverse(deck)) == deck
    ensures multiset(Reverse(deck)) == multiset(deck)
  {
    var n := |deck|;
    InjectionPermutes(deck, Reverse(deck), t => n - 1 - t);
  }

  /**
   * A cut by a positive amount rotates the deck left by that amount, by a negative one right by
   * its magnitude, and by 0 leaves it as it is: position x takes the card at x + amount, wrapping
   * around. No card is lost or added.
   */
  lemma CutRotates(deck: seq<int>, amount: int)
    requires -|deck| <= amount <= |deck|
    ensures amount == 0 ==> CutDeck(deck, amount) == deck
    ensures |deck| > 0 ==> forall x :: 0 <= x < |deck| ==> CutDeck(deck, amount)[x] == deck[(x + amount) % |deck|]
    ensures multiset(CutDeck(deck, amount)) == multiset(deck)
  {
    var n := |deck|;
    var r := CutDeck(deck, amount);
    if n > 0 {
      forall x | 0 <= x < n
        ensures r[x] == deck[(x + amount) % n]
      {
        CutAt(deck, amount, x);
      }
    }
    if amount >= 0 {
      assert deck == deck[..amount] + deck[amount..];
    } else {
      assert deck == deck[..n + amount] + deck[n + amount..];
    }
  }

  lemma CutAt(deck: seq<int>, amount: int, x: int)
    requires -|deck| <= amount <= |deck| && 0 <= x < |deck|
    ensures CutDeck(deck, amount)[x] == deck[(x + amount) % |deck|]
  {
    var n := |deck|;
    var r := CutDeck(deck, amount);
    if amount >= 0 {
      if x < n - amount {
        assert r[x] == deck[x + amount];
        ModOf(x + amount, n, 0, x + amount);
      } else {
        assert r[x] == deck[x + amount - n];
        ModOf(x + amount, n, 1, x + amount - n);
      }
    } else {
      if x < -amount {
        assert r[x] == deck[n + amount + x];
        ModOf(x + amount, n, -1, x + amount + n);
      } else {
        assert r[x] == deck[x + amount];
        ModOf(x + amount, n, 0, x + amount);
      }
    }
  }

  // ---------------------------------------------------------------------------------
  // Arithmetic modulo the deck size

  /** The remainder is the one of any decomposition with a remainder in range. */
  lemma ModOf(a: int, n: int, q: int, r: int)
    requires n > 0 && 0 <= r < n && a == n * q + r
    ensures a % n == r
  {
    JavaMath.DivideUnique(a, n, q, r);
  }

  lemma ModShift(x: int, k: int, n: int)
    requires n > 0
    ensures (x + k * n) % n == x % n
  {
    var q := x / n;
    assert x + k * n == n * (q + k) + x % n;
    ModOf(x + k * n, n, q + k, x % n);
  }

  lemma ModMul(a: int, b: int, n: int)
    requires n > 0
    ensures ((a % n) * b) % n == (a * b) % n
  {
    var q, r := a / n, a % n;
    assert a * b == r * b + (q * b) * n by {
      assert a == q * n + r;
      assert a * b == (q * n + r) * b;
    }
    ModShift(r * b, q * b, n);
  }

  lemma ModAdd(a: int, b: int, n: int)
    requires n > 0
    ensures ((a % n) + b) % n == (a + b) % n
  {
    var q := a / n;
    assert a + b == (a % n + b) + q * n;
    ModShift(a % n + b, q, n);
  }

  /** With v an inverse of `increment`, scaling by `increment` and then by v gives back any position. */
  lemma Unscale(n: int, increment: int, v: int, i: int)
    requires n > 0 && (increment * v) % n == 1 && 0 <= i < n
    ensures (((i * increment) % n) * v) % n == i
  {
    var p, w := i * increment, increment * v;
    ModMul(p, v, n);
    assert p * v == w * i;
    ModMul(w, i, n);
    assert (w % n) * i == i;
    ModOf(i, n, 0, i);
  }

  // ---------------------------------------------------------------------------------
  // Dealing with an increment

  lemma {:induction false} DealPrefixAt(deck: seq<int>, increment: nat, m: nat, i: nat)
    requires |deck| > 0 && i < m <= |deck|
    requires forall j :: i < j < m ==> (j * increment) % |deck| != (i * increment) % |deck|
    ensures DealPrefix(deck, increment, m)[(i * increment) % |deck|] == deck[i]
    decreases m
  {
    if m - 1 != i {
      DealPrefixAt(deck, increment, m - 1, i);
    }
  }

  /**
   * When the increment has an inverse v modulo the deck size (which is the case exactly when
   * the two are coprime), dealing moves the card at i to `(i * increment) % n`, so position x
   * holds the card at `(x * v) % n`, and no card is lost or written over.
   */
  lemma DealPermutes(deck: seq<int>, increment: nat, v: int)
    requires |deck| > 0 && (increment * v) % |deck| == 1
    ensures forall i :: 0 <= i < |deck| ==> Deal(deck, increment)[(i * increment) % |deck|] == deck[i]
    ensures forall x :: 0 <= x < |deck| ==> Deal(deck, increment)[x] == deck[(x * v) % |deck|]
    ensures multiset(Deal(deck, increment)) == multiset(deck)
  {
    var n := |deck|;
    var r := Deal(deck, increment);
    forall i | 0 <= i < n
      ensures r[(i * increment) % n] == deck[i]
    {
      forall j | i < j < n
        ensures (j * increment) % n != (i * increment) % n
      {
        Unscale(n, increment, v, i);
        Unscale(n, increment, v, j);
      }
      DealPrefixAt(deck, increment, n, i);
    }
    assert (v * increment) % n == 1 by {
      assert v * increment == increment * v;
    }
    forall x | 0 <= x < n
      ensures r[x] == deck[(x * v) % n]
    {
      Unscale(n, v, increment, x);
    }
    forall s, t | 0 <= s < t < n
      ensures (s * v) % n != (t * v) % n
    {
      Unscale(n, v, increment, s);
      Unscale(n, v, increment, t);
    }
    InjectionPermutes(deck, r, x => (x * v) % n);
  }

  // ---------------------------------------------------------------------------------
  // Part 1

  /** The techniques of all instructions, in order. */
  function DeckTechniques(instructions: seq<seq<char>>, n: nat): (ts: seq<Technique>)
    requires forall i :: 0 <= i < |instructions| ==> DeckReady(instructions[i], n)
    ensures |ts| == |instructions|
    ensures forall i :: 0 <= i < |ts| ==> DeckTechnique(instructions[i]) == Some(ts[i]) && Fits(ts[i], n)
  {
    seq(|instructions|, i requires 0 <= i < |instructions| && DeckReady(instructions[i], n) => DeckTechnique(instructions[i]).value)
  }

  predicate AllFit(ts: seq<Technique>, n: nat)
  {
    forall i :: 0 <= i < |ts| ==> Fits(ts[i], n)
  }

  /** The deck after the techniques, applied first to last. */
  function Shuffle(deck: seq<int>, ts: seq<Technique>): (r: seq<int>)
    requires AllFit(ts, |deck|)
    ensures |r| == |deck|
  {
    if ts == [] then deck else ApplyTechnique(Shuffle(deck, ts[..|ts| - 1]), ts[|ts| - 1])
  }

  /** The factory order: card i at position i. */
  function Identity(n: nat): (r: seq<int>)
    ensures |r| == n && forall i :: 0 <= i < n ==> r[i] == i
  {
    seq(n, i => i)
  }

  /** The first position holding `card`, if any. */
  function IndexOf(deck: seq<int>, card: int): (r: Option<nat>)
    ensures r.Some? ==> r.value < |deck| && deck[r.value] == card && card !in deck[..r.value]
    ensures r.None? ==> card !in deck
  {
    if deck == [] then None
    else if deck[|deck| - 1] != card then
      var r := IndexOf(deck[..|deck| - 1], card);
      assert deck == deck[..|deck| - 1] + [deck[|deck| - 1]];
      r
    else match IndexOf(deck[..|deck| - 1], card)
      case Some(i) => Some(i)
      case None => Some(|deck| - 1)
  }

  /** `part1`: shuffle the factory-order deck of 10007 cards, then report the position of card 2019. */
  method Part1(instructions: seq<seq<char>>) returns (position: Option<nat>)
    requires forall i :: 0 <= i < |instructions| ==> DeckReady(instructions[i], DECK_SIZE_PART_1)
    ensures position == IndexOf(Shuffle(Identity(DECK_SIZE_PART_1), DeckTechniques(instructions, DECK_SIZE_PART_1)), SEARCHED_CARD)
  {
    var deck := new int[DECK_SIZE_PART_1];
    for i := 0 to deck.Length
      invariant forall k :: 0 <= k < i ==> deck[k] == k
    {
      deck[i] := i;
    }
    assert deck[..] == Identity(DECK_SIZE_PART_1);
    ghost var ts := DeckTechniques(instructions, DECK_SIZE_PART_1);
    for i := 0 to |instructions|
      invariant deck.Length == DECK_SIZE_PART_1
      invariant deck[..] == Shuffle(Identity(DECK_SIZE_PART_1), ts[..i])
    {
      assert ts[..i + 1][..i] == ts[..i];
      deck := Apply(instructions[i], deck);
    }
    assert ts[..|instructions|] == ts;
    ghost var shuffled := deck[..];
    for i := 0 to deck.Length
      invariant SEARCHED_CARD !in shuffled[..i]
    {
      if deck[i] == SEARCHED_CARD {
        assert IndexOf(shuffled, SEARCHED_CARD) == Some(i) by {
          IndexOfFirst(shuffled, SEARCHED_CARD, i);
        }
        return Some(i);
      }
      assert shuffled[..i + 1] == shuffled[..i] + [deck[i]];
    }
    assert shuffled[..deck.Length] == shuffled;
    return None;
  }

  /** `IndexOf` gives the first position holding the card. */
  lemma IndexOfFirst(deck: seq<int>, card: int, i: nat)
    requires i < |deck| && deck[i] == card && card !in deck[..i]
    ensures IndexOf(deck, card) == Some(i)
  {
  }

  // ---------------------------------------------------------------------------------
  // Where each card goes

  /** `modPow`: the power reduced modulo m, never negative. */
  function Pow(b: int, e: nat): int
  {
    if e == 0 then 1 else b * Pow(b, e - 1)
  }

  function ModPow(b: int, e: nat, m: nat): (r: int)
    requires m > 0
    ensures 0 <= r < m
  {
    Pow(b, e) % m
  }

  /** The modular inverse the source uses for an increment: the Fermat power `v^(n-2) mod n`. */
  function Inverse(v: int, n: nat): int
    requires n >= 2
  {
    ModPow(v, n - 2, n)
  }

  /**
   * The Fermat power is a true inverse of every increment. This holds when the deck size is
   * prime and the increment is not a multiple of it, as for both decks of the puzzle.
   */
  predicate Invertible(t: Technique, n: nat)
    requires n >= 2
  {
    t.Increment? ==> HasInverse(t.increment, n)
  }

  /** v times its Fermat power is 1 modulo n. */
  predicate HasInverse(v: int, n: nat)
    requires n >= 2
  {
    (v * Inverse(v, n)) % n == 1
  }

  predicate AllInvertible(ts: seq<Technique>, n: nat)
    requires n >= 2
  {
    forall i :: 0 <= i < |ts| ==> Invertible(ts[i], n)
  }

  /** The position before a technique of the card at position x after it. */
  function Source(t: Technique, x: int, n: nat): (r: int)
    requires n >= 2
    ensures 0 <= x < n ==> 0 <= r < n
  {
    match t
    case NewStack => n - 1 - x
    case Cut(v) => (x + v) % n
    case Increment(v) => (x * Inverse(v, n)) % n
  }

  /** Each technique puts at position x the card that was at `Source(t, x, n)`. */
  lemma TechniqueMoves(deck: seq<int>, t: Technique, x: int)
    requires |deck| >= 2 && Fits(t, |deck|) && Invertible(t, |deck|) && 0 <= x < |deck|
    ensures ApplyTechnique(deck, t)[x] == deck[Source(t, x, |deck|)]
  {
    match t
    case NewStack =>
    case Cut(v) => CutAt(deck, v, x);
    case Increment(v) => DealPermutes(deck, v, Inverse(v, |deck|));
  }

  /** Every technique keeps the deck's cards; dealing with an increment needs the increment invertible. */
  lemma TechniqueKeepsCards(deck: seq<int>, t: Technique)
    requires |deck| >= 2 && Fits(t, |deck|) && Invertible(t, |deck|)
    ensures multiset(ApplyTechnique(deck, t)) == multiset(deck)
  {
    match t
    case NewStack => ReverseTwice(deck);
    case Cut(v) => CutRotates(deck, v);
    case Increment(v) => DealPermutes(deck, v, Inverse(v, |deck|));
  }

  /** A whole shuffle keeps the deck's cards. */
  lemma {:induction false} ShuffleKeepsCards(deck: seq<int>, ts: seq<Technique>)
    requires |deck| >= 2 && AllFit(ts, |deck|) && AllInvertible(ts, |deck|)
    ensures multiset(Shuffle(deck, ts)) == multiset(deck)
    decreases |ts|
  {
    if ts != [] {
      var front := ts[..|ts| - 1];
      ShuffleKeepsCards(deck, front);
      TechniqueKeepsCards(Shuffle(deck, front), ts[|ts| - 1]);
    }
  }

  /** With every increment invertible, part 1 always finds card 2019. */
  lemma Part1Finds(ts: seq<Technique>)
    requires AllFit(ts, DECK_SIZE_PART_1) && AllInvertible(ts, DECK_SIZE_PART_1)
    ensures IndexOf(Shuffle(Identity(DECK_SIZE_PART_1), ts), SEARCHED_CARD).Some?
  {
    var deck := Identity(DECK_SIZE_PART_1);
    ShuffleKeepsCards(deck, ts);
    assert deck[SEARCHED_CARD] == SEARCHED_CARD;
    assert SEARCHED_CARD in multiset(Shuffle(deck, ts));
  }

  /** The position in the original deck of the card at x after the whole shuffle. */
  function Origin(ts: seq<Technique>, x: int, n: nat): (r: int)
    requires n >= 2
    ensures 0 <= x < n ==> 0 <= r < n
  {
    if ts == [] then x else Source(ts[0], Origin(ts[1..], x, n), n)
  }

  lemma {:induction false} OriginSnoc(ts: seq<Technique>, x: int, n: nat)
    requires n >= 2 && ts != []
    ensures Origin(ts, x, n) == Origin(ts[..|ts| - 1], Source(ts[|ts| - 1], x, n), n)
    decreases |ts|
  {
    if |ts| > 1 {
      OriginSnoc(ts[1..], x, n);
      assert ts[1..][..|ts| - 2] == ts[..|ts| - 1][1..];
    }
  }

  /** After the shuffle, position x holds the card that was at `Origin(ts, x, n)`. */
  lemma {:induction false} ShuffleMoves(deck: seq<int>, ts: seq<Technique>, x: int)
    requires |deck| >= 2 && AllFit(ts, |deck|) && AllInvertible(ts, |deck|) && 0 <= x < |deck|
    ensures Shuffle(deck, ts)[x] == deck[Origin(ts, x, |deck|)]
    decreases |ts|
  {
    if ts != [] {
      var n := |deck|;
      var front, last := ts[..|ts| - 1], ts[|ts| - 1];
      TechniqueMoves(Shuffle(deck, front), last, x);
      ShuffleMoves(deck, front, Source(last, x, n));
      OriginSnoc(ts, x, n);
    }
  }

  // ---------------------------------------------------------------------------------
  // Part 2: the factors

  /** The linear map `p -> (scale * p + offset) mod n` that `factors` stands for. */
  datatype Factors = Factors(scale: int, offset: int)
  {
    function At(p: int, n: nat): int
      requires n > 0
    {
      (scale * p + offset) % n
    }
  }

  /** `apply(String, BigInteger[])` on the factors, before they are reduced. */
  function Step(f: Factors, t: Technique, n: nat): Factors
    requires n >= 2
  {
    match t
    case NewStack => Factors(-f.scale, -(f.offset + 1))
    case Cut(v) => Factors(f.scale, f.offset + v)
    case Increment(v) => var inverse := Inverse(v, n); Factors(f.scale * inverse, f.offset * inverse)
  }

  function Reduce(f: Factors, n: nat): (r: Factors)
    requires n > 0
    ensures 0 <= r.scale < n && 0 <= r.offset < n
  {
    Factors(f.scale % n, f.offset % n)
  }

  /** The factors after the instructions have been taken last to first, reducing after each. */
  function Composed(ts: seq<Technique>, n: nat): Factors
    requires n >= 2
  {
    if ts == [] then Factors(1, 0) else Reduce(Step(Composed(ts[1..], n), ts[0], n), n)
  }

  /** Reducing the factors modulo n does not change their map. */
  lemma ReduceKeepsMap(g: Factors, n: nat, p: int)
    requires n > 0
    ensures Reduce(g, n).At(p, n) == g.At(p, n)
  {
    var s, o := g.scale, g.offset;
    var sp := (s % n) * p;
    ModAdd(o, sp, n);
    assert (o % n + sp) % n == (sp + o % n) % n;
    ModMul(s, p, n);
    ModAdd(sp, o, n);
    ModAdd(s * p, o, n);
    assert (o + sp) % n == (sp + o) % n;
  }

  /** One update of the factors composes the technique's `Source` after their map. */
  lemma StepComposes(f: Factors, t: Technique, n: nat, p: int)
    requires n >= 2
    ensures Reduce(Step(f, t, n), n).At(p, n) == Source(t, f.At(p, n), n)
  {
    ReduceKeepsMap(Step(f, t, n), n, p);
    match t
    case NewStack =>
      NewStackComposes(f, p, n);
    case Cut(v) =>
      CutComposes(f, v, p, n);
    case Increment(v) =>
      IncrementComposes(f, v, p, n);
  }

  /** Negating both factors and taking one from the offset reverses the position. */
  lemma NewStackComposes(f: Factors, p: int, n: nat)
    requires n >= 2
    ensures Step(f, NewStack, n).At(p, n) == Source(NewStack, f.At(p, n), n)
  {
    var y := f.scale * p + f.offset;
    assert (-f.scale) * p + -(f.offset + 1) == -y - 1;
    var q, r := y / n, y % n;
    assert -y - 1 == n * (-q - 1) + (n - 1 - r);
    ModOf(-y - 1, n, -q - 1, n - 1 - r);
  }

  /** Adding the cut to the offset adds it to the position. */
  lemma CutComposes(f: Factors, v: int, p: int, n: nat)
    requires n >= 2
    ensures Step(f, Cut(v), n).At(p, n) == Source(Cut(v), f.At(p, n), n)
  {
    var y := f.scale * p + f.offset;
    assert f.scale * p + (f.offset + v) == y + v;
    ModAdd(y, v, n);
  }

  /** Scaling both factors by the inverse scales the position by it. */
  lemma IncrementComposes(f: Factors, v: int, p: int, n: nat)
    requires n >= 2
    ensures Step(f, Increment(v), n).At(p, n) == Source(Increment(v), f.At(p, n), n)
  {
    var inverse := Inverse(v, n);
    var y := f.scale * p + f.offset;
    Rearrange(f.scale, f.offset, p, inverse);
    ModMul(y, inverse, n);
  }

  /** Distributing a common factor over the scaled position. */
  lemma Rearrange(s: int, o: int, p: int, c: int)
    ensures (s * c) * p + o * c == (s * p + o) * c
  {
    assert (s * c) * p == (s * p) * c;
    assert (s * p + o) * c == (s * p) * c + o * c;
  }

  /** The composed factors map a final position to the original position of its card. */
  lemma {:induction false} ComposedIsOrigin(ts: seq<Technique>, n: nat, p: int)
    requires n >= 2 && 0 <= p < n
    ensures Composed(ts, n).At(p, n) == Origin(ts, p, n)
    decreases |ts|
  {
    if ts == [] {
      ModOf(p, n, 0, p);
    } else {
      ComposedIsOrigin(ts[1..], n, p);
      StepComposes(Composed(ts[1..], n), ts[0], n, p);
    }
  }

  /**
   * The factors of part 2 describe the deck of part 1: after the same shuffle of the
   * factory-order deck, position p holds card `(scale * p + offset) mod n`.
   */
  lemma FactorsDescribeShuffle(ts: seq<Technique>, n: nat, p: int)
    requires n >= 2 && AllFit(ts, n) && AllInvertible(ts, n) && 0 <= p < n
    ensures Shuffle(Identity(n), ts)[p] == Composed(ts, n).At(p, n)
  {
    ShuffleMoves(Identity(n), ts, p);
    ComposedIsOrigin(ts, n, p);
  }

  /** The instructions as part 2 reads them. */
  function FactorTechniques(instructions: seq<seq<char>>): (ts: seq<Technique>)
    requires forall i :: 0 <= i < |instructions| ==> FactorTechnique(instructions[i]).Some?
    ensures |ts| == |instructions|
    ensures forall i :: 0 <= i < |ts| ==> FactorTechnique(instructions[i]) == Some(ts[i])
  {
    seq(|instructions|, i requires 0 <= i < |instructions| && FactorTechnique(instructions[i]).Some? => FactorTechnique(instructions[i]).value)
  }

  /** `apply(String, BigInteger[])`: updates the two factors in place. */
  method ApplyFactors(instruction: seq<char>, factors: array<int>)
    requires factors.Length == 2 && FactorTechnique(instruction).Some?
    modifies factors
    ensures Factors(factors[0], factors[1])
      == Step(old(Factors(factors[0], factors[1])), FactorTechnique(instruction).value, DECK_SIZE_PART_2)
  {
    if NEW_STACK == instruction {
      factors[0] := factors[0] * -1;
      factors[1] := (factors[1] + 1) * -1;
    } else if StartsWith(instruction, CUT) {
      var value := instruction[4..];
      factors[1] := factors[1] + ParseInt(value).value;
    } else {
      var value := instruction[INCREMENT_OFFSET..];
      var modPower := ModPow(ParseInt(value).value, DECK_SIZE_PART_2 - 2, DECK_SIZE_PART_2);
      for i := 0 to factors.Length
        invariant forall j :: 0 <= j < i ==> factors[j] == old(factors[j]) * modPower
        invariant forall j :: i <= j < factors.Length ==> factors[j] == old(factors[j])
      {
        factors[i] := factors[i] * modPower;
      }
    }
  }

  /** The factors `part2` computes: instructions from last to first, both factors reduced after each. */
  method Part2Factors(instructions: seq<seq<char>>) returns (factors: array<int>)
    requires forall i :: 0 <= i < |instructions| ==> FactorTechnique(instructions[i]).Some?
    ensures fresh(factors) && factors.Length == 2
    ensures Factors(factors[0], factors[1]) == Composed(FactorTechniques(instructions), DECK_SIZE_PART_2)
  {
    ghost var ts := FactorTechniques(instructions);
    factors := new int[2];
    factors[0], factors[1] := 1, 0;
    var i := |instructions| - 1;
    while i >= 0
      invariant -1 <= i < |instructions|
      invariant Factors(factors[0], factors[1]) == Composed(ts[i + 1..], DECK_SIZE_PART_2)
      decreases i
    {
      var instruction := instructions[i];
      ApplyFactors(instruction, factors);
      ghost var applied := factors[..];
      for j := 0 to factors.Length
        invariant forall k :: 0 <= k < j ==> factors[k] == applied[k] % DECK_SIZE_PART_2
        invariant forall k :: j <= k < factors.Length ==> factors[k] == applied[k]
      {
        factors[j] := factors[j] % DECK_SIZE_PART_2;
      }
      assert ts[i..][1..] == ts[i + 1..];
      i := i - 1;
    }
    assert ts[0..] == ts;
  }

  // ---------------------------------------------------------------------------------
  // Part 2: repeating the shuffle

  /** The card at position p after the shuffle has been done k times: the map applied k times. */
  function Repeat(f: Factors, k: nat, p: int, n: nat): int
    requires n > 0
  {
    if k == 0 then p else f.At(Repeat(f, k - 1, p, n), n)
  }

  /** `1 + a + ... + a^(k-1)`. */
  function GeometricSum(a: int, k: nat): int
  {
    if k == 0 then 0 else a * GeometricSum(a, k - 1) + 1
  }

  lemma {:induction false} GeometricSumTimes(a: int, k: nat)
    ensures GeometricSum(a, k) * (a - 1) == Pow(a, k) - 1
  {
    if k > 0 {
      GeometricSumTimes(a, k - 1);
      var g := GeometricSum(a, k - 1);
      assert GeometricSum(a, k) * (a - 1) == a * (g * (a - 1)) + (a - 1);
    }
  }

  /** Reducing before a multiply-add does not change the result modulo n. */
  lemma MulModAdd(a: int, z: int, b: int, n: int)
    requires n > 0
    ensures (a * (z % n) + b) % n == (a * z + b) % n
  {
    var q, m := z / n, z % n;
    assert z == n * q + m;
    assert a * z + b == (a * m + b) + (a * q) * n by {
      assert a * z == a * (n * q) + a * m;
    }
    ModShift(a * m + b, a * q, n);
  }

  lemma Distribute(a: int, power: int, p: int, b: int, g: int)
    ensures a * (power * p + b * g) + b == (a * power) * p + b * (a * g + 1)
  {
    assert a * (power * p) == (a * power) * p;
    assert a * (b * g) == b * (a * g);
  }

  /** The map applied k times is `a^k * p + b * (1 + a + ... + a^(k-1))`, modulo n. */
  lemma {:induction false} RepeatClosedForm(f: Factors, k: nat, p: int, n: nat)
    requires n > 0 && 0 <= p < n
    ensures Repeat(f, k, p, n) == (Pow(f.scale, k) * p + f.offset * GeometricSum(f.scale, k)) % n
  {
    var a, b := f.scale, f.offset;
    if k == 0 {
      ModOf(p, n, 0, p);
    } else {
      RepeatClosedForm(f, k - 1, p, n);
      var z := Pow(a, k - 1) * p + b * GeometricSum(a, k - 1);
      assert Repeat(f, k, p, n) == (a * (z % n) + b) % n;
      MulModAdd(a, z, b, n);
      Distribute(a, Pow(a, k - 1), p, b, GeometricSum(a, k - 1));
    }
  }

  /** `part2`'s closed form for the card at position x after k shuffles, as the source writes it. */
  function Part2Formula(f: Factors, k: nat, x: int, n: nat): int
    requires n >= 2
  {
    ClosedForm(ModPow(f.scale, k, n), Inverse(f.scale - 1, n), f.offset, x, n)
  }

  /** `(power * x + offset * (power - 1) * inverse) mod n`, with `power - 1` kept non-negative as `power + n - 1`. */
  function ClosedForm(power: int, inverse: int, offset: int, x: int, n: nat): int
    requires n > 0
  {
    (power * x + offset * (power + n - 1) * inverse) % n
  }

  /**
   * When `scale - 1` is invertible modulo n through the Fermat power, the closed form is the
   * map applied k times: `(power - 1) / (scale - 1)` is the geometric sum.
   */
  lemma FormulaRepeats(f: Factors, k: nat, x: int, n: nat)
    requires n >= 2 && 0 <= x < n
    requires HasInverse(f.scale - 1, n)
    ensures Part2Formula(f, k, x, n) == Repeat(f, k, x, n)
  {
    var a, b := f.scale, f.offset;
    var inverse := Inverse(a - 1, n);
    var big := Pow(a, k);
    var power := ModPow(a, k, n);
    var g := GeometricSum(a, k);
    var q := big / n;
    var r := ((a - 1) * inverse) / n;
    GeometricSumTimes(a, k);
    FormulaArithmetic(big, power, q, n, x, b, g, a - 1, inverse, r);
    ModShift(big * x + b * g, -(q * x) + b * g * r + b * inverse * (1 - q), n);
    RepeatClosedForm(f, k, x, n);
  }

  /** The closed form and the expanded map differ by a multiple of n. */
  lemma FormulaArithmetic(big: int, power: int, q: int, n: int, x: int, b: int, g: int, d: int, inverse: int, r: int)
    requires power == big - q * n && g * d == big - 1 && d * inverse == 1 + r * n
    ensures power * x + b * (power + n - 1) * inverse
      == big * x + b * g + (-(q * x) + b * g * r + b * inverse * (1 - q)) * n
  {
    assert power * x == big * x - (q * x) * n;
    assert b * (power + n - 1) * inverse == b * (big - 1) * inverse + b * (n - q * n) * inverse;
    assert b * (big - 1) * inverse == b * g * (d * inverse) by {
      assert b * (big - 1) * inverse == b * (g * d) * inverse;
    }
    assert b * g * (d * inverse) == b * g + (b * g * r) * n;
    assert b * (n - q * n) * inverse == (b * inverse * (1 - q)) * n;
  }

  lemma {:induction false} PowOne(k: nat)
    ensures Pow(1, k) == 1 && GeometricSum(1, k) == k
  {
    if k > 0 {
      PowOne(k - 1);
    }
  }

  lemma PowZero(k: nat)
    requires k > 0
    ensures Pow(0, k) == 0
  {
    assert Pow(0, k) == 0 * Pow(0, k - 1);
  }

  /**
   * As written, the closed form ignores the offset when the scale is 1: it divides by
   * `scale - 1`, and the Fermat power of 0 is 0. The true answer moves by `k * offset`.
   */
  lemma FormulaIgnoresOffset(b: int, k: nat, x: int, n: nat)
    requires n >= 3 && 0 <= x < n
    ensures Part2Formula(Factors(1, b), k, x, n) == x
    ensures Repeat(Factors(1, b), k, x, n) == (x + k * b) % n
  {
    PowOne(k);
    PowZero(n - 2);
    ModOf(1, n, 0, 1);
    ModOf(0, n, 0, 0);
    ModOf(x, n, 0, x);
    assert ModPow(1, k, n) == 1;
    assert Inverse(0, n) == 0;
    assert Part2Formula(Factors(1, b), k, x, n) == (1 * x + b * (1 + n - 1) * 0) % n;
    RepeatClosedForm(Factors(1, b), k, x, n);
    assert 1 * x + b * k == x + k * b;
  }

  /** The instructions "cut 1" give the factors (1, 1). */
  lemma CutOneFactors()
    ensures Composed([Cut(1)], DECK_SIZE_PART_2) == Factors(1, 1)
  {
    var ts := [Cut(1)];
    assert ts[1..] == [];
    assert Step(Factors(1, 0), Cut(1), DECK_SIZE_PART_2) == Factors(1, 1);
  }

  /** On the factors (1, 1) the source's answer is 2020, where the card there is 101741582078681. */
  lemma Part2Counterexample()
    ensures Part2Formula(Factors(1, 1), REPEAT_COUNT, SEARCHED_POSITION, DECK_SIZE_PART_2) == 2020
    ensures Repeat(Factors(1, 1), REPEAT_COUNT, SEARCHED_POSITION, DECK_SIZE_PART_2) == 101741582078681
  {
    FormulaIgnoresOffset(1, REPEAT_COUNT, SEARCHED_POSITION, DECK_SIZE_PART_2);
    ModOf(SEARCHED_POSITION + REPEAT_COUNT, DECK_SIZE_PART_2, 0, 101741582078681);
  }

  /** Where the card at x comes from after k shuffles that only cut by `offset`. */
  function Drift(offset: int, k: nat, x: int, n: nat): int
    requires n > 0
  {
    (x + k * offset) % n
  }

  /** `part2` with the case of scale 1 handled: the card moves by the offset each time. */
  function Part2Corrected(f: Factors, k: nat, x: int, n: nat): int
    requires n >= 2
  {
    if f.scale == 1 then Drift(f.offset, k, x, n) else Part2Formula(f, k, x, n)
  }

  /**
   * For reduced factors, the corrected closed form is the map applied k times, whenever
   * `scale - 1` has its Fermat inverse (always, for a prime deck size such as the puzzle's).
   */
  lemma CorrectedRepeats(f: Factors, k: nat, x: int, n: nat)
    requires n >= 3 && 0 <= x < n && 0 <= f.scale < n
    requires f.scale == 1 || HasInverse(f.scale - 1, n)
    ensures Part2Corrected(f, k, x, n) == Repeat(f, k, x, n)
  {
    if f.scale == 1 {
      FormulaIgnoresOffset(f.offset, k, x, n);
    } else {
      FormulaRepeats(f, k, x, n);
    }
  }

  /** `part2`: the card at position 2020 after 101741582076661 shuffles of the large deck, as the source computes it. */
  method Part2(instructions: seq<seq<char>>) returns (result: int)
    requires forall i :: 0 <= i < |instructions| ==> FactorTechnique(instructions[i]).Some?
    ensures result == Part2Formula(Composed(FactorTechniques(instructions), DECK_SIZE_PART_2), REPEAT_COUNT, SEARCHED_POSITION, DECK_SIZE_PART_2)
  {
    var factors := Part2Factors(instructions);
    ghost var f := Factors(factors[0], factors[1]);
    var power := ModPow(factors[0], REPEAT_COUNT, DECK_SIZE_PART_2);
    var inverse := ModPow(factors[0] - 1, DECK_SIZE_PART_2 - 2, DECK_SIZE_PART_2);
    result := ClosedForm(power, inverse, factors[1], SEARCHED_POSITION, DECK_SIZE_PART_2);
  }

  /**
   * `part2` with the case of scale 1 handled: the card at position 2020 after the repeated
   * shuffles, whenever the scale is 1 or `scale - 1` has its Fermat inverse.
   */
  method Part2Fixed(instructions: seq<seq<char>>) returns (result: int)
    requires forall i :: 0 <= i < |instructions| ==> FactorTechnique(instructions[i]).Some?
    ensures var f := Composed(FactorTechniques(instructions), DECK_SIZE_PART_2);
      && result == Part2Corrected(f, REPEAT_COUNT, SEARCHED_POSITION, DECK_SIZE_PART_2)
      && (f.scale == 1 || HasInverse(f.scale - 1, DECK_SIZE_PART_2) ==>
            result == Repeat(f, REPEAT_COUNT, SEARCHED_POSITION, DECK_SIZE_PART_2))
  {
    var factors := Part2Factors(instructions);
    ghost var f := Factors(factors[0], factors[1]);
    if factors[0] == 1 {
      result := Drift(factors[1], REPEAT_COUNT, SEARCHED_POSITION, DECK_SIZE_PART_2);
    } else {
      var power := ModPow(factors[0], REPEAT_COUNT, DECK_SIZE_PART_2);
      var inverse := ModPow(factors[0] - 1, DECK_SIZE_PART_2 - 2, DECK_SIZE_PART_2);
      result := ClosedForm(power, inverse, factors[1], SEARCHED_POSITION, DECK_SIZE_PART_2);
    }
    CorrectedWhenInvertible(FactorTechniques(instructions), REPEAT_COUNT, SEARCHED_POSITION, DECK_SIZE_PART_2);
  }

  /** `CorrectedRepeats` for the composition of a deal, whose factors are reduced. */
  lemma CorrectedWhenInvertible(ts: seq<Technique>, k: nat, x: int, n: nat)
    requires n >= 3 && 0 <= x < n
    ensures var f := Composed(ts, n);
      f.scale == 1 || HasInverse(f.scale - 1, n) ==> Part2Corrected(f, k, x, n) == Repeat(f, k, x, n)
  {
    var f := Composed(ts, n);
    if f.scale == 1 || HasInverse(f.scale - 1, n) {
      CorrectedRepeats(f, k, x, n);
    }
  }

}
