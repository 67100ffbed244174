/**
 * Java's `&`, `|` and `1 << i` on the non-negative ints the vault of keys keeps its masks
 * in: one bit per key or door, bit 0 for 'a'/'A' up to bit 25 for 'z'/'Z', so no mask
 * reaches the sign bit. Each operation is defined by halving and is characterised bit by
 * bit (`BitOr`, `BitAnd`, `BitShift`); `SameBits` says that the bits determine the number.
 */
module Bitmask {
  import JavaMath

  /** Bit `i` of `m`. */
  predicate Bit(m: nat, i: nat)
  {
    if i == 0 then m % 2 == 1 else Bit(m / 2, i - 1)
  }

  /** `1 << i`: 2 to the power `i` (`BitShift` says which bit that sets). */
  function Shift(i: nat): nat
  {
    JavaMath.Pow2(i)
  }

  /** `a | b`. */
  function Or(a: nat, b: nat): nat
    decreases a + b
  {
    if a == 0 then b
    else if b == 0 then a
    else 2 * Or(a / 2, b / 2) + (if a % 2 == 1 || b % 2 == 1 then 1 else 0)
  }

  /** `a & b`. */
  function And(a: nat, b: nat): nat
    decreases a + b
  {
    if a == 0 || b == 0 then 0
    else 2 * And(a / 2, b / 2) + (if a % 2 == 1 && b % 2 == 1 then 1 else 0)
  }

  /** A bit of `a | b` is set exactly when it is set in `a` or in `b`. */
  lemma {:induction false} BitOr(a: nat, b: nat, i: nat)
    ensures Bit(Or(a, b), i) <==> Bit(a, i) || Bit(b, i)
    decreases a + b
  {
    if a != 0 && b != 0 && i != 0 {
      BitOr(a / 2, b / 2, i - 1);
      assert (2 * Or(a / 2, b / 2) + (if a % 2 == 1 || b % 2 == 1 then 1 else 0)) / 2 == Or(a / 2, b / 2);
    } else if a == 0 && i != 0 {
      ZeroBits(i);
    } else if b == 0 && i != 0 {
      ZeroBits(i);
    }
  }

  /** A bit of `a & b` is set exactly when it is set in both. */
  lemma {:induction false} BitAnd(a: nat, b: nat, i: nat)
    ensures Bit(And(a, b), i) <==> Bit(a, i) && Bit(b, i)
    decreases a + b
  {
    if a == 0 || b == 0 {
      ZeroBits(i);
    } else if i != 0 {
      BitAnd(a / 2, b / 2, i - 1);
      assert (2 * And(a / 2, b / 2) + (if a % 2 == 1 && b % 2 == 1 then 1 else 0)) / 2 == And(a / 2, b / 2);
    }
  }

  /** `1 << i` has bit `i` set and no other. */
  lemma {:induction false} BitShift(i: nat, j: nat)
    ensures Bit(Shift(i), j) <==> i == j
  {
    if i == 0 {
      if j != 0 {
        ZeroBits(j - 1);
      }
    } else if j != 0 {
      BitShift(i - 1, j - 1);
    }
  }

  lemma {:induction false} ZeroBits(i: nat)
    ensures !Bit(0, i)
  {
    if i != 0 {
      ZeroBits(i - 1);
    }
  }

  /** Two masks with the same bits are the same number. */
  lemma {:induction false} SameBits(a: nat, b: nat)
    requires forall i: nat :: Bit(a, i) <==> Bit(b, i)
    ensures a == b
    decreases a + b
  {
    assert Bit(a, 0) <==> Bit(b, 0);
    if a != 0 || b != 0 {
      forall i: nat
        ensures Bit(a / 2, i) <==> Bit(b / 2, i)
      {
        assert Bit(a, i + 1) <==> Bit(b, i + 1);
      }
      if a / 2 + b / 2 < a + b {
        SameBits(a / 2, b / 2);
      }
    }
  }

  /** A mask other than zero has a bit set. */
  lemma {:induction false} SomeBit(m: nat)
    requires m != 0
    ensures exists i: nat :: Bit(m, i)
  {
    if m % 2 == 0 {
      SomeBit(m / 2);
      var i: nat :| Bit(m / 2, i);
      assert Bit(m, i + 1);
    } else {
      assert Bit(m, 0);
    }
  }
}
