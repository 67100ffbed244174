/**
 * Euclid's algorithm as `Day10.gcd` and `Day12.greatestCommonDivisor` write it, on
 * non-negative arguments, with the facts both days rely on: the result divides both
 * arguments, every common divisor divides it, and `a * b / gcd(a, b)` is the least common
 * multiple.
 */
module Euclid {
  import JavaMath

  /** d divides n (0 divides only 0). */
  predicate Divides(d: nat, n: int)
  {
    if d == 0 then n == 0 else n % d == 0
  }

  /** The recursion the loop `while (b != 0) { r = a % b; a = b; b = r; }` follows. */
  function Gcd(a: nat, b: nat): nat
    decreases b
  {
    if b == 0 then a else Gcd(b, a % b)
  }

  /** n is a multiple of d exactly when it is d times its quotient. */
  lemma DividesQuotient(d: nat, n: int)
    requires d > 0
    ensures Divides(d, n) <==> n == d * (n / d)
  {
  }

  /** A product is divisible by each factor. */
  lemma DividesProduct(d: nat, k: int)
    ensures Divides(d, d * k)
  {
    if d > 0 {
      JavaMath.DivideUnique(d * k, d, k, 0);
    }
  }

  /** Divisibility is kept by sums and integer multiples. */
  lemma DividesCombination(d: nat, m: int, n: int, x: int, y: int)
    requires Divides(d, m) && Divides(d, n)
    ensures Divides(d, m * x + n * y)
  {
    if d > 0 {
      var p, q := m / d, n / d;
      DividesQuotient(d, m);
      DividesQuotient(d, n);
      assert m * x + n * y == d * (p * x + q * y) by {
        assert m * x == d * (p * x);
        assert n * y == d * (q * y);
      }
      DividesProduct(d, p * x + q * y);
    }
  }

  /** The Euclidean step: a == (a / b) * b + a % b. */
  lemma EuclidStep(a: nat, b: nat)
    requires b > 0
    ensures a == b * (a / b) + (a % b)
    ensures a % b == a - b * (a / b)
  {
  }

  /** The result divides both arguments. */
  lemma {:induction false} GcdDivides(a: nat, b: nat)
    ensures Divides(Gcd(a, b), a) && Divides(Gcd(a, b), b)
    decreases b
  {
    if b == 0 {
      DividesProduct(a, 0);
      DividesProduct(a, 1);
    } else {
      GcdDivides(b, a % b);
      EuclidStep(a, b);
      DividesCombination(Gcd(a, b), b, a % b, a / b, 1);
    }
  }

  /** Every common divisor divides the result. */
  lemma {:induction false} GcdGreatest(a: nat, b: nat, d: nat)
    requires Divides(d, a) && Divides(d, b)
    ensures Divides(d, Gcd(a, b))
    decreases b
  {
    if b != 0 {
      EuclidStep(a, b);
      DividesCombination(d, a, b, 1, -(a / b));
      GcdGreatest(b, a % b, d);
    }
  }

  /** The result is 0 only for two zero arguments, and is at most any positive argument. */
  lemma GcdPositive(a: nat, b: nat)
    ensures Gcd(a, b) == 0 <==> a == 0 && b == 0
    ensures a > 0 ==> Gcd(a, b) <= a
    ensures b > 0 ==> Gcd(a, b) <= b
  {
    GcdDivides(a, b);
    if a > 0 {
      DivisorAtMost(Gcd(a, b), a);
    }
    if b > 0 {
      DivisorAtMost(Gcd(a, b), b);
    }
  }

  /** A divisor of a positive number is positive and not larger. */
  lemma DivisorAtMost(d: nat, n: nat)
    requires n > 0 && Divides(d, n)
    ensures 0 < d <= n
  {
    DividesQuotient(d, n);
    var q := n / d;
    if q >= 1 {
      JavaMath.MulAtLeast(d, q);
    } else {
      JavaMath.MulAtLeast(d, 1 - q);
    }
  }

  /** Bezout's identity: the result is an integer combination of the arguments. */
  lemma {:induction false} Bezout(a: nat, b: nat) returns (x: int, y: int)
    ensures a * x + b * y == Gcd(a, b)
    decreases b
  {
    if b == 0 {
      x, y := 1, 0;
    } else {
      var q, r := a / b, a % b;
      var x', y' := Bezout(b, r);
      assert a == b * q + r by {
        EuclidStep(a, b);
      }
      BezoutStep(a, b, q, r, x', y');
      x, y := y', x' - q * y';
    }
  }

  /**
   * The back-substitution of the extended algorithm: with `a == b * q + r`, the pair
   * `(y', x' - q * y')` for `(a, b)` gives what `(x', y')` gives for `(b, r)`.
   */
  lemma BezoutStep(a: int, b: int, q: int, r: int, x': int, y': int)
    requires a == b * q + r
    ensures a * y' + b * (x' - q * y') == b * x' + r * y'
  {
    calc {
      a * y' + b * (x' - q * y');
      { assert b * (x' - q * y') == b * x' - b * (q * y'); }
      a * y' + b * x' - b * (q * y');
      { assert b * (q * y') == (b * q) * y'; }
      a * y' + b * x' - (b * q) * y';
      { assert a * y' - (b * q) * y' == (a - b * q) * y'; }
      b * x' + r * y';
    }
  }

  /** `a * b / gcd(a, b)`, as `leastCommonMultiplier` computes it for one pair. */
  function Lcm(a: nat, b: nat): nat
    requires a > 0 && b > 0
  {
    GcdPositive(a, b);
    a * b / Gcd(a, b)
  }

  /** The pair formula gives a positive common multiple that divides every common multiple. */
  lemma LcmLeast(a: nat, b: nat)
    requires a > 0 && b > 0
    ensures Lcm(a, b) > 0
    ensures Divides(a, Lcm(a, b)) && Divides(b, Lcm(a, b))
    ensures forall m: int :: Divides(a, m) && Divides(b, m) ==> Divides(Lcm(a, b), m)
  {
    var a', b' := LcmCofactors(a, b);
    var l := Lcm(a, b);
    DividesProduct(a, b');
    DividesProduct(b, a');
    var x, y := Bezout(a, b);
    CofactorsCoprime(a, b, a', b', x, y);
    forall m: int | Divides(a, m) && Divides(b, m)
      ensures Divides(l, m)
    {
      CommonMultiple(a, b, l, a', b', x, y, m);
    }
  }

  /** The pair formula is each argument times the other's cofactor of the gcd. */
  lemma LcmCofactors(a: nat, b: nat) returns (a': nat, b': nat)
    requires a > 0 && b > 0
    ensures a' > 0 && b' > 0
    ensures a == Gcd(a, b) * a' && b == Gcd(a, b) * b'
    ensures Lcm(a, b) == a * b' && Lcm(a, b) == b * a' && Lcm(a, b) > 0
  {
    var g := Gcd(a, b);
    GcdPositive(a, b);
    GcdDivides(a, b);
    DividesQuotient(g, a);
    DividesQuotient(g, b);
    a', b' := a / g, b / g;
    var l := a * b';
    Regroup(g, a, b');
    Regroup(g, b', a');
    assert a * b == g * l;
    DivisionOfProduct(g, l);
    assert l == b * a';
    JavaMath.MulAtLeast(a, b');
  }

  lemma Regroup(g: int, p: int, q: int)
    ensures p * (g * q) == g * (p * q)
    ensures (g * p) * q == (g * q) * p
  {
  }

  /** The cofactors of the gcd have no common factor: a Bezout combination of them is 1. */
  lemma CofactorsCoprime(a: nat, b: nat, a': nat, b': nat, x: int, y: int)
    requires a > 0 && b > 0
    requires a == Gcd(a, b) * a' && b == Gcd(a, b) * b'
    requires a * x + b * y == Gcd(a, b)
    ensures a' * x + b' * y == 1
  {
    GcdPositive(a, b);
    DivideOut(Gcd(a, b), a, b, a', b', x, y);
  }

  /** Dividing the common factor `g` out of a combination that equals `g` leaves 1. */
  lemma DivideOut(g: nat, a: int, b: int, a': int, b': int, x: int, y: int)
    requires g > 0 && a == g * a' && b == g * b' && a * x + b * y == g
    ensures a' * x + b' * y == 1
  {
    assert g * (a' * x + b' * y) == g * 1 by {
      assert a * x == g * (a' * x);
      assert b * y == g * (b' * y);
    }
    CancelFactor(g, a' * x + b' * y, 1);
  }

  /** A common multiple m of a and b is a multiple of l == a * b' == b * a' when a' * x + b' * y == 1. */
  lemma CommonMultiple(a: nat, b: nat, l: nat, a': int, b': int, x: int, y: int, m: int)
    requires a > 0 && b > 0 && l == a * b' && l == b * a' && a' * x + b' * y == 1
    requires Divides(a, m) && Divides(b, m)
    ensures Divides(l, m)
  {
    DividesQuotient(a, m);
    DividesQuotient(b, m);
    var s, t := m / a, m / b;
    assert m == m * (a' * x + b' * y);
    assert m * (a' * x) == l * (t * x) by {
      assert m * a' == (b * t) * a';
      assert (b * t) * a' == (b * a') * t;
    }
    assert m * (b' * y) == l * (s * y) by {
      assert m * b' == (a * s) * b';
      assert (a * s) * b' == (a * b') * s;
    }
    assert m == l * (t * x + s * y);
    DividesProduct(l, t * x + s * y);
  }

  /** Division of a multiple by its factor. */
  lemma DivisionOfProduct(g: nat, l: int)
    requires g > 0
    ensures g * l / g == l
  {
    DividesProduct(g, l);
    DividesQuotient(g, g * l);
    var q := g * l / g;
    assert g * q == g * l;
    CancelFactor(g, q, l);
  }

  /** A positive factor cancels. */
  lemma CancelFactor(g: nat, p: int, q: int)
    requires g > 0 && g * p == g * q
    ensures p == q
  {
    assert g * (q - p) == 0;
    if p < q {
      JavaMath.MulAtLeast(g, q - p);
    } else if p > q {
      JavaMath.MulAtLeast(g, p - q);
    }
  }
}
