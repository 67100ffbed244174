/**
 * Java's integer arithmetic on the operators whose meaning differs from Dafny's:
 * `/` and `%` truncate toward zero in Java and are Euclidean in Dafny, and
 * `Math.signum`/`Math.abs` on integers.
 */
module JavaMath {

  /** `Math.abs` on an unbounded integer. */
  function Abs(x: int): (r: nat)
    ensures r == x || r == -x
  {
    if x < 0 then -x else x
  }

  /** `(int) Math.signum(x)`: -1, 0 or 1 according to the sign of `x`. */
  function Sign(x: int): (r: int)
    ensures -1 <= r <= 1
    ensures (r == 1 <==> x > 0) && (r == 0 <==> x == 0) && (r == -1 <==> x < 0)
  {
    if x > 0 then 1 else if x < 0 then -1 else 0
  }

  /** Java's `a / b`: the exact quotient truncated toward zero. */
  function Div(a: int, b: int): int
    requires b != 0
  {
    if a >= 0 then a / b else -((-a) / b)
  }

  /** Java's `a % b`: the remainder that goes with `Div`, carrying the sign of `a`. */
  function Rem(a: int, b: int): int
    requires b != 0
  {
    if a >= 0 then a % b else -((-a) % b)
  }

  /**
   * The rules of Java's `/` and `%`: `(a / b) * b + a % b == a`, the quotient's magnitude
   * is the truncated quotient of the magnitudes, and the remainder is smaller than the
   * divisor and takes the sign of the dividend.
   */
  lemma DivRem(a: int, b: int)
    requires b != 0
    ensures Div(a, b) * b + Rem(a, b) == a
    ensures Abs(Div(a, b)) == Abs(a) / Abs(b)
    ensures Abs(Rem(a, b)) < Abs(b)
    ensures a >= 0 ==> Rem(a, b) >= 0
    ensures a <= 0 ==> Rem(a, b) <= 0
  {
    var n: nat, d: nat := Abs(a), Abs(b);
    MagnitudeDivRem(n, b);
    var q, r := n / d, n % d;
    Euclidean(n, d);
    var div := if (a >= 0) == (b > 0) then q else -q;
    var rem := if a >= 0 then r else -r;
    assert Div(a, b) == div && Rem(a, b) == rem;
    SignedDivRem(a, b, n, d, q, r, div, rem);
  }

  /** Dafny's division of a natural number by a positive one. */
  lemma Euclidean(n: nat, d: nat)
    requires d > 0
    ensures n == d * (n / d) + n % d && 0 <= n % d < d && n / d >= 0
  {
  }

  /** The signed quotient and remainder, from the quotient and remainder of the magnitudes. */
  lemma SignedDivRem(a: int, b: int, n: nat, d: nat, q: int, r: int, div: int, rem: int)
    requires n == Abs(a) && d == Abs(b) && d > 0
    requires n == d * q + r && 0 <= r < d && q >= 0
    requires div == (if (a >= 0) == (b > 0) then q else -q)
    requires rem == (if a >= 0 then r else -r)
    ensures div * b + rem == a
    ensures Abs(div) == q && Abs(rem) == r
  {
    var p := d * q;
    Negations(q, d);
    if b > 0 && a >= 0 {
      assert div * b == p;
    } else if b > 0 {
      assert div * b == -p;
    } else if a >= 0 {
      assert div * b == p;
    } else {
      assert div * b == -p;
    }
  }

  /** How negation moves through a product. */
  lemma Negations(x: int, y: int)
    ensures (-x) * y == -(y * x) && x * (-y) == -(y * x) && (-x) * (-y) == y * x
    ensures x * y == y * x
  {
  }

  /** Dafny's division of a natural number by `b` is Java's: the magnitudes divide, the sign follows `b`. */
  lemma MagnitudeDivRem(n: nat, b: int)
    requires b != 0
    ensures n / b == (if b > 0 then n / Abs(b) else -(n / Abs(b)))
    ensures n % b == n % Abs(b) && 0 <= n % b < Abs(b)
    ensures (n / b) * b + n % b == n
  {
    var d: nat := Abs(b);
    var x := n / b;
    assert b * x + n % b == n;
    if b < 0 {
      assert d * (-x) == b * x;
      DivideUnique(n, d, -x, n % b);
      assert n % d == n - d * (n / d);
    }
  }

  /** On non-negative operands Java's and Dafny's division agree. */
  lemma NonNegativeDivRem(a: int, b: int)
    requires a >= 0 && b > 0
    ensures Div(a, b) == a / b && Rem(a, b) == a % b
  {
  }

  /** `10^k`. */
  function Pow10(k: nat): (r: nat)
    ensures r >= 1
  {
    if k == 0 then 1 else 10 * Pow10(k - 1)
  }

  /** `2^k`: the value of `1 << k` and of `Math.pow(2, k)` for the exponents the model uses. */
  function Pow2(k: nat): (r: nat)
    ensures r >= 1
  {
    if k == 0 then 1 else 2 * Pow2(k - 1)
  }

  lemma MulAtLeast(d: nat, k: nat)
    requires k >= 1
    ensures d * k >= d
  {
    if k > 1 {
      MulAtLeast(d, k - 1);
      assert d * k == d * (k - 1) + d;
    }
  }

  /** The quotient is determined by any decomposition with a remainder in range. */
  lemma DivideUnique(a: int, d: int, q: int, r: int)
    requires d > 0 && 0 <= r < d && a == d * q + r
    ensures a / d == q
  {
    var q', r' := a / d, a % d;
    assert d * q' + r' == a;
    assert d * (q - q') == r' - r;
    if q > q' {
      MulAtLeast(d, q - q');
    } else if q < q' {
      MulAtLeast(d, q' - q);
    }
  }

  /** Dividing by `b` and then by `c` is dividing by `b * c`. */
  lemma DivDiv(a: nat, b: nat, c: nat)
    requires b > 0 && c > 0
    ensures a / b / c == a / (b * c)
  {
    var q, r := a / b, a % b;
    var q2, r2 := q / c, q % c;
    assert a == b * q + r && 0 <= r < b;
    assert q == c * q2 + r2 && 0 <= r2 < c;
    assert a == (b * c) * q2 + (b * r2 + r) by {
      Regroup(a, b, c, q, q2, r, r2);
    }
    assert b * r2 + r < b * c by {
      BelowProduct(b, c, r2, r);
    }
    DivideUnique(a, b * c, q2, b * r2 + r);
  }

  lemma Regroup(a: int, b: int, c: int, q: int, q2: int, r: int, r2: int)
    requires a == b * q + r && q == c * q2 + r2
    ensures a == (b * c) * q2 + (b * r2 + r)
  {
    calc {
      a;
      b * (c * q2 + r2) + r;
      { assert b * (c * q2 + r2) == b * (c * q2) + b * r2; }
      b * (c * q2) + b * r2 + r;
      { assert b * (c * q2) == (b * c) * q2; }
      (b * c) * q2 + (b * r2 + r);
    }
  }

  lemma BelowProduct(b: nat, c: nat, r2: nat, r: nat)
    requires r < b && r2 < c
    ensures b * r2 + r < b * c
  {
    assert b * r2 <= b * (c - 1) by {
      MulMonotone(b, r2, c - 1);
    }
    assert b * (c - 1) == b * c - b;
  }

  lemma MulMonotone(b: nat, x: nat, y: nat)
    requires x <= y
    ensures b * x <= b * y
  {
    assert b * y == b * x + b * (y - x);
  }
}
