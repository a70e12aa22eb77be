/** Integer facts behind C-order indexing, NumPy's wrap-around roll and the
    sheared sampling lattice. Dafny's `/` and `%` are Euclidean, which for a
    positive modulus agrees with Python's floor division and `%`. */
module ModArith {

  lemma MulNonneg(a: int, b: int)
    requires a >= 0 && b >= 0
    ensures a * b >= 0
  {
  }

  /** A nonzero multiple of a positive modulus is at least the modulus in size. */
  lemma MulAwayFromZero(d: int, m: int)
    requires m > 0
    ensures d >= 1 ==> d * m >= m
    ensures d <= -1 ==> d * m <= -m
  {
    if d >= 1 {
      MulNonneg(d - 1, m);
      assert d * m == (d - 1) * m + m;
    } else if d <= -1 {
      MulNonneg(-d - 1, m);
      assert -d * m == (-d - 1) * m + m;
    }
  }

  /** A value below `n * m` has a quotient below `n`. */
  lemma DivBelow(p: int, m: int, n: int)
    requires m > 0 && 0 <= p < n * m
    ensures p / m < n
  {
    var d := p / m - n;
    assert d * m == (p / m) * m - n * m;
    assert (p / m) * m <= p;
    MulAwayFromZero(d + 1, m);
    assert (d + 1) * m == d * m + m;
  }

  /** A quotient and remainder are determined by the value and the modulus. */
  lemma DivModUnique(p: int, m: int, q: int, r: int)
    requires m > 0 && 0 <= r < m && p == q * m + r
    ensures p / m == q && p % m == r
  {
    var d := q - p / m;
    assert d * m == p % m - r;
    MulAwayFromZero(d, m);
  }

  /** Adding a multiple of the modulus does not change the remainder. */
  lemma ModAddMultiple(x: int, c: int, m: int)
    requires m > 0
    ensures (x + c * m) % m == x % m
  {
    assert x + c * m == (x / m + c) * m + x % m;
    DivModUnique(x + c * m, m, x / m + c, x % m);
  }

  /** `(a * b) % m` only depends on `a % m`. */
  lemma ModMulLeft(a: int, b: int, m: int)
    requires m > 0
    ensures (a * b) % m == ((a % m) * b) % m
  {
    assert a * b == (a % m) * b + ((a / m) * b) * m by {
      assert a == (a / m) * m + a % m;
    }
    ModAddMultiple((a % m) * b, (a / m) * b, m);
  }

  /** `(a * b) % m` only depends on `b % m`. */
  lemma ModMulRight(a: int, b: int, m: int)
    requires m > 0
    ensures (a * b) % m == (a * (b % m)) % m
  {
    ModMulLeft(b, a, m);
    assert a * b == b * a && a * (b % m) == (b % m) * a;
  }

  /** `q * m + r` stays below `n * m` when `q < n` and `r < m`. */
  lemma MixedRadixBound(q: int, r: int, m: int, n: int)
    requires 0 <= q < n && 0 <= r < m
    ensures 0 <= q * m + r < n * m
  {
    MulNonneg(q, m);
    MulNonneg(n - q - 1, m);
    assert n * m == q * m + m + (n - q - 1) * m;
  }

  /** Greatest common divisor of two naturals, by Euclid's algorithm. */
  function Gcd(a: nat, b: nat): nat
    decreases b
  {
    if b == 0 then a else Gcd(b, a % b)
  }

  /** Coefficients x, y with a*x + b*y == Gcd(a, b) (extended Euclid). */
  function Bezout(a: nat, b: nat): (c: (int, int))
    ensures a * c.0 + b * c.1 == Gcd(a, b)
    decreases b
  {
    if b == 0 then (1, 0)
    else
      var c' := Bezout(b, a % b);
      BezoutStep(a, b, c'.0, c'.1);
      (c'.1, c'.0 - (a / b) * c'.1)
  }

  /** One step of extended Euclid: coefficients for (b, a % b) give
      coefficients for (a, b). */
  lemma BezoutStep(a: int, b: int, x: int, y: int)
    requires b > 0
    ensures a * y + b * (x - (a / b) * y) == b * x + (a % b) * y
  {
    var q := a / b;
    assert a % b == a - q * b;
    assert b * (x - q * y) == b * x - (q * b) * y;
    assert (a - q * b) * y == a * y - (q * b) * y;
  }

  function AbsInt(x: int): nat
  {
    if x < 0 then -x else x
  }

  /** When `d` and `m` are coprime, `d` has an inverse modulo `m`. */
  function ModInverse(d: int, m: nat): (u: int)
    requires m > 0 && Gcd(AbsInt(d), m) == 1
    ensures (d * u) % m == 1 % m
  {
    var c := Bezout(AbsInt(d), m);
    var u := if d < 0 then -c.0 else c.0;
    assert d * u == AbsInt(d) * c.0;
    assert d * u + m * c.1 == 1;
    ModAddMultiple(d * u, c.1, m);
    assert (d * u + c.1 * m) % m == 1 % m;
    u
  }
}
