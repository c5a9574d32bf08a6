/** Small facts about products, quotients and remainders, each proved on its own because products of
    variables are expensive for the verifier in a larger context. */
module Arith {

  function Min(x: nat, y: nat): nat { if x < y then x else y }

  lemma MulAtLeast(k: int, m: int)
    requires k >= 1 && m >= 0
    ensures k * m >= m
  {
    assert (k - 1) * m >= 0;
  }

  lemma Distribute(a: int, b: int, m: int)
    ensures (a - b) * m == a * m - b * m
    ensures (a + b) * m == a * m + b * m
  {
  }

  lemma Associate(a: int, b: int, c: int)
    ensures a * (b * c) == a * b * c
  {
  }

  lemma MulMonotone(a: int, b: int, m: int)
    requires a <= b && m >= 0
    ensures a * m <= b * m
  {
    Distribute(b, a, m);
    assert (b - a) * m >= 0;
  }

  lemma NoGap(k: int, m: int, d: int)
    requires k * m == d && -m < d < m
    ensures k == 0
  {
    if k >= 1 { MulAtLeast(k, m); } else if k <= -1 { MulAtLeast(-k, m); }
  }

  lemma Euclid(x: int, m: int)
    requires m > 0
    ensures x == (x / m) * m + x % m && 0 <= x % m < m
  {
  }

  lemma ModUnique(x: int, q: int, r: int, m: int)
    requires m > 0 && x == q * m + r && 0 <= r < m
    ensures x % m == r && x / m == q
  {
    Euclid(x, m);
    var q', r' := x / m, x % m;
    Distribute(q, q', m);
    NoGap(q - q', m, r' - r);
  }

  lemma ModTurns(x: int, k: int, m: int)
    requires m > 0
    ensures (x + k * m) % m == x % m
  {
    Euclid(x, m);
    Distribute(x / m, k, m);
    ModUnique(x + k * m, x / m + k, x % m, m);
  }

  /** Two integers less than m apart with the same remainder modulo m are equal. */
  lemma ModDistinct(a: int, b: int, m: int)
    requires m > 0 && a % m == b % m && -m < a - b < m
    ensures a == b
  {
    Euclid(a, m);
    Euclid(b, m);
    Distribute(a / m, b / m, m);
    NoGap(a / m - b / m, m, a - b);
  }

  lemma QuotientBelow(x: int, p: int, m: int)
    requires p >= 1 && x < m * p
    ensures x / p < m
  {
    Euclid(x, p);
    if x / p >= m { MulMonotone(m, x / p, p); }
  }

  lemma QuotientAtLeast(x: int, p: int, l: int)
    requires p >= 1 && x >= l * p
    ensures x / p >= l
  {
    Euclid(x, p);
    if x / p < l {
      Distribute(l, x / p, p);
      MulAtLeast(l - x / p, p);
    }
  }

  lemma BelowProduct(r: int, n: int, b: int)
    requires 0 <= r < n && b > 0
    ensures 0 <= r * b < n * b
  {
    Distribute(n, r, b);
    MulAtLeast(n - r, b);
  }

  /** A remainder taken early does not change a later remainder. */
  lemma ModEarly(x: int, y: int, m: int)
    requires m > 0
    ensures (x % m + y) % m == (x + y) % m
  {
    Euclid(x, m);
    ModTurns(x % m + y, x / m, m);
  }

  lemma ModSmall(x: int, m: int)
    requires 0 <= x < m
    ensures x % m == x
  {
    ModUnique(x, 0, x, m);
  }
}
