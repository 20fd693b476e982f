/** The explicit roundings of the audio timeline. Machine floats are reals here; only the
    conversions to integers round. */
module Numbers {

  /** `f64::round`: the nearest integer, halves away from zero. */
  function Round(x: real): (r: int)
    ensures x - 0.5 <= r as real <= x + 0.5
    ensures x >= 0.0 ==> r >= 0
  {
    if x >= 0.0 then (x + 0.5).Floor else -(0.5 - x).Floor
  }

  /** A float cast to an unsigned integer: truncated, and saturating at zero. */
  function ToUnsigned(x: real): (n: nat)
    ensures x >= 0.0 ==> n as real <= x < n as real + 1.0
  {
    if x <= 0.0 then 0 else x.Floor
  }

  function Min(a: nat, b: nat): (m: nat)
    ensures m <= a && m <= b && (m == a || m == b)
  {
    if a <= b then a else b
  }

  function MaxReal(a: real, b: real): (m: real)
    ensures m >= a && m >= b && (m == a || m == b)
  {
    if a >= b then a else b
  }

  function MinReal(a: real, b: real): (m: real)
    ensures m <= a && m <= b && (m == a || m == b)
  {
    if a <= b then a else b
  }

  function Clamp(x: real, lo: real, hi: real): (r: real)
    requires lo <= hi
    ensures lo <= r <= hi
    ensures lo <= x <= hi ==> r == x
  {
    MaxReal(lo, MinReal(x, hi))
  }

  function AtLeastOne(n: nat): (m: nat)
    ensures m >= 1 && m >= n && (n >= 1 ==> m == n)
  {
    if n == 0 then 1 else n
  }

  /** Rounding never moves an integer, and it never crosses one. */
  lemma RoundKeepsIntegers(x: real, n: int)
    ensures Round(n as real) == n
    ensures x <= n as real ==> Round(x) <= n
    ensures x >= n as real ==> Round(x) >= n
  {
  }

  // ----- Multiples of the channel count -----

  lemma QuotientIsUnique(c: nat, q1: int, r1: nat, q2: int, r2: nat)
    requires r1 < c && r2 < c
    requires c * q1 + r1 == c * q2 + r2
    ensures q1 == q2 && r1 == r2
  {
    assert c * (q1 - q2) == r2 - r1;
    assert c * (q2 - q1) == r1 - r2;
    if q1 - q2 >= 1 {
      AtLeastItself(c, q1 - q2);
    } else if q2 - q1 >= 1 {
      AtLeastItself(c, q2 - q1);
    }
  }

  lemma AtLeastItself(c: nat, k: int)
    requires k >= 1
    ensures c * k >= c
  {
  }

  lemma MultipleHasNoRemainder(c: nat, q: nat)
    requires c > 0
    ensures (c * q) % c == 0
  {
    var n := c * q;
    QuotientIsUnique(c, q, 0, n / c, n % c);
  }

  /** Sums and differences of multiples are multiples. */
  lemma MultiplesAdd(a: nat, b: nat, c: nat)
    requires c > 0 && a % c == 0 && b % c == 0
    ensures (a + b) % c == 0
    ensures a >= b ==> (a - b) % c == 0
  {
    var i, j := a / c, b / c;
    assert a == c * i && b == c * j;
    assert a + b == c * (i + j);
    MultipleHasNoRemainder(c, i + j);
    assert a - b == c * (i - j) && b - a == c * (j - i);
    if a >= b {
      if i < j {
        AtLeastItself(c, j - i);
      } else {
        MultipleHasNoRemainder(c, i - j);
      }
    }
  }

  lemma QuotientsAreOrdered(n: nat, base: nat, c: nat)
    requires c > 0 && base <= n && base % c == 0
    ensures base <= n - n % c
  {
    var q, p := n / c, base / c;
    assert n == c * q + n % c && base == c * p;
    assert c * (p - q) == c * p - c * q;
    assert c * (q - p) == c * q - c * p;
    if q < p {
      AtLeastItself(c, p - q);
    } else if p < q {
      AtLeastItself(c, q - p);
    }
  }

  /** Flooring to a multiple of `c` never drops below a multiple of `c`. */
  lemma FlooredToMultiple(n: nat, base: nat, c: nat)
    requires c > 0 && base <= n
    ensures n - c < n - n % c <= n && (n - n % c) % c == 0
    ensures base % c == 0 ==> n - n % c >= base
  {
    assert n == c * (n / c) + n % c;
    MultipleHasNoRemainder(c, n / c);
    if base % c == 0 {
      QuotientsAreOrdered(n, base, c);
    }
  }
}
