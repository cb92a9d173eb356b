/** Small arithmetic vocabulary shared by the models. */
module Arithmetic {

  /** The largest representable simulator time, which the sources use as "never" (`Time::Max()`). */
  const TIME_MAX: nat := 0x7FFF_FFFF_FFFF_FFFF

  function Max(a: int, b: int): int {
    if a < b then b else a
  }

  function Min(a: int, b: int): int {
    if a < b then a else b
  }

  function Abs(a: int): nat {
    if a < 0 then -a else a
  }

  function Pow2(n: nat): (p: nat)
    ensures p >= 1
  {
    if n == 0 then 1 else 2 * Pow2(n - 1)
  }

  function Pow(b: nat, n: nat): nat {
    if n == 0 then 1 else b * Pow(b, n - 1)
  }

  lemma ProductMonotone(i: nat, a: nat, b: nat)
    requires a <= b
    ensures i * a <= i * b && a * i <= b * i
  {
    assert i * (b - a) >= 0;
  }

  lemma CancelLess(x: nat, y: nat, c: nat)
    requires x * c < y * c
    ensures x < y
  {
    if x >= y {
      ProductMonotone(c, y, x);
    }
  }

  lemma QuotientBounds(n: nat, d: nat)
    requires d >= 1
    ensures (n / d) * d <= n < (n / d + 1) * d
  {
    assert n == (n / d) * d + n % d;
  }

  lemma QuotientIsNatural(n: nat, d: nat)
    requires d >= 1
    ensures n / d >= 0
  {
  }

  lemma QuotientIs(n: nat, d: nat, q: nat)
    requires d >= 1 && q * d <= n < (q + 1) * d
    ensures n / d == q
  {
    var p := n / d;
    assert p * d <= n < (p + 1) * d by { QuotientBounds(n, d); }
    CancelLess(q, p + 1, d);
    CancelLess(p, q + 1, d);
  }

  lemma QuotientMonotone(x: nat, y: nat, d: nat)
    requires d >= 1 && x <= y
    ensures x / d <= y / d
  {
    var p, q := x / d, y / d;
    assert p * d <= x by { QuotientBounds(x, d); }
    assert y < (q + 1) * d by { QuotientBounds(y, d); }
    CancelLess(p, q + 1, d);
  }

  lemma QuotientAntitone(n: nat, c: nat, d: nat)
    requires 1 <= c <= d
    ensures n / d <= n / c
  {
    var p, q := n / c, n / d;
    assert n < (p + 1) * c by { QuotientBounds(n, c); }
    assert q * c <= n by { QuotientBounds(n, d); ProductMonotone(q, c, d); }
    CancelLess(q, p + 1, c);
  }

  lemma DivideTwice(x: nat, a: nat, b: nat)
    requires a >= 1 && b >= 1
    ensures a * b >= 1 && (x / a) / b == x / (a * b)
  {
    var q := x / a;
    var r := q / b;
    QuotientBounds(x, a);
    QuotientBounds(q, b);
    ProductMonotone(a, r * b, q);
    ProductMonotone(a, q + 1, (r + 1) * b);
    ProductMonotone(a, 1, b);
    Regroup(r, a, b);
    Regroup(r + 1, a, b);
    QuotientIs(x, a * b, r);
  }

  lemma Regroup(r: int, a: int, b: int)
    ensures a * (r * b) == r * (a * b)
  {
  }
}
