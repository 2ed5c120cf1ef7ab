/** Quotients by a variable divisor. */
module Division {
  lemma MultiplesAreApart(k: int, d: int)
    requires d > 0
    ensures (k >= 1 ==> k * d >= d) && (k <= -1 ==> k * d <= -d)
  {
  }

  lemma Distribute(a: int, b: int, d: int)
    ensures (a + b) * d == a * d + b * d
  {
  }

  /** Quotient and remainder are what the multiple and the rest say. */
  lemma QuotientRemainder(k: int, r: int, d: int)
    requires 0 <= r < d
    ensures (k * d + r) / d == k && (k * d + r) % d == r
  {
    var n := k * d + r;
    var q := n / d;
    Distribute(q, -k, d);
    assert (-k) * d == -(k * d);
    MultiplesAreApart(q - k, d);
  }

  /** Adding the divisor. */
  lemma QuotientSum(n: nat, d: nat)
    requires d > 0
    ensures (n + d) / d == n / d + 1
  {
    Distribute(n / d, 1, d);
    QuotientRemainder(n / d + 1, n % d, d);
  }

  /** C++ division: truncated towards zero. */
  function Truncated(n: int, d: nat): int
    requires d > 0
  { if n >= 0 then n / d else -((-n) / d) }

  lemma BelowQuotient(n: nat, b: nat, d: nat)
    requires d > 0
    ensures b * d <= n ==> b <= n / d
    ensures n <= b * d ==> n / d <= b
  {
    var q: int, c: int := n / d, b;
    Distribute(q, -c, d);
    assert (-c) * d == -(c * d);
    MultiplesAreApart(q - c, d);
  }

  lemma Signs(b: int, d: nat)
    requires d > 0
    ensures (b >= 0 ==> b * d >= 0) && (b < 0 ==> b * d < 0)
  {
  }

  lemma Negated(b: int, d: int)
    ensures (-b) * d == -(b * d)
  {
  }

  lemma TruncatedBelow(n: nat, b: nat, d: nat)
    requires d > 0
    ensures b * d <= n ==> b <= Truncated(n, d)
    ensures n <= b * d ==> Truncated(n, d) <= b && -(b as int) <= Truncated(-(n as int), d)
  {
    BelowQuotient(n, b, d);
  }

  lemma TruncatedIsOdd(n: int, d: nat)
    requires d > 0
    ensures Truncated(-n, d) == -Truncated(n, d)
  {
    if n == 0 { QuotientRemainder(0, 0, d); }
  }

  lemma TruncatedAtLeast(n: int, lo: int, p: int, d: nat)
    requires d > 0 && p == lo * d && p <= n
    ensures lo <= Truncated(n, d)
  {
    Signs(lo, d);
    Negated(lo, d);
    if n < 0 {
      TruncatedBelow(-n, -lo, d);
    } else if lo >= 0 {
      TruncatedBelow(n, lo, d);
    } else {
      TruncatedBelow(n, 0, d);
    }
  }

  /** A truncated average lies between any bounds of what is averaged. */
  lemma TruncatedBetween(n: int, lo: int, hi: int, d: nat)
    requires d > 0 && lo * d <= n <= hi * d
    ensures lo <= Truncated(n, d) <= hi
  {
    TruncatedAtLeast(n, lo, lo * d, d);
    Negated(hi, d);
    TruncatedAtLeast(-n, -hi, (-hi) * d, d);
    TruncatedIsOdd(n, d);
  }
}
