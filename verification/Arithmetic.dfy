/** Division and remainders of natural numbers by a variable. */
module Arithmetic {

  lemma DivisionMonotone(a: nat, b: nat, d: nat)
    requires a <= b && d > 0
    ensures 0 <= a / d <= b / d
  {
    var p, q := a / d, b / d;
    assert a == d * p + a % d && b == d * q + b % d;
    Multiple(p - q, d);
    assert (p - q) * d == d * p - d * q;
  }

  lemma DivisionExact(n: nat, d: nat)
    requires d > 0
    ensures n * d / d == n
  {
    var q := n * d / d;
    assert n * d == d * q + n * d % d;
    Multiple(n - q, d);
    assert (n - q) * d == n * d - d * q;
  }

  lemma Multiple(k: int, d: nat)
    requires d > 0
    ensures k > 0 ==> k * d >= d
    ensures k < 0 ==> k * d <= -(d as int)
  {
  }

  lemma Small(m: nat, n: nat)
    requires m < n
    ensures m % n == m
  {
  }

  lemma Wrap(m: nat, n: nat)
    requires 0 < n <= m
    ensures (m - n) % n == m % n
  {
    var q, r := (m - n) / n, (m - n) % n;
    assert m == n * q + r + n;
    assert n * q + n == n * (q + 1);
    Remainder(m, n, q + 1, r);
  }

  lemma Remainder(m: nat, n: nat, q: nat, r: nat)
    requires n > 0 && m == n * q + r && r < n
    ensures m % n == r
  {
    var q2, r2 := m / n, m % n;
    assert m == n * q2 + r2;
    assert (q - q2) * n == r2 - r;
    Multiple(q - q2, n);
  }

  lemma Whole(k: nat, d: nat)
    requires d > 0
    ensures k * d % d == 0
  {
    DivisionExact(k, d);
  }

  lemma NextMultiple(n: nat, d: nat)
    requires d > 0 && n % d == 0
    ensures (n + d) % d == 0
  {
    var k := n / d;
    assert n + d == (k + 1) * d;
    Whole(k + 1, d);
  }
}
