/** Division with remainder. */
module Arith {

  lemma AtLeastOnce(d: int, n: nat)
    requires n > 0
    ensures d > 0 ==> d * n >= n
    ensures d < 0 ==> d * n <= 0 - n
    decreases if d < 0 then -d else d
  {
    if d > 1 {
      AtLeastOnce(d - 1, n);
      assert d * n == (d - 1) * n + n;
    } else if d < -1 {
      AtLeastOnce(d + 1, n);
      assert d * n == (d + 1) * n - n;
    }
  }

  lemma QuotientIsNat(b: nat, n: nat)
    requires n > 0
    ensures b / n >= 0
  {
    var q, r := b / n, b % n;
    assert b == q * n + r;
    AtLeastOnce(q, n);
  }

  /** Quotient and remainder are unique. */
  lemma Remainder(p: nat, n: nat, q: nat, rest: nat)
    requires n > 0 && p == q * n + rest && rest < n
    ensures p % n == rest && p / n == q
  {
    var a, b := p / n, p % n;
    assert p == a * n + b;
    assert (a - q) * n == rest - b by {
      assert a * n - q * n == (a - q) * n;
    }
    AtLeastOnce(a - q, n);
  }

  lemma {:induction false} Monotone(a: nat, b: nat, m: nat)
    requires a <= b
    ensures a * m <= b * m
    decreases b
  {
    if a < b {
      Monotone(a, b - 1, m);
      assert b * m == (b - 1) * m + m;
    }
  }

  lemma FewerTimes(s: nat, n: nat, m: nat)
    requires s * m < n * m
    ensures s < n
  {
    if s >= n {
      Monotone(n, s, m);
    }
  }

  lemma Regroup(q: nat, n: nat, s: nat, m: nat, t: nat)
    ensures (q * n + s) * m + t == q * (m * n) + (s * m + t)
  {
  }

  lemma Positive(m: nat, n: nat)
    requires m > 0 && n > 0
    ensures m * n > 0
  {
  }

  /** The digit at one place, cut out from either side. */
  lemma DivMod(b: nat, m: nat, n: nat)
    requires m > 0 && n > 0
    ensures m * n > 0 && (b % (m * n)) / m == (b / m) % n
  {
    Positive(m, n);
    var k := m * n;
    var q, r := b / k, b % k;
    var s, t := r / m, r % m;
    assert b == q * k + r && r == s * m + t;
    assert s * m <= r < n * m;
    FewerTimes(s, n, m);
    Regroup(q, n, s, m, t);
    Remainder(b, m, q * n + s, t);
    Remainder(q * n + s, n, q, s);
  }

  lemma DivDiv(b: nat, m: nat, n: nat)
    requires m > 0 && n > 0
    ensures m * n > 0 && b / (m * n) == (b / m) / n
  {
    Positive(m, n);
    var q, t := b / m, b % m;
    var u, w := q / n, q % n;
    assert b == q * m + t && q == u * n + w;
    DivTwice(b, m, n, q, t, u, w);
  }

  lemma DivTwice(b: nat, m: nat, n: nat, q: nat, t: nat, u: nat, w: nat)
    requires m * n > 0 && b == q * m + t && q == u * n + w && t < m && w < n
    ensures b / (m * n) == u
  {
    Regroup(u, n, w, m, t);
    TwoDigits(w, n, t, m);
    Remainder(b, m * n, u, w * m + t);
  }

  lemma ScaledMod(b: nat, e: nat, k: nat)
    requires e > 0 && k > 0
    ensures e * k > 0 && (b * e) % (e * k) == (b % k) * e
  {
    Positive(e, k);
    var q, r := b / k, b % k;
    assert b == q * k + r;
    Regroup(q, k, r, e, 0);
    Monotone(r + 1, k, e);
    assert (r + 1) * e == r * e + e;
    Remainder(b * e, e * k, q, r * e);
  }

  lemma ScaledDiv(x: nat, e: nat, m: nat)
    requires e > 0 && m > 0
    ensures e * m > 0 && (x * e) / (e * m) == x / m
  {
    Positive(e, m);
    var q, r := x / m, x % m;
    assert x == q * m + r;
    Regroup(q, m, r, e, 0);
    Monotone(r + 1, m, e);
    assert (r + 1) * e == r * e + e;
    Remainder(x * e, e * m, q, r * e);
  }

  lemma TopIsSmall(b: nat, e: nat, m: nat)
    requires m > 0 && b < e * m
    ensures b / m < e
  {
    var q := b / m;
    assert b == q * m + b % m;
    FewerTimes(q, e, m);
  }

  /** Two digits make a number below the product of their ranges. */
  lemma TwoDigits(hi: nat, a: nat, lo: nat, b: nat)
    requires hi < a && lo < b
    ensures hi * b + lo < a * b
  {
    Monotone(hi + 1, a, b);
    assert (hi + 1) * b == hi * b + b;
  }
}
