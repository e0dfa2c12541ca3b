/** The capacity of a ring: its size rounded up to a power of two, on 64-bit words. */
module RingSize {
  import opened Arith

  const TOP: bv64 := 0x8000_0000_0000_0000
  const ONES: bv64 := 0xFFFF_FFFF_FFFF_FFFF

  /** Exactly one bit is set. */
  predicate OneBit(v: bv64) { v != 0 && v & (v - 1) == 0 }

  /** `x` is the least word of the form 2^k - 1 that is no less than `y`. */
  predicate Covers(x: bv64, y: bv64) {
    x & (x + 1) == 0 && y <= x && if y == 0 then x == 0 else x >> 1 < y
  }

  /** Copies the highest bit of a word into all lower ones. */
  method Smear(y: bv64) returns (x: bv64)
    ensures Covers(x, y) && (y & TOP != 0 <==> x == ONES)
  {
    var v := y;
    v := v | (v >> 1);
    v := v | (v >> 2);
    v := v | (v >> 4);
    v := v | (v >> 8);
    v := v | (v >> 16);
    v := v | (v >> 32);
    x := v;
  }

  lemma AfterCover(x: bv64, y: bv64)
    requires Covers(x, y) && x != ONES
    ensures OneBit(x + 1)
  {
  }

  /** Sizes from 1 to 2^63. */
  predicate InRange(size: bv64) { (size - 1) & TOP == 0 }

  /** The least one-bit word that reaches the size, that is, whose predecessor covers the size's; a size of 0, or above
      2^63, wraps round to 0. */
  method RoundUp(size: bv64) returns (r: bv64)
    ensures Covers(r - 1, size - 1)
    ensures if InRange(size) then OneBit(r) else r == 0
  {
    hide Covers, OneBit;
    var x := Smear(size - 1);
    r := x + 1;
    assert r - 1 == x;
    if x != ONES {
      AfterCover(x, size - 1);
    }
  }

  /** No smaller one-bit word reaches the size. */
  lemma Least(size: bv64, r: bv64, w: bv64)
    requires OneBit(r) && OneBit(w) && Covers(r - 1, size - 1) && size - 1 <= w - 1
    ensures r <= w
  {
  }

  // ---- masking ------------------------------------------------------------------------------------------------------

  function Pow(k: nat): (r: nat)
    ensures r >= 1
  {
    if k == 0 then 1 else 2 * Pow(k - 1)
  }

  /** Bitwise and of numbers of any size. */
  function And(a: nat, b: nat): (r: nat) {
    if a == 0 || b == 0 then 0 else 2 * And(a / 2, b / 2) + (a % 2) * (b % 2)
  }

  lemma HalfRemainder(p: nat, n: nat)
    requires n > 0
    ensures p % (2 * n) == 2 * (p / 2 % n) + p % 2
  {
    var h := p / 2;
    var q, r := h / n, h % n;
    assert h == q * n + r;
    QuotientIsNat(h, n);
    Doubled(q, n);
    Remainder(p, 2 * n, q, 2 * r + p % 2);
  }

  lemma Doubled(q: nat, n: nat)
    ensures q * (2 * n) == 2 * (q * n)
  {
  }

  lemma AndHalves(p: nat, n: nat)
    requires n > 0
    ensures And(p, 2 * n - 1) == 2 * And(p / 2, n - 1) + p % 2
  {
    assert (2 * n - 1) / 2 == n - 1 && (2 * n - 1) % 2 == 1;
  }

  /** Masking with the predecessor of a power of two takes the remainder. */
  lemma {:induction false} MaskIsRemainder(p: nat, k: nat)
    ensures And(p, Pow(k) - 1) == p % Pow(k)
    decreases k
  {
    if k > 0 {
      var n := Pow(k - 1);
      assert Pow(k) == 2 * n;
      MaskIsRemainder(p / 2, k - 1);
      hide And, Pow;
      HalfRemainder(p, n);
      AndHalves(p, n);
    }
  }

  lemma Double(w: bv64)
    requires w < TOP
    ensures (w << 1) as nat == 2 * (w as nat)
  {
  }

  lemma HalfOfOneBit(w: bv64)
    requires OneBit(w) && w != 1
    ensures OneBit(w >> 1) && w >> 1 < TOP && w >> 1 < w && (w >> 1) << 1 == w
  {
  }

  /** A word with one bit is a power of two. */
  lemma {:induction false} OneBitIsPower(w: bv64) returns (k: nat)
    requires OneBit(w)
    ensures w as nat == Pow(k)
    decreases w
  {
    if w == 1 {
      k := 0;
    } else {
      HalfOfOneBit(w);
      hide OneBit;
      k := OneBitIsPower(w >> 1);
      Double(w >> 1);
      k := k + 1;
    }
  }

  /** In a ring of one-bit capacity the node of a ticket is found by masking. */
  lemma MaskFindsSlot(w: bv64, pos: nat)
    requires OneBit(w)
    ensures w as nat > 0 && And(pos, w as nat - 1) == pos % (w as nat)
  {
    var k := OneBitIsPower(w);
    MaskIsRemainder(pos, k);
  }
}
