/** The checksum of BIP 173 (section "Bech32", part "Checksum"): a linear code over GF(32), on 30-bit words. */
module Polymod {

  // ---- words --------------------------------------------------------------------------------------------------------

  function Xor(a: bv32, b: bv32): (r: bv32) { a ^ b }

  /** One symbol up. */
  function Up(e: bv32): (r: bv32) { e << 5 }

  /** All but the highest of six symbols, one up. */
  function Shift(a: bv32): (r: bv32) { (a & 0x1ffffff) << 5 }

  /** What each of the five bits shifted out brings in. */
  function Feedback(a: bv32): (r: bv32) {
    var b := a >> 25;
    (if b & 1 == 1 then 0x3b6a57b2 else 0) ^ (if b & 2 == 2 then 0x26508e6d else 0)
    ^ (if b & 4 == 4 then 0x1ea119fa else 0) ^ (if b & 8 == 8 then 0x3d4233dd else 0)
    ^ (if b & 16 == 16 then 0x2a1462b3 else 0)
  }

  function Step(chk: bv32, v: bv32): (r: bv32) { Xor(Xor(Shift(chk), v), Feedback(chk)) }

  /** Only the bits of six, five or one symbols are used. */
  predicate Word(w: bv32) { w & 0xc0000000 == 0 }
  predicate Low(e: bv32) { e & 0xfe000000 == 0 }
  predicate Symbol(v: bv32) { v & 0xffffffe0 == 0 }

  lemma StepWord(a: bv32)
    ensures Word(Step(a, 0))
  {
  }

  lemma FeedbackSame(a: bv32, e: bv32)
    requires Low(e)
    ensures Feedback(Xor(a, e)) == Feedback(a)
  {
    assert (a ^ e) >> 25 == a >> 25;
  }

  lemma ShiftApart(a: bv32, e: bv32)
    requires Low(e)
    ensures Shift(Xor(a, e)) == Xor(Shift(a), Up(e))
  {
  }

  lemma Rearrange(x: bv32, y: bv32, v: bv32, g: bv32)
    ensures Xor(Xor(Xor(x, y), v), g) == Xor(Xor(Xor(x, 0), g), Xor(y, v))
  {
  }

  /** Symbols taken in before just move up beside what the checksum does without them, as long as they have not reached
      the top. */
  lemma StepApart(a: bv32, e: bv32, v: bv32)
    requires Low(e)
    ensures Step(Xor(a, e), v) == Xor(Step(a, 0), Xor(Up(e), v))
  {
    hide Xor, Shift, Up, Feedback, Low;
    FeedbackSame(a, e);
    ShiftApart(a, e);
    Rearrange(Shift(a), Up(e), v, Feedback(a));
  }

  lemma XorZero(a: bv32)
    ensures Xor(a, 0) == a && Xor(0, a) == a
  {
  }

  lemma XorCancel(p: bv32, q: bv32)
    ensures Xor(p, Xor(p, q)) == q
  {
  }

  lemma XorWord(p: bv32)
    requires Word(p)
    ensures Word(Xor(p, 1))
  {
  }

  // ---- sequences of symbols -----------------------------------------------------------------------------------------

  function Fold(chk: bv32, vs: seq<bv32>): (r: bv32) {
    if vs == [] then chk else Step(Fold(chk, vs[..|vs| - 1]), vs[|vs| - 1])
  }

  /** Symbols side by side, the first one highest. */
  function Pack(vs: seq<bv32>): (r: bv32) {
    if vs == [] then 0 else Xor(Up(Pack(vs[..|vs| - 1])), vs[|vs| - 1])
  }

  function Zeros(n: nat): (vs: seq<bv32>)
    ensures |vs| == n && (n > 0 ==> vs[n - 1] == 0)
  {
    if n == 0 then [] else Zeros(n - 1) + [0]
  }

  predicate Symbols(vs: seq<bv32>) { forall i :: 0 <= i < |vs| ==> Symbol(vs[i]) }

  /** The bits above those of `n` symbols. */
  function Mask(n: nat): (m: bv32)
    requires n <= 6
  {
    if n == 0 then 0xffffffff else Mask(n - 1) << 5
  }

  predicate Fits(e: bv32, n: nat)
    requires n <= 6
  {
    e & Mask(n) == 0
  }

  lemma MaskUp(e: bv32, m: bv32, v: bv32)
    requires e & m == 0 && Symbol(v)
    ensures Xor(Up(e), v) & (m << 5) == 0
  {
  }

  lemma FitsNext(e: bv32, n: nat, v: bv32)
    requires n < 6 && Fits(e, n) && Symbol(v)
    ensures Fits(Xor(Up(e), v), n + 1)
  {
    hide Xor, Up, Symbol;
    MaskUp(e, Mask(n), v);
  }

  lemma {:induction false} MaskHigh(n: nat)
    requires n <= 5
    ensures Mask(n) & 0xfe000000 == 0xfe000000
  {
    assert Mask(5) == 0xfe000000 by {
      assert Mask(1) == 0xffffffe0;
      assert Mask(2) == 0xfffffc00;
      assert Mask(3) == 0xffff8000;
      assert Mask(4) == 0xfff00000;
    }
  }

  lemma FitsLow(e: bv32, n: nat)
    requires n <= 5 && Fits(e, n)
    ensures Low(e)
  {
    MaskHigh(n);
    SubMask(e, Mask(n), 0xfe000000);
  }

  lemma SubMask(e: bv32, m: bv32, l: bv32)
    requires e & m == 0 && m & l == l
    ensures e & l == 0
  {
  }

  lemma {:induction false} PackFits(vs: seq<bv32>)
    requires |vs| <= 6 && Symbols(vs)
    ensures Fits(Pack(vs), |vs|)
  {
    if vs == [] {
      assert Fits(0, 0);
    } else {
      hide Fits, Symbol, Xor, Up;
      var n := |vs| - 1;
      PackFits(vs[..n]);
      FitsNext(Pack(vs[..n]), n, vs[n]);
    }
  }

  /** Up to six symbols leave what as many empty steps leave, with the symbols beside it. */
  lemma {:induction false} FoldApart(chk: bv32, vs: seq<bv32>)
    requires |vs| <= 6 && Symbols(vs)
    ensures Fold(chk, vs) == Xor(Fold(chk, Zeros(|vs|)), Pack(vs))
  {
    hide Step, Symbol, Fits, Xor, Up, Low;
    if vs == [] {
      XorZero(chk);
    } else {
      var n := |vs| - 1;
      FoldApart(chk, vs[..n]);
      PackFits(vs[..n]);
      FitsLow(Pack(vs[..n]), n);
      assert Zeros(n + 1)[..n] == Zeros(n);
      StepApart(Fold(chk, Zeros(n)), Pack(vs[..n]), vs[n]);
    }
  }

  // ---- six symbols to a word ----------------------------------------------------------------------------------------

  /** The six symbols of a word, the highest first. */
  function Parts(p: bv32): (vs: seq<bv32>)
    ensures |vs| == 6
  {
    [(p >> 25) & 31, (p >> 20) & 31, (p >> 15) & 31, (p >> 10) & 31, (p >> 5) & 31, p & 31]
  }

  function Six(a: bv32, b: bv32, c: bv32, d: bv32, e: bv32, f: bv32): (r: bv32) {
    Xor(Up(Xor(Up(Xor(Up(Xor(Up(Xor(Up(a), b)), c)), d)), e)), f)
  }

  lemma PackSix(vs: seq<bv32>)
    requires |vs| == 6
    ensures Pack(vs) == Six(vs[0], vs[1], vs[2], vs[3], vs[4], vs[5])
  {
    assert Up(0) == 0;
    XorZero(vs[0]);
    hide Xor, Up;
    assert vs[..5][..4] == vs[..4] && vs[..4][..3] == vs[..3] && vs[..3][..2] == vs[..2] && vs[..2][..1] == vs[..1];
    assert vs[..1][..0] == [];
    assert Pack(vs[..1]) == Xor(Up(Pack([])), vs[0]);
    assert Pack(vs[..2]) == Xor(Up(vs[0]), vs[1]);
    assert Pack(vs[..3]) == Xor(Up(Pack(vs[..2])), vs[2]);
    assert Pack(vs[..4]) == Xor(Up(Pack(vs[..3])), vs[3]);
    assert Pack(vs[..5]) == Xor(Up(Pack(vs[..4])), vs[4]);
  }

  lemma PartsOfWord(p: bv32)
    requires Word(p)
    ensures Six((p >> 25) & 31, (p >> 20) & 31, (p >> 15) & 31, (p >> 10) & 31, (p >> 5) & 31, p & 31) == p
  {
  }

  lemma PartsOfSix(a: bv32, b: bv32, c: bv32, d: bv32, e: bv32, f: bv32)
    requires Symbol(a) && Symbol(b) && Symbol(c) && Symbol(d) && Symbol(e) && Symbol(f)
    ensures Parts(Six(a, b, c, d, e, f)) == [a, b, c, d, e, f]
  {
  }

  /** Splitting a word and packing symbols undo each other. */
  lemma PackParts(p: bv32)
    requires Word(p)
    ensures Pack(Parts(p)) == p && Symbols(Parts(p))
  {
    PartsOfWord(p);
    hide Six;
    PackSix(Parts(p));
  }

  lemma PartsPack(vs: seq<bv32>)
    requires |vs| == 6 && Symbols(vs)
    ensures Parts(Pack(vs)) == vs
  {
    hide Parts, Six;
    PackSix(vs);
    PartsOfSix(vs[0], vs[1], vs[2], vs[3], vs[4], vs[5]);
  }

  /** Six symbols bring a checksum to 1 if and only if they are the parts of what six empty steps leave, with the lowest
      bit turned. */
  lemma CheckIff(chk: bv32, vs: seq<bv32>)
    requires |vs| == 6 && Symbols(vs)
    ensures Fold(chk, vs) == 1 <==> vs == Parts(Xor(Fold(chk, Zeros(6)), 1))
    ensures Symbols(Parts(Xor(Fold(chk, Zeros(6)), 1)))
  {
    hide Step, Parts, Symbol, Symbols, Xor, Word;
    var p := Fold(chk, Zeros(6));
    FoldApart(chk, vs);
    FoldWord(chk);
    hide Fold, Pack;
    XorWord(p);
    PackParts(Xor(p, 1));
    PartsPack(vs);
    XorCancel(p, Pack(vs));
    XorCancel(p, 1);
  }

  lemma FoldWord(chk: bv32)
    ensures Word(Fold(chk, Zeros(6)))
  {
    hide Step, Word;
    assert Zeros(6)[..5] == Zeros(5);
    StepWord(Fold(chk, Zeros(5)));
  }
}
