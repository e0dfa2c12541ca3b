/** A string of BIP 173 that uses every character of the set: the test vector
    "abcdef1qpzry9x8gf2tvdw0s3jn54khce6mua7lmqqqxw". */
module KnownString {
  import opened Options
  import opened P = Polymod
  import opened Bech32

  /** "abcdef" */
  const HRP: Text := [97, 98, 99, 100, 101, 102]

  /** "qpzry9x8gf2tvdw0s3jn54khce6mua7l" and "mqqqxw" */
  const LETTERS: Text := [113, 112, 122, 114, 121, 57, 120, 56, 103, 102, 50, 116, 118, 100, 119, 48, 115, 51, 106,
    110, 53, 52, 107, 104, 99, 101, 54, 109, 117, 97, 55, 108]
  const LAST: Text := [109, 113, 113, 113, 120, 119]

  /** The string, with the separator "1". */
  const KNOWN: Text := HRP + [49] + (LETTERS + LAST)

  const DATA: seq<Byte> := [0, 1, 2, 3, 4, 5, 6, 7, 8, 9, 10, 11, 12, 13, 14, 15, 16, 17, 18, 19, 20, 21, 22, 23, 24,
    25, 26, 27, 28, 29, 30, 31]

  const CHECK: seq<Byte> := [27, 0, 0, 0, 6, 14]

  /** The checksum passes through these values. */
  ghost predicate Passes(vs: seq<bv32>, cs: seq<bv32>) {
    |cs| == |vs| + 1 && forall i :: 0 <= i < |vs| ==> Step(cs[i], vs[i]) == cs[i + 1]
  }

  lemma {:induction false} FoldPasses(vs: seq<bv32>, cs: seq<bv32>)
    requires Passes(vs, cs)
    ensures Fold(cs[0], vs) == cs[|vs|]
    decreases |vs|
  {
    hide Step;
    if vs != [] {
      var n := |vs| - 1;
      assert Passes(vs[..n], cs[..n + 1]);
      FoldPasses(vs[..n], cs[..n + 1]);
    }
  }

  const V1: seq<bv32> := [3, 3, 3, 3, 3, 3]

  lemma Part1()
    ensures Fold(0x1, V1) == 0x3d5bdbd1
  {
    var cs: seq<bv32> := [0x1, 0x23, 0x463, 0x8c63, 0x118c63,
                           0x2318c63, 0x3d5bdbd1];
    assert Step(cs[0], V1[0]) == cs[1];
    assert Step(cs[1], V1[1]) == cs[2];
    assert Step(cs[2], V1[2]) == cs[3];
    assert Step(cs[3], V1[3]) == cs[4];
    assert Step(cs[4], V1[4]) == cs[5];
    assert Step(cs[5], V1[5]) == cs[6];
    FoldPasses(V1, cs);
  }

  const V2: seq<bv32> := [0, 1, 2, 3, 4, 5, 6]

  lemma Part2()
    ensures Fold(0x3d5bdbd1, V2) == 0x3be80e6a
  {
    var cs: seq<bv32> := [0x3d5bdbd1, 0x4dcbcd9, 0x3dc7154c, 0x17456f7b, 0x8d50561,
                           0x401b5de, 0x266635a8, 0x3be80e6a];
    assert Step(cs[0], V2[0]) == cs[1];
    assert Step(cs[1], V2[1]) == cs[2];
    assert Step(cs[2], V2[2]) == cs[3];
    assert Step(cs[3], V2[3]) == cs[4];
    assert Step(cs[4], V2[4]) == cs[5];
    assert Step(cs[5], V2[5]) == cs[6];
    assert Step(cs[6], V2[6]) == cs[7];
    FoldPasses(V2, cs);
  }

  const V3: seq<bv32> := [0, 1, 2, 3, 4, 5, 6, 7]

  lemma Part3()
    ensures Fold(0x3be80e6a, V3) == 0x11e88668
  {
    var cs: seq<bv32> := [0x3be80e6a, 0xf9cd266, 0x30018ce4, 0x1767cdec, 0xc815781,
                           0x28db67b3, 0x2fd98d2c, 0x12be0710, 0x11e88668];
    assert Step(cs[0], V3[0]) == cs[1];
    assert Step(cs[1], V3[1]) == cs[2];
    assert Step(cs[2], V3[2]) == cs[3];
    assert Step(cs[3], V3[3]) == cs[4];
    assert Step(cs[4], V3[4]) == cs[5];
    assert Step(cs[5], V3[5]) == cs[6];
    assert Step(cs[6], V3[6]) == cs[7];
    assert Step(cs[7], V3[7]) == cs[8];
    FoldPasses(V3, cs);
  }

  const V4: seq<bv32> := [8, 9, 10, 11, 12, 13, 14, 15]

  lemma Part4()
    ensures Fold(0x11e88668, V4) == 0x31223f8a
  {
    var cs: seq<bv32> := [0x11e88668, 0x52fed5, 0xa5fdaa9, 0x2e301b62, 0x2f8ccedd,
                           0x1816793a, 0x212c0d6a, 0xf95cffd, 0x31223f8a];
    assert Step(cs[0], V4[0]) == cs[1];
    assert Step(cs[1], V4[1]) == cs[2];
    assert Step(cs[2], V4[2]) == cs[3];
    assert Step(cs[3], V4[3]) == cs[4];
    assert Step(cs[4], V4[4]) == cs[5];
    assert Step(cs[5], V4[5]) == cs[6];
    assert Step(cs[6], V4[6]) == cs[7];
    assert Step(cs[7], V4[7]) == cs[8];
    FoldPasses(V4, cs);
  }

  const V5: seq<bv32> := [16, 17, 18, 19, 20, 21, 22, 23]

  lemma Part5()
    ensures Fold(0x31223f8a, V5) == 0x297c48e0
  {
    var cs: seq<bv32> := [0x31223f8a, 0x3311a03e, 0xe08010d, 0x29be197, 0x28166541,
                           0x3679d37d, 0x556e704, 0xc8c6efb, 0x297c48e0];
    assert Step(cs[0], V5[0]) == cs[1];
    assert Step(cs[1], V5[1]) == cs[2];
    assert Step(cs[2], V5[2]) == cs[3];
    assert Step(cs[3], V5[3]) == cs[4];
    assert Step(cs[4], V5[4]) == cs[5];
    assert Step(cs[5], V5[5]) == cs[6];
    assert Step(cs[6], V5[6]) == cs[7];
    assert Step(cs[7], V5[7]) == cs[8];
    FoldPasses(V5, cs);
  }

  const V6: seq<bv32> := [24, 25, 26, 27, 28, 29, 30, 31]

  lemma Part6()
    ensures Fold(0x297c48e0, V6) == 0x1a0d3656
  {
    var cs: seq<bv32> := [0x297c48e0, 0x1b3c6751, 0x3f0597ac, 0x347f64d1, 0x3eea4538,
                           0x9853657, 0x2e07d307, 0x2975c268, 0x1a0d3656];
    assert Step(cs[0], V6[0]) == cs[1];
    assert Step(cs[1], V6[1]) == cs[2];
    assert Step(cs[2], V6[2]) == cs[3];
    assert Step(cs[3], V6[3]) == cs[4];
    assert Step(cs[4], V6[4]) == cs[5];
    assert Step(cs[5], V6[5]) == cs[6];
    assert Step(cs[6], V6[6]) == cs[7];
    assert Step(cs[7], V6[7]) == cs[8];
    FoldPasses(V6, cs);
  }

  const V7: seq<bv32> := [27, 0, 0, 0, 6, 14]

  lemma Part7()
    ensures Fold(0x1a0d3656, V7) == 0x1
  {
    var cs: seq<bv32> := [0x1a0d3656, 0x192fb74e, 0x615c3e7, 0x1f82a53f, 0xe8d5418,
                           0x12314323, 0x1];
    assert Step(cs[0], V7[0]) == cs[1];
    assert Step(cs[1], V7[1]) == cs[2];
    assert Step(cs[2], V7[2]) == cs[3];
    assert Step(cs[3], V7[3]) == cs[4];
    assert Step(cs[4], V7[4]) == cs[5];
    assert Step(cs[5], V7[5]) == cs[6];
    FoldPasses(V7, cs);
  }

  lemma AllParts()
    ensures Fold(1, V1 + V2 + V3 + V4 + V5 + V6 + V7) == 1
  {
    hide Fold;
    Part1();
    Part2();
    Part3();
    Part4();
    Part5();
    Part6();
    Part7();
    FoldAppend(1, V1, V2);
    FoldAppend(1, V1 + V2, V3);
    FoldAppend(1, V1 + V2 + V3, V4);
    FoldAppend(1, V1 + V2 + V3 + V4, V5);
    FoldAppend(1, V1 + V2 + V3 + V4 + V5, V6);
    FoldAppend(1, V1 + V2 + V3 + V4 + V5 + V6, V7);
  }

  lemma LowWords()
    ensures WordOf(0) == 0 && WordOf(1) == 1 && WordOf(2) == 2 && WordOf(3) == 3
    ensures WordOf(4) == 4 && WordOf(5) == 5 && WordOf(6) == 6 && WordOf(7) == 7
    ensures WordOf(8) == 8 && WordOf(9) == 9 && WordOf(10) == 10 && WordOf(11) == 11
    ensures WordOf(12) == 12 && WordOf(13) == 13 && WordOf(14) == 14 && WordOf(15) == 15
  {
  }

  lemma HighWords()
    ensures WordOf(16) == 16 && WordOf(17) == 17 && WordOf(18) == 18 && WordOf(19) == 19
    ensures WordOf(20) == 20 && WordOf(21) == 21 && WordOf(22) == 22 && WordOf(23) == 23
    ensures WordOf(24) == 24 && WordOf(25) == 25 && WordOf(26) == 26 && WordOf(27) == 27
    ensures WordOf(28) == 28 && WordOf(29) == 29 && WordOf(30) == 30 && WordOf(31) == 31
  {
  }

  lemma HrpWords()
    ensures HrpExpand(HRP) == V1 + V2
  {
    hide WordOf, Words, Highs, Lows;
    LowWords();
  }

  lemma DataWords()
    ensures Words(DATA + CHECK) == V3 + V4 + V5 + V6 + V7
  {
    hide WordOf, Words;
    LowWords();
    HighWords();
  }

  /** The six symbols are the checksum. */
  lemma KnownChecks()
    ensures Checksum(HRP, DATA) == CHECK
  {
    hide WordOf, Words, Fold, HrpExpand, Checksum;
    AllParts();
    HrpWords();
    DataWords();
    assert V1 + V2 + (V3 + V4 + V5 + V6 + V7) == V1 + V2 + V3 + V4 + V5 + V6 + V7;
    ChecksumVerifiesIff(HRP, DATA, CHECK);
  }

  lemma LettersAreAll()
    ensures |LETTERS| == |DATA| == 32 && |CHARSET| == 32 && FiveBits(DATA)
    ensures forall i :: 0 <= i < 32 ==> DATA[i] == i
    ensures forall i :: 0 <= i < 32 ==> LETTERS[i] == CHARSET[i]
  {
  }

  lemma DataChars()
    ensures FiveBits(DATA) && ToChars(DATA) == LETTERS
  {
    LettersAreAll();
    hide ToChars, FiveBits;
  }

  lemma LastChars()
    ensures ToChars(CHECK) == LAST
  {
    hide ToChars;
  }

  lemma CharsJoin(d: seq<Byte>, e: seq<Byte>)
    requires FiveBits(d) && FiveBits(e)
    ensures ToChars(d + e) == ToChars(d) + ToChars(e)
  {
    hide ToChars;
  }

  /** The string decodes to "abcdef" and the symbols from 0 to 31, and is what encoding them gives. */
  lemma KnownDecodes()
    ensures Decoded(KNOWN) == Some((HRP, DATA)) && Encoded(HRP, DATA) == Some(KNOWN)
  {
    hide Checksum, ToChars, Decoded, Readable;
    KnownChecks();
    CharsJoin(DATA, CHECK);
    DataChars();
    LastChars();
    HrpIsReadable();
    DecodeEncodeIff(HRP, DATA);
  }

  lemma HrpIsReadable()
    ensures Readable(HRP, DATA)
  {
    assert Lower(HRP) == HRP;
  }
}
