/** Addresses: twenty bytes, written as a Bech32 string whose prefix tells accounts from contracts. */
module Account {
  import opened Options
  import opened P = Polymod
  import opened Bech32
  import BG = BitGroups

  const LENGTH: nat := 20

  /** "nts" for accounts, "nsc" for contracts. */
  const ACCOUNT: Text := [110, 116, 115]
  const CONTRACT: Text := [110, 115, 99]

  /** A contract's hash starts with four ones. */
  predicate IsContractHash(hash: seq<Byte>) { |hash| >= 4 && hash[..4] == [1, 1, 1, 1] }

  function PrefixOf(hash: seq<Byte>): (hrp: Text) { if IsContractHash(hash) then CONTRACT else ACCOUNT }

  // ---- the text for no address --------------------------------------------------------------------------------------

  function Repeat(c: Byte, n: nat): (r: seq<Byte>)
    ensures |r| == n && forall i :: 0 <= i < n ==> r[i] == c
  {
    if n == 0 then [] else Repeat(c, n - 1) + [c]
  }

  /** "nts1" and 38 zeros: it has the form of an address, and '0' stands for 15. */
  const EMPTY: Text := ACCOUNT + [SEPARATOR] + Repeat(48, 38)

  function Fifteens(n: nat): (vs: seq<bv32>)
    ensures |vs| == n && forall i :: 0 <= i < n ==> vs[i] == 15
  {
    if n == 0 then [] else Fifteens(n - 1) + [15]
  }

  /** The checksum after `n` more fifteens. */
  function More(chk: bv32, n: nat): (r: bv32)
    decreases n
  {
    if n == 0 then chk else More(Step(chk, 15), n - 1)
  }

  lemma {:induction false} FoldFifteens(chk: bv32, n: nat)
    ensures Fold(chk, Fifteens(n)) == More(chk, n)
    decreases n
  {
    hide Step;
    if n > 0 {
      assert Fifteens(n)[..n - 1] == Fifteens(n - 1);
      FoldFifteens(chk, n - 1);
      MoreLast(chk, n);
    }
  }

  lemma {:induction false} MoreLast(chk: bv32, n: nat)
    requires n > 0
    ensures More(chk, n) == Step(More(chk, n - 1), 15)
    decreases n
  {
    hide Step;
    if n > 1 {
      MoreLast(Step(chk, 15), n - 1);
    }
  }

  lemma {:induction false} MoreAdds(chk: bv32, m: nat, n: nat)
    ensures More(chk, m + n) == More(More(chk, m), n)
    decreases m
  {
    hide Step;
    if m > 0 {
      MoreAdds(Step(chk, 15), m - 1, n);
    }
  }

  lemma Two(a: bv32, b: bv32, c: bv32)
    requires Step(a, 15) == b && Step(b, 15) == c
    ensures More(a, 2) == c
  {
    hide Step;
  }

  /** Ten fifteens, one after the other. */
  lemma Ten(a: bv32, b: bv32, c: bv32, d: bv32, e: bv32, f: bv32, g: bv32, h: bv32, i: bv32, j: bv32, k: bv32)
    requires Step(a, 15) == b && Step(b, 15) == c && Step(c, 15) == d && Step(d, 15) == e && Step(e, 15) == f
    requires Step(f, 15) == g && Step(g, 15) == h && Step(h, 15) == i && Step(i, 15) == j && Step(j, 15) == k
    ensures More(a, 8) == i && More(a, 10) == k
  {
    hide Step, More;
    Two(a, b, c);
    Two(c, d, e);
    Two(e, f, g);
    Two(g, h, i);
    Two(i, j, k);
    MoreAdds(a, 2, 2);
    MoreAdds(a, 4, 2);
    MoreAdds(a, 6, 2);
    MoreAdds(a, 8, 2);
  }

  lemma ThirtyEight()
    ensures More(0x4dd0a2a, 38) == 0x14412903
  {
    Ten(0x4dd0a2a, 0x3df1cb22, 0x119ea2b6, 0xe966512, 0x1157626a, 0x17ae7e92,
        0x15b7384d, 0x2df5b41f, 0x2c5376cb, 0x188b2c4b, 0x3286a348);
    Ten(0x3286a348, 0x3ce86fd3, 0x32aa3c96, 0x397b9413, 0x2685cafb, 0x2797e403,
        0x5d23b03, 0x1c17ee02, 0x74e6405, 0x34f65970, 0x2fcdf10c);
    Ten(0x2fcdf10c, 0x10318319, 0x3b7250f2, 0x1cd70169, 0x1f538965, 0x14a8df57,
        0xe09575f, 0x2b12bca, 0x2d4f2efd, 0x3b002a8b, 0x12984e49);
    Ten(0x12984e49, 0x1521ad40, 0x3f2715bf, 0x302f26a4, 0x12b285e1, 0x1078d840,
        0x32593bd2, 0x271b7c93, 0x14412903, Step(0x14412903, 15), Step(Step(0x14412903, 15), 15));
    hide More, Step;
    MoreAdds(0x4dd0a2a, 10, 10);
    MoreAdds(0x4dd0a2a, 20, 10);
    MoreAdds(0x4dd0a2a, 30, 8);
  }

  lemma FoldNext(chk: bv32, v: seq<bv32>, k: nat)
    requires k < |v|
    ensures Fold(chk, v[..k + 1]) == Step(Fold(chk, v[..k]), v[k])
  {
    hide Step;
    assert v[..k + 1][..k] == v[..k];
  }

  const START: seq<bv32> := [3, 3, 3, 0, 14, 20, 19]

  lemma AccountStart()
    ensures Fold(1, START) == 0x4dd0a2a
  {
    hide Step;
    assert Fold(1, START[..0]) == 1;
    hide Fold;
    FoldNext(1, START, 0);
    FoldNext(1, START, 1);
    FoldNext(1, START, 2);
    FoldNext(1, START, 3);
    FoldNext(1, START, 4);
    FoldNext(1, START, 5);
    FoldNext(1, START, 6);
    assert START[..7] == START;
    AccountSteps();
  }

  lemma AccountSteps()
    ensures Step(Step(Step(Step(Step(Step(Step(1, 3), 3), 3), 0), 14), 20), 19) == 0x4dd0a2a
  {
    assert Step(0x1, 3) == 0x23;
    assert Step(0x23, 3) == 0x463;
    assert Step(0x463, 3) == 0x8c63;
    assert Step(0x8c63, 0) == 0x118c60;
    assert Step(0x118c60, 14) == 0x2318c0e;
    assert Step(0x2318c0e, 20) == 0x3d5bd666;
    assert Step(0x3d5bd666, 19) == 0x4dd0a2a;
  }

  lemma WordLiterals()
    ensures WordOf(3) == 3 && WordOf(14) == 14 && WordOf(15) == 15 && WordOf(19) == 19 && WordOf(20) == 20
  {
  }

  lemma WordsOfThree(d: seq<Byte>)
    requires |d| == 3
    ensures Words(d) == [WordOf(d[0]), WordOf(d[1]), WordOf(d[2])]
  {
    hide WordOf;
  }

  lemma StartOfAccount()
    ensures HrpExpand(ACCOUNT) == START
  {
    hide WordOf, Words, Highs, Lows;
    WordLiterals();
    WordsOfThree(Highs(ACCOUNT));
    WordsOfThree(Lows(ACCOUNT));
  }

  /** The text for no address is not the string of an address: its checksum is wrong. */
  lemma EmptyIsNoAddress()
    ensures !VerifyChecksum(ACCOUNT, Repeat(15, 38))
  {
    assert Words(Repeat(15, 38)) == Fifteens(38) by {
      hide WordOf;
      WordLiterals();
      assert forall i :: 0 <= i < 38 ==> Words(Repeat(15, 38))[i] == WordOf(Repeat(15, 38)[i]);
    }
    StartOfAccount();
    hide Words, HrpExpand, Repeat, Step, Fifteens;
    AccountStart();
    FoldAppend(1, START, Fifteens(38));
    FoldFifteens(Fold(1, START), 38);
    hide Fold;
    ThirtyEight();
  }

  // ---- addresses ----------------------------------------------------------------------------------------------------

  /** Text for a hash that cannot be written. */
  const INVALID: Text := [60, 105, 110, 118, 97, 108, 105, 100, 32, 97, 100, 100, 114, 101, 115, 115, 62]

  lemma FiveIsSmall()
    ensures BG.Pow(5) == 32 && BG.Pow(8) == 256
  {
    assert BG.Pow(4) == 16;
  }

  /** The five-bit groups of a hash. */
  ghost function Groups(hash: seq<Byte>): (d: seq<Byte>)
    ensures FiveBits(d) && BG.Convert(hash, 8, 5, true) == Some(d) && BG.Convert(d, 5, 8, false) == Some(hash)
  {
    GroupsExist(hash);
    var d: seq<nat> := BG.Convert(hash, 8, 5, true).value;
    d
  }

  lemma GroupsExist(hash: seq<Byte>)
    ensures var r := BG.Convert(hash, 8, 5, true);
            r.Some? && BG.Below(r.value, 5) && (forall i :: 0 <= i < |r.value| ==> r.value[i] < 32)
            && BG.Convert(r.value, 5, 8, false) == Some(hash)
  {
    hide BG.Flat, BG.Split, BG.Value, BG.Pow;
    FiveIsSmall();
    var r := BG.Convert(hash, 8, 5, true);
    BG.ConvertIff(hash, 8, 5, true, r);
    BG.EightToFiveAndBack(hash, r.value);
    BG.ConvertIff(r.value, 5, 8, false, Some(hash));
  }

  /** The prefix and the twenty bytes of a string. */
  ghost function DecodeHash(text: Text): (r: Option<(Text, seq<Byte>)>) {
    var p := Decoded(text);
    if p.None? then None
    else
      var bytes := BG.Convert(p.value.1, 5, 8, false);
      if bytes.None? || |bytes.value| != LENGTH then None
      else
        BytesOfGroups(p.value.1, bytes.value);
        Some((p.value.0, bytes.value))
  }

  lemma BytesOfGroups(d: seq<Byte>, bytes: seq<nat>)
    requires BG.Convert(d, 5, 8, false) == Some(bytes)
    ensures BG.Below(bytes, 8) && forall i :: 0 <= i < |bytes| ==> bytes[i] < 256
  {
    hide BG.Flat, BG.Split, BG.Value, BG.Pow;
    FiveIsSmall();
    BG.SplitSplits(BG.Flat(d, 5), 8);
  }

  /** Writes a hash and reads it back to be sure. */
  ghost function EncodeHash(hrp: Text, hash: seq<Byte>): (r: Option<Text>) {
    var t := Encoded(hrp, Groups(hash));
    if t.None? then None
    else
      var back := DecodeHash(t.value);
      if back.None? || back.value.1 != hash then None else t
  }

  ghost function StringOf(hash: seq<Byte>): (t: Text) {
    if hash == Repeat(0, LENGTH) then EMPTY
    else
      var t := EncodeHash(PrefixOf(hash), hash);
      if t.None? then INVALID else t.value
  }

  /** Parses an address; no text, and the text for no address, give the address of all zeros. */
  ghost function DecodeAddress(text: Text): (r: Option<(Text, seq<Byte>)>) {
    if text == [] || text == EMPTY then Some(([], Repeat(0, LENGTH)))
    else
      var p := DecodeHash(text);
      if p.None? || p.value.0 != PrefixOf(p.value.1) then None else p
  }

  lemma GroupCount(hash: seq<Byte>)
    requires |hash| == LENGTH
    ensures |Groups(hash)| == 32
  {
    hide BG.Flat, BG.Value, BG.Total;
    var bits := BG.Flat(hash, 8);
    BG.TotalIs(8, LENGTH);
    BG.TotalIs(5, 32);
    BG.SplitSplits(bits, 5);
    var (ws, rest) := BG.Split(bits, 5);
    BG.SameCount(5, |ws|, |rest|, 32, 0);
  }

  lemma PrefixIsReadable(hrp: Text, d: seq<Byte>)
    requires (hrp == ACCOUNT || hrp == CONTRACT) && |d| == 32
    ensures Readable(hrp, d)
  {
    assert Lower(hrp) == hrp;
  }

  /** Writing a hash of twenty bytes succeeds, under either prefix, and reading gives it back. */
  lemma HashIsReadBack(hrp: Text, hash: seq<Byte>)
    requires |hash| == LENGTH && (hrp == ACCOUNT || hrp == CONTRACT)
    ensures Encoded(hrp, Groups(hash)).Some? && DecodeHash(Encoded(hrp, Groups(hash)).value) == Some((hrp, hash))
    ensures EncodeHash(hrp, hash) == Encoded(hrp, Groups(hash))
  {
    hide Encoded, Decoded, Groups, Readable, BG.Convert;
    GroupCount(hash);
    PrefixIsReadable(hrp, Groups(hash));
    DecodeEncodeIff(hrp, Groups(hash));
  }

  /** No hash is written as the text for no address. */
  lemma NeverEmpty(hash: seq<Byte>)
    requires |hash| == LENGTH
    ensures Encoded(PrefixOf(hash), Groups(hash)) != Some(EMPTY) && Encoded(PrefixOf(hash), Groups(hash)) != Some([])
  {
    hide Checksum, Groups, ToChars;
    var hrp, d := PrefixOf(hash), Groups(hash);
    GroupCount(hash);
    var all := d + Checksum(hrp, d);
    if hrp + [SEPARATOR] + ToChars(all) == EMPTY {
      OnlyZeros(hrp, all);
      ChecksumVerifiesIff(hrp, d, Checksum(hrp, d));
      EmptyIsNoAddress();
    }
  }

  lemma OnlyZeros(hrp: Text, all: seq<Byte>)
    requires (hrp == ACCOUNT || hrp == CONTRACT) && |all| == 38 && FiveBits(all)
    requires hrp + [SEPARATOR] + ToChars(all) == EMPTY
    ensures hrp == ACCOUNT && all == Repeat(15, 38)
  {
    var text := hrp + [SEPARATOR] + ToChars(all);
    assert text[1] == hrp[1] && EMPTY[1] == ACCOUNT[1];
    assert text[4..] == ToChars(all) && EMPTY[4..] == Repeat(48, 38);
    OnlyFifteen(all);
  }

  lemma OnlyFifteen(all: seq<Byte>)
    requires |all| == 38 && FiveBits(all) && forall i :: 0 <= i < 38 ==> CHARSET[all[i]] == 48
    ensures all == Repeat(15, 38)
  {
    hide Index;
    forall i | 0 <= i < 38
      ensures all[i] == 15
    {
      ZeroIsFifteen(all[i]);
    }
  }

  lemma ZeroIsFifteen(d: Byte)
    requires d < 32 && CHARSET[d] == 48
    ensures d == 15
  {
    IndexOfChar(d);
  }

  /** The string of every hash but zero decodes to that hash, with the prefix its first bytes fix: "nsc" after four ones,
      otherwise "nts". */
  lemma AddressRoundTrip(hash: seq<Byte>)
    requires |hash| == LENGTH && hash != Repeat(0, LENGTH)
    ensures DecodeAddress(StringOf(hash)) == Some((PrefixOf(hash), hash))
    ensures PrefixOf(hash) == if hash[0] == hash[1] == hash[2] == hash[3] == 1 then [110, 115, 99] else [110, 116, 115]
  {
    hide Encoded, Groups, DecodeHash;
    HashIsReadBack(PrefixOf(hash), hash);
    NeverEmpty(hash);
  }

  /** A string that decodes to a hash other than zero is, up to upper case, the string of that hash. */
  lemma AddressIsCanonical(text: Text)
    requires DecodeAddress(text).Some? && DecodeAddress(text).value.1 != Repeat(0, LENGTH)
    ensures var (hrp, hash) := DecodeAddress(text).value;
            |hash| == LENGTH && hrp == PrefixOf(hash) && StringOf(hash) == Lower(text)
  {
    var (hrp, hash) := DecodeAddress(text).value;
    var d := Decoded(text).value.1;
    EncodeDecode(text);
    hide Encoded, Decoded;
    SameGroups(d, hash);
    HashIsReadBack(hrp, hash);
  }

  lemma SameGroups(d: seq<Byte>, hash: seq<Byte>)
    requires FiveBits(d) && BG.Convert(d, 5, 8, false) == Some(hash)
    ensures Groups(hash) == d
  {
    hide BG.Flat, BG.Split, BG.Value, BG.Pow;
    FiveIsSmall();
    BG.ConvertIff(d, 5, 8, false, Some(hash));
    BG.FiveToEightAndBack(d, hash);
    BG.ConvertIff(hash, 8, 5, true, Some(d));
  }

  /** The last twenty bytes, with zeros in front if there are fewer, and the prefix they call for. */
  /** The bytes go to the end of the hash; of more than twenty the first are cut off. */
  method SetBytes(b: seq<Byte>) returns (hash: seq<Byte>)
    ensures |hash| == LENGTH && hash == (Repeat(0, LENGTH) + b)[|b|..]
  {
    var buffer := new Byte[LENGTH](_ => 0);
    var rest := if |b| > LENGTH then b[|b| - LENGTH..] else b;
    for i := 0 to |rest|
      invariant forall j :: 0 <= j < LENGTH - |rest| ==> buffer[j] == 0
      invariant forall j :: 0 <= j < i ==> buffer[LENGTH - |rest| + j] == rest[j]
    {
      buffer[LENGTH - |rest| + i] := rest[i];
    }
    hash := buffer[..];
  }

  method BytesToAddress(b: seq<Byte>) returns (hrp: Text, hash: seq<Byte>)
    ensures |hash| == LENGTH && hash == (Repeat(0, LENGTH) + b)[|b|..]
    ensures hrp == if hash[0] == hash[1] == hash[2] == hash[3] == 1 then [110, 115, 99] else [110, 116, 115]
    ensures hash != Repeat(0, LENGTH) ==> DecodeAddress(StringOf(hash)) == Some((hrp, hash))
  {
    hide StringOf, DecodeAddress, Repeat;
    hash := SetBytes(b);
    hrp := if IsContractHash(hash) then CONTRACT else ACCOUNT;
    if hash != Repeat(0, LENGTH) {
      AddressRoundTrip(hash);
    }
  }
}
