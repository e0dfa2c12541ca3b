/** Bech32 strings: a human-readable part, the separator `1`, and 5-bit data with a checksum, as BIP 173 defines them.
    */
module Bech32 {
  import opened Options
  import opened P = Polymod

  type Byte = n: nat | n < 256

  /** Text as the codes of its characters. */
  type Text = seq<Byte>

  const SEPARATOR: Byte := 49

  const CHARSET: Text := [113, 112, 122, 114, 121, 57, 120, 56, 103, 102, 50, 116, 118, 100, 119, 48,
                                 115, 51, 106, 110, 53, 52, 107, 104, 99, 101, 54, 109, 117, 97, 55, 108]

  /** The place of a character in the character set. */
  function Index(c: Byte): (r: Option<Byte>) {
    match c
    case 113 => Some(0) case 112 => Some(1) case 122 => Some(2) case 114 => Some(3)
    case 121 => Some(4) case 57 => Some(5) case 120 => Some(6) case 56 => Some(7)
    case 103 => Some(8) case 102 => Some(9) case 50 => Some(10) case 116 => Some(11)
    case 118 => Some(12) case 100 => Some(13) case 119 => Some(14) case 48 => Some(15)
    case 115 => Some(16) case 51 => Some(17) case 106 => Some(18) case 110 => Some(19)
    case 53 => Some(20) case 52 => Some(21) case 107 => Some(22) case 104 => Some(23)
    case 99 => Some(24) case 101 => Some(25) case 54 => Some(26) case 109 => Some(27)
    case 117 => Some(28) case 97 => Some(29) case 55 => Some(30) case 108 => Some(31)
    case _ => None
  }

  lemma IndexOfChar(i: Byte)
    requires i < 32
    ensures Index(CHARSET[i]) == Some(i) && CHARSET[i] != SEPARATOR && 33 <= CHARSET[i] <= 126
    ensures Lower([CHARSET[i]]) == [CHARSET[i]]
  {
  }

  lemma CharOfIndex(c: Byte)
    requires Index(c).Some?
    ensures Index(c).value < 32 && CHARSET[Index(c).value] == c && c != SEPARATOR
  {
  }

  predicate FiveBits(d: seq<Byte>) { forall i :: 0 <= i < |d| ==> d[i] < 32 }

  function LowerOf(c: Byte): (r: Byte) { if 65 <= c <= 90 then c + 32 else c }

  function UpperOf(c: Byte): (r: Byte) { if 97 <= c <= 122 then c - 32 else c }

  function Lower(t: Text): (r: Text)
    ensures |r| == |t| && forall i :: 0 <= i < |t| ==> r[i] == LowerOf(t[i])
  {
    if t == [] then [] else Lower(t[..|t| - 1]) + [LowerOf(t[|t| - 1])]
  }

  function Upper(t: Text): (r: Text)
    ensures |r| == |t| && forall i :: 0 <= i < |t| ==> r[i] == UpperOf(t[i])
  {
    if t == [] then [] else Upper(t[..|t| - 1]) + [UpperOf(t[|t| - 1])]
  }

  function ToChars(d: seq<Byte>): (r: Text)
    requires FiveBits(d)
    ensures |r| == |d| && forall i :: 0 <= i < |d| ==> r[i] == CHARSET[d[i]]
  {
    if d == [] then [] else ToChars(d[..|d| - 1]) + [CHARSET[d[|d| - 1]]]
  }

  function ToBytes(t: Text): (r: Option<seq<Byte>>) {
    if t == [] then Some([])
    else
      var d := ToBytes(t[..|t| - 1]);
      var i := Index(t[|t| - 1]);
      if d.None? || i.None? then None else Some(d.value + [i.value])
  }

  lemma CharsSnoc(d: seq<Byte>, x: Byte)
    requires FiveBits(d) && x < 32
    ensures FiveBits(d + [x]) && ToChars(d + [x]) == ToChars(d) + [CHARSET[x]]
  {
    assert (d + [x])[..|d|] == d;
  }

  lemma BytesSnoc(t: Text, x: Byte)
    ensures ToBytes(t + [x]) == if ToBytes(t).None? || Index(x).None? then None
                                else Some(ToBytes(t).value + [Index(x).value])
  {
    hide Index;
    assert (t + [x])[..|t|] == t;
  }

  lemma NoChars()
    ensures ToChars([]) == [] && ToBytes([]) == Some([])
  {
  }

  lemma {:induction false} BytesOfChars(d: seq<Byte>)
    requires FiveBits(d)
    ensures ToBytes(ToChars(d)) == Some(d)
  {
    hide Index, ToChars, ToBytes;
    NoChars();
    if d != [] {
      var n := |d| - 1;
      assert d == d[..n] + [d[n]];
      CharsSnoc(d[..n], d[n]);
      BytesOfChars(d[..n]);
      IndexOfChar(d[n]);
      BytesSnoc(ToChars(d[..n]), CHARSET[d[n]]);
    }
  }

  lemma {:induction false} CharsOfBytes(t: Text)
    requires ToBytes(t).Some?
    ensures FiveBits(ToBytes(t).value) && ToChars(ToBytes(t).value) == t && SEPARATOR !in t
    ensures |ToBytes(t).value| == |t|
  {
    hide Index, ToChars, ToBytes;
    NoChars();
    if t != [] {
      var n := |t| - 1;
      assert t == t[..n] + [t[n]];
      BytesSnoc(t[..n], t[n]);
      CharOfIndex(t[n]);
      CharsOfBytes(t[..n]);
      CharsSnoc(ToBytes(t[..n]).value, Index(t[n]).value);
    }
  }

  // ---- the checksum -------------------------------------------------------------------------------------------------

  function WordOf(n: Byte): (v: bv32) { n as bv8 as bv32 }

  function NumberOf(v: bv32): (n: Byte)
    requires Symbol(v)
    ensures n < 32
  {
    (v as bv8) as nat
  }

  function Words(d: seq<Byte>): (vs: seq<bv32>)
    ensures |vs| == |d| && forall i :: 0 <= i < |d| ==> vs[i] == WordOf(d[i])
  {
    hide WordOf;
    if d == [] then [] else Words(d[..|d| - 1]) + [WordOf(d[|d| - 1])]
  }

  function Numbers(vs: seq<bv32>): (d: seq<Byte>)
    requires Symbols(vs)
    ensures |d| == |vs| && FiveBits(d) && forall i :: 0 <= i < |d| ==> d[i] == NumberOf(vs[i])
  {
    hide NumberOf, Symbol;
    if vs == [] then [] else Numbers(vs[..|vs| - 1]) + [NumberOf(vs[|vs| - 1])]
  }

  lemma SymbolIsSmall(v: bv32)
    requires Symbol(v)
    ensures WordOf(NumberOf(v)) == v
  {
  }

  lemma SmallIsSymbol(n: Byte)
    requires n < 32
    ensures Symbol(WordOf(n)) && NumberOf(WordOf(n)) == n
  {
    hide Symbol;
    ByteBack(n);
    SmallWord(n);
    BelowIsSymbol(WordOf(n));
  }

  lemma ByteBack(n: Byte)
    requires n < 32
    ensures n as bv8 as nat == n
  {
  }

  lemma SmallWord(n: Byte)
    requires n < 32
    ensures WordOf(n) < 32
  {
  }

  lemma BelowIsSymbol(v: bv32)
    requires v < 32
    ensures Symbol(v)
  {
  }

  /** The high bits of each character, a zero, and the low bits of each character. */
  function HrpExpand(hrp: Text): (vs: seq<bv32>)
    ensures |vs| == 2 * |hrp| + 1
  {
    Words(Highs(hrp)) + [0] + Words(Lows(hrp))
  }

  function Highs(hrp: Text): (d: seq<Byte>)
    ensures |d| == |hrp| && forall i :: 0 <= i < |d| ==> d[i] == hrp[i] / 32
  {
    if hrp == [] then [] else Highs(hrp[..|hrp| - 1]) + [hrp[|hrp| - 1] / 32]
  }

  function Lows(hrp: Text): (d: seq<Byte>)
    ensures |d| == |hrp| && forall i :: 0 <= i < |d| ==> d[i] == hrp[i] % 32
  {
    if hrp == [] then [] else Lows(hrp[..|hrp| - 1]) + [hrp[|hrp| - 1] % 32]
  }

  function Checksum(hrp: Text, data: seq<Byte>): (c: seq<Byte>)
    ensures |c| == 6 && FiveBits(c)
  {
    var p := Xor(Fold(1, HrpExpand(hrp) + Words(data) + Zeros(6)), 1);
    ChecksumIsSymbols(hrp, data);
    Numbers(Parts(p))
  }

  predicate VerifyChecksum(hrp: Text, data: seq<Byte>) { Fold(1, HrpExpand(hrp) + Words(data)) == 1 }

  lemma {:induction false} FoldAppend(chk: bv32, a: seq<bv32>, b: seq<bv32>)
    ensures Fold(chk, a + b) == Fold(Fold(chk, a), b)
    decreases |b|
  {
    hide Step;
    if b == [] {
      assert a + b == a;
    } else {
      var n := |b| - 1;
      FoldAppend(chk, a, b[..n]);
      assert (a + b)[..|a| + n] == a + b[..n];
    }
  }

  lemma ChecksumIsSymbols(hrp: Text, data: seq<Byte>)
    ensures Symbols(Parts(Xor(Fold(1, HrpExpand(hrp) + Words(data) + Zeros(6)), 1)))
  {
    hide Step, Parts, Symbols, Xor, Word, Fold, HrpExpand;
    var v := HrpExpand(hrp) + Words(data);
    FoldAppend(1, v, Zeros(6));
    FoldWord(Fold(1, v));
    XorWord(Fold(1, v + Zeros(6)));
    PackParts(Xor(Fold(1, v + Zeros(6)), 1));
  }

  /** Six symbols after the data verify if and only if they are its checksum. */
  lemma ChecksumVerifiesIff(hrp: Text, data: seq<Byte>, c: seq<Byte>)
    requires |c| == 6 && FiveBits(c)
    ensures VerifyChecksum(hrp, data + c) <==> c == Checksum(hrp, data)
  {
    hide Step, Parts, Xor, Fold, HrpExpand, Symbol, WordOf, NumberOf;
    var v := HrpExpand(hrp) + Words(data);
    assert Symbols(Words(c)) by { WordsAreSymbols(c); }
    assert HrpExpand(hrp) + Words(data + c) == v + Words(c);
    FoldAppend(1, v, Words(c));
    FoldAppend(1, v, Zeros(6));
    CheckIff(Fold(1, v), Words(c));
    ChecksumIsSymbols(hrp, data);
    var parts := Parts(Xor(Fold(1, v + Zeros(6)), 1));
    WordsOfNumbers(parts);
    NumbersOfWords(c);
  }

  lemma WordsAreSymbols(c: seq<Byte>)
    requires FiveBits(c)
    ensures Symbols(Words(c))
  {
    hide WordOf, NumberOf, Symbol;
    forall i | 0 <= i < |c|
      ensures Symbol(Words(c)[i])
    {
      SmallIsSymbol(c[i]);
    }
  }

  lemma WordsOfNumbers(vs: seq<bv32>)
    requires Symbols(vs)
    ensures Words(Numbers(vs)) == vs
  {
    hide WordOf, NumberOf, Symbol;
    forall i | 0 <= i < |vs|
      ensures Words(Numbers(vs))[i] == vs[i]
    {
      SymbolIsSmall(vs[i]);
    }
  }

  lemma NumbersOfWords(c: seq<Byte>)
    requires FiveBits(c)
    ensures Symbols(Words(c)) && Numbers(Words(c)) == c
  {
    hide WordOf, NumberOf, Symbol;
    WordsAreSymbols(c);
    forall i | 0 <= i < |c|
      ensures Numbers(Words(c))[i] == c[i]
    {
      SmallIsSymbol(c[i]);
    }
  }

  // ---- strings ------------------------------------------------------------------------------------------------------

  function Encoded(hrp: Text, data: seq<Byte>): (r: Option<Text>) {
    if FiveBits(data) then Some(hrp + [SEPARATOR] + ToChars(data + Checksum(hrp, data))) else None
  }

  predicate Printable(t: Text) { forall i :: 0 <= i < |t| ==> 33 <= t[i] <= 126 }

  predicate OneCase(t: Text) { t == Lower(t) || t == Upper(t) }

  /** The last place of a character, or -1. */
  function LastIndex(t: Text, c: Byte): (r: int)
    ensures -1 <= r < |t|
    ensures r >= 0 ==> t[r] == c
    ensures forall j :: r < j < |t| ==> t[j] != c
  {
    if t == [] then -1 else if t[|t| - 1] == c then |t| - 1 else LastIndex(t[..|t| - 1], c)
  }

  function Decoded(text: Text): (r: Option<(Text, seq<Byte>)>) {
    if |text| < 8 || |text| > 90 || !Printable(text) || !OneCase(text) then None
    else
      var t := Lower(text);
      var one := LastIndex(t, SEPARATOR);
      if one < 1 || one + 7 > |t| then None
      else
        var d := ToBytes(t[one + 1..]);
        if d.None? || |d.value| < 6 || !VerifyChecksum(t[..one], d.value) then None
        else Some((t[..one], d.value[..|d.value| - 6]))
  }

  /** Human-readable parts that survive: not empty, printable, no upper case, and short enough for the whole string. */
  predicate Readable(hrp: Text, data: seq<Byte>) {
    |hrp| >= 1 && Printable(hrp) && hrp == Lower(hrp) && |hrp| + |data| + 7 <= 90
  }

  lemma CharsAreFine(d: seq<Byte>)
    requires FiveBits(d)
    ensures Printable(ToChars(d)) && Lower(ToChars(d)) == ToChars(d) && SEPARATOR !in ToChars(d)
  {
    forall i | 0 <= i < |d|
      ensures 33 <= ToChars(d)[i] <= 126 && LowerOf(ToChars(d)[i]) == ToChars(d)[i] && ToChars(d)[i] != SEPARATOR
    {
      IndexOfChar(d[i]);
      assert Lower([CHARSET[d[i]]])[0] == LowerOf(CHARSET[d[i]]);
    }
  }

  lemma LastIsSeparator(hrp: Text, t: Text)
    requires SEPARATOR !in t
    ensures LastIndex(hrp + [SEPARATOR] + t, SEPARATOR) == |hrp|
  {
    hide LastIndex;
    var whole := hrp + [SEPARATOR] + t;
    var r := LastIndex(whole, SEPARATOR);
    assert whole[|hrp|] == SEPARATOR;
  }

  lemma WholeIsFine(hrp: Text, chars: Text)
    requires Printable(hrp) && hrp == Lower(hrp) && Printable(chars) && Lower(chars) == chars
    ensures var text := hrp + [SEPARATOR] + chars; Printable(text) && text == Lower(text)
  {
    hide Lower;
    var text := hrp + [SEPARATOR] + chars;
    forall i | 0 <= i < |text|
      ensures 33 <= text[i] <= 126 && text[i] == LowerOf(text[i])
    {
      assert i < |hrp| ==> text[i] == hrp[i] == Lower(hrp)[i];
      assert i > |hrp| ==> text[i] == chars[i - |hrp| - 1] == Lower(chars)[i - |hrp| - 1];
    }
  }

  lemma DecodesBack(hrp: Text, data: seq<Byte>)
    requires FiveBits(data) && Readable(hrp, data)
    ensures Decoded(Encoded(hrp, data).value) == Some((hrp, data))
  {
    hide LastIndex, ToBytes, VerifyChecksum, Checksum, ToChars, Lower, Upper, Printable;
    var d := data + Checksum(hrp, data);
    var chars := ToChars(d);
    var text := hrp + [SEPARATOR] + chars;
    CharsAreFine(d);
    WholeIsFine(hrp, chars);
    LastIsSeparator(hrp, chars);
    assert text[|hrp| + 1..] == chars && text[..|hrp|] == hrp;
    BytesOfChars(d);
    ChecksumVerifiesIff(hrp, data, Checksum(hrp, data));
    assert d[..|d| - 6] == data;
  }

  /** Decoding what was encoded gives back the two parts if and only if the human-readable part is one that survives. */
  lemma DecodeEncodeIff(hrp: Text, data: seq<Byte>)
    requires FiveBits(data)
    ensures Encoded(hrp, data).Some?
    ensures Decoded(Encoded(hrp, data).value) == Some((hrp, data)) <==> Readable(hrp, data)
  {
    hide Decoded, Checksum, ToChars, Readable;
    var text := Encoded(hrp, data).value;
    if Readable(hrp, data) {
      DecodesBack(hrp, data);
    } else if Decoded(text) == Some((hrp, data)) {
      NotReadable(hrp, data, text);
    }
  }

  lemma NotReadable(hrp: Text, data: seq<Byte>, text: Text)
    requires hrp <= text && |text| == |hrp| + |data| + 7 && Decoded(text) == Some((hrp, data))
    ensures Readable(hrp, data)
  {
    hide VerifyChecksum, ToBytes;
    var t := Lower(text);
    forall i | 0 <= i < |hrp|
      ensures 33 <= hrp[i] <= 126 && hrp[i] == LowerOf(hrp[i])
    {
      assert hrp[i] == text[i] && t[i] == LowerOf(text[i]);
    }
    assert hrp == Lower(hrp);
  }

  /** Whatever decodes is the encoding of its parts, up to upper case. */
  lemma EncodeDecode(text: Text)
    requires Decoded(text).Some?
    ensures var (hrp, data) := Decoded(text).value;
            FiveBits(data) && Encoded(hrp, data) == Some(Lower(text))
  {
    hide LastIndex, ToBytes, VerifyChecksum, Checksum, ToChars, Lower, Upper, Printable;
    var t := Lower(text);
    var one := LastIndex(t, SEPARATOR);
    var d := ToBytes(t[one + 1..]).value;
    var hrp, data, c := t[..one], d[..|d| - 6], d[|d| - 6..];
    CharsOfBytes(t[one + 1..]);
    assert d == data + c;
    ChecksumVerifiesIff(hrp, data, c);
    assert t == hrp + [SEPARATOR] + t[one + 1..];
  }

  lemma UpperOfLower(t: Text)
    ensures Upper(Lower(t)) == Upper(t) && (t == Lower(t) ==> Lower(Upper(t)) == t)
  {
    hide Lower, Upper;
    assert forall i :: 0 <= i < |t| && t == Lower(t) ==> t[i] == LowerOf(t[i]);
  }

  lemma UpperIsPrintable(t: Text)
    requires Printable(t)
    ensures Printable(Upper(t)) && Upper(Upper(t)) == Upper(t)
  {
    hide Lower;
  }

  lemma UpperDecodes(text: Text)
    requires Decoded(text).Some? && text == Lower(text)
    ensures Decoded(Upper(text)) == Decoded(text)
  {
    hide LastIndex, ToBytes, VerifyChecksum, Lower, Upper, Printable;
    UpperOfLower(text);
    UpperIsPrintable(text);
  }

  /** Exactly these texts decode: the encodings of a readable part and 5-bit data, and those all in upper case. */
  lemma DecodesIff(text: Text, hrp: Text, data: seq<Byte>)
    ensures Decoded(text) == Some((hrp, data))
       <==> && FiveBits(data) && Readable(hrp, data)
            && (text == Encoded(hrp, data).value || text == Upper(Encoded(hrp, data).value))
  {
    hide LastIndex, ToBytes, VerifyChecksum, Checksum, ToChars, Lower, Upper, Printable, Readable;
    if Decoded(text) == Some((hrp, data)) {
      EncodeDecode(text);
      UpperOfLower(text);
      LowerDecodes(text);
      DecodeEncodeIff(hrp, data);
    } else if FiveBits(data) && Readable(hrp, data) {
      var t := Encoded(hrp, data).value;
      DecodeEncodeIff(hrp, data);
      EncodeDecode(t);
      UpperDecodes(t);
    }
  }

  lemma LowerDecodes(text: Text)
    requires Decoded(text).Some?
    ensures Decoded(Lower(text)) == Decoded(text)
  {
    hide LastIndex, ToBytes, VerifyChecksum;
    assert Lower(Lower(text)) == Lower(text);
    assert Printable(Lower(text));
  }

  /** No text with letters of both cases decodes. */
  lemma NoMixedCase(text: Text, i: nat, j: nat)
    requires i < |text| && j < |text| && 65 <= text[i] <= 90 && 97 <= text[j] <= 122
    ensures Decoded(text).None?
  {
    hide LastIndex, ToBytes, VerifyChecksum;
    assert Lower(text)[i] != text[i] && Upper(text)[j] != text[j];
  }
}
