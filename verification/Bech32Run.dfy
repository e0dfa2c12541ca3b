/** Bech32 encoding and decoding loop by loop. */
module Bech32Run {
  import opened Options
  import opened P = Polymod
  import opened Bech32

  /** Takes symbols in one by one; each bit shifted out brings its generator in. */
  method TakeIn(chk: bv32, v: bv32) returns (r: bv32)
    ensures r == Step(chk, v)
  {
    var b := chk >> 25;
    r := ((chk & 0x1ffffff) << 5) ^ v;
    var g: bv32 := 0;
    if b & 1 == 1 {
      g := g ^ 0x3b6a57b2;
    }
    if b & 2 == 2 {
      g := g ^ 0x26508e6d;
    }
    if b & 4 == 4 {
      g := g ^ 0x1ea119fa;
    }
    if b & 8 == 8 {
      g := g ^ 0x3d4233dd;
    }
    if b & 16 == 16 {
      g := g ^ 0x2a1462b3;
    }
    assert g == Feedback(chk);
    r := r ^ g;
  }

  method PolymodOf(values: seq<bv32>) returns (chk: bv32)
    ensures chk == Fold(1, values)
  {
    hide Step;
    chk := 1;
    for i := 0 to |values|
      invariant chk == Fold(1, values[..i])
    {
      assert values[..i + 1][..i] == values[..i];
      chk := TakeIn(chk, values[i]);
    }
    assert values[..|values|] == values;
  }

  method SplitChars(hrp: Text) returns (highs: seq<Byte>, lows: seq<Byte>)
    ensures highs == Highs(hrp) && lows == Lows(hrp)
  {
    highs, lows := [], [];
    for i := 0 to |hrp|
      invariant highs == Highs(hrp)[..i] && lows == Lows(hrp)[..i]
    {
      highs := highs + [hrp[i] / 32];
      lows := lows + [hrp[i] % 32];
    }
  }

  method ExpandHrp(hrp: Text) returns (vs: seq<bv32>)
    ensures vs == HrpExpand(hrp)
  {
    hide Words, Highs, Lows;
    var highs, lows := SplitChars(hrp);
    var h := ToWords(highs);
    var l := ToWords(lows);
    vs := h + [0] + l;
  }

  method ToWords(data: seq<Byte>) returns (vs: seq<bv32>)
    ensures vs == Words(data)
  {
    hide WordOf;
    vs := [];
    for i := 0 to |data|
      invariant vs == Words(data)[..i]
    {
      vs := vs + [WordOf(data[i])];
    }
  }

  method MakeChecksum(hrp: Text, data: seq<Byte>) returns (c: seq<Byte>)
    ensures c == Checksum(hrp, data)
  {
    hide Xor, Parts, Fold, NumberOf, Symbol;
    var vs := ExpandHrp(hrp);
    var ws := ToWords(data);
    var chk := PolymodOf(vs + ws + Zeros(6));
    var parts := Parts(Xor(chk, 1));
    ChecksumIsSymbols(hrp, data);
    c := [];
    for i := 0 to 6
      invariant c == Numbers(parts)[..i]
    {
      c := c + [NumberOf(parts[i])];
    }
  }

  method CheckChecksum(hrp: Text, data: seq<Byte>) returns (ok: bool)
    ensures ok == VerifyChecksum(hrp, data)
  {
    hide Fold;
    var vs := ExpandHrp(hrp);
    var ws := ToWords(data);
    var chk := PolymodOf(vs + ws);
    ok := chk == 1;
  }

  method MakeChars(data: seq<Byte>) returns (r: Option<Text>)
    ensures r == if FiveBits(data) then Some(ToChars(data)) else None
  {
    var t: Text := [];
    for i := 0 to |data|
      invariant FiveBits(data[..i]) && |t| == i && forall j :: 0 <= j < i ==> t[j] == CHARSET[data[j]]
    {
      if data[i] >= 32 {
        return None;
      }
      t := t + [CHARSET[data[i]]];
    }
    assert data[..|data|] == data;
    assert t == ToChars(data);
    r := Some(t);
  }

  /** Looks each character up in the character set. */
  method MakeBytes(t: Text) returns (r: Option<seq<Byte>>)
    ensures r == ToBytes(t)
  {
    var d: seq<Byte> := [];
    for i := 0 to |t|
      invariant ToBytes(t[..i]) == Some(d)
    {
      assert t[..i + 1][..i] == t[..i];
      var k := IndexByte(t[i]);
      if k.None? {
        StaysBad(t, i + 1);
        return None;
      }
      d := d + [k.value];
    }
    assert t[..|t|] == t;
    r := Some(d);
  }

  method IndexByte(c: Byte) returns (r: Option<Byte>)
    ensures r == Index(c)
  {
    for i := 0 to 32
      invariant forall j :: 0 <= j < i ==> CHARSET[j] != c
    {
      if CHARSET[i] == c {
        IndexOfChar(i);
        return Some(i);
      }
    }
    if Index(c).Some? {
      CharOfIndex(c);
    }
    r := None;
  }

  lemma {:induction false} StaysBad(t: Text, n: nat)
    requires n <= |t| && ToBytes(t[..n]).None?
    ensures ToBytes(t).None?
    decreases |t| - n
  {
    if n == |t| {
      assert t[..n] == t;
    } else {
      assert t[..n + 1][..n] == t[..n];
      StaysBad(t, n + 1);
    }
  }

  method Encode(hrp: Text, data: seq<Byte>) returns (r: Option<Text>)
    ensures r == Encoded(hrp, data)
  {
    hide Checksum, ToChars;
    var c := MakeChecksum(hrp, data);
    var chars := MakeChars(data + c);
    assert forall i :: 0 <= i < |data| ==> data[i] == (data + c)[i];
    r := if chars.None? then None else Some(hrp + [SEPARATOR] + chars.value);
  }

  method Decode(text: Text) returns (r: Option<(Text, seq<Byte>)>)
    ensures r == Decoded(text)
  {
    hide VerifyChecksum, ToBytes, LastIndex, Lower, Upper;
    if |text| < 8 || |text| > 90 {
      return None;
    }
    for i := 0 to |text|
      invariant Printable(text[..i])
    {
      if text[i] < 33 || text[i] > 126 {
        return None;
      }
    }
    assert text[..|text|] == text;
    var lower, upper := MapCase(text);
    if text != lower && text != upper {
      return None;
    }
    var one := FindLast(lower);
    if one < 1 || one + 7 > |lower| {
      return None;
    }
    var hrp := lower[..one];
    var d := MakeBytes(lower[one + 1..]);
    if d.None? {
      return None;
    }
    CharsOfBytes(lower[one + 1..]);
    var ok := CheckChecksum(hrp, d.value);
    if !ok {
      return None;
    }
    r := Some((hrp, d.value[..|d.value| - 6]));
  }

  method MapCase(t: Text) returns (lower: Text, upper: Text)
    ensures lower == Lower(t) && upper == Upper(t)
  {
    lower, upper := [], [];
    for i := 0 to |t|
      invariant lower == Lower(t)[..i] && upper == Upper(t)[..i]
    {
      lower := lower + [LowerOf(t[i])];
      upper := upper + [UpperOf(t[i])];
    }
  }

  method FindLast(t: Text) returns (one: int)
    ensures one == LastIndex(t, SEPARATOR)
  {
    one := |t| - 1;
    while one >= 0 && t[one] != SEPARATOR
      invariant -1 <= one < |t|
      invariant LastIndex(t[..one + 1], SEPARATOR) == LastIndex(t, SEPARATOR)
    {
      assert t[..one + 1][..one] == t[..one];
      one := one - 1;
    }
  }
}
