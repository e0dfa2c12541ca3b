/** Base58: a byte string read as one number and written with 58 characters; zero bytes in front become ones. */
module Base58 {
  import R = Radix

  type Byte = n: nat | n < 256
  type Text = seq<Byte>

  /** The alphabet: the digits 1 to 9 and the letters without I, O and l. */
  function Char(d: nat): (c: Byte)
    requires d < 58
  {
    if d < 9 then 49 + d
    else if d < 17 then 56 + d
    else if d < 22 then 57 + d
    else if d < 33 then 58 + d
    else if d < 44 then 64 + d
    else 65 + d
  }

  const ONE: Byte := 49

  /** The value of a character, or 255. */
  function Index(c: Byte): (r: Byte) {
    if 49 <= c <= 57 then c - 49
    else if 65 <= c <= 72 then c - 56
    else if 74 <= c <= 78 then c - 57
    else if 80 <= c <= 90 then c - 58
    else if 97 <= c <= 107 then c - 64
    else if 109 <= c <= 122 then c - 65
    else 255
  }

  /** The alphabet, read out. */
  lemma AlphabetIs(d: nat)
    requires d < 58
    ensures d < 9 ==> Char(d) == "123456789"[d] as nat
    ensures 9 <= d < 17 ==> Char(d) == "ABCDEFGH"[d - 9] as nat
    ensures 17 <= d < 22 ==> Char(d) == "JKLMN"[d - 17] as nat
    ensures 22 <= d < 33 ==> Char(d) == "PQRSTUVWXYZ"[d - 22] as nat
    ensures 33 <= d < 44 ==> Char(d) == "abcdefghijk"[d - 33] as nat
    ensures 44 <= d ==> Char(d) == "mnopqrstuvwxyz"[d - 44] as nat
  {
  }

  lemma IndexOfChar(i: nat)
    requires i < 58
    ensures Index(Char(i)) == i
  {
  }

  lemma CharOfIndex(c: Byte)
    ensures Index(c) != 255 ==> Index(c) < 58 && Char(Index(c)) == c
  {
  }

  function Chars(ds: seq<nat>): (t: Text)
    requires R.Below(ds, 58)
    ensures |t| == |ds| && forall i :: 0 <= i < |ds| ==> t[i] == Char(ds[i])
  {
    seq(|ds|, i requires 0 <= i < |ds| => Char(ds[i]))
  }

  predicate Known(t: Text) { forall i :: 0 <= i < |t| ==> Index(t[i]) != 255 }

  function Indices(t: Text): (ds: seq<nat>)
    ensures |ds| == |t| && forall i :: 0 <= i < |t| ==> ds[i] == Index(t[i])
  {
    seq(|t|, i requires 0 <= i < |t| => Index(t[i]))
  }

  lemma KnownIsBelow(t: Text)
    requires Known(t)
    ensures R.Below(Indices(t), 58) && Chars(Indices(t)) == t
  {
    hide Index;
    forall i | 0 <= i < |t|
      ensures Index(t[i]) < 58 && Char(Index(t[i])) == t[i]
    {
      CharOfIndex(t[i]);
    }
  }

  lemma CharsAreKnown(ds: seq<nat>)
    requires R.Below(ds, 58)
    ensures Known(Chars(ds)) && Indices(Chars(ds)) == ds
  {
    hide Index;
    forall i | 0 <= i < |ds|
      ensures Index(Char(ds[i])) == ds[i]
    {
      IndexOfChar(ds[i]);
    }
  }

  /** The characters of a byte string. */
  function Encoded(b: seq<Byte>): (t: Text) { Chars(R.Convert(b, 256, 58)) }

  /** The bytes of a text; none if a character is unknown. */
  function Decoded(t: Text): (b: seq<Byte>) {
    if Known(t) then
      var b: seq<nat> := R.Convert(Indices(t), 58, 256);
      b
    else []
  }

  lemma DecodeEncode(b: seq<Byte>)
    ensures Decoded(Encoded(b)) == b
  {
    hide R.Convert;
    CharsAreKnown(R.Convert(b, 256, 58));
    R.ThereAndBack(b, 256, 58);
  }

  /** Exactly the texts over the alphabet come back. */
  lemma EncodeDecodeIff(t: Text)
    ensures Encoded(Decoded(t)) == t <==> Known(t)
  {
    hide R.Convert, Index;
    if Known(t) {
      KnownIsBelow(t);
      R.ThereAndBack(Indices(t), 58, 256);
    } else {
      CharsAreKnown(R.Convert([], 256, 58));
    }
  }

  // ---- the loops ----------------------------------------------------------------------------------------------------

  function Power(n: nat): (r: nat) { if n == 0 then 1 else Power(n - 1) * 58 }

  lemma {:induction false} ValueCons(d: nat, ds: seq<nat>)
    ensures R.Value([d] + ds, 58) == Power(|ds|) * d + R.Value(ds, 58)
    decreases |ds|
  {
    if ds == [] {
      assert [d] + ds == [d];
    } else {
      var front, last := ds[..|ds| - 1], ds[|ds| - 1];
      ValueCons(d, front);
      assert ([d] + ds)[..|ds|] == [d] + front;
      assert (Power(|front|) * d + R.Value(front, 58)) * 58 == Power(|ds|) * d + R.Value(front, 58) * 58 by {
        Spread(Power(|front|), d, R.Value(front, 58));
      }
    }
  }

  lemma Spread(p: nat, d: nat, v: nat)
    ensures (p * d + v) * 58 == p * 58 * d + v * 58
  {
  }

  method Reverse(a: array<Byte>)
    modifies a
    ensures forall i :: 0 <= i < a.Length ==> a[i] == old(a[a.Length - 1 - i])
  {
    for i := 0 to a.Length / 2
      invariant forall j :: 0 <= j < i ==> a[j] == old(a[a.Length - 1 - j]) && a[a.Length - 1 - j] == old(a[j])
      invariant forall j :: i <= j < a.Length - i ==> a[j] == old(a[j])
    {
      a[i], a[a.Length - 1 - i] := a[a.Length - 1 - i], a[i];
    }
  }

  predicate Reversed(s: Text, t: Text) {
    |s| == |t| && forall i :: 0 <= i < |s| ==> t[i] == s[|s| - 1 - i]
  }

  /** The digits of a number, the lowest first. */
  method MakeChars(n: nat) returns (answer: Text)
    ensures Reversed(answer, Chars(R.Digits(n, 58)))
  {
    hide R.Digits, Char;
    var x := n;
    answer := [];
    ghost var ds: seq<nat> := [];
    assert R.Digits(n, 58) + [] == R.Digits(n, 58);
    while x > 0
      invariant R.Below(ds, 58) && Reversed(answer, Chars(ds))
      invariant R.Digits(n, 58) == R.Digits(x, 58) + ds
    {
      R.DigitsNext(x, 58);
      assert R.Digits(x / 58, 58) + [x % 58] + ds == R.Digits(x / 58, 58) + ([x % 58] + ds);
      ds := [x % 58] + ds;
      answer := answer + [Char(x % 58)];
      x := x / 58;
    }
    R.DigitsOfZero(58);
    assert [] + ds == ds;
  }

  /** A one for every zero byte in front. */
  method AddOnes(b: seq<Byte>, answer: Text, ghost ds: seq<nat>) returns (t: Text)
    requires R.Below(ds, 58) && Reversed(answer, Chars(ds))
    ensures Reversed(t, Chars(R.Zeros(R.Leading(b)) + ds))
  {
    hide Reversed, R.Leading, R.Zeros;
    t := answer;
    var i := 0;
    assert R.Zeros(0) + ds == ds;
    while i < |b| && b[i] == 0
      invariant 0 <= i <= |b| && forall j :: 0 <= j < i ==> b[j] == 0
      invariant Reversed(t, Chars(R.Zeros(i) + ds))
    {
      OneMoreOne(t, R.Zeros(i) + ds);
      assert R.Zeros(i + 1) + ds == [0] + (R.Zeros(i) + ds);
      t := t + [ONE];
      i := i + 1;
    }
    R.LeadingOnce(b, i);
  }

  lemma OneMoreOne(t: Text, ds: seq<nat>)
    requires R.Below(ds, 58) && Reversed(t, Chars(ds))
    ensures Reversed(t + [ONE], Chars([0] + ds))
  {
    forall i | 0 <= i <= |ds|
      ensures Chars([0] + ds)[i] == (t + [ONE])[|ds| - i]
    {
      assert i > 0 ==> Chars([0] + ds)[i] == Chars(ds)[i - 1];
    }
  }

  method Encode(b: seq<Byte>) returns (t: Text)
    ensures t == Encoded(b) && Decoded(t) == b
  {
    hide R.Digits, R.Value, R.Leading, Reversed;
    var answer := MakeChars(R.Value(b, 256));
    answer := AddOnes(b, answer, R.Digits(R.Value(b, 256), 58));
    t := Backwards(answer);
    ReversedOnce(answer, t, Encoded(b));
    DecodeEncode(b);
  }

  method Backwards(answer: Text) returns (t: Text)
    ensures Reversed(answer, t)
  {
    var a := new Byte[|answer|](j requires 0 <= j < |answer| => answer[j]);
    Reverse(a);
    t := a[..];
  }

  lemma ReversedOnce(s: Text, t: Text, u: Text)
    requires Reversed(s, u) && Reversed(s, t)
    ensures t == u
  {
  }

  /** The value of a text, from the last character on. */
  method ReadNumber(t: Text) returns (known: bool, answer: nat)
    ensures known == Known(t) && (known ==> answer == R.Value(Indices(t), 58))
  {
    hide Index, R.Value, Power;
    answer := 0;
    var j: nat, i := 1, |t| - 1;
    NothingRead(t[|t|..]);
    while i >= 0
      invariant -1 <= i < |t|
      invariant Known(t[i + 1..]) && j == Power(|t| - 1 - i) && answer == R.Value(Indices(t[i + 1..]), 58)
    {
      var tmp := Index(t[i]);
      if tmp == 255 {
        return false, 0;
      }
      assert t[i..][1..] == t[i + 1..];
      ReadOneMore(t[i..], tmp);
      answer := answer + j * tmp;
      j := j * 58;
      i := i - 1;
    }
    assert t[0..] == t;
    return true, answer;
  }

  lemma NothingRead(t: Text)
    requires t == []
    ensures Known(t) && Power(0) == 1 && R.Value(Indices(t), 58) == 0
  {
  }

  lemma ReadOneMore(t: Text, d: Byte)
    requires t != [] && Index(t[0]) == d && d != 255 && Known(t[1..])
    ensures Known(t) && Power(|t|) == Power(|t| - 1) * 58
    ensures R.Value(Indices(t), 58) == R.Value(Indices(t[1..]), 58) + Power(|t| - 1) * d
  {
    hide Index, R.Value;
    assert Indices(t) == [d as nat] + Indices(t[1..]);
    ValueCons(d, Indices(t[1..]));
    assert forall i :: 1 <= i < |t| ==> t[i] == t[1..][i - 1];
  }

  method Decode(t: Text) returns (b: seq<Byte>)
    ensures b == Decoded(t) && (Known(t) ==> Encoded(b) == t)
  {
    hide R.Digits, R.Value, R.Leading, Index;
    EncodeDecodeIff(t);
    var known, answer := ReadNumber(t);
    if !known {
      return [];
    }
    var tmpval: seq<nat> := R.Digits(answer, 256);
    var zeros := 0;
    while zeros < |t| && t[zeros] == ONE
      invariant 0 <= zeros <= |t| && forall i :: 0 <= i < zeros ==> t[i] == ONE
    {
      zeros := zeros + 1;
    }
    OnesAreZeros(t, zeros);
    var all: seq<nat> := R.Zeros(zeros) + tmpval;
    b := all;
  }

  lemma OnesAreZeros(t: Text, k: nat)
    requires Known(t) && k <= |t| && (forall i :: 0 <= i < k ==> t[i] == ONE) && (k < |t| ==> t[k] != ONE)
    ensures R.Leading(Indices(t)) == k
  {
    if k < |t| {
      CharOfIndex(t[k]);
    }
    R.LeadingOnce(Indices(t), k);
  }
}
