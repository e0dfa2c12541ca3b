/** Compression of byte strings with many zeros: a bit for every byte, compressed in turn, then the bytes that are not
    zero. */
module Bitset {
  type Bytes = seq<bv8>

  datatype Error = MissingData | UnreferencedData | ExceededTarget | ZeroContent
  datatype Result<+T> = Ok(value: T) | Err(error: Error)

  // ---- bits of bytes ------------------------------------------------------------------------------------------------

  /** The bit of place `k`, the highest first. */
  function Mask(k: nat): (m: bv8)
    requires k < 8
  {
    1 << (7 - k)
  }

  function Bit(x: bv8, k: nat): (b: bool)
    requires k < 8
  {
    x & Mask(k) != 0
  }

  function With(x: bv8, k: nat): (y: bv8)
    requires k < 8
  {
    x | Mask(k)
  }

  lemma Masks()
    ensures Mask(0) == 0x80 && Mask(1) == 0x40 && Mask(2) == 0x20 && Mask(3) == 0x10
    ensures Mask(4) == 0x08 && Mask(5) == 0x04 && Mask(6) == 0x02 && Mask(7) == 0x01
  {
  }

  lemma ZeroBits(k: nat)
    requires k < 8
    ensures !Bit(0, k)
  {
    Masks();
    hide Mask;
  }

  lemma WithBit(x: bv8, k: nat, l: nat)
    requires k < 8 && l < 8
    ensures Bit(With(x, k), l) <==> Bit(x, l) || k == l
  {
    Masks();
    hide Mask;
  }

  /** A byte is its bits. */
  lemma SameByte(x: bv8, y: bv8)
    requires forall k :: 0 <= k < 8 ==> Bit(x, k) == Bit(y, k)
    ensures x == y
  {
    Masks();
    hide Mask;
    assert Bit(x, 0) == Bit(y, 0) && Bit(x, 1) == Bit(y, 1) && Bit(x, 2) == Bit(y, 2) && Bit(x, 3) == Bit(y, 3);
    assert Bit(x, 4) == Bit(y, 4) && Bit(x, 5) == Bit(y, 5) && Bit(x, 6) == Bit(y, 6) && Bit(x, 7) == Bit(y, 7);
  }

  /** Bit `i` of a string of bytes. */
  predicate At(bs: Bytes, i: nat)
    requires i < 8 * |bs|
  {
    Bit(bs[i / 8], i % 8)
  }

  lemma SameBits(a: Bytes, b: Bytes)
    requires |a| == |b| && forall i :: 0 <= i < 8 * |a| ==> At(a, i) == At(b, i)
    ensures a == b
  {
    hide Bit;
    forall j | 0 <= j < |a|
      ensures a[j] == b[j]
    {
      forall k | 0 <= k < 8
        ensures Bit(a[j], k) == Bit(b[j], k)
      {
        assert At(a, 8 * j + k) == At(b, 8 * j + k);
      }
      SameByte(a[j], b[j]);
    }
  }

  lemma SetBit(s: Bytes, i: nat, j: nat)
    requires i < 8 * |s| && j < 8 * |s|
    ensures At(s[i / 8 := With(s[i / 8], i % 8)], j) <==> At(s, j) || i == j
  {
    hide Bit, With;
    WithBit(s[i / 8], i % 8, j % 8);
  }

  // ---- compression --------------------------------------------------------------------------------------------------

  function Zeros(n: nat): (z: Bytes)
    ensures |z| == n && forall i :: 0 <= i < n ==> z[i] == 0
  {
    seq(n, _ => 0)
  }

  function Length(n: nat): (m: nat)
    ensures n <= 8 * m < n + 8
  {
    (n + 7) / 8
  }

  function NonZero(d: Bytes): (r: Bytes)
    ensures r == [] <==> d == Zeros(|d|)
  {
    if d == [] then []
    else
      var front := d[..|d| - 1];
      var last := d[|d| - 1];
      assert d == front + [last];
      NonZero(front) + if last == 0 then [] else [last]
  }

  /** The bits that say which of the bytes are not zero, set one after the other. */
  function Marked(d: Bytes, m: nat): (r: Bytes)
    requires |d| <= 8 * m
    ensures |r| == m
  {
    if d == [] then Zeros(m)
    else
      var i := |d| - 1;
      var r := Marked(d[..i], m);
      if d[i] == 0 then r else r[i / 8 := With(r[i / 8], i % 8)]
  }

  lemma {:induction false} MarkedAt(d: Bytes, m: nat, j: nat)
    requires |d| <= 8 * m && j < 8 * m
    ensures At(Marked(d, m), j) <==> j < |d| && d[j] != 0
    decreases |d|
  {
    hide Bit, With;
    if d == [] {
      ZeroBits(j % 8);
    } else {
      var i := |d| - 1;
      MarkedAt(d[..i], m, j);
      SetBit(Marked(d[..i], m), i, j);
    }
  }

  /** The compressed form. */
  function Encode(d: Bytes): (r: Bytes)
    decreases |d|
  {
    if |d| == 0 then []
    else if |d| == 1 then if d[0] == 0 then [] else d
    else if NonZero(d) == [] then []
    else Encode(Marked(d, Length(|d|))) + NonZero(d)
  }

  // ---- decompression ------------------------------------------------------------------------------------------------

  /** One bit dealt with: a zero, or the next byte of the data. */
  function Take(bit: bool, i: nat, data: Bytes, out: Bytes, next: nat, target: nat): (r: Result<(Bytes, nat)>)
    requires next <= |data| && |out| == Least(i, target)
    ensures r.Ok? ==> |r.value.0| == Least(i + 1, target) && next <= r.value.1 <= |data|
  {
    if !bit then Ok((if i < target then out + [0] else out, next))
    else if next >= |data| then Err(MissingData)
    else if i >= target then Err(ExceededTarget)
    else if data[next] == 0 then Err(ZeroContent)
    else Ok((out + [data[next]], next + 1))
  }

  ghost function Least(i: nat, n: nat): (r: nat) { if i < n then i else n }

  /** The first `i` bits dealt with: the bytes filled in, and how much of the data is used up. */
  function Fill(bits: Bytes, i: nat, data: Bytes, start: nat, target: nat): (r: Result<(Bytes, nat)>)
    requires i <= 8 * |bits| && start <= |data|
    ensures r.Ok? ==> |r.value.0| == Least(i, target) && start <= r.value.1 <= |data|
  {
    if i == 0 then Ok(([], start))
    else
      var before := Fill(bits, i - 1, data, start, target);
      if before.Err? then before
      else Take(At(bits, i - 1), i - 1, data, before.value.0, before.value.1, target)
  }

  /** Decompresses a part of the data; says how much of it was used. */
  function Partial(data: Bytes, target: nat): (r: Result<(Bytes, nat)>)
    ensures r.Ok? ==> |r.value.0| == target && r.value.1 <= |data|
    decreases target
  {
    if target == 0 then Ok(([], 0))
    else if |data| == 0 then Ok((Zeros(target), 0))
    else if target == 1 then Ok(([data[0]], if data[0] != 0 then 1 else 0))
    else
      var bits := Partial(data, Length(target));
      if bits.Err? then bits
      else Fill(bits.value.0, 8 * |bits.value.0|, data, bits.value.1, target)
  }

  function Decode(data: Bytes, target: nat): (r: Result<Bytes>) {
    var p := Partial(data, target);
    if p.Err? then Err(p.error)
    else if p.value.1 != |data| then Err(UnreferencedData)
    else Ok(p.value.0)
  }

  function Compress(data: Bytes): (r: Bytes) {
    if |Encode(data)| < |data| then Encode(data) else data
  }

  function Decompress(data: Bytes, target: nat): (r: Result<Bytes>) {
    if |data| > target then Err(ExceededTarget)
    else if |data| == target then Ok(data)
    else Decode(data, target)
  }

  // ---- there and back -----------------------------------------------------------------------------------------------

  lemma NonZeroSnoc(d: Bytes, i: nat)
    requires i < |d|
    ensures NonZero(d[..i + 1]) == NonZero(d[..i]) + if d[i] == 0 then [] else [d[i]]
  {
    assert d[..i + 1][..i] == d[..i];
  }

  lemma {:induction false} NonZeroPrefix(d: Bytes, i: nat)
    requires i <= |d|
    ensures NonZero(d[..i]) <= NonZero(d)
    decreases |d| - i
  {
    if i < |d| {
      NonZeroPrefix(d, i + 1);
      NonZeroSnoc(d, i);
    } else {
      assert d[..i] == d;
    }
  }

  lemma TakesBack(d: Bytes, i: nat, front: Bytes, rest: Bytes)
    requires i < |d|
    ensures NonZero(d[..i]) <= NonZero(d)
    ensures Take(d[i] != 0, i, front + NonZero(d) + rest, d[..i], |front| + |NonZero(d[..i])|, |d|)
         == Ok((d[..i + 1], |front| + |NonZero(d[..i + 1])|))
  {
    NonZeroSnoc(d, i);
    NonZeroPrefix(d, i);
    NonZeroPrefix(d, i + 1);
    hide NonZero;
    assert d[..i] + [d[i]] == d[..i + 1];
  }

  /** Filling in from the bits and bytes of `d` gives back `d`. */
  lemma {:induction false} FillsBack(d: Bytes, bits: Bytes, i: nat, front: Bytes, rest: Bytes)
    requires |d| <= 8 * |bits| && bits == Marked(d, |bits|) && i <= 8 * |bits|
    ensures Fill(bits, i, front + NonZero(d) + rest, |front|, |d|)
         == Ok((d[..Least(i, |d|)], |front| + |NonZero(d[..Least(i, |d|)])|))
    decreases i
  {
    hide At, Marked, NonZero;
    if i == 0 {
      NothingNonZero();
    } else {
      FillsBack(d, bits, i - 1, front, rest);
      MarkedAt(d, |bits|, i - 1);
      if i <= |d| {
        hide Take;
        TakesBack(d, i - 1, front, rest);
      }
    }
  }

  /** What was compressed is found again in front of any other data; all zeros need the end of the data. */
  lemma {:induction false} DecodesBack(d: Bytes, rest: Bytes)
    requires NonZero(d) != [] || rest == []
    ensures Partial(Encode(d) + rest, |d|) == Ok((d, |Encode(d)|))
    decreases |d|
  {
    hide Partial, NonZero, Marked, Encode, Fill;
    if NonZero(d) == [] || |d| == 1 {
      ShortDecodesBack(d, rest);
    } else {
      var bits := Marked(d, Length(|d|));
      var front, data := Encode(bits), Encode(d) + rest;
      MarksAreNotZero(d, bits);
      DecodesBack(bits, NonZero(d) + rest);
      EncodeSteps(d, bits);
      assert data == front + NonZero(d) + rest == front + (NonZero(d) + rest);
      FillsBack(d, bits, 8 * |bits|, front, rest);
      assert d[..|d|] == d;
      PartialFills(data, |d|, bits, |front|);
    }
  }

  lemma ShortDecodesBack(d: Bytes, rest: Bytes)
    requires if NonZero(d) == [] then rest == [] else |d| == 1
    ensures Partial(Encode(d) + rest, |d|) == Ok((d, |Encode(d)|))
  {
    if NonZero(d) == [] {
      assert d == Zeros(|d|) && Encode(d) + rest == [];
    } else {
      assert d == [d[0]] == Encode(d) && (d + rest)[0] == d[0];
    }
  }

  lemma EncodeSteps(d: Bytes, bits: Bytes)
    requires |d| != 1 && NonZero(d) != [] && bits == Marked(d, Length(|d|))
    ensures |d| >= 2 && Encode(d) == Encode(bits) + NonZero(d)
  {
    hide Marked;
  }

  lemma PartialFills(data: Bytes, target: nat, bits: Bytes, next: nat)
    requires target >= 2 && data != [] && Partial(data, Length(target)) == Ok((bits, next))
    ensures Partial(data, target) == Fill(bits, 8 * |bits|, data, next, target)
  {
    hide Fill;
  }

  lemma MarksAreNotZero(d: Bytes, bits: Bytes)
    requires |d| <= 8 * |bits| && bits == Marked(d, |bits|)
    ensures NonZero(bits) == [] ==> NonZero(d) == []
  {
    if NonZero(bits) == [] {
      forall i | 0 <= i < |d|
        ensures d[i] == 0
      {
        MarkedAt(d, |bits|, i);
        ZeroBits(i % 8);
      }
      assert d == Zeros(|d|);
    }
  }

  /** Whatever is filled in is not zero just where the bits say so, and was taken from the data in order. */
  lemma {:induction false} FilledFrom(bits: Bytes, i: nat, data: Bytes, start: nat, target: nat)
    requires i <= 8 * |bits| && start <= |data| && Fill(bits, i, data, start, target).Ok?
    ensures var (out, next) := Fill(bits, i, data, start, target).value;
            (forall j :: 0 <= j < i ==> (At(bits, j) <==> j < |out| && out[j] != 0))
            && NonZero(out) == data[start..next]
    decreases i
  {
    hide At, NonZero, Take;
    if i > 0 {
      FilledFrom(bits, i - 1, data, start, target);
      var (out, next) := Fill(bits, i - 1, data, start, target).value;
      TakenFrom(At(bits, i - 1), i - 1, data, out, start, next, target);
    } else {
      NothingNonZero();
    }
  }

  lemma TakenFrom(bit: bool, i: nat, data: Bytes, out: Bytes, start: nat, next: nat, target: nat)
    requires start <= next <= |data| && |out| == Least(i, target) && NonZero(out) == data[start..next]
    requires Take(bit, i, data, out, next, target).Ok?
    ensures var (more, after) := Take(bit, i, data, out, next, target).value;
            && out <= more && (bit <==> i < |more| && more[i] != 0)
            && NonZero(more) == data[start..after]
  {
    hide NonZero;
    var (more, after) := Take(bit, i, data, out, next, target).value;
    if i < target {
      NonZeroSnoc(more, i);
      assert more[..i + 1] == more && more[..i] == out;
    }
  }

  lemma NothingNonZero()
    ensures NonZero([]) == []
  {
  }

  lemma ZerosEncode(n: nat)
    ensures Encode(Zeros(n)) == []
  {
  }

  /** Data that is accepted is the compressed form of what it decodes to. */
  lemma {:induction false} EncodesBack(data: Bytes, target: nat)
    requires Partial(data, target).Ok?
    ensures var (out, size) := Partial(data, target).value; Encode(out) == data[..size]
    decreases target
  {
    if target == 0 {
    } else if |data| == 0 {
      ZerosEncode(target);
    } else if target > 1 {
      EncodesBack(data, Length(target));
      var (bits, next) := Partial(data, Length(target)).value;
      PartialFills(data, target, bits, next);
      hide Partial, Fill;
      FillEncodesBack(data, target, bits, next);
    }
  }

  lemma FillEncodesBack(data: Bytes, target: nat, bits: Bytes, next: nat)
    requires target >= 2 && |bits| == Length(target) && next <= |data| && Encode(bits) == data[..next]
    requires Fill(bits, 8 * |bits|, data, next, target).Ok?
    ensures var (out, size) := Fill(bits, 8 * |bits|, data, next, target).value;
            |out| == target && Encode(out) == data[..size]
  {
    hide Fill, At, Marked, NonZero, Encode;
    var (out, size) := Fill(bits, 8 * |bits|, data, next, target).value;
    FilledFrom(bits, 8 * |bits|, data, next, target);
    BitsAreMarks(bits, out);
    assert data[..next] + data[next..size] == data[..size];
    if NonZero(out) == [] {
      MarksOfZeros(out, |bits|);
      ZerosEncode(|bits|);
      ZerosEncode(|out|);
      assert next == 0 && size == 0;
    } else {
      EncodeSteps(out, bits);
    }
  }

  lemma BitsAreMarks(bits: Bytes, out: Bytes)
    requires |out| <= 8 * |bits|
    requires forall j :: 0 <= j < 8 * |bits| ==> (At(bits, j) <==> j < |out| && out[j] != 0)
    ensures bits == Marked(out, |bits|)
  {
    forall j | 0 <= j < 8 * |bits|
      ensures At(bits, j) == At(Marked(out, |bits|), j)
    {
      MarkedAt(out, |bits|, j);
    }
    SameBits(bits, Marked(out, |bits|));
  }

  lemma {:induction false} MarksOfZeros(d: Bytes, m: nat)
    requires |d| <= 8 * m && d == Zeros(|d|)
    ensures Marked(d, m) == Zeros(m)
    decreases |d|
  {
    if d != [] {
      MarksOfZeros(d[..|d| - 1], m);
    }
  }

  /** Decoding accepts exactly the compressed forms, and undoes the compression. */
  lemma DecodeIff(data: Bytes, target: nat, d: Bytes)
    ensures Decode(data, target) == Ok(d) <==> |d| == target && Encode(d) == data
  {
    hide Encode, Partial;
    if Decode(data, target) == Ok(d) {
      EncodesBack(data, target);
      assert data[..|data|] == data;
    }
    if |d| == target && Encode(d) == data {
      DecodesBack(d, []);
      assert data + [] == data;
    }
  }

  /** Every byte string survives. */
  lemma RoundTrip(d: Bytes)
    ensures Decompress(Compress(d), |d|) == Ok(d)
  {
    DecodeIff(Encode(d), |d|, d);
  }

  /** A string that decompresses is the compressed form of the result, unless it was stored as it is though it could be
      shorter. */
  lemma CanonicalIff(data: Bytes, target: nat)
    requires Decompress(data, target).Ok?
    ensures |Decompress(data, target).value| == target
    ensures Compress(Decompress(data, target).value) == data <==> |data| < target || |Encode(data)| >= |data|
  {
    if |data| < target {
      DecodeIff(data, target, Decompress(data, target).value);
    }
  }

  // ---- the loops ----------------------------------------------------------------------------------------------------

  method EncodeBytes(data: Bytes) returns (out: Bytes)
    ensures out == Encode(data)
    decreases |data|
  {
    if |data| == 0 {
      return [];
    }
    if |data| == 1 {
      if data[0] == 0 {
        return [];
      }
      return data;
    }
    var bitset := new bv8[(|data| + 7) / 8](_ => 0);
    var bytes: Bytes := [];
    for i := 0 to |data|
      invariant bitset[..] == Marked(data[..i], bitset.Length)
      invariant bytes == NonZero(data[..i])
    {
      assert data[..i + 1][..i] == data[..i];
      if data[i] != 0 {
        bytes := bytes + [data[i]];
        bitset[i / 8] := With(bitset[i / 8], i % 8);
      }
    }
    assert data[..|data|] == data;
    if |bytes| == 0 {
      return [];
    }
    var front := EncodeBytes(bitset[..]);
    return front + bytes;
  }

  method DecodePartialBytes(data: Bytes, target: nat) returns (r: Result<(Bytes, nat)>)
    ensures r == Partial(data, target)
    decreases target
  {
    if target == 0 {
      return Ok(([], 0));
    }
    var decomp := new bv8[target](_ => 0);
    if |data| == 0 {
      assert decomp[..] == Zeros(target);
      return Ok((decomp[..], 0));
    }
    if target == 1 {
      decomp[0] := data[0];
      assert decomp[..] == [data[0]];
      if data[0] != 0 {
        return Ok((decomp[..], 1));
      }
      return Ok((decomp[..], 0));
    }
    var inner := DecodePartialBytes(data, (target + 7) / 8);
    if inner.Err? {
      return inner;
    }
    var (bits, start) := inner.value;
    r := FillBytes(bits, data, start, decomp);
  }

  method FillBytes(bits: Bytes, data: Bytes, start: nat, decomp: array<bv8>) returns (r: Result<(Bytes, nat)>)
    requires decomp.Length <= 8 * |bits| && start <= |data| && decomp[..] == Zeros(decomp.Length)
    modifies decomp
    ensures r == Fill(bits, 8 * |bits|, data, start, decomp.Length)
  {
    hide Fill, At;
    var ptr, i := start, 0;
    FillStarts(bits, data, start, decomp.Length);
    while i < 8 * |bits|
      invariant 0 <= i <= 8 * |bits| && start <= ptr <= |data|
      invariant Fill(bits, i, data, start, decomp.Length) == Ok((decomp[..Least(i, decomp.Length)], ptr))
      invariant forall j :: i <= j < decomp.Length ==> decomp[j] == 0
    {
      ghost var done := decomp[..Least(i, decomp.Length)];
      FillNext(bits, i, data, start, done, ptr, decomp.Length);
      if At(bits, i) {
        if ptr >= |data| {
          return Err(MissingData);
        }
        if i >= decomp.Length {
          return Err(ExceededTarget);
        }
        if data[ptr] == 0 {
          return Err(ZeroContent);
        }
        decomp[i] := data[ptr];
        ptr := ptr + 1;
      }
      assert i < decomp.Length ==> decomp[..i + 1] == done + [decomp[i]];
      i := i + 1;
    }
    assert decomp[..decomp.Length] == decomp[..];
    return Ok((decomp[..], ptr));
  }

  lemma FillStarts(bits: Bytes, data: Bytes, start: nat, target: nat)
    requires start <= |data|
    ensures Fill(bits, 0, data, start, target) == Ok(([], start))
  {
  }

  /** The next bit; a failure stays. */
  lemma FillNext(bits: Bytes, i: nat, data: Bytes, start: nat, out: Bytes, next: nat, target: nat)
    requires i < 8 * |bits| && start <= |data| && Fill(bits, i, data, start, target) == Ok((out, next))
    ensures Fill(bits, i + 1, data, start, target) == Take(At(bits, i), i, data, out, next, target)
    ensures var r := Take(At(bits, i), i, data, out, next, target);
            r.Err? ==> Fill(bits, 8 * |bits|, data, start, target) == r
  {
    hide Take;
    if Take(At(bits, i), i, data, out, next, target).Err? {
      FillFails(bits, i + 1, 8 * |bits|, data, start, target);
    }
  }

  /** A failure stays. */
  lemma {:induction false} FillFails(bits: Bytes, i: nat, n: nat, data: Bytes, start: nat, target: nat)
    requires i <= n <= 8 * |bits| && start <= |data| && Fill(bits, i, data, start, target).Err?
    ensures Fill(bits, n, data, start, target) == Fill(bits, i, data, start, target)
    decreases n
  {
    if i < n {
      FillFails(bits, i, n - 1, data, start, target);
    }
  }

  method DecodeBytes(data: Bytes, target: nat) returns (r: Result<Bytes>)
    ensures r == Decode(data, target)
    ensures forall d :: r == Ok(d) <==> |d| == target && Encode(d) == data
  {
    var p := DecodePartialBytes(data, target);
    r := if p.Err? then Err(p.error) else if p.value.1 != |data| then Err(UnreferencedData) else Ok(p.value.0);
    forall d
      ensures r == Ok(d) <==> |d| == target && Encode(d) == data
    {
      DecodeIff(data, target, d);
    }
  }

  method CompressBytes(data: Bytes) returns (out: Bytes)
    ensures out == Compress(data) && |out| <= |data| && Decompress(out, |data|) == Ok(data)
  {
    out := EncodeBytes(data);
    if |out| >= |data| {
      out := data;
    }
    RoundTrip(data);
  }

  method DecompressBytes(data: Bytes, target: nat) returns (r: Result<Bytes>)
    ensures r == Decompress(data, target)
    ensures forall d :: Compress(d) == data && |d| == target ==> r == Ok(d)
  {
    if |data| > target {
      r := Err(ExceededTarget);
    } else if |data| == target {
      r := Ok(data);
    } else {
      r := DecodeBytes(data, target);
    }
    forall d | Compress(d) == data && |d| == target
      ensures r == Ok(d)
    {
      RoundTrip(d);
    }
  }
}
