/** Bytes regrouped into words of another width, seen as one string of bits. */
module BitGroups {
  import opened Options
  import opened Arith

  function Pow(n: nat): (r: nat)
    ensures r >= 1
  {
    if n == 0 then 1 else 2 * Pow(n - 1)
  }

  /** The lowest `n` bits of a number, the highest first. */
  function Bits(v: nat, n: nat): (r: seq<bool>)
    ensures |r| == n
  {
    if n == 0 then [] else Bits(v / 2, n - 1) + [v % 2 == 1]
  }

  function Value(bits: seq<bool>): (v: nat)
    ensures v < Pow(|bits|)
  {
    if bits == [] then 0 else 2 * Value(bits[..|bits| - 1]) + if bits[|bits| - 1] then 1 else 0
  }

  lemma {:induction false} BitsOfValue(bits: seq<bool>)
    ensures Bits(Value(bits), |bits|) == bits
    decreases |bits|
  {
    if bits != [] {
      var front, last := bits[..|bits| - 1], bits[|bits| - 1];
      BitsOfValue(front);
      assert Value(bits) / 2 == Value(front) && (Value(bits) % 2 == 1 <==> last);
      hide Value, Pow;
      assert front + [last] == bits;
    }
  }

  lemma {:induction false} ValueOfBits(v: nat, n: nat)
    requires v < Pow(n)
    ensures Value(Bits(v, n)) == v
    decreases n
  {
    if n > 0 {
      ValueOfBits(v / 2, n - 1);
      assert Bits(v, n)[..n - 1] == Bits(v / 2, n - 1);
    }
  }

  lemma {:induction false} PowAdd(a: nat, b: nat)
    ensures Pow(a + b) == Pow(a) * Pow(b)
    decreases b
  {
    if b > 0 {
      PowAdd(a, b - 1);
      assert Pow(a + b) == 2 * Pow(a + b - 1);
      assert Pow(a) * (2 * Pow(b - 1)) == 2 * (Pow(a) * Pow(b - 1));
    }
  }

  /** A number of `a + b` bits: the higher `a`, then the lower `b`. */
  lemma {:induction false} BitsSplit(hi: nat, lo: nat, a: nat, b: nat)
    requires lo < Pow(b)
    ensures Bits(hi * Pow(b) + lo, a + b) == Bits(hi, a) + Bits(lo, b)
    decreases b
  {
    if b == 0 {
      assert Bits(hi, a) + [] == Bits(hi, a);
    } else {
      var v := hi * Pow(b) + lo;
      assert v == 2 * (hi * Pow(b - 1)) + lo by {
        assert hi * (2 * Pow(b - 1)) == 2 * (hi * Pow(b - 1));
      }
      assert v / 2 == hi * Pow(b - 1) + lo / 2 && v % 2 == lo % 2;
      BitsSplit(hi, lo / 2, a, b - 1);
      assert Bits(hi, a) + Bits(lo / 2, b - 1) + [lo % 2 == 1] == Bits(hi, a) + Bits(lo, b);
    }
  }

  /** `k` times `n`. */
  function Total(n: nat, k: nat): (r: nat) { if k == 0 then 0 else Total(n, k - 1) + n }

  lemma {:induction false} TotalIs(n: nat, k: nat)
    ensures Total(n, k) == n * k
    decreases k
  {
    if k > 0 {
      TotalIs(n, k - 1);
      assert n * k == n * (k - 1) + n;
    }
  }

  /** Words of `n` bits, written out one after the other. */
  function Flat(ws: seq<nat>, n: nat): (bits: seq<bool>)
    ensures |bits| == Total(n, |ws|)
  {
    if ws == [] then []
    else
      Flat(ws[..|ws| - 1], n) + Bits(ws[|ws| - 1], n)
  }

  function Zeros(n: nat): (bits: seq<bool>)
    ensures |bits| == n
  {
    if n == 0 then [] else Zeros(n - 1) + [false]
  }

  predicate Below(ws: seq<nat>, n: nat) { forall i :: 0 <= i < |ws| ==> ws[i] < Pow(n) }

  /** Full words of `n` bits from the left, and the bits left over. */
  predicate Splits(bits: seq<bool>, n: nat, ws: seq<nat>, rest: seq<bool>) {
    Below(ws, n) && |rest| < n && Flat(ws, n) + rest == bits
  }

  lemma FlatSnoc(ws: seq<nat>, w: nat, n: nat)
    ensures Flat(ws + [w], n) == Flat(ws, n) + Bits(w, n)
  {
    assert (ws + [w])[..|ws|] == ws;
  }

  lemma FlatLast(ws: seq<nat>, n: nat)
    requires ws != []
    ensures Flat(ws, n) == Flat(ws[..|ws| - 1], n) + Bits(ws[|ws| - 1], n)
  {
    hide Bits;
  }

  lemma CutBoth(a: seq<bool>, b: seq<bool>, c: seq<bool>, d: seq<bool>)
    requires |a| == |c| && a + b == c + d
    ensures a == c && b == d
  {
    assert a == (a + b)[..|a|] && c == (c + d)[..|a|];
    assert b == (a + b)[|a|..] && d == (c + d)[|a|..];
  }

  lemma LastApart(ws: seq<nat>, vs: seq<nat>, k: nat, n: nat)
    requires |ws| == |vs| == k + 1 && Flat(ws, n) == Flat(vs, n)
    ensures Flat(ws[..k], n) == Flat(vs[..k], n) && Bits(ws[k], n) == Bits(vs[k], n)
  {
    hide Flat, Bits, Total;
    FlatLast(ws, n);
    FlatLast(vs, n);
    CutBoth(Flat(ws[..k], n), Bits(ws[k], n), Flat(vs[..k], n), Bits(vs[k], n));
  }

  lemma SameWord(w: nat, v: nat, n: nat)
    requires w < Pow(n) && v < Pow(n) && Bits(w, n) == Bits(v, n)
    ensures w == v
  {
    hide Pow, Bits, Value;
    ValueOfBits(w, n);
    ValueOfBits(v, n);
  }

  /** Words are told apart by their bits. */
  lemma {:induction false} FlatOnce(ws: seq<nat>, vs: seq<nat>, n: nat)
    requires |ws| == |vs| && Below(ws, n) && Below(vs, n) && Flat(ws, n) == Flat(vs, n)
    ensures ws == vs
    decreases |ws|
  {
    hide Flat, Pow, Bits;
    if ws != [] {
      var k := |ws| - 1;
      LastApart(ws, vs, k, n);
      FlatOnce(ws[..k], vs[..k], n);
      SameWord(ws[k], vs[k], n);
      assert ws == ws[..k] + [ws[k]] && vs == vs[..k] + [vs[k]];
    }
  }

  /** There is one way to split. */
  lemma SplitsOnce(bits: seq<bool>, n: nat, ws: seq<nat>, rest: seq<bool>, vs: seq<nat>, more: seq<bool>)
    requires Splits(bits, n, ws, rest) && Splits(bits, n, vs, more)
    ensures ws == vs && rest == more
  {
    hide Flat, Below;
    SameCount(n, |ws|, |rest|, |vs|, |more|);
    assert rest == bits[Total(n, |ws|)..] && more == bits[Total(n, |vs|)..];
    assert Flat(ws, n) == bits[..Total(n, |ws|)] && Flat(vs, n) == bits[..Total(n, |vs|)];
    FlatOnce(ws, vs, n);
  }

  lemma SameCount(n: nat, a: nat, r: nat, b: nat, s: nat)
    requires r < n && s < n && Total(n, a) + r == Total(n, b) + s
    ensures a == b && r == s
  {
    TotalIs(n, a);
    TotalIs(n, b);
    Remainder(n * a + r, n, a, r);
    Remainder(n * b + s, n, b, s);
  }

  // ---- conversion ---------------------------------------------------------------------------------------------------

  predicate Width(n: nat) { 1 <= n <= 8 }

  /** What a conversion gives: the full words, then a padded one if asked for; without padding, what is left over must
      be at most four bits, all zero. */
  ghost predicate Converts(data: seq<nat>, from: nat, to: nat, pad: bool, r: Option<seq<nat>>) {
    if !Width(from) || !Width(to) then r == None
    else
      exists ws, rest :: Splits(Flat(data, from), to, ws, rest) && r == Finished(ws, rest, to, pad)
  }

  function Finished(ws: seq<nat>, rest: seq<bool>, to: nat, pad: bool): (r: Option<seq<nat>>)
    requires |rest| < to
  {
    if rest == [] then Some(ws)
    else if pad then Some(ws + [Value(rest + Zeros(to - |rest|))])
    else if |rest| > 4 || Value(rest) != 0 then None
    else Some(ws)
  }

  lemma ConvertsOnce(data: seq<nat>, from: nat, to: nat, pad: bool, r: Option<seq<nat>>, q: Option<seq<nat>>)
    requires Converts(data, from, to, pad, r) && Converts(data, from, to, pad, q)
    ensures r == q
  {
    hide Flat, Finished;
    if Width(from) && Width(to) {
      var ws, rest :| Splits(Flat(data, from), to, ws, rest) && r == Finished(ws, rest, to, pad);
      var vs, more :| Splits(Flat(data, from), to, vs, more) && q == Finished(vs, more, to, pad);
      SplitsOnce(Flat(data, from), to, ws, rest, vs, more);
    }
  }

  /** Bits cut into words from the left. */
  function Split(bits: seq<bool>, n: nat): (r: (seq<nat>, seq<bool>))
    requires n >= 1
    ensures |r.1| < n
  {
    if bits == [] then ([], [])
    else
      var (ws, rest) := Split(bits[..|bits| - 1], n);
      var more := rest + [bits[|bits| - 1]];
      if |more| == n then (ws + [Value(more)], []) else (ws, more)
  }

  lemma OneMoreBit(bits: seq<bool>, n: nat, ws: seq<nat>, rest: seq<bool>, last: bool)
    requires Splits(bits, n, ws, rest)
    ensures |rest| + 1 < n ==> Splits(bits + [last], n, ws, rest + [last])
    ensures |rest| + 1 == n ==> Splits(bits + [last], n, ws + [Value(rest + [last])], [])
  {
    hide Flat, Value, Pow, Bits;
    var more := rest + [last];
    assert bits + [last] == Flat(ws, n) + more;
    if |more| == n {
      FlatSnoc(ws, Value(more), n);
      BitsOfValue(more);
      assert Flat(ws + [Value(more)], n) + [] == bits + [last];
    }
  }

  lemma {:induction false} SplitSplits(bits: seq<bool>, n: nat)
    requires n >= 1
    ensures Splits(bits, n, Split(bits, n).0, Split(bits, n).1)
    decreases |bits|
  {
    if bits != [] {
      hide Splits;
      var front, last := bits[..|bits| - 1], bits[|bits| - 1];
      SplitSplits(front, n);
      OneMoreBit(front, n, Split(front, n).0, Split(front, n).1, last);
      assert front + [last] == bits;
    } else {
      assert Flat([], n) + [] == [];
    }
  }

  function Convert(data: seq<nat>, from: nat, to: nat, pad: bool): (r: Option<seq<nat>>) {
    if !Width(from) || !Width(to) then None
    else
      var (ws, rest) := Split(Flat(data, from), to);
      Finished(ws, rest, to, pad)
  }

  /** A conversion has exactly one result. */
  lemma ConvertIff(data: seq<nat>, from: nat, to: nat, pad: bool, r: Option<seq<nat>>)
    ensures Converts(data, from, to, pad, r) <==> r == Convert(data, from, to, pad)
  {
    hide Flat, Finished, Split;
    var q := Convert(data, from, to, pad);
    if Width(from) && Width(to) {
      SplitSplits(Flat(data, from), to);
      var (ws, rest) := Split(Flat(data, from), to);
      assert Converts(data, from, to, pad, q);
    }
    if Converts(data, from, to, pad, r) {
      ConvertsOnce(data, from, to, pad, r, q);
    }
  }

  lemma {:induction false} ValueOfZeros(n: nat)
    ensures Value(Zeros(n)) == 0
  {
    if n > 0 {
      assert Zeros(n)[..n - 1] == Zeros(n - 1);
      ValueOfZeros(n - 1);
    }
  }

  lemma {:induction false} ZeroValue(bits: seq<bool>)
    requires Value(bits) == 0
    ensures bits == Zeros(|bits|)
    decreases |bits|
  {
    if bits != [] {
      ZeroValue(bits[..|bits| - 1]);
      assert bits == bits[..|bits| - 1] + [bits[|bits| - 1]];
    }
  }

  /** How many zero bits a padded conversion adds. */
  function Padding(rest: nat, to: nat): (n: nat)
    requires rest < to
  {
    if rest == 0 then 0 else to - rest
  }

  /** Padding writes the same bits, then zeros. */
  lemma PaddedBits(ws: seq<nat>, rest: seq<bool>, to: nat)
    requires |rest| < to && Below(ws, to)
    ensures var d := Finished(ws, rest, to, true).value;
            Below(d, to) && Flat(d, to) == Flat(ws, to) + rest + Zeros(Padding(|rest|, to))
  {
    hide Flat, Value;
    if rest != [] {
      var last := rest + Zeros(to - |rest|);
      FlatSnoc(ws, Value(last), to);
      BitsOfValue(last);
    } else {
      assert Flat(ws, to) + [] + Zeros(0) == Flat(ws, to);
    }
  }

  /** Converting with padding and back without gives the words again if and only if the padding is at most four bits and
      less than a word. */
  lemma BackIff(data: seq<nat>, from: nat, to: nat, ws: seq<nat>, rest: seq<bool>)
    requires Width(from) && Width(to) && Below(data, from) && Splits(Flat(data, from), to, ws, rest)
    ensures var d := Finished(ws, rest, to, true).value;
            Converts(d, to, from, false, Some(data)) <==> Padding(|rest|, to) < from && Padding(|rest|, to) <= 4
  {
    hide Flat, Value, Zeros;
    var d := Finished(ws, rest, to, true).value;
    var p := Padding(|rest|, to);
    PaddedBits(ws, rest, to);
    assert Flat(d, to) == Flat(data, from) + Zeros(p);
    if p < from {
      assert Splits(Flat(d, to), from, data, Zeros(p));
      ValueOfZeros(p);
      assert p == 0 ==> Zeros(p) == [];
      var r := Finished(data, Zeros(p), from, false);
      assert Converts(d, to, from, false, r);
      if Converts(d, to, from, false, Some(data)) {
        ConvertsOnce(d, to, from, false, r, Some(data));
      }
    }
  }

  /** Eight bits to five, padded, and back: the identity on every byte string. */
  lemma EightToFiveAndBack(data: seq<nat>, d: seq<nat>)
    requires Below(data, 8) && Converts(data, 8, 5, true, Some(d))
    ensures Below(d, 5) && Converts(d, 5, 8, false, Some(data))
  {
    hide Flat, Value;
    var ws, rest :| Splits(Flat(data, 8), 5, ws, rest) && Some(d) == Finished(ws, rest, 5, true);
    PaddedBits(ws, rest, 5);
    BackIff(data, 8, 5, ws, rest);
  }

  lemma CutEnd(a: seq<bool>, last: seq<bool>, front: seq<bool>, rest: seq<bool>)
    requires a + last == front + rest && |rest| <= |last|
    ensures front == a + last[..|last| - |rest|] && last == last[..|last| - |rest|] + rest
  {
    var kept := last[..|last| - |rest|];
    assert last == kept + last[|kept|..];
    assert a + last == (a + kept) + last[|kept|..];
    CutBoth(a + kept, last[|kept|..], front, rest);
  }

  /** The last word of a string whose end was cut off as zeros. */
  lemma CutZeros(d: seq<nat>, front: seq<bool>, rest: seq<bool>, n: nat)
    requires Below(d, n) && 0 < |rest| < n && Flat(d, n) == front + rest && Value(rest) == 0
    ensures d != [] && exists kept :: |kept| == n - |rest| && front == Flat(d[..|d| - 1], n) + kept
                                      && d[|d| - 1] == Value(kept + Zeros(|rest|))
  {
    assert d != [];
    hide Flat, Value, Pow, Bits, Total;
    var k := |d| - 1;
    FlatLast(d, n);
    ZeroValue(rest);
    CutEnd(Flat(d[..k], n), Bits(d[k], n), front, rest);
    ValueOfBits(d[k], n);
  }

  /** What converts from five bits to eight is what converting back gives. */
  lemma FiveToEightAndBack(d: seq<nat>, data: seq<nat>)
    requires Below(d, 5) && Converts(d, 5, 8, false, Some(data))
    ensures Below(data, 8) && Converts(data, 8, 5, true, Some(d))
  {
    hide Flat, Value;
    var ws, rest :| Splits(Flat(d, 5), 8, ws, rest) && Some(data) == Finished(ws, rest, 8, false);
    assert ws == data;
    if rest == [] {
      assert Flat(data, 8) + [] == Flat(data, 8) && Flat(d, 5) + [] == Flat(d, 5);
      assert Splits(Flat(data, 8), 5, d, []);
      assert Finished(d, [], 5, true) == Some(d);
    } else {
      CutZeros(d, Flat(data, 8), rest, 5);
      var k := |d| - 1;
      var kept :| |kept| == 5 - |rest| && Flat(data, 8) == Flat(d[..k], 5) + kept
                  && d[k] == Value(kept + Zeros(|rest|));
      assert Splits(Flat(data, 8), 5, d[..k], kept);
      assert d == d[..k] + [d[k]];
      assert Finished(d[..k], kept, 5, true) == Some(d);
    }
  }

  // ---- the loop -----------------------------------------------------------------------------------------------------

  lemma Pow8()
    ensures Pow(8) == 256
  {
    assert Pow(4) == 16;
  }

  /** A byte shifted up, losing what goes over the top, and shifted down. */
  function Shl(b: nat, k: nat): (r: nat)
    ensures r < 256
  {
    b * Pow(k) % 256
  }

  function Shr(b: nat, k: nat): (r: nat) {
    hide Pow;
    var m := Pow(k);
    QuotientIsNat(b, m);
    b / m
  }

  /** Shifting a byte up drops bits at its top. */
  lemma ShiftUp(b: nat, have: nat, take: nat)
    requires take <= have <= 8
    ensures Shr(Shl(b, take), 8 - (have - take)) == Shr(b, 8 - have) % Pow(have - take)
  {
    hide Pow;
    Pow8();
    PowAdd(take, 8 - take);
    PowAdd(8 - have, have - take);
    PowAdd(take, 8 - have);
    var e, m, n := Pow(take), Pow(8 - have), Pow(have - take);
    assert 8 - (have - take) == take + (8 - have) && 8 - take == (8 - have) + (have - take);
    var k := m * n;
    assert 256 == e * k && Pow(8 - (have - take)) == e * m && Pow(8 - take) == k;
    Positive(m, n);
    ScaledMod(b, e, k);
    ScaledDiv(b % k, e, m);
    DivMod(b, m, n);
  }

  lemma BitsMod(v: nat, n: nat)
    ensures Bits(v % Pow(n), n) == Bits(v, n)
  {
    hide Pow;
    var m := Pow(n);
    var q, r := v / m, v % m;
    assert v == q * m + r;
    BitsSplit(q, r, 0, n);
    assert Bits(q, 0) == [];
    hide Bits;
    assert [] + Bits(r, n) == Bits(r, n);
  }

  /** Numbers of `a + b` bits, taken apart. */
  lemma BitsApart(v: nat, a: nat, b: nat)
    ensures Bits(v, a + b) == Bits(Shr(v, b), a) + Bits(v % Pow(b), b)
  {
    hide Pow, Bits;
    var m := Pow(b);
    var q, r := v / m, v % m;
    assert v == q * m + r;
    BitsSplit(q, r, a, b);
  }

  /** The bits a byte still has, and what taking some of them from its top leaves. */
  lemma TakeTop(b: nat, have: nat, take: nat)
    requires b < 256 && take <= have <= 8
    ensures Bits(Shr(b, 8 - have), have)
         == Bits(Shr(b, 8 - take), take) + Bits(Shr(Shl(b, take), 8 - (have - take)), have - take)
    ensures Shr(b, 8 - take) < Pow(take)
  {
    hide Bits, Pow;
    ShiftUp(b, have, take);
    hide Shl;
    PowAdd(8 - have, have - take);
    assert 8 - take == (8 - have) + (have - take);
    DivDiv(b, Pow(8 - have), Pow(have - take));
    BitsApart(Shr(b, 8 - have), take, have - take);
    Pow8();
    PowAdd(take, 8 - take);
    TopIsSmall(b, Pow(take), Pow(8 - take));
  }

  lemma FirstShift(byte: nat, from: nat)
    requires from <= 8
    ensures Bits(Shr(Shl(byte, 8 - from), 8 - from), from) == Bits(byte, from)
  {
    hide Pow, Bits;
    Pow8();
    PowAdd(8 - from, from);
    var e, k := Pow(8 - from), Pow(from);
    ScaledMod(byte, e, k);
    ScaledDiv(byte % k, e, 1);
    assert e * 1 == e && (byte % k) / 1 == byte % k;
    BitsMod(byte, from);
  }

  /** The groups so far, the bits of the unfinished one, and nothing lost. */
  ghost predicate Holds(bits: seq<bool>, to: nat, out: seq<nat>, next: nat, filled: nat) {
    Below(out, to) && filled < to && next < Pow(filled) && Flat(out, to) + Bits(next, filled) == bits
  }

  /** Adds `take` bits to the unfinished group. */
  lemma Grow(bits: seq<bool>, to: nat, out: seq<nat>, next: nat, filled: nat, top: nat, take: nat)
    requires Holds(bits, to, out, next, filled) && top < Pow(take) && filled + take <= to
    ensures var grown := next * Pow(take) + top;
            if filled + take < to then Holds(bits + Bits(top, take), to, out, grown, filled + take)
            else Holds(bits + Bits(top, take), to, out + [grown], 0, 0)
  {
    hide Bits, Pow, Flat;
    var grown := next * Pow(take) + top;
    BitsSplit(next, top, filled, take);
    PowAdd(filled, take);
    TwoDigits(next, Pow(filled), top, Pow(take));
    assert Flat(out, to) + (Bits(next, filled) + Bits(top, take)) == bits + Bits(top, take);
    if filled + take == to {
      FlatSnoc(out, grown, to);
      NoBits();
      assert Flat(out + [grown], to) + [] == bits + Bits(top, take);
    }
  }

  lemma NoBits()
    ensures Bits(0, 0) == [] && Pow(0) == 1
  {
  }

  /** Moves the bits of one byte over, group by group. */
  method Feed(byte: nat, from: nat, to: nat, out0: seq<nat>, next0: nat, filled0: nat, ghost bits: seq<bool>)
    returns (out: seq<nat>, next: nat, filled: nat)
    requires byte < 256 && Width(from) && Width(to) && Holds(bits, to, out0, next0, filled0)
    ensures Holds(bits + Bits(byte, from), to, out, next, filled)
  {
    hide Holds, Bits, Pow, Shl, Shr;
    out, next, filled := out0, next0, filled0;
    var b := Shl(byte, 8 - from);
    var rem := from;
    ghost var done := bits;
    FirstShift(byte, from);
    assert done + Bits(Shr(b, 8 - rem), rem) == bits + Bits(byte, from);
    while rem > 0
      invariant b < 256 && 0 <= rem <= 8 && Holds(done, to, out, next, filled)
      invariant done + Bits(Shr(b, 8 - rem), rem) == bits + Bits(byte, from)
    {
      assert filled < to by { HoldsFilled(done, to, out, next, filled); }
      var take := if to - filled < rem then to - filled else rem;
      TakeTop(b, rem, take);
      var top := Shr(b, 8 - take);
      Grow(done, to, out, next, filled, top, take);
      ghost var left := Shr(Shl(b, take), 8 - (rem - take));
      assert done + (Bits(top, take) + Bits(left, rem - take)) == (done + Bits(top, take)) + Bits(left, rem - take);
      done := done + Bits(top, take);
      next := next * Pow(take) + top;
      b := Shl(b, take);
      rem := rem - take;
      filled := filled + take;
      if filled == to {
        out := out + [next];
        filled, next := 0, 0;
      }
    }
    NoneLeft(Shr(b, 8));
    assert done + [] == done;
  }

  lemma NoneLeft(v: nat)
    ensures Bits(v, 0) == []
  {
  }

  lemma HoldsFilled(bits: seq<bool>, to: nat, out: seq<nat>, next: nat, filled: nat)
    requires Holds(bits, to, out, next, filled)
    ensures filled < to && next < Pow(filled)
  {
  }

  method ConvertBits(data: seq<nat>, from: nat, to: nat, pad: bool) returns (r: Option<seq<nat>>)
    requires Below(data, 8)
    ensures Converts(data, from, to, pad, r)
  {
    if !Width(from) || !Width(to) {
      return None;
    }
    var out: seq<nat>, next: nat, filled: nat := [], 0, 0;
    Pow8();
    hide Pow, Bits, Flat, Holds, Splits, Total;
    HoldsNothing(from, to);
    for i := 0 to |data|
      invariant Holds(Flat(data[..i], from), to, out, next, filled)
    {
      ghost var bits := Flat(data[..i], from);
      assert data[..i + 1] == data[..i] + [data[i]];
      FlatSnoc(data[..i], data[i], from);
      out, next, filled := Feed(data[i], from, to, out, next, filled, bits);
    }
    assert data[..|data|] == data;
    ghost var rest := Bits(next, filled);
    HoldsSplits(Flat(data, from), to, out, next, filled);
    r := Finish(to, pad, out, next, filled);
    assert r == Finished(out, rest, to, pad);
  }

  lemma HoldsNothing(from: nat, to: nat)
    requires to >= 1
    ensures Holds(Flat([], from), to, [], 0, 0)
  {
    NoBits();
    assert Flat([], from) == [] && Flat([], to) + [] == [];
  }

  lemma HoldsSplits(bits: seq<bool>, to: nat, out: seq<nat>, next: nat, filled: nat)
    requires Holds(bits, to, out, next, filled)
    ensures Splits(bits, to, out, Bits(next, filled)) && filled < to && next < Pow(filled)
  {
  }

  /** What is left over is padded or checked. */
  method Finish(to: nat, pad: bool, out: seq<nat>, next: nat, filled: nat) returns (r: Option<seq<nat>>)
    requires filled < to && next < Pow(filled)
    ensures r == Finished(out, Bits(next, filled), to, pad)
  {
    hide Pow, Bits, Value;
    ValueOfBits(next, filled);
    if filled == 0 {
      NoneLeft(next);
      r := Some(out);
    } else if pad {
      PadValue(next, filled, to);
      r := Some(out + [next * Pow(to - filled)]);
    } else if filled > 4 || next != 0 {
      r := None;
    } else {
      r := Some(out);
    }
  }

  lemma PadValue(next: nat, filled: nat, to: nat)
    requires next < Pow(filled) && filled <= to
    ensures Value(Bits(next, filled) + Zeros(to - filled)) == next * Pow(to - filled)
  {
    hide Pow, Bits, Value;
    var k := to - filled;
    BitsSplit(next, 0, filled, k);
    ZerosAreBits(k);
    PowAdd(filled, k);
    TwoDigits(next, Pow(filled), 0, Pow(k));
    ValueOfBits(next * Pow(k), to);
  }

  lemma {:induction false} ZerosAreBits(n: nat)
    ensures Bits(0, n) == Zeros(n)
  {
    if n > 0 {
      ZerosAreBits(n - 1);
    }
  }
}
