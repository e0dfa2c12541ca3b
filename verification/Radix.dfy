/** Numbers written in different bases. */
module Radix {
  import opened Arith

  predicate Below(ds: seq<nat>, b: nat) { forall i :: 0 <= i < |ds| ==> ds[i] < b }

  /** The number that digits stand for, the highest first. */
  function Value(ds: seq<nat>, b: nat): (v: nat) {
    if ds == [] then 0 else Value(ds[..|ds| - 1], b) * b + ds[|ds| - 1]
  }

  /** The digits of a number; none for zero. */
  function Digits(x: nat, b: nat): (ds: seq<nat>)
    requires b >= 2
    ensures Below(ds, b)
  {
    if x == 0 then [] else Digits(x / b, b) + [x % b]
  }

  function Zeros(k: nat): (ds: seq<nat>)
    ensures |ds| == k && forall i :: 0 <= i < k ==> ds[i] == 0
  {
    if k == 0 then [] else Zeros(k - 1) + [0]
  }

  /** How many zeros come first. */
  function Leading(ds: seq<nat>): (k: nat)
    ensures k <= |ds| && ds[..k] == Zeros(k) && (k < |ds| ==> ds[k] != 0)
  {
    if ds == [] || ds[0] != 0 then 0
    else
      var k := Leading(ds[1..]);
      assert ds[1..][..k] == ds[1..k + 1];
      1 + k
  }

  lemma LeadingOnce(ds: seq<nat>, k: nat)
    requires k <= |ds| && (forall i :: 0 <= i < k ==> ds[i] == 0) && (k < |ds| ==> ds[k] != 0)
    ensures Leading(ds) == k
  {
    var l := Leading(ds);
    assert forall i :: 0 <= i < l ==> ds[..l][i] == ds[i];
  }

  lemma {:induction false} ValueOfDigits(x: nat, b: nat)
    requires b >= 2
    ensures Value(Digits(x, b), b) == x
  {
    if x > 0 {
      hide Digits, Value;
      var q, r := x / b, x % b;
      assert x == q * b + r;
      ValueOfDigits(q, b);
      DigitsNext(x, b);
      ValueSnoc(Digits(q, b), r, b);
    }
  }

  lemma DigitsNext(x: nat, b: nat)
    requires b >= 2 && x > 0
    ensures Digits(x, b) == Digits(x / b, b) + [x % b]
  {
  }

  lemma ValueSnoc(ds: seq<nat>, d: nat, b: nat)
    ensures Value(ds + [d], b) == Value(ds, b) * b + d
  {
    assert (ds + [d])[..|ds|] == ds;
  }

  /** The first digit is never zero. */
  lemma {:induction false} NoLeading(x: nat, b: nat)
    requires b >= 2
    ensures x > 0 ==> Digits(x, b) != [] && Digits(x, b)[0] != 0
  {
    if x > 0 {
      NoLeading(x / b, b);
      if x / b == 0 {
        assert x == (x / b) * b + x % b;
      }
    }
  }

  lemma Grows(v: nat, b: nat, d: nat)
    requires v > 0 && b > 0
    ensures v * b + d > 0
  {
    Positive(v, b);
  }

  lemma {:induction false} ValueIsPositive(ds: seq<nat>, b: nat)
    requires b >= 2 && ds != [] && ds[0] != 0
    ensures Value(ds, b) > 0
    decreases |ds|
  {
    if |ds| > 1 {
      ValueIsPositive(ds[..|ds| - 1], b);
      Grows(Value(ds[..|ds| - 1], b), b, ds[|ds| - 1]);
    }
  }

  /** Digits without a zero in front are the digits of their number. */
  lemma {:induction false} DigitsOfValue(ds: seq<nat>, b: nat)
    requires b >= 2 && Below(ds, b) && (ds != [] ==> ds[0] != 0)
    ensures Digits(Value(ds, b), b) == ds
    decreases |ds|
  {
    if ds != [] {
      var front, last := ds[..|ds| - 1], ds[|ds| - 1];
      DigitsOfValue(front, b);
      ValueIsPositive(ds, b);
      Remainder(Value(ds, b), b, Value(front, b), last);
      assert front + [last] == ds;
    }
  }

  lemma {:induction false} ValueSkips(k: nat, ds: seq<nat>, b: nat)
    ensures Value(Zeros(k) + ds, b) == Value(ds, b)
    decreases |ds|, k
  {
    var all := Zeros(k) + ds;
    if ds != [] {
      ValueSkips(k, ds[..|ds| - 1], b);
      assert all[..|all| - 1] == Zeros(k) + ds[..|ds| - 1];
    } else if k > 0 {
      ValueSkips(k - 1, [], b);
      assert all[..k - 1] == Zeros(k - 1) + [];
    }
  }

  // ---- from one base to another -------------------------------------------------------------------------------------

  /** The same number in another base, with the same number of zeros in front. */
  function Convert(ds: seq<nat>, from: nat, to: nat): (r: seq<nat>)
    requires to >= 2
    ensures Below(r, to)
  {
    Zeros(Leading(ds)) + Digits(Value(ds, from), to)
  }

  /** Converting back gives the same digits. */
  lemma ThereAndBack(ds: seq<nat>, from: nat, to: nat)
    requires from >= 2 && to >= 2 && Below(ds, from)
    ensures Convert(Convert(ds, from, to), to, from) == ds
  {
    hide Value, Digits, Leading;
    var k := Leading(ds);
    var tail := ds[k..];
    var x := Value(ds, from);
    assert ds == Zeros(k) + tail;
    ValueSkips(k, tail, from);
    DigitsOfValue(tail, from);
    var other := Zeros(k) + Digits(x, to);
    ValueSkips(k, Digits(x, to), to);
    ValueOfDigits(x, to);
    NoLeading(x, to);
    assert x == 0 ==> Digits(x, to) == [] by { DigitsOfZero(to); }
    LeadingOnce(other, k);
  }

  lemma DigitsOfZero(b: nat)
    requires b >= 2
    ensures Digits(0, b) == []
  {
  }
}
