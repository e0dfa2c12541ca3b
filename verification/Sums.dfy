/** Finite sums, and maps given by a function on a finite set. */
module Sums {

  /** A map with the given keys, each with the value `f` gives it. */
  ghost function Tabulate<K(!new), V(!new)>(f: K -> V, s: set<K>): (m: map<K, V>)
    ensures m.Keys == s && forall k :: k in s ==> m[k] == f(k)
  {
    if s == {} then map[]
    else
      var k :| k in s;
      Tabulate(f, s - {k})[k := f(k)]
  }

  ghost function Sum<K(!new)>(f: K -> int, s: set<K>): (r: int) {
    if s == {} then 0
    else
      var k :| k in s;
      f(k) + Sum(f, s - {k})
  }

  /** The sum does not depend on the element taken out first. */
  lemma {:induction false} Pick<K(!new)>(f: K -> int, s: set<K>, k: K)
    requires k in s
    ensures Sum(f, s) == f(k) + Sum(f, s - {k})
    decreases |s|
  {
    var j :| j in s && Sum(f, s) == f(j) + Sum(f, s - {j});
    if j != k {
      Pick(f, s - {j}, k);
      Pick(f, s - {k}, j);
      assert s - {j} - {k} == s - {k} - {j};
    }
  }

  lemma {:induction false} Agree<K(!new)>(f: K -> int, g: K -> int, s: set<K>)
    requires forall k :: k in s ==> f(k) == g(k)
    ensures Sum(f, s) == Sum(g, s)
    decreases |s|
  {
    if s != {} {
      var k :| k in s;
      Pick(f, s, k);
      Pick(g, s, k);
      Agree(f, g, s - {k});
    }
  }

  lemma {:induction false} Split<K(!new)>(f: K -> int, s: set<K>, t: set<K>)
    requires s !! t
    ensures Sum(f, s + t) == Sum(f, s) + Sum(f, t)
    decreases |s|
  {
    if s == {} {
      assert s + t == t;
    } else {
      var k :| k in s;
      Pick(f, s, k);
      Pick(f, s + t, k);
      assert s + t - {k} == (s - {k}) + t;
      Split(f, s - {k}, t);
    }
  }

  lemma {:induction false} Zero<K(!new)>(f: K -> int, s: set<K>)
    requires forall k :: k in s ==> f(k) == 0
    ensures Sum(f, s) == 0
    decreases |s|
  {
    if s != {} {
      var k :| k in s;
      Pick(f, s, k);
      Zero(f, s - {k});
    }
  }

  /** Keys that count for nothing can be added. */
  lemma Widen<K(!new)>(f: K -> int, s: set<K>, t: set<K>)
    requires s <= t
    requires forall k :: k in t - s ==> f(k) == 0
    ensures Sum(f, t) == Sum(f, s)
  {
    assert t == s + (t - s);
    Split(f, s, t - s);
    Zero(f, t - s);
  }

  /** Summands that are nowhere larger give a sum that is no larger, and an equal one only if they all agree. */
  lemma {:induction false} Monotone<K(!new)>(f: K -> int, g: K -> int, s: set<K>)
    requires forall k :: k in s ==> f(k) <= g(k)
    ensures Sum(f, s) <= Sum(g, s)
    ensures Sum(f, s) == Sum(g, s) ==> forall k :: k in s ==> f(k) == g(k)
    decreases |s|
  {
    if s != {} {
      var k :| k in s;
      Pick(f, s, k);
      Pick(g, s, k);
      Monotone(f, g, s - {k});
    }
  }

  lemma {:induction false} Subtract<K(!new)>(f: K -> int, g: K -> int, d: K -> int, s: set<K>)
    requires forall k :: k in s ==> d(k) == f(k) - g(k)
    ensures Sum(d, s) == Sum(f, s) - Sum(g, s)
    decreases |s|
  {
    if s != {} {
      var k :| k in s;
      Pick(f, s, k);
      Pick(g, s, k);
      Pick(d, s, k);
      Subtract(f, g, d, s - {k});
    }
  }
}
