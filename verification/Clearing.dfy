/** Clearing a unit with everything that refers to it. */
module Clearing {
  import opened Dag
  import opened Store

  ghost function Above(hs: set<Unit>, u: Unit): (r: set<Unit>) { set v | v in hs && Rank(v) >= Rank(u) }

  lemma AboveShrinks(hs: set<Unit>, now: set<Unit>, u: Unit, c: Unit)
    requires now <= hs && u in hs && Rank(u) < Rank(c)
    ensures |Above(now, c)| < |Above(hs, u)|
  {
    var rest := Above(hs, u) - Above(now, c);
    assert u in rest && Above(hs, u) == Above(now, c) + rest;
  }

  /** Whatever is stored and refers to the unit has its body. */
  ghost predicate Whole(s: Store, u: Unit) { forall v :: v in s.headers && Refers(v, u) ==> v in s.bodies }

  /** What refers to such a unit refers to, or is, one of its recorded children. */
  lemma ThroughChild(s: Store, v: Unit, u: Unit) returns (c: Unit)
    requires Down(s) && Whole(s, u) && v in s.headers && Refers(v, u) && v != u
    ensures c in Kids(s, u) && Refers(v, c)
  {
    c := RefersLast(v, u);
    DownAll(s, v, c);
    assert FullUnit(s, c);
  }

  /** If it is not stored, nothing stored refers to it. */
  lemma NothingRefers(s: Store, u: Unit)
    requires Down(s) && Whole(s, u) && u !in s.headers && u.Unit?
    ensures Descendants(s.headers, u) == {}
  {
    forall v | v in s.headers
      ensures !Refers(v, u)
    {
      if Refers(v, u) {
        DownAll(s, v, u);
      }
    }
  }

  /** What clearing `u` promises of the store it leaves. */
  ghost predicate Cleared(s: Store, t: Store, u: Unit) {
    && Weak(t) && (Quiet(s) ==> Quiet(t))
    && t.headers <= s.headers && (u.Unit? ==> u !in t.headers) && t.entries == s.entries
    && t.bodies == s.bodies - (s.headers - t.headers)
    && (forall v :: v in s.headers && v !in t.headers ==> Refers(v, u))
    && (Whole(s, u) && u.Unit? ==> t.headers == s.headers - Descendants(s.headers, u))
  }

  /** What holds once the first `i` children of `u` have been cleared. */
  ghost predicate Midway(s: Store, t: Store, u: Unit, cs: seq<Unit>, i: nat) {
    && i <= |cs| && Weak(t) && (Quiet(s) ==> Quiet(t))
    && t.headers <= s.headers && u in t.headers && t.entries == s.entries
    && t.bodies == s.bodies - (s.headers - t.headers)
    && (forall v :: v in s.headers && v !in t.headers ==> Refers(v, u))
    && (forall j :: 0 <= j < i ==> cs[j] !in t.headers)
    && (Whole(s, u) ==> forall j, v :: 0 <= j < i && v in t.headers ==> !Refers(v, cs[j]))
  }

  lemma NothingToClear(s: Store, u: Unit)
    requires Weak(s) && (u.Genesis? || u !in s.headers)
    ensures Cleared(s, s, u)
  {
    hide Shape;
    if Whole(s, u) && u.Unit? {
      NothingRefers(s, u);
    }
  }

  lemma StartMidway(s: Store, u: Unit, cs: seq<Unit>)
    requires Weak(s) && u in s.headers
    ensures Midway(s, s, u, cs, 0)
  {
  }

  /** What may be cleared: a unit of which all that refers to it has bodies, or one without a body in a quiet store with
      the unit above it recorded. */
  ghost predicate Ready(s: Store, u: Unit) {
    Weak(s) && (Whole(s, u) || (Quiet(s) && (u in s.headers ==> NextRecorded(s, u) && u !in s.bodies)))
  }

  /** In either case the units above it are recorded. */
  lemma ReadyIsRecorded(s: Store, u: Unit)
    requires Ready(s, u) && u in s.headers
    ensures NextRecorded(s, u)
  {
    hide Shape, Quiet;
    if Whole(s, u) {
      forall d | d in s.headers && d.Unit? && d.parent == u
        ensures d in Kids(s, u)
      {
        assert u in Refs(d) && Refers(u, u);
        assert Refers(d, u) by { RefRank(d, u); }
        assert FullUnit(s, d);
      }
    }
  }

  lemma ChildIsWhole(s: Store, t: Store, u: Unit, c: Unit)
    requires Whole(s, u) && u in Refs(c) && t.headers <= s.headers && t.bodies == s.bodies - (s.headers - t.headers)
    ensures Whole(t, c)
  {
    assert Refers(u, u);
    assert Refers(c, u) by { RefRank(c, u); }
    forall v | v in t.headers && Refers(v, c)
      ensures v in t.bodies
    {
      RefersTrans(v, c, u);
    }
  }

  lemma ChildIsQuiet(t: Store, u: Unit, c: Unit)
    requires Weak(t) && Quiet(t) && u.Unit? && u in t.headers && u !in t.bodies && c in Kids(t, u) && c in t.headers
    ensures NextRecorded(t, c) && c !in t.bodies
  {
    hide Shape;
    assert c in t.bodies ==> FullUnit(t, c);
  }

  lemma ChildRefers(s: Store, t: Store, u: Unit, i: nat)
    requires Weak(s) && t.entries == s.entries && i < |Kids(s, u)|
    ensures Kids(t, u) == Kids(s, u) && u in Refs(Kids(s, u)[i]) && Rank(u) < Rank(Kids(s, u)[i])
  {
    hide Shape;
    assert u in Refs(Kids(s, u)[i]);
    RefRank(Kids(s, u)[i], u);
  }

  /** Clearing a recorded child is as safe as clearing the unit. */
  lemma ChildIsReady(s: Store, t: Store, u: Unit, cs: seq<Unit>, i: nat)
    requires Ready(s, u) && u.Unit? && u in s.headers && Midway(s, t, u, cs, i) && i < |cs| && cs == Kids(s, u)
    ensures Ready(t, cs[i]) && t.headers <= s.headers && u in Refs(cs[i]) && Rank(u) < Rank(cs[i])
  {
    hide Weak, Quiet, NextRecorded, Whole, Kids, Refs;
    ChildRefers(s, t, u, i);
    if Whole(s, u) {
      ChildIsWhole(s, t, u, cs[i]);
    } else if cs[i] in t.headers {
      ChildIsQuiet(t, u, cs[i]);
    }
  }

  lemma ClearNext(s: Store, now: Store, t: Store, u: Unit, cs: seq<Unit>, i: nat)
    requires Midway(s, now, u, cs, i) && i < |cs| && u in Refs(cs[i]) && Rank(u) < Rank(cs[i])
    requires Cleared(now, t, cs[i])
    ensures Midway(s, t, u, cs, i + 1)
  {
    hide Weak, Quiet, Refs, Whole;
    var c := cs[i];
    assert Refers(c, u) by { RefRank(c, u); }
    forall v | v in now.headers && v !in t.headers
      ensures Refers(v, u) && v != u
    {
      RefersTrans(v, c, u);
      RefersRank(v, c);
    }
    if Whole(s, u) {
      ChildIsWhole(s, now, u, c);
    }
  }

  lemma ChildrenGone(s: Store, t: Store, u: Unit)
    requires NextRecorded(s, u) && Midway(s, t, u, Kids(s, u), |Kids(s, u)|)
    ensures forall d :: d in t.headers && d.Unit? ==> d.parent != u
    ensures forall v :: v in t.headers && v in t.bodies ==> u !in Refs(v)
  {
    hide Shape, Quiet, TrueKids, Whole;
    assert Kids(t, u) == Kids(s, u);
    forall v | v in t.headers && v in t.bodies
      ensures u !in Refs(v)
    {
      assert FullUnit(t, v);
    }
  }

  /** Once the children are cleared, what is left but `u` itself does not refer to it. */
  lemma ExactlyTheOthers(s: Store, t: Store, u: Unit)
    requires Down(s) && Whole(s, u) && Midway(s, t, u, Kids(s, u), |Kids(s, u)|)
    ensures t.headers - {u} == s.headers - Descendants(s.headers, u)
  {
    hide Weak, Quiet;
    forall v | v in s.headers
      ensures v in t.headers - {u} <==> !Refers(v, u)
    {
      if v in t.headers && v != u && Refers(v, u) {
        var c := ThroughChild(s, v, u);
      }
    }
  }

  lemma ClearLast(s: Store, now: Store, u: Unit)
    requires Ready(s, u) && u in s.headers && u.Unit?
    requires Midway(s, now, u, Kids(s, u), |Kids(s, u)|)
    ensures Cleared(s, Remove(now, u), u)
  {
    hide Shape, TrueKids, Quiet, NextRecorded, Whole;
    ReadyIsRecorded(s, u);
    ChildrenGone(s, now, u);
    RemoveKeeps(now, u);
    if Whole(s, u) {
      ExactlyTheOthers(s, now, u);
    }
  }

  // ---- the recursion --------------------------------------------------------------------------------------------

  /** Clears the children recorded for a stored unit, then the unit; a unit that is not stored is passed over. */
  ghost function Clear(s: Store, u: Unit): (r: Store)
    requires TrueKids(s)
    ensures r.headers <= s.headers && r.entries == s.entries
    decreases |Above(s.headers, u)|, 1, 0
  {
    if u.Genesis? || u !in s.headers then s else Remove(ClearAll(s, s.headers, u, Kids(s, u)), u)
  }

  /** Clears recorded children of `u`, which is one of `hs`, in the order they were recorded. */
  ghost function ClearAll(s: Store, hs: set<Unit>, u: Unit, cs: seq<Unit>): (r: Store)
    requires TrueKids(s) && s.headers <= hs && u in hs
    requires forall c :: c in cs ==> u in Refs(c)
    ensures r.headers <= s.headers && r.entries == s.entries
    decreases |Above(hs, u)|, 0, |cs|
  {
    if cs == [] then s
    else
      var t := ClearAll(s, hs, u, cs[..|cs| - 1]);
      var c := cs[|cs| - 1];
      RefRank(c, u);
      AboveShrinks(hs, t.headers, u, c);
      assert forall r :: Kids(t, r) == Kids(s, r);
      Clear(t, c)
  }

  /** Clearing keeps the store in order and, if all that refers to the unit has bodies, removes exactly the unit and
      everything that directly or transitively refers to it. */
  lemma {:induction false} ClearIsExact(s: Store, u: Unit)
    requires Ready(s, u)
    ensures Cleared(s, Clear(s, u), u)
    decreases |Above(s.headers, u)|, 1, 0
  {
    hide Quiet, NextRecorded, Remove, Cleared, Midway, Above, Shape, Down, Whole;
    if u.Genesis? || u !in s.headers {
      NothingToClear(s, u);
    } else {
      var cs := Kids(s, u);
      ClearAllMidway(s, u, cs, |cs|);
      assert cs[..|cs|] == cs;
      ClearLast(s, ClearAll(s, s.headers, u, cs), u);
    }
  }

  lemma {:induction false} ClearAllMidway(s: Store, u: Unit, cs: seq<Unit>, i: nat)
    requires Ready(s, u) && u.Unit? && u in s.headers && cs == Kids(s, u) && i <= |cs|
    ensures Midway(s, ClearAll(s, s.headers, u, cs[..i]), u, cs, i)
    decreases |Above(s.headers, u)|, 0, i
  {
    hide Quiet, NextRecorded, Remove, Cleared, Midway, Above, Shape, Down, Whole;
    if i == 0 {
      StartMidway(s, u, cs);
    } else {
      var t := ClearAll(s, s.headers, u, cs[..i - 1]);
      assert cs[..i][..i - 1] == cs[..i - 1];
      ClearAllMidway(s, u, cs, i - 1);
      ChildIsReady(s, t, u, cs, i - 1);
      AboveShrinks(s.headers, t.headers, u, cs[i - 1]);
      ClearIsExact(t, cs[i - 1]);
      ClearNext(s, t, Clear(t, cs[i - 1]), u, cs, i - 1);
    }
  }
}
