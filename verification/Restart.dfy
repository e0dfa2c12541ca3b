/** Recovery that is itself cut short, and started again on what it left. */
module Restart {
  import opened Options
  import opened Dag
  import opened Store
  import opened Clearing
  import opened Background
  import opened Recovery

  // ---- every point of a recovery ------------------------------------------------------------------------------------

  /** Taken out one by one, the units leave a quiet store in order at every point. */
  ghost predicate Smooth(s: Store, xs: seq<Unit>) {
    && (forall v :: v in xs ==> v.Unit?)
    && forall i :: 0 <= i <= |xs| ==> Weak(TakeOut(s, xs[..i])) && Quiet(TakeOut(s, xs[..i]))
  }

  lemma SmoothStart(s: Store)
    requires Weak(s) && Quiet(s)
    ensures Smooth(s, [])
  {
    hide Weak, Quiet;
    NothingOut(s);
  }

  lemma SmoothEnd(s: Store, xs: seq<Unit>)
    requires Smooth(s, xs)
    ensures (forall v :: v in xs ==> v.Unit?) && Weak(TakeOut(s, xs)) && Quiet(TakeOut(s, xs))
  {
    hide Weak, Quiet, TakeOut;
    assert xs[..|xs|] == xs;
  }

  lemma SmoothJoin(s: Store, xs: seq<Unit>, ys: seq<Unit>)
    requires Smooth(s, xs) && Smooth(TakeOut(s, xs), ys)
    ensures Smooth(s, xs + ys)
  {
    hide Weak, Quiet, TakeOut;
    forall i | 0 <= i <= |xs + ys|
      ensures Weak(TakeOut(s, (xs + ys)[..i])) && Quiet(TakeOut(s, (xs + ys)[..i]))
    {
      if i <= |xs| {
        assert (xs + ys)[..i] == xs[..i];
      } else {
        assert (xs + ys)[..i] == xs + ys[..i - |xs|];
        TakeOutJoin(s, xs, ys[..i - |xs|]);
      }
    }
  }

  lemma SmoothOne(s: Store, u: Unit)
    requires u.Unit? && Weak(s) && Quiet(s) && Weak(Remove(s, u)) && Quiet(Remove(s, u))
    ensures Smooth(s, [u])
  {
    hide Weak, Quiet, Remove;
    NothingOut(s);
    OneOut(s, u);
    forall i | 0 <= i <= 1
      ensures Weak(TakeOut(s, [u][..i])) && Quiet(TakeOut(s, [u][..i]))
    {
      assert [u][..i] == if i == 0 then [] else [u];
    }
  }

  lemma OneOut(s: Store, u: Unit)
    requires u.Unit?
    ensures TakeOut(s, [u]) == Remove(s, u)
  {
    hide Remove;
    assert [u][..0] == [];
  }

  /** A unit that may be cleared in a quiet store. */
  ghost predicate Steady(t: Store, u: Unit) { Ready(t, u) && Quiet(t) && TrueKids(t) }

  /** Clearing is smooth. */
  lemma {:induction false} ClearIsSmooth(s: Store, t: Store, u: Unit)
    requires TrueKids(s) && t.entries == s.entries && Steady(t, u)
    ensures Smooth(t, Post(s, t.headers, u))
    decreases |Above(t.headers, u)|, 1, 0
  {
    hide TrueKids, Ready, Quiet, Above, Remove, Smooth, TakeOut, Clear;
    SteadyParts(t, u);
    if u.Genesis? || u !in t.headers {
      SmoothStart(t);
    } else {
      KidsRefer(s, u);
      SameLinks(s, t);
      var cs := Kids(t, u);
      ChildrenAreSmooth(s, t, u, cs, |cs|);
      assert cs[..|cs|] == cs;
      var p := PostAll(s, t.headers, t.headers, u, cs);
      SmoothEnd(t, p);
      LastIsSmooth(s, t, u, p);
      SmoothJoin(t, p, [u]);
    }
  }

  lemma SteadyParts(t: Store, u: Unit)
    requires Steady(t, u)
    ensures Weak(t) && Quiet(t) && Ready(t, u) && TrueKids(t)
  {
  }

  lemma LastIsSmooth(s: Store, t: Store, u: Unit, p: seq<Unit>)
    requires TrueKids(s) && t.entries == s.entries && Steady(t, u) && u.Unit? && u in t.headers
    requires (forall c :: c in Kids(s, u) ==> u in Refs(c)) && p == PostAll(s, t.headers, t.headers, u, Kids(s, u))
    requires Weak(TakeOut(t, p)) && Quiet(TakeOut(t, p))
    ensures Smooth(TakeOut(t, p), [u])
  {
    hide TrueKids, Ready, Quiet, Above, Smooth, TakeOut, PostAll, Weak, Remove;
    SteadyParts(t, u);
    SameLinks(s, t);
    ClearAllIsPost(s, t, t.headers, u, Kids(s, u));
    ClearIsExact(t, u);
    SmoothOne(TakeOut(t, p), u);
  }

  lemma {:induction false} ChildrenAreSmooth(s: Store, t: Store, u: Unit, cs: seq<Unit>, i: nat)
    requires TrueKids(s) && t.entries == s.entries && Steady(t, u) && u.Unit? && u in t.headers
    requires cs == Kids(t, u) && i <= |cs| && forall c :: c in cs ==> u in Refs(c)
    ensures Smooth(t, PostAll(s, t.headers, t.headers, u, cs[..i]))
    decreases |Above(t.headers, u)|, 0, i
  {
    hide TrueKids, Ready, Quiet, Above, Remove, Smooth, TakeOut, Clear, Midway, Weak;
    SteadyParts(t, u);
    if i == 0 {
      assert cs[..0] == [];
      SmoothStart(t);
    } else {
      var ds, c := cs[..i - 1], cs[i - 1];
      ChildrenAreSmooth(s, t, u, cs, i - 1);
      var p := PostAll(s, t.headers, t.headers, u, ds);
      var m := TakeOut(t, p);
      ClearAllIsPost(s, t, t.headers, u, ds);
      ClearAllMidway(t, u, cs, i - 1);
      ChildIsReady(t, m, u, cs, i - 1);
      AboveShrinks(t.headers, m.headers, u, c);
      SmoothEnd(t, p);
      StillTrue(t, m);
      ClearIsSmooth(s, m, c);
      SmoothJoin(t, p, Post(s, m.headers, c));
      assert cs[..i][..i - 1] == ds && cs[..i][i - 1] == c;
    }
  }

  /** So is the walk down a chain. */
  lemma {:induction false} WalkIsSmooth(s: Store, done: seq<Unit>, c: nat, n: nat)
    requires Weak(s) && TrueKids(s) && TakenFrom(s, done) && (n == 0 || (c, n) in s.stable)
    requires TailOf(TakeOut(s, done), c) == At(s, c, n)
    requires Weak(TakeOut(s, done)) && Quiet(TakeOut(s, done))
    ensures Smooth(TakeOut(s, done), Walk(s, s.headers - Members(done), c, n))
    decreases n
  {
    hide Weak, At, TrueKids, Post, TailOf, TakeOut, Quiet, Smooth, Steady;
    var u, t := At(s, c, n), TakeOut(s, done);
    var left := s.headers - Members(done);
    if n == 0 || u.Genesis? || u !in left || u in s.bodies {
      SmoothStart(t);
    } else {
      var p := Post(s, left, u);
      WalkStep(s, done, c, n, p);
      TailIsSteady(t, c, u);
      ClearIsSmooth(s, t, u);
      SmoothEnd(t, p);
      TakeOutJoin(s, done, p);
      DownOne(s, c, n);
      WalkIsSmooth(s, done + p, c, n - 1);
      assert left - Members(p) == s.headers - Members(done + p);
      SmoothJoin(t, p, Walk(s, left - Members(p), c, n - 1));
    }
  }

  lemma TailIsSteady(t: Store, c: nat, u: Unit)
    requires Weak(t) && Quiet(t) && u.Unit? && TailOf(t, c) == u && u !in t.bodies
    ensures Steady(t, u)
  {
    hide Quiet, TrueKids, Down, Whole;
    WeakParts(t);
    TailIsTop(t, c);
  }

  lemma DownOne(s: Store, c: nat, n: nat)
    requires Weak(s) && (c, n) in s.stable && n >= 1
    ensures n - 1 == 0 || (c, n - 1) in s.stable
  {
    hide TrueKids, Down;
    AtFacts(s, c, n);
  }

  /** And the recovery of all chains. */
  lemma {:induction false} PlanIsSmooth(s: Store, done: seq<Unit>, cs: seq<nat>)
    requires Weak(s) && TrueKids(s) && TakenFrom(s, done) && Smooth(s, done)
    ensures Smooth(s, Plan(s, done, cs))
    decreases |cs|
  {
    hide Weak, At, TrueKids, TailOf, TakeOut, Quiet, Smooth, LowestLast, Walk, LastOn;
    if cs != [] {
      var c := cs[0];
      SmoothEnd(s, done);
      TailFrom(s, done, c);
      WalkIsSmooth(s, done, c, From(s, done, c));
      SmoothJoin(s, done, Walk(s, s.headers - Members(done), c, From(s, done, c)));
      Turn(s, done, c);
      PlanIsSmooth(s, Next(s, done, c), cs[1..]);
    }
  }

  // ---- any number of crashes ----------------------------------------------------------------------------------------

  /** What a recovery of the chains leaves that is cut short after so many removals. */
  ghost function CutShort(s: Store, cs: seq<nat>, removals: nat): (t: Store)
    requires TrueKids(s)
    ensures TrueKids(t)
  {
    var plan := Plan(s, [], cs);
    TakeOut(s, plan[..if removals <= |plan| then removals else |plan|])
  }

  /** It is as recoverable as what it started from, and has lost none of the units with bodies. */
  lemma CutShortIsQuiet(s: Store, cs: seq<nat>, removals: nat)
    requires Weak(s) && TrueKids(s) && Quiet(s)
    ensures var t := CutShort(s, cs, removals);
            && Weak(t) && Quiet(t) && t.bodies == s.bodies && t.headers <= s.headers
            && t.headers * s.bodies == s.headers * s.bodies
  {
    hide Weak, Quiet, TrueKids, TakeOut, Plan, NoneFatal, Recover;
    var plan := Plan(s, [], cs);
    SmoothStart(s);
    PlanIsSmooth(s, [], cs);
    RecoverTakes(s, [], cs);
  }

  /** The store after recoveries of these chains, each cut short after so many removals. */
  ghost function AfterCrashes(s: Store, crashes: seq<(seq<nat>, nat)>): (t: Store)
    requires TrueKids(s)
    ensures TrueKids(t)
    decreases |crashes|
  {
    if crashes == [] then s
    else
      var t := AfterCrashes(s, crashes[..|crashes| - 1]);
      CutShort(t, crashes[|crashes| - 1].0, crashes[|crashes| - 1].1)
  }

  lemma {:induction false} CrashesAreQuiet(s: Store, crashes: seq<(seq<nat>, nat)>)
    requires Weak(s) && TrueKids(s) && Quiet(s)
    ensures var t := AfterCrashes(s, crashes);
            && Weak(t) && Quiet(t) && t.bodies == s.bodies && t.headers <= s.headers
            && t.headers * s.bodies == s.headers * s.bodies
    decreases |crashes|
  {
    hide Weak, Quiet, TrueKids, CutShort;
    if crashes != [] {
      var n := |crashes| - 1;
      CrashesAreQuiet(s, crashes[..n]);
      CutShortIsQuiet(AfterCrashes(s, crashes[..n]), crashes[n].0, crashes[n].1);
    }
  }

  /** From a quiet store, recovery can be cut short at any removal, any number of times and in any order of the chains:
      the recovery that is not cut short ends with exactly the units that had bodies, in order. */
  lemma AnyNumberOfCrashes(s: Store, crashes: seq<(seq<nat>, nat)>, cs: seq<nat>)
    requires Weak(s) && TrueKids(s) && Quiet(s) && Covers(AfterCrashes(s, crashes), cs)
    ensures Restored(s, Recover(AfterCrashes(s, crashes), cs))
  {
    hide Weak, Quiet, TrueKids, AfterCrashes, Recover, Restorable, Covers, Inv;
    CrashesAreQuiet(s, crashes);
    var t := AfterCrashes(s, crashes);
    QuietIsRestorable(t, cs);
    RestoredIff(t, cs);
  }

  /** So at any crash of a run in which no unit is queued that was recorded before, and any crashes of the recoveries
      after it, by the markers of the units that are still stored. */
  lemma FreshRunSurvives(run: seq<Async>, moves: seq<Move>, crashes: seq<(seq<nat>, nat)>, cs: seq<nat>)
    requires FreshRun(run, moves) && Running(run[0]) && NoOldLinks(run[0])
    requires TrueKids(run[|moves|].s)
    requires forall u :: u in run[|moves|].marks && u in AfterCrashes(run[|moves|].s, crashes).headers ==>
               run[|moves|].marks[u] in cs
    ensures Restored(run[|moves|].s, Recover(AfterCrashes(run[|moves|].s, crashes), cs))
  {
    hide MoveOk, NoOldLinks, Recover, Restored, TrueKids, AfterCrashes, Quiet;
    var a := run[|moves|];
    FreshStaysFresh(run, moves);
    NewUnitsAreQuiet(a);
    WeakParts(a.s);
    CrashesAreQuiet(a.s, crashes);
    StillCovered(a, AfterCrashes(a.s, crashes), cs);
    AnyNumberOfCrashes(a.s, crashes, cs);
  }

  lemma StillCovered(a: Async, t: Store, cs: seq<nat>)
    requires Running(a) && forall u :: u in a.marks && u in t.headers ==> a.marks[u] in cs
    requires t.headers <= a.s.headers && t.bodies == a.s.bodies
    ensures Covers(t, cs)
  {
    hide Weak, OpenOk, QueueOk, StageOk, FullUnit;
  }

  // ---- in the middle of one removal ---------------------------------------------------------------------------------

  /** A removal takes the index entry away, then lowers the tail, then deletes the header. */
  function NoIndex(s: Store, u: Unit): (t: Store)
    requires u.Unit?
  {
    s.(stable := s.stable - {(u.chain, u.number)})
  }

  function NoTail(s: Store, u: Unit): (t: Store)
    requires u.Unit?
  {
    Remove(s, u).(headers := s.headers, bodies := s.bodies)
  }

  lemma {:induction false} TakeOutNoIndex(s: Store, u: Unit, xs: seq<Unit>)
    requires u.Unit? && forall v :: v in xs ==> v.Unit?
    ensures TakeOut(NoIndex(s, u), xs) == NoIndex(TakeOut(s, xs), u)
    decreases |xs|
  {
    if xs != [] {
      var ys, v := xs[..|xs| - 1], xs[|xs| - 1];
      TakeOutNoIndex(s, u, ys);
      var t := TakeOut(s, ys);
      assert Remove(NoIndex(t, u), v).stable == NoIndex(Remove(t, v), u).stable;
    }
  }

  /** Cut short after the index entry, the removal is done again as if it had not begun. */
  lemma IndexGone(s: Store, c: nat)
    requires TrueKids(s) && c in s.tail && s.tail[c].Unit? && s.tail[c].chain == c && Missing(s, s.tail[c])
    ensures TrueKids(NoIndex(s, s.tail[c])) && RecoverChain(NoIndex(s, s.tail[c]), c) == RecoverChain(s, c)
  {
    hide TrueKids, Clear, Post;
    var u := s.tail[c];
    var t := NoIndex(s, u);
    StillTrue(s, t);
    ClearIsPost(s, s, u);
    ClearIsPost(s, t, u);
    var p := Post(s, s.headers, u);
    TakeOutNoIndex(s, u, p);
    IndexIsGone(s, p, u);
  }

  lemma IndexIsGone(s: Store, p: seq<Unit>, u: Unit)
    requires (forall v :: v in p ==> v.Unit?) && u in p
    ensures NoIndex(TakeOut(s, p), u) == TakeOut(s, p)
  {
    hide TakeOut;
    TakeOutIndex(s, p, (u.chain, u.number));
  }

  /** Cut short between lowering the tail and deleting the header, the removal of a chain's lowest unit without a body
      is never done: recovering the chain finds nothing to do and leaves a header without a body. */
  lemma TailLowered(s: Store, c: nat)
    requires Weak(s) && c in s.tail && Missing(s, s.tail[c]) && !Missing(s, Below(s.tail[c]))
    ensures var u := s.tail[c];
            var t := NoTail(s, u);
            TrueKids(t) && RecoverChain(t, c) == Some(t) && u in t.headers && u !in t.bodies && !Inv(t)
  {
    hide Down, Indexed;
    var u := s.tail[c];
    var t := NoTail(s, u);
    StillTrue(s, t);
    assert OnParent(s, u);
  }
}
