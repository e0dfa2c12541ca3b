/** Bringing a store back in order after a crash: on every marked chain, tails without a body are cleared. */
module Recovery {
  import opened Options
  import opened Dag
  import opened Store
  import opened Clearing
  import opened Background

  // ---- the recovery -------------------------------------------------------------------------------------------------

  /** Clears the tail of a chain until the tail has a body or the chain is empty; none if the tail is not stored, which
      ends the program. */
  ghost function RecoverChain(s: Store, c: nat): (r: Option<Store>)
    requires TrueKids(s)
    ensures r.Some? ==> r.value.headers <= s.headers && r.value.entries == s.entries
    decreases |s.headers|
  {
    if c !in s.tail || s.tail[c].Genesis? then Some(s)
    else if s.tail[c] !in s.headers then None
    else if s.tail[c] in s.bodies then Some(s)
    else
      var t := Clear(s, s.tail[c]);
      Shrinks(t.headers, s.headers, s.tail[c]);
      SameLinks(s, t);
      RecoverChain(t, c)
  }

  lemma Shrinks(a: set<Unit>, b: set<Unit>, u: Unit)
    requires a <= b && u in b && u !in a
    ensures |a| < |b|
  {
    assert b == a + (b - a);
  }

  /** The marked chains, in the order in which they come. */
  ghost function Recover(s: Store, cs: seq<nat>): (r: Option<Store>)
    requires TrueKids(s)
    decreases |cs|
  {
    if cs == [] then Some(s)
    else
      var t := RecoverChain(s, cs[0]);
      if t.None? then None else (SameLinks(s, t.value); Recover(t.value, cs[1..]))
  }

  // ---- what clearing takes, from the links alone --------------------------------------------------------------------

  function Members(xs: seq<Unit>): (r: set<Unit>) { set v | v in xs }

  /** The units of `left` that go with `u`, in order: what is recorded under it first. */
  ghost function Post(s: Store, left: set<Unit>, u: Unit): (r: seq<Unit>)
    requires TrueKids(s)
    ensures forall v :: v in r ==> v in left && v.Unit?
    ensures u.Unit? && u in left ==> r != [] && r[|r| - 1] == u
    decreases |Above(left, u)|, 1, 0
  {
    if u.Genesis? || u !in left then [] else PostAll(s, left, left, u, Kids(s, u)) + [u]
  }

  ghost function PostAll(s: Store, left: set<Unit>, hs: set<Unit>, u: Unit, cs: seq<Unit>): (r: seq<Unit>)
    requires TrueKids(s) && left <= hs && u in hs && forall c :: c in cs ==> u in Refs(c)
    ensures forall v :: v in r ==> v in left && v.Unit?
    decreases |Above(hs, u)|, 0, |cs|
  {
    if cs == [] then []
    else
      var p := PostAll(s, left, hs, u, cs[..|cs| - 1]);
      var c := cs[|cs| - 1];
      RefRank(c, u);
      AboveShrinks(hs, left - Members(p), u, c);
      p + Post(s, left - Members(p), c)
  }

  /** Units taken out one after the other. */
  ghost function TakeOut(s: Store, xs: seq<Unit>): (r: Store)
    requires forall v :: v in xs ==> v.Unit?
    ensures r.headers == s.headers - Members(xs) && r.bodies == s.bodies - Members(xs) && r.entries == s.entries
    ensures TrueKids(s) ==> TrueKids(r)
  {
    if xs == [] then s
    else
      var r := Remove(TakeOut(s, xs[..|xs| - 1]), xs[|xs| - 1]);
      SameLinks(s, r);
      r
  }

  lemma {:induction false} TakeOutJoin(s: Store, xs: seq<Unit>, ys: seq<Unit>)
    requires forall v :: v in xs || v in ys ==> v.Unit?
    ensures TakeOut(s, xs + ys) == TakeOut(TakeOut(s, xs), ys)
    decreases |ys|
  {
    hide Remove;
    if ys == [] {
      assert xs + ys == xs;
    } else {
      var zs := ys[..|ys| - 1];
      assert (xs + ys)[..|xs + ys| - 1] == xs + zs && (xs + ys)[|xs + ys| - 1] == ys[|ys| - 1];
      TakeOutJoin(s, xs, zs);
    }
  }

  /** Clearing takes out exactly those units, in that order. */
  lemma {:induction false} ClearIsPost(s: Store, t: Store, u: Unit)
    requires TrueKids(s) && TrueKids(t) && t.entries == s.entries
    ensures Clear(t, u) == TakeOut(t, Post(s, t.headers, u))
    decreases |Above(t.headers, u)|, 1, 0
  {
    hide TrueKids, Remove, Above;
    if !u.Genesis? && u in t.headers {
      SameLinks(s, t);
      KidsRefer(s, u);
      var cs := Kids(s, u);
      ClearAllIsPost(s, t, t.headers, u, cs);
      var p := PostAll(s, t.headers, t.headers, u, cs);
      assert (p + [u])[..|p + [u]| - 1] == p;
    }
  }

  lemma KidsRefer(s: Store, u: Unit)
    requires TrueKids(s)
    ensures forall c :: c in Kids(s, u) ==> u in Refs(c)
  {
  }

  lemma {:induction false} ClearAllIsPost(s: Store, t: Store, hs: set<Unit>, u: Unit, cs: seq<Unit>)
    requires TrueKids(s) && TrueKids(t) && t.entries == s.entries && t.headers <= hs && u in hs
    requires forall c :: c in cs ==> u in Refs(c)
    ensures ClearAll(t, hs, u, cs) == TakeOut(t, PostAll(s, t.headers, hs, u, cs))
    decreases |Above(hs, u)|, 0, |cs|
  {
    hide TrueKids, Remove, Above;
    if cs != [] {
      var ds, c := cs[..|cs| - 1], cs[|cs| - 1];
      ClearAllIsPost(s, t, hs, u, ds);
      var p := PostAll(s, t.headers, hs, u, ds);
      var m := TakeOut(t, p);
      assert TrueKids(m) by { StillTrue(t, m); }
      RefRank(c, u);
      AboveShrinks(hs, m.headers, u, c);
      ClearIsPost(s, m, c);
      TakeOutJoin(t, p, Post(s, m.headers, c));
    }
  }

  lemma StillTrue(s: Store, t: Store)
    requires TrueKids(s) && t.entries == s.entries
    ensures TrueKids(t)
  {
    SameLinks(s, t);
  }

  // ---- tails --------------------------------------------------------------------------------------------------------

  function TailOf(s: Store, c: nat): (u: Unit) { if c in s.tail then s.tail[c] else Genesis }

  /** The last of the units that is on the chain. */
  function LastOn(xs: seq<Unit>, c: nat): (r: Option<Unit>)
    requires forall v :: v in xs ==> v.Unit?
    ensures r.Some? ==> r.value in xs && r.value.Unit? && r.value.chain == c
    ensures r.None? ==> forall v :: v in xs ==> v.chain != c
  {
    if xs == [] then None
    else if xs[|xs| - 1].chain == c then Some(xs[|xs| - 1])
    else LastOn(xs[..|xs| - 1], c)
  }

  lemma {:induction false} LastOnJoin(xs: seq<Unit>, ys: seq<Unit>, c: nat)
    requires forall v :: v in xs || v in ys ==> v.Unit?
    ensures LastOn(xs + ys, c) == if LastOn(ys, c).Some? then LastOn(ys, c) else LastOn(xs, c)
    decreases |ys|
  {
    if ys == [] {
      assert xs + ys == xs;
    } else {
      var zs := ys[..|ys| - 1];
      assert (xs + ys)[..|xs + ys| - 1] == xs + zs && (xs + ys)[|xs + ys| - 1] == ys[|ys| - 1];
      LastOnJoin(xs, zs, c);
    }
  }

  function Below(u: Unit): (r: Unit)
    requires u.Unit?
  {
    if u.number == 1 then Genesis else u.parent
  }

  /** A chain's tail is the unit below the one taken last. */
  lemma {:induction false} TailAfter(s: Store, xs: seq<Unit>, c: nat)
    requires forall v :: v in xs ==> v.Unit?
    ensures TailOf(TakeOut(s, xs), c) == if LastOn(xs, c).Some? then Below(LastOn(xs, c).value) else TailOf(s, c)
    decreases |xs|
  {
    if xs != [] {
      TailAfter(s, xs[..|xs| - 1], c);
    }
  }

  // ---- one chain ----------------------------------------------------------------------------------------------------

  /** Only units without a body have been taken. */
  ghost predicate TakenFrom(s: Store, done: seq<Unit>) {
    forall v :: v in done ==> v.Unit? && v in s.headers && v !in s.bodies
  }

  function At(s: Store, c: nat, n: nat): (u: Unit) { if (c, n) in s.stable then s.stable[(c, n)] else Genesis }

  /** What goes with the units of a chain that have no body, from a height on down. */
  ghost function Walk(s: Store, left: set<Unit>, c: nat, n: nat): (r: seq<Unit>)
    requires TrueKids(s)
    ensures forall v :: v in r ==> v in left && v.Unit?
    decreases n
  {
    var u := At(s, c, n);
    if n == 0 || u.Genesis? || u !in left || u in s.bodies then []
    else
      var p := Post(s, left, u);
      p + Walk(s, left - Members(p), c, n - 1)
  }

  function Height(s: Store, c: nat): (n: nat) { if c in s.tail && s.tail[c].Unit? then s.tail[c].number else 0 }

  /** Where the tail of a chain is after `done`: below the unit taken last, or where it was. */
  function From(s: Store, done: seq<Unit>, c: nat): (n: nat)
    requires forall v :: v in done ==> v.Unit?
  {
    match LastOn(done, c)
    case None => Height(s, c)
    case Some(z) => if z.number == 0 then 0 else z.number - 1
  }

  /** What has been taken once the chain had its turn. */
  ghost function Next(s: Store, done: seq<Unit>, c: nat): (r: seq<Unit>)
    requires TrueKids(s) && forall v :: v in done ==> v.Unit?
    ensures forall v :: v in r ==> v.Unit?
  {
    done + Walk(s, s.headers - Members(done), c, From(s, done, c))
  }

  /** Of what has been taken from the chain, the lowest unit was taken last. */
  predicate LowestLast(done: seq<Unit>, c: nat)
    requires forall v :: v in done ==> v.Unit?
  {
    forall w :: w in done && w.chain == c ==> LastOn(done, c).Some? && LastOn(done, c).value.number <= w.number
  }

  lemma {:induction false} PostRefers(s: Store, left: set<Unit>, u: Unit, v: Unit)
    requires TrueKids(s) && v in Post(s, left, u)
    ensures Refers(v, u)
    decreases |Above(left, u)|, 1, 0
  {
    hide TrueKids, Above;
    if v != u {
      KidsRefer(s, u);
      PostAllRefers(s, left, left, u, Kids(s, u), v);
    }
  }

  lemma {:induction false} PostAllRefers(s: Store, left: set<Unit>, hs: set<Unit>, u: Unit, cs: seq<Unit>, v: Unit)
    requires TrueKids(s) && left <= hs && u in hs && forall c :: c in cs ==> u in Refs(c)
    requires v in PostAll(s, left, hs, u, cs)
    ensures Refers(v, u)
    decreases |Above(hs, u)|, 0, |cs|
  {
    hide TrueKids, Above;
    var ds, c := cs[..|cs| - 1], cs[|cs| - 1];
    var p := PostAll(s, left, hs, u, ds);
    if v in p {
      PostAllRefers(s, left, hs, u, ds, v);
    } else {
      RefRank(c, u);
      AboveShrinks(hs, left - Members(p), u, c);
      PostRefers(s, left - Members(p), c, v);
      assert Refers(u, u) && Refers(c, u);
      RefersTrans(v, c, u);
    }
  }

  /** What goes with a unit without a body has no body. */
  lemma PostIsMissing(s: Store, left: set<Unit>, u: Unit)
    requires Weak(s) && left <= s.headers && u in left && u.Unit? && u !in s.bodies
    ensures TakenFrom(s, Post(s, left, u))
  {
    hide Shape;
    forall v | v in Post(s, left, u)
      ensures v !in s.bodies
    {
      PostRefers(s, left, u, v);
      if v in s.bodies {
        DownAll(s, v, u);
      }
    }
  }

  /** On a chain, only units from `u` on up refer to `u`. */
  lemma RefersUp(s: Store, u: Unit, v: Unit)
    requires Shape(s) && u in s.headers && v in s.headers && u.Unit? && v.Unit? && u.chain == v.chain && Refers(v, u)
    ensures v.number >= u.number
  {
    if v.number < u.number {
      ChainRefers(s, u, v.number);
      RefersRank(u, v);
      RefersRank(v, u);
    }
  }

  /** Above a unit without a body there are only units without a body. */
  lemma MissingAbove(s: Store, u: Unit, v: Unit)
    requires Weak(s) && u in s.headers && v in s.headers && u.Unit? && v.Unit? && u.chain == v.chain
    requires u.number <= v.number && u !in s.bodies
    ensures v !in s.bodies
  {
    ChainRefers(s, v, u.number);
    if v in s.bodies {
      DownAll(s, v, u);
    }
  }

  /** Has something been taken from the chain at or below a height? */
  predicate TakenBelow(done: seq<Unit>, c: nat, n: nat)
    requires forall v :: v in done ==> v.Unit?
  {
    exists w :: w in done && w.chain == c && w.number <= n
  }

  /** The unit at a height: on its chain, on the unit below. */
  lemma AtFacts(s: Store, c: nat, n: nat)
    requires Shape(s) && (c, n) in s.stable
    ensures var u := At(s, c, n);
            && u in s.headers && u.Unit? && u.chain == c && u.number == n >= 1 && Below(u) == At(s, c, n - 1)
            && (n > 1 ==> (c, n - 1) in s.stable) && (c, 0) !in s.stable
    ensures forall v :: v in s.headers && v.Unit? && v.chain == c && v.number == n ==> v == At(s, c, n)
  {
    var u := At(s, c, n);
    assert OnParent(s, u);
    if n > 1 {
      assert s.stable[(c, n - 1)] == u.parent;
    }
  }

  lemma WeakParts(s: Store)
    requires Weak(s)
    ensures Shape(s) && TrueKids(s) && Down(s)
  {
  }

  /** Clearing a stored tail without a body is one step of the walk. */
  lemma ChainStep(s: Store, t: Store, c: nat, u: Unit, p: seq<Unit>)
    requires TrueKids(s) && TrueKids(t) && t.entries == s.entries
    requires u.Unit? && TailOf(t, c) == u && u in t.headers && u !in t.bodies && p == Post(s, t.headers, u)
    ensures RecoverChain(t, c) == RecoverChain(TakeOut(t, p), c)
  {
    hide Clear, TrueKids, Post;
    ClearIsPost(s, t, u);
  }

  /** Where the walk goes from a stored unit without a body. */
  lemma WalkStep(s: Store, done: seq<Unit>, c: nat, n: nat, p: seq<Unit>)
    requires Weak(s) && TrueKids(s) && TakenFrom(s, done) && (c, n) in s.stable
    requires At(s, c, n) !in done && At(s, c, n) !in s.bodies && p == Post(s, s.headers - Members(done), At(s, c, n))
    requires TailOf(TakeOut(s, done), c) == At(s, c, n)
    ensures n >= 1 && At(s, c, n) in s.headers && At(s, c, n).Unit? && TakenFrom(s, done + p)
    ensures RecoverChain(TakeOut(s, done), c) == RecoverChain(TakeOut(s, done + p), c)
    ensures TailOf(TakeOut(s, done + p), c) == At(s, c, n - 1)
    ensures TakenBelow(done + p, c, n - 1) <==> TakenBelow(done, c, n)
  {
    hide Weak, TakeOut, At, Shape, TrueKids, RecoverChain, Post, TakenBelow, TailOf, LastOn;
    WeakParts(s);
    AtFacts(s, c, n);
    var u := At(s, c, n);
    PostIsMissing(s, s.headers - Members(done), u);
    var t := TakeOut(s, done);
    ChainStep(s, t, c, u, p);
    TakeOutJoin(s, done, p);
    TailAfter(t, p, c);
    LastIs(p, u);
    NothingBelow(s, done, c, n, p);
  }

  lemma LastIs(xs: seq<Unit>, u: Unit)
    requires (forall v :: v in xs ==> v.Unit?) && xs != [] && xs[|xs| - 1] == u
    ensures LastOn(xs, u.chain) == Some(u)
  {
  }

  lemma NothingBelow(s: Store, done: seq<Unit>, c: nat, n: nat, p: seq<Unit>)
    requires Shape(s) && TrueKids(s) && TakenFrom(s, done) && TakenFrom(s, done + p) && (c, n) in s.stable && n >= 1
    requires At(s, c, n) !in done && p == Post(s, s.headers - Members(done), At(s, c, n))
    ensures TakenBelow(done + p, c, n - 1) <==> TakenBelow(done, c, n)
  {
    AtFacts(s, c, n);
    var u := At(s, c, n);
    hide Shape, TrueKids, At;
    forall w | w in p && w.chain == c
      ensures w.number >= n
    {
      PostRefers(s, s.headers - Members(done), u, w);
      RefersUp(s, u, w);
    }
    if TakenBelow(done, c, n) {
      var w :| w in done && w.chain == c && w.number <= n;
      assert w in done + p;
    }
  }

  /** Recovering a chain whose tail is at height `n` takes what the walk takes, unless the walk meets a unit that has
      been taken before. */
  lemma {:induction false} WalkDown(s: Store, done: seq<Unit>, c: nat, n: nat)
    requires Weak(s) && TrueKids(s) && TakenFrom(s, done) && (n == 0 || (c, n) in s.stable)
    requires TailOf(TakeOut(s, done), c) == At(s, c, n)
    ensures var w := Walk(s, s.headers - Members(done), c, n);
            && TakenFrom(s, done + w)
            && RecoverChain(TakeOut(s, done), c) == if TakenBelow(done, c, n) then None else Some(TakeOut(s, done + w))
    decreases n
  {
    hide Weak, At, Shape, TrueKids, RecoverChain, Post, TakenBelow, TailOf, TakeOut;
    WeakParts(s);
    var u := At(s, c, n);
    var t := TakeOut(s, done);
    var left := s.headers - Members(done);
    if n == 0 || u in done || u in s.bodies {
      WalkEnds(s, done, c, n);
      assert done + [] == done;
    } else {
      var p := Post(s, left, u);
      WalkStep(s, done, c, n, p);
      if n > 1 {
        AtFacts(s, c, n);
      }
      WalkDown(s, done + p, c, n - 1);
      assert left - Members(p) == s.headers - Members(done + p);
      assert done + Walk(s, left, c, n) == (done + p) + Walk(s, left - Members(p), c, n - 1);
    }
  }

  lemma WalkEnds(s: Store, done: seq<Unit>, c: nat, n: nat)
    requires Weak(s) && TrueKids(s) && TakenFrom(s, done) && (n == 0 || (c, n) in s.stable)
    requires TailOf(TakeOut(s, done), c) == At(s, c, n)
    requires n == 0 || At(s, c, n) in done || At(s, c, n) in s.bodies
    ensures Walk(s, s.headers - Members(done), c, n) == []
    ensures RecoverChain(TakeOut(s, done), c) == if TakenBelow(done, c, n) then None else Some(TakeOut(s, done))
  {
    hide Weak, TakeOut, TrueKids, Shape;
    WeakParts(s);
    if n == 0 {
      NoneAtZero(s, c);
      assert !TakenBelow(done, c, 0) by {
        forall w | w in done
          ensures w.number >= 1
        {
          Numbered(s, w);
        }
      }
    } else {
      AtFacts(s, c, n);
      var u := At(s, c, n);
      if u in done {
        assert TakenBelow(done, c, n);
      } else {
        forall w | w in done && w.chain == c && w.number <= n
          ensures false
        {
          MissingAbove(s, w, u);
        }
      }
    }
  }

  lemma NoneAtZero(s: Store, c: nat)
    requires Shape(s)
    ensures At(s, c, 0) == Genesis
  {
  }

  lemma Numbered(s: Store, u: Unit)
    requires Shape(s) && u in s.headers
    ensures u.Unit? && u.number >= 1 && (u.chain, u.number) in s.stable && At(s, u.chain, u.number) == u
  {
  }

  /** Where a chain's tail is when its turn comes. */
  lemma TailFrom(s: Store, done: seq<Unit>, c: nat)
    requires Weak(s) && TakenFrom(s, done)
    ensures var n := From(s, done, c);
            && (n == 0 || (c, n) in s.stable) && TailOf(TakeOut(s, done), c) == At(s, c, n)
            && (LowestLast(done, c) <==> !TakenBelow(done, c, n))
  {
    hide Weak, TakeOut, Shape, At, TailOf;
    WeakParts(s);
    TailAfter(s, done, c);
    match LastOn(done, c) {
      case None => HeightFacts(s, c);
      case Some(z) =>
        Numbered(s, z);
        AtFacts(s, c, z.number);
        NoneAtZero(s, c);
    }
  }

  lemma HeightFacts(s: Store, c: nat)
    requires Shape(s)
    ensures var n := Height(s, c); (n == 0 || (c, n) in s.stable) && TailOf(s, c) == At(s, c, n)
  {
  }

  /** A chain's turn is fatal unless the lowest of its units taken before was taken last; then it takes what the links
      say. */
  lemma Turn(s: Store, done: seq<Unit>, c: nat)
    requires Weak(s) && TrueKids(s) && TakenFrom(s, done)
    ensures TakenFrom(s, Next(s, done, c))
    ensures RecoverChain(TakeOut(s, done), c) == if LowestLast(done, c) then Some(TakeOut(s, Next(s, done, c))) else None
  {
    hide Weak, TakeOut, At, TailOf, RecoverChain, LowestLast, TakenBelow;
    TailFrom(s, done, c);
    WalkDown(s, done, c, From(s, done, c));
  }

  // ---- all chains ---------------------------------------------------------------------------------------------------

  ghost predicate AllTaken(s: Store, done: seq<Unit>, c: nat) {
    forall v :: v in s.headers && v.Unit? && v.chain == c && v !in s.bodies ==> v in done
  }

  /** What can be said before recovery, from the recorded links and the missing bodies alone: chain by chain, in the
      order of recovery, what the links of earlier chains have taken from the chain was taken lowest last, and once the
      chain had its turn all its units without a body have been taken. */
  ghost predicate Restorable(s: Store, done: seq<Unit>, cs: seq<nat>)
    requires TrueKids(s) && forall v :: v in done ==> v.Unit?
    decreases |cs|
  {
    cs == []
    || (LowestLast(done, cs[0]) && AllTaken(s, Next(s, done, cs[0]), cs[0])
        && Restorable(s, Next(s, done, cs[0]), cs[1..]))
  }

  /** What has been taken in the end. */
  ghost function Plan(s: Store, done: seq<Unit>, cs: seq<nat>): (r: seq<Unit>)
    requires TrueKids(s) && forall v :: v in done ==> v.Unit?
    ensures forall v :: v in r ==> v.Unit?
    ensures done <= r && forall i :: |done| <= i < |r| ==> r[i] !in done
    decreases |cs|
  {
    if cs == [] then done else Plan(s, Next(s, done, cs[0]), cs[1..])
  }

  /** No chain's turn is fatal. */
  ghost predicate NoneFatal(s: Store, done: seq<Unit>, cs: seq<nat>)
    requires TrueKids(s) && forall v :: v in done ==> v.Unit?
    decreases |cs|
  {
    cs == [] || (LowestLast(done, cs[0]) && NoneFatal(s, Next(s, done, cs[0]), cs[1..]))
  }

  lemma {:induction false} RecoverTakes(s: Store, done: seq<Unit>, cs: seq<nat>)
    requires Weak(s) && TrueKids(s) && TakenFrom(s, done)
    ensures TakenFrom(s, Plan(s, done, cs))
    ensures Recover(TakeOut(s, done), cs)
         == if NoneFatal(s, done, cs) then Some(TakeOut(s, Plan(s, done, cs))) else None
    decreases |cs|
  {
    hide Weak, TakeOut, RecoverChain, LowestLast, Next, TrueKids;
    if cs != [] {
      Turn(s, done, cs[0]);
      RecoverTakes(s, Next(s, done, cs[0]), cs[1..]);
    }
  }

  ghost predicate Missing(s: Store, u: Unit) { u.Unit? && u in s.headers && u !in s.bodies }

  /** A walk that meets nothing taken before takes all units without a body at or below its height, and ends above a
      unit with a body or the bottom of the chain. */
  lemma {:induction false} WalkReaches(s: Store, done: seq<Unit>, c: nat, n: nat)
    requires Weak(s) && TrueKids(s) && TakenFrom(s, done) && (n == 0 || (c, n) in s.stable) && !TakenBelow(done, c, n)
    ensures var w := Walk(s, s.headers - Members(done), c, n);
            && (forall y :: Missing(s, y) && y.chain == c && y.number <= n ==> y in w)
            && (if w == [] then !Missing(s, At(s, c, n))
                else LastOn(w, c).Some? && !Missing(s, Below(LastOn(w, c).value)))
    decreases n
  {
    hide Weak, Shape, TrueKids, Post, At, TakenBelow, Missing;
    WeakParts(s);
    var left := s.headers - Members(done);
    if n == 0 {
      NothingAtZero(s, c);
    } else {
      AtFacts(s, c, n);
      var u := At(s, c, n);
      NotTaken(done, c, n, u);
      if u in s.bodies {
        NoneMissing(s, c, n);
      } else {
        var p := Post(s, left, u);
        ReachStep(s, done, c, n, p);
        WalkReaches(s, done + p, c, n - 1);
        assert left - Members(p) == s.headers - Members(done + p);
        var w := Walk(s, left - Members(p), c, n - 1);
        LastIs(p, u);
        LastOnJoin(p, w, c);
        LowerOrThis(s, c, n);
        assert u in p;
      }
    }
  }

  lemma NothingAtZero(s: Store, c: nat)
    requires Shape(s)
    ensures !Missing(s, At(s, c, 0)) && forall y :: Missing(s, y) ==> y.number >= 1
  {
    NoneAtZero(s, c);
  }

  lemma NotTaken(done: seq<Unit>, c: nat, n: nat, u: Unit)
    requires (forall v :: v in done ==> v.Unit?) && !TakenBelow(done, c, n) && u.Unit? && u.chain == c && u.number <= n
    ensures u !in done
  {
  }

  lemma NoneMissing(s: Store, c: nat, n: nat)
    requires Weak(s) && (c, n) in s.stable && At(s, c, n) in s.bodies
    ensures !Missing(s, At(s, c, n)) && forall y :: Missing(s, y) && y.chain == c ==> y.number > n
  {
    AtFacts(s, c, n);
    forall y | Missing(s, y) && y.chain == c
      ensures y.number > n
    {
      if y.number <= n {
        MissingAbove(s, y, At(s, c, n));
      }
    }
  }

  lemma ReachStep(s: Store, done: seq<Unit>, c: nat, n: nat, p: seq<Unit>)
    requires Weak(s) && TrueKids(s) && TakenFrom(s, done) && (c, n) in s.stable && n >= 1 && !TakenBelow(done, c, n)
    requires At(s, c, n) !in done && At(s, c, n) !in s.bodies && p == Post(s, s.headers - Members(done), At(s, c, n))
    ensures TakenFrom(s, done + p) && !TakenBelow(done + p, c, n - 1) && (n - 1 == 0 || (c, n - 1) in s.stable)
  {
    hide Weak, Shape, TrueKids, Post, TakenBelow, At;
    WeakParts(s);
    AtFacts(s, c, n);
    PostIsMissing(s, s.headers - Members(done), At(s, c, n));
    NothingBelow(s, done, c, n, p);
  }

  lemma LowerOrThis(s: Store, c: nat, n: nat)
    requires Shape(s) && (c, n) in s.stable && n >= 1
    ensures Below(At(s, c, n)) == At(s, c, n - 1)
    ensures forall y :: Missing(s, y) && y.chain == c && y.number <= n ==> y == At(s, c, n) || y.number <= n - 1
  {
    AtFacts(s, c, n);
  }

  lemma MissingBelow(s: Store, z: Unit, y: Unit)
    requires Weak(s) && Missing(s, z) && Missing(s, y) && z.chain == y.chain && z.number < y.number
    ensures Missing(s, Below(y))
  {
    hide Weak, Shape, At;
    WeakParts(s);
    Numbered(s, z);
    Numbered(s, y);
    AtFacts(s, y.chain, y.number);
    AtFacts(s, y.chain, y.number - 1);
    MissingAbove(s, z, Below(y));
  }

  /** After its turn, a chain's lowest unit without a body has been taken. */
  lemma LowestTaken(s: Store, done: seq<Unit>, c: nat, y: Unit)
    requires Weak(s) && TrueKids(s) && TakenFrom(s, done) && LowestLast(done, c)
    requires Missing(s, y) && y.chain == c && y.number >= 1 && !Missing(s, Below(y))
    ensures y in Next(s, done, c)
  {
    hide Weak, Shape, TrueKids, At, Walk, TakeOut;
    WeakParts(s);
    TailFrom(s, done, c);
    var n := From(s, done, c);
    WalkReaches(s, done, c, n);
    if y.number > n {
      BelowTail(s, y);
      assert LastOn(done, c).Some?;
      var z := LastOn(done, c).value;
      Numbered(s, z);
      Numbered(s, y);
      AtFacts(s, c, y.number);
      if z.number < y.number {
        MissingBelow(s, z, y);
      }
    }
  }

  /** A chain that is back in order: nothing is missing, and the tail is below the lowest unit taken. */
  ghost predicate Settled(s: Store, done: seq<Unit>, c: nat)
    requires forall v :: v in done ==> v.Unit?
  {
    AllTaken(s, done, c) && (LastOn(done, c).Some? ==> !Missing(s, Below(LastOn(done, c).value)))
  }

  lemma TurnSettles(s: Store, done: seq<Unit>, c: nat)
    requires Weak(s) && TrueKids(s) && TakenFrom(s, done) && LowestLast(done, c)
    requires AllTaken(s, Next(s, done, c), c)
    ensures Settled(s, Next(s, done, c), c)
  {
    hide Weak, Shape, TrueKids, Walk, TakeOut, AllTaken, Missing;
    WeakParts(s);
    TailFrom(s, done, c);
    var n := From(s, done, c);
    WalkReaches(s, done, c, n);
    var w := Walk(s, s.headers - Members(done), c, n);
    LastOnJoin(done, w, c);
    if w == [] && LastOn(done, c).Some? {
      var z := LastOn(done, c).value;
      Numbered(s, z);
      LowerOrThis(s, c, z.number);
    }
  }

  /** Later turns leave it in order. */
  lemma SettledStays(s: Store, done: seq<Unit>, c: nat, d: nat)
    requires Weak(s) && TrueKids(s) && TakenFrom(s, done) && Settled(s, done, c)
    ensures Settled(s, Next(s, done, d), c)
  {
    hide Weak, TrueKids, Walk, Missing;
    Turn(s, done, d);
    var w := Walk(s, s.headers - Members(done), d, From(s, done, d));
    LastOnJoin(done, w, c);
    forall v | v in w
      ensures v.chain != c
    {
      assert v in done + w && v !in done;
    }
  }

  /** If every chain is settled or to be recovered, every chain ends up settled. */
  lemma {:induction false} AllSettle(s: Store, done: seq<Unit>, cs: seq<nat>)
    requires Weak(s) && TrueKids(s) && TakenFrom(s, done) && Restorable(s, done, cs)
    requires forall c :: c in cs || Settled(s, done, c)
    ensures NoneFatal(s, done, cs)
    ensures forall c :: Settled(s, Plan(s, done, cs), c)
    decreases |cs|
  {
    hide Weak, TrueKids, Next, LowestLast, AllTaken, Settled;
    if cs != [] {
      var next := Next(s, done, cs[0]);
      Turn(s, done, cs[0]);
      TurnSettles(s, done, cs[0]);
      forall c | c !in cs[1..]
        ensures Settled(s, next, c)
      {
        if c != cs[0] {
          SettledStays(s, done, c, cs[0]);
        }
      }
      AllSettle(s, next, cs[1..]);
    }
  }

  // ---- when recovery restores the store -----------------------------------------------------------------------------

  lemma {:induction false} TakeOutIndex(s: Store, xs: seq<Unit>, k: Slot)
    requires forall v :: v in xs ==> v.Unit?
    ensures k in TakeOut(s, xs).stable <==> k in s.stable && forall v :: v in xs ==> k != (v.chain, v.number)
    ensures k in TakeOut(s, xs).stable ==> TakeOut(s, xs).stable[k] == s.stable[k]
    decreases |xs|
  {
    if xs != [] {
      TakeOutIndex(s, xs[..|xs| - 1], k);
      assert forall v :: v in xs <==> v in xs[..|xs| - 1] || v == xs[|xs| - 1];
    }
  }

  /** With every chain settled, what is left is what had a body. */
  lemma SettledHeaders(s: Store, done: seq<Unit>)
    requires Shape(s) && TakenFrom(s, done) && forall c :: Settled(s, done, c)
    ensures TakeOut(s, done).headers == s.headers * s.bodies && TakeOut(s, done).bodies == s.bodies
    ensures forall u :: u in s.headers ==> (u in done <==> u !in s.bodies)
  {
    hide TakeOut;
    forall u | u in s.headers
      ensures u in done <==> u !in s.bodies
    {
      Numbered(s, u);
      assert Settled(s, done, u.chain);
    }
  }

  lemma SettledIndexed(s: Store, done: seq<Unit>, t: Store)
    requires Shape(s) && Down(s) && TakenFrom(s, done) && t == TakeOut(s, done) && t.headers == s.headers * s.bodies
    requires forall u :: u in s.headers ==> (u in done <==> u !in s.bodies)
    ensures Indexed(t) && Linked(t)
  {
    hide TakeOut, Tailed;
    forall u | u in t.headers
      ensures u.Unit? && u.number >= 1 && (u.chain, u.number) in t.stable && t.stable[(u.chain, u.number)] == u
      ensures OnParent(t, u)
    {
      Numbered(s, u);
      TakeOutIndex(s, done, (u.chain, u.number));
      forall v | v in done
        ensures (v.chain, v.number) != (u.chain, u.number)
      {
        Numbered(s, v);
      }
      assert OnParent(s, u) && FullUnit(s, u);
    }
    forall k | k in t.stable
      ensures t.stable[k] in t.headers && t.stable[k].Unit? && k == (t.stable[k].chain, t.stable[k].number)
    {
      TakeOutIndex(s, done, k);
      assert s.stable[k] in s.headers;
    }
  }

  /** The tail a settled chain ends up with. */
  lemma SettledTail(s: Store, done: seq<Unit>, t: Store, c: nat)
    requires Weak(s) && TakenFrom(s, done) && t == TakeOut(s, done) && t.headers == s.headers * s.bodies
    requires Settled(s, done, c)
    ensures c in t.tail ==>
              t.tail[c] in t.headers && t.tail[c].Unit? && t.tail[c].chain == c && (c, t.tail[c].number + 1) !in t.stable
    ensures forall u :: u in t.headers && u.Unit? && u.chain == c ==> c in t.tail
  {
    hide Weak, TakeOut, At, Shape;
    WeakParts(s);
    TailAfter(s, done, c);
    match LastOn(done, c) {
      case None => UntouchedTail(s, done, t, c);
      case Some(z) => LoweredTail(s, done, t, c, z);
    }
  }

  lemma UntouchedTail(s: Store, done: seq<Unit>, t: Store, c: nat)
    requires Shape(s) && TakenFrom(s, done) && t == TakeOut(s, done) && t.headers == s.headers * s.bodies
    requires AllTaken(s, done, c) && LastOn(done, c).None? && TailOf(t, c) == TailOf(s, c)
    ensures c in t.tail ==>
              t.tail[c] in t.headers && t.tail[c].Unit? && t.tail[c].chain == c && (c, t.tail[c].number + 1) !in t.stable
    ensures forall u :: u in t.headers && u.Unit? && u.chain == c ==> c in t.tail
  {
    hide TakeOut, LastOn;
    TailsAreUnits(s, done, c);
    if c in t.tail {
      assert t.tail[c] == s.tail[c];
      TakeOutIndex(s, done, (c, t.tail[c].number + 1));
    }
  }

  /** Removing units never makes the genesis unit a tail. */
  lemma {:induction false} TailsAreUnits(s: Store, done: seq<Unit>, c: nat)
    requires Shape(s) && TakenFrom(s, done)
    ensures c in TakeOut(s, done).tail ==> TakeOut(s, done).tail[c].Unit?
    decreases |done|
  {
    hide Shape;
    if done != [] {
      TailsAreUnits(s, done[..|done| - 1], c);
      var z := done[|done| - 1];
      StandsOn(s, z);
    } else {
      TailsOfShape(s, c);
    }
  }

  lemma TailsOfShape(s: Store, c: nat)
    requires Shape(s)
    ensures c in s.tail ==> s.tail[c].Unit?
  {
  }

  lemma StandsOn(s: Store, z: Unit)
    requires Shape(s) && z in s.headers
    ensures z.Unit?
    ensures z.number != 1 ==>
              z.parent.Unit? && z.parent in s.headers && z.parent.chain == z.chain && z.parent.number == z.number - 1
  {
    assert OnParent(s, z);
  }

  lemma LoweredTail(s: Store, done: seq<Unit>, t: Store, c: nat, z: Unit)
    requires Weak(s) && TakenFrom(s, done) && t == TakeOut(s, done) && t.headers == s.headers * s.bodies
    requires LastOn(done, c) == Some(z) && !Missing(s, Below(z)) && TailOf(t, c) == Below(z)
    ensures c in t.tail ==>
              t.tail[c] in t.headers && t.tail[c].Unit? && t.tail[c].chain == c && (c, t.tail[c].number + 1) !in t.stable
    ensures forall u :: u in t.headers && u.Unit? && u.chain == c ==> c in t.tail
  {
    hide Weak, Shape, TakeOut, LastOn;
    WeakParts(s);
    Numbered(s, z);
    StandsOn(s, z);
    TailsAreUnits(s, done, c);
    TakeOutIndex(s, done, (c, z.number));
    forall u | u in t.headers && u.Unit? && u.chain == c
      ensures c in t.tail
    {
      Numbered(s, u);
      if z.number == 1 {
        MissingAbove(s, z, u);
      }
    }
  }

  lemma SettledIsInv(s: Store, done: seq<Unit>)
    requires Weak(s) && TakenFrom(s, done) && forall c :: Settled(s, done, c)
    ensures Inv(TakeOut(s, done))
  {
    hide TakeOut, Shape, Indexed, Linked, Settled;
    WeakParts(s);
    var t := TakeOut(s, done);
    SettledHeaders(s, done);
    SettledIndexed(s, done, t);
    forall c
      ensures c in t.tail ==>
                t.tail[c] in t.headers && t.tail[c].Unit? && t.tail[c].chain == c && (c, t.tail[c].number + 1) !in t.stable
      ensures forall u :: u in t.headers && u.Unit? && u.chain == c ==> c in t.tail
    {
      SettledTail(s, done, t, c);
    }
    assert Shape(t) by { ShapeParts(t); }
    SameLinks(s, t);
    SettledDown(s, t);
  }

  lemma ShapeParts(s: Store)
    requires Indexed(s) && Linked(s) && Tailed(s)
    ensures Shape(s)
  {
  }

  lemma SettledDown(s: Store, t: Store)
    requires Down(s) && TrueKids(s) && t.headers == s.headers * s.bodies && t.bodies == s.bodies && t.entries == s.entries
    ensures Down(t) && TrueKids(t)
  {
    SameLinks(s, t);
    forall u | u in t.headers && u in t.bodies
      ensures FullUnit(t, u)
    {
      assert FullUnit(s, u);
    }
  }

  /** A chain of which something is left after its turn never comes back in order. */
  lemma StaysBroken(s: Store, next: seq<Unit>, c: nat, cs: seq<nat>)
    requires Weak(s) && TrueKids(s) && TakenFrom(s, next) && !AllTaken(s, next, c)
    requires TakenFrom(s, Plan(s, next, cs))
    requires forall y: Unit :: y.Unit? && Missing(s, y) && y.chain == c && !Missing(s, Below(y)) ==> y in next
    ensures !Inv(TakeOut(s, Plan(s, next, cs)))
  {
    hide Weak, TrueKids, TakeOut, Plan, LastOn, Shape;
    var fin := Plan(s, next, cs);
    var t := TakeOut(s, fin);
    var v :| v in s.headers && v.Unit? && v.chain == c && v !in s.bodies && v !in next;
    if v in fin {
      var more := fin[|next|..];
      assert fin == next + more && v in more;
      LastOnJoin(next, more, c);
      var y := LastOn(more, c).value;
      TailAfter(s, fin, c);
      assert y !in next && Missing(s, Below(y));
      DanglingTail(t, c);
    } else {
      assert v in t.headers && v !in t.bodies;
    }
  }

  lemma DanglingTail(t: Store, c: nat)
    requires TailOf(t, c).Unit? && TailOf(t, c) !in t.bodies
    ensures !Inv(t)
  {
  }

  lemma {:induction false} NotRestored(s: Store, done: seq<Unit>, cs: seq<nat>)
    requires Weak(s) && TrueKids(s) && TakenFrom(s, done) && !Restorable(s, done, cs) && NoneFatal(s, done, cs)
    ensures !Inv(TakeOut(s, Plan(s, done, cs)))
    decreases |cs|
  {
    hide Weak, TrueKids, TakeOut, Next, LowestLast, AllTaken, Inv, Missing;
    var c := cs[0];
    var next := Next(s, done, c);
    Turn(s, done, c);
    if AllTaken(s, next, c) {
      NotRestored(s, next, cs[1..]);
    } else {
      RecoverTakes(s, next, cs[1..]);
      forall y: Unit | y.Unit? && Missing(s, y) && y.chain == c && !Missing(s, Below(y))
        ensures y in next
      {
        MissingIsNumbered(s, y);
        LowestTaken(s, done, c, y);
      }
      StaysBroken(s, next, c, cs[1..]);
    }
  }

  lemma MissingIsNumbered(s: Store, y: Unit)
    requires Weak(s) && Missing(s, y)
    ensures y.Unit? && y.number >= 1
  {
  }

  /** The chains to be recovered: at least those with a unit without a body. */
  ghost predicate Covers(s: Store, cs: seq<nat>) { forall u :: Missing(s, u) ==> u.chain in cs }

  ghost predicate Restored(s: Store, r: Option<Store>) {
    r.Some? && Inv(r.value) && r.value.headers == s.headers * s.bodies && r.value.bodies == s.bodies
  }

  /** Whatever units without a body were taken before, in whatever order, recovering the given chains ends with exactly
      the units with bodies, in order, if and only if the links and what was taken make it restorable; chains that are
      not given must be settled. So recovery can be started again after another crash. */
  lemma RestartedIff(s: Store, done: seq<Unit>, cs: seq<nat>)
    requires Weak(s) && TakenFrom(s, done) && forall c :: c in cs || Settled(s, done, c)
    ensures TrueKids(s)
    ensures Restored(s, Recover(TakeOut(s, done), cs)) <==> Restorable(s, done, cs)
    ensures var r := Recover(TakeOut(s, done), cs); r.Some? && Inv(r.value) ==> Restored(s, r)
  {
    WeakParts(s);
    hide Weak, TrueKids, Inv, Missing, Recover, TakeOut, Restorable, Plan, NoneFatal, Settled;
    RecoverTakes(s, done, cs);
    if Restorable(s, done, cs) {
      AllSettle(s, done, cs);
      SettledIsInv(s, Plan(s, done, cs));
      SettledHeaders(s, Plan(s, done, cs));
    } else if NoneFatal(s, done, cs) {
      NotRestored(s, done, cs);
    }
  }

  /** From any crash, recovery in a given order of chains ends with the store in order, holding exactly the units with
      bodies, if and only if the links and the missing bodies make it restorable in that order; otherwise it is fatal or
      leaves the store out of order. */
  lemma RestoredIff(s: Store, cs: seq<nat>)
    requires Weak(s) && Covers(s, cs)
    ensures Restored(s, Recover(s, cs)) <==> Restorable(s, [], cs)
    ensures Recover(s, cs).Some? && Inv(Recover(s, cs).value) ==> Restored(s, Recover(s, cs))
  {
    WeakParts(s);
    hide Weak, TrueKids, Inv, Missing, Recover, TakeOut, Restorable, Plan, NoneFatal, Covers, Settled;
    assert TakeOut(s, []) == s by { NothingOut(s); }
    OthersAreSettled(s, cs);
    RestartedIff(s, [], cs);
  }

  lemma NothingOut(s: Store)
    ensures TakeOut(s, []) == s
  {
  }

  /** Before anything is taken, a chain that is not covered is settled. */
  lemma OthersAreSettled(s: Store, cs: seq<nat>)
    requires Covers(s, cs)
    ensures forall c :: c in cs || Settled(s, [], c)
  {
  }

  // ---- without old links --------------------------------------------------------------------------------------------

  /** Nothing is above the tail of a chain. */
  lemma TailIsTop(s: Store, c: nat)
    requires Shape(s) && c in s.tail
    ensures forall d :: d in s.headers && d.Unit? ==> d.parent != s.tail[c]
  {
    forall d | d in s.headers && d.Unit?
      ensures d.parent != s.tail[c]
    {
      assert OnParent(s, d);
    }
  }

  /** Clearing a tail without a body removes only units without bodies. */
  lemma RecoverStep(s: Store, c: nat)
    requires Weak(s) && Quiet(s) && c in s.tail && s.tail[c] !in s.bodies
    ensures var t := Clear(s, s.tail[c]);
            && Weak(t) && Quiet(t) && t.headers < s.headers && t.bodies == s.bodies
            && t.headers * s.bodies == s.headers * s.bodies
  {
    var u := s.tail[c];
    TailIsTop(s, c);
    ClearIsExact(s, u);
    var t := Clear(s, u);
    hide Clear, Quiet, Shape;
    forall v | v in s.headers && v !in t.headers
      ensures v !in s.bodies
    {
      if v in s.bodies {
        DownAll(s, v, u);
      }
    }
  }

  /** A chain whose tail has a body has all its bodies. */
  lemma ChainDone(s: Store, c: nat)
    requires Weak(s) && (c in s.tail ==> s.tail[c] in s.bodies)
    ensures forall u :: Missing(s, u) ==> u.chain != c
  {
    forall u | Missing(s, u)
      ensures u.chain != c
    {
      if u.chain == c {
        BelowTail(s, u);
        MissingAbove(s, u, s.tail[c]);
      }
    }
  }

  ghost predicate Quieter(s: Store, t: Store) {
    Weak(t) && Quiet(t) && t.headers <= s.headers && t.bodies == s.bodies && t.headers * s.bodies == s.headers * s.bodies
  }

  lemma {:induction false} QuietChain(s: Store, c: nat)
    requires Weak(s) && TrueKids(s) && Quiet(s)
    ensures var r := RecoverChain(s, c);
            r.Some? && Quieter(s, r.value) && forall u :: Missing(r.value, u) ==> u.chain != c
    decreases |s.headers|
  {
    hide Weak, Quiet, Clear, TrueKids, Missing;
    TailIsStored(s, c);
    if c in s.tail && s.tail[c] !in s.bodies {
      RecoverStep(s, c);
      var t := Clear(s, s.tail[c]);
      Shrinks(t.headers, s.headers, s.tail[c]);
      StillTrue(s, t);
      QuietChain(t, c);
    } else {
      ChainDone(s, c);
    }
  }

  lemma TailIsStored(s: Store, c: nat)
    requires Weak(s)
    ensures c in s.tail ==> s.tail[c].Unit? && s.tail[c] in s.headers
    ensures c in s.tail && s.tail[c] !in s.bodies && TrueKids(s) ==> s.tail[c] !in Clear(s, s.tail[c]).headers
  {
  }

  lemma {:induction false} QuietAll(s: Store, cs: seq<nat>)
    requires Weak(s) && TrueKids(s) && Quiet(s)
    ensures var r := Recover(s, cs); r.Some? && Quieter(s, r.value) && forall u :: Missing(r.value, u) ==> u.chain !in cs
    decreases |cs|
  {
    hide Weak, Quiet, TrueKids, RecoverChain;
    if cs != [] {
      QuietChain(s, cs[0]);
      var t := RecoverChain(s, cs[0]).value;
      StillTrue(s, t);
      QuietAll(t, cs[1..]);
    }
  }

  /** A quiet store is restored in every order. */
  lemma QuietIsRestorable(s: Store, cs: seq<nat>)
    requires Weak(s) && Quiet(s) && Covers(s, cs)
    ensures Restorable(s, [], cs)
  {
    WeakParts(s);
    hide Weak, Quiet, TrueKids, Recover, Restorable;
    QuietAll(s, cs);
    var t := Recover(s, cs).value;
    assert forall u :: u in t.headers && u.Unit? && u !in t.bodies ==> Missing(s, u) && Missing(t, u);
    QuietIsInv(t);
    RestoredIff(s, cs);
  }

  lemma QuietIsInv(t: Store)
    requires Weak(t) && forall u :: u in t.headers && u.Unit? ==> u in t.bodies
    ensures Inv(t)
  {
  }

  lemma NewUnitsAreRestored(a: Async, cs: seq<nat>)
    requires Running(a) && NoOldLinks(a) && forall u :: u in a.marks ==> a.marks[u] in cs
    ensures Restored(a.s, Recover(a.s, cs))
  {
    hide Weak, Quiet, Recover, Restored, Restorable, Ahead, FullUnit;
    NewUnitsAreQuiet(a);
    assert Covers(a.s, cs);
    QuietIsRestorable(a.s, cs);
    RestoredIff(a.s, cs);
  }

  /** At any crash of a run in which no unit is queued that was recorded before, recovery restores the store whatever
      the order of the marked chains. */
  lemma FreshRunIsRestored(run: seq<Async>, moves: seq<Move>, cs: seq<nat>)
    requires FreshRun(run, moves) && Running(run[0]) && NoOldLinks(run[0])
    requires forall u :: u in run[|moves|].marks ==> run[|moves|].marks[u] in cs
    ensures TrueKids(run[|moves|].s) && Restored(run[|moves|].s, Recover(run[|moves|].s, cs))
  {
    hide MoveOk, NoOldLinks, Recover, Restored, TrueKids;
    var a := run[|moves|];
    FreshStaysFresh(run, moves);
    WeakParts(a.s);
    NewUnitsAreRestored(a, cs);
  }
}
