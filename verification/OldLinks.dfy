/** Why links from an earlier life matter: a crash, reached from the empty store, that recovery survives in one order
    of the chains and not in the other. */
module OldLinks {
  import opened Options
  import opened Dag
  import opened Store
  import opened Clearing
  import opened Background
  import opened Recovery

  // ---- runs ---------------------------------------------------------------------------------------------------------

  ghost predicate Reaches(a: Async, b: Async) {
    exists run, moves :: IsRun(run, moves) && run[0] == a && run[|moves|] == b
  }

  lemma OneMove(a: Async, m: Move, b: Async)
    requires MoveOk(a, m, b)
    ensures Reaches(a, b)
  {
    hide MoveOk;
    assert IsRun([a, b], [m]);
  }

  lemma ReachesOn(a: Async, b: Async, c: Async)
    requires Reaches(a, b) && Reaches(b, c)
    ensures Reaches(a, c)
  {
    hide MoveOk;
    var run, moves :| IsRun(run, moves) && run[0] == a && run[|moves|] == b;
    var run2, moves2 :| IsRun(run2, moves2) && run2[0] == b && run2[|moves2|] == c;
    var all, ms := run + run2[1..], moves + moves2;
    forall i | 0 <= i < |ms|
      ensures MoveOk(all[i], ms[i], all[i + 1])
    {
      if i >= |moves| {
        assert ms[i] == moves2[i - |moves|] && all[i + 1] == run2[i + 1 - |moves|];
        assert all[i] == run2[i - |moves|];
      } else {
        assert ms[i] == moves[i] && all[i] == run[i] && all[i + 1] == run[i + 1];
      }
    }
    assert IsRun(all, ms);
  }

  lemma MoveOn(a: Async, b: Async, m: Move, c: Async)
    requires Reaches(a, b) && MoveOk(b, m, c)
    ensures Reaches(a, c)
  {
    hide MoveOk, Reaches;
    OneMove(b, m, c);
    ReachesOn(a, b, c);
  }

  lemma StaysPut(a: Async)
    ensures Reaches(a, a)
  {
    assert IsRun([a], []);
  }

  // ---- inserting a unit, header and all -----------------------------------------------------------------------------

  /** `u` entered as a child of the units in `ps`. */
  function EnterAll(s: Store, ps: seq<Unit>, u: Unit): (t: Store)
    ensures t == s.(entries := t.entries)
    decreases |ps|
  {
    if ps == [] then s
    else EnterAll(s.(entries := s.entries[ps[0] := Entries(s, ps[0]) + [Some(u)]]), ps[1..], u)
  }

  lemma CountAndEntry(s: Store, p: Unit, u: Unit)
    ensures Entries(AddHole(s, p), p) != []
    ensures FillHole(AddHole(s, p), p, u) == s.(entries := s.entries[p := Entries(s, p) + [Some(u)]])
  {
    var es := Entries(s, p);
    var t := AddHole(s, p);
    assert Entries(t, p) == es + [None] && (es + [None])[..|es|] == es;
    assert t.entries[p := es + [Some(u)]] == s.entries[p := es + [Some(u)]];
  }

  function LinkStage(done: set<Unit>): (s: Stage) { if done == {} then Idle else Linking(done, None) }

  lemma {:induction false} LinksReach(a: Async, done: set<Unit>, ps: seq<Unit>)
    requires a.queue != [] && a.stage == LinkStage(done)
    requires done + Members(ps) == Refs(a.queue[0])
    requires (forall p :: p in ps ==> p !in done) && forall i, j :: 0 <= i < j < |ps| ==> ps[i] != ps[j]
    ensures Reaches(a, a.(s := EnterAll(a.s, ps, a.queue[0]), stage := LinkStage(Refs(a.queue[0]))))
    decreases |ps|
  {
    hide Reaches;
    var u := a.queue[0];
    if ps == [] {
      assert done == Refs(u);
      StaysPut(a);
    } else {
      var p := ps[0];
      assert p in Members(ps) && p in Refs(u) - done;
      var b := a.(s := AddHole(a.s, p), stage := Linking(done, Some(p)));
      OneMove(a, PutCount(p), b);
      CountAndEntry(a.s, p, u);
      var c := b.(s := FillHole(b.s, p, u), stage := Linking(done + {p}, None));
      MoveOn(a, b, PutEntry, c);
      assert Members(ps) == {p} + Members(ps[1..]);
      LinksReach(c, done + {p}, ps[1..]);
      ReachesOn(a, c, c.(s := EnterAll(c.s, ps[1..], u), stage := LinkStage(Refs(u))));
    }
  }

  /** Nothing is going on. */
  predicate Resting(a: Async) { a.queue == [] && a.stage == Idle && a.open == {} }

  /** The store with `u`, its links entered in the order of `ps`, and its body. */
  function Stored(s: Store, u: Unit, ps: seq<Unit>): (t: Store)
    requires u.Unit?
  {
    var t := EnterAll(Put(s, u), ps, u);
    t.(bodies := t.bodies + {u})
  }

  lemma InsertReaches(a: Async, u: Unit, ps: seq<Unit>)
    requires Resting(a) && Extends(a.s, u) && (forall r :: r in Refs(u) ==> Known(a.s, r)) && u !in a.marks
    requires Members(ps) == Refs(u) && forall i, j :: 0 <= i < j < |ps| ==> ps[i] != ps[j]
    ensures Reaches(a, a.(s := Stored(a.s, u, ps)))
  {
    hide Reaches;
    var b := a.(queue := [u], open := {u});
    assert a.queue + [u] == [u];
    OneMove(a, Enqueue(u), b);
    var c := b.(s := Put(a.s, u), marks := a.marks[u := u.chain], open := {});
    assert {u} - {u} == {};
    MoveOn(a, b, Commit(u), c);
    LinksReach(c, {}, ps);
    var d := c.(s := EnterAll(c.s, ps, u), stage := LinkStage(Refs(u)));
    ReachesOn(a, c, d);
    assert u.parent in Refs(u);
    var e := d.(s := Stored(a.s, u, ps), stage := BodyWritten);
    MoveOn(a, d, PutBody, e);
    assert a.marks[u := u.chain] - {u} == a.marks && [u][1..] == [];
    MoveOn(a, e, Finish, a.(s := Stored(a.s, u, ps)));
  }

  /** Inserting only the header; the body stays in the queue. */
  lemma HeaderReaches(a: Async, u: Unit)
    requires a.open == {} && Extends(a.s, u) && forall r :: r in Refs(u) ==> Known(a.s, r)
    ensures Reaches(a, a.(s := Put(a.s, u), marks := a.marks[u := u.chain], queue := a.queue + [u]))
  {
    hide Reaches;
    var b := a.(queue := a.queue + [u], open := {u});
    OneMove(a, Enqueue(u), b);
    assert {u} - {u} == {};
    MoveOn(a, b, Commit(u), a.(s := Put(a.s, u), marks := a.marks[u := u.chain], queue := a.queue + [u]));
  }

  // ---- the crash ----------------------------------------------------------------------------------------------------

  /** Two chains: `c`, the first unit of its chain, links to `u`, the first unit of the other, and `d` is above `c`. */
  predicate Three(u: Unit, c: Unit, d: Unit) {
    && u.Unit? && u.number == 1 && u.parent == Genesis && u.links == []
    && c.Unit? && c.chain != u.chain && c.number == 1 && c.parent == Genesis && c.links == [u]
    && d.Unit? && d.chain == c.chain && d.number == 2 && d.parent == c && d.links == []
  }

  lemma ThreeRefs(u: Unit, c: Unit, d: Unit)
    requires Three(u, c, d)
    ensures Refs(u) == {Genesis} && Refs(c) == {Genesis, u} && Refs(d) == {c} && u != c && c != d && u != d
  {
    assert u in c.links;
    RefRank(c, u);
    RefRank(d, c);
  }

  const NOTHING: Store := Store({}, map[], map[], map[], {})

  /** What is recorded once `u` and `c` were stored. */
  function Recorded(u: Unit, c: Unit): (es: map<Unit, seq<Option<Unit>>>) {
    map[Genesis := [Some(u), Some(c)], u := [Some(c)]]
  }

  function Both(u: Unit, c: Unit): (s: Store)
    requires u.Unit? && c.Unit?
  {
    Store({u, c}, map[(u.chain, 1) := u, (c.chain, 1) := c], map[u.chain := u, c.chain := c], Recorded(u, c), {u, c})
  }

  function Headers(u: Unit, c: Unit, d: Unit): (s: Store)
    requires u.Unit? && c.Unit? && d.Unit?
  {
    Store({u, c, d}, map[(u.chain, 1) := u, (c.chain, 1) := c, (c.chain, 2) := d], map[u.chain := u, c.chain := d],
          Recorded(u, c), {})
  }

  function At0(s: Store): (a: Async) { Async(s, map[], [], Idle, {}) }

  lemma EnterOne(s: Store, p: Unit, ps: seq<Unit>, u: Unit)
    ensures EnterAll(s, [p] + ps, u) == EnterAll(s.(entries := s.entries[p := Entries(s, p) + [Some(u)]]), ps, u)
  {
    assert ([p] + ps)[1..] == ps;
  }

  lemma StoredFirst(u: Unit, c: Unit, d: Unit)
    requires Three(u, c, d)
    ensures Stored(NOTHING, u, [Genesis])
         == Store({u}, map[(u.chain, 1) := u], map[u.chain := u], map[Genesis := [Some(u)]], {u})
  {
    var s := Put(NOTHING, u);
    assert [Genesis] + [] == [Genesis];
    EnterOne(s, Genesis, [], u);
    assert [] + [Some(u)] == [Some(u)];
  }

  lemma StoredSecond(u: Unit, c: Unit, d: Unit)
    requires Three(u, c, d)
    ensures Stored(Stored(NOTHING, u, [Genesis]), c, [Genesis, u]) == Both(u, c)
  {
    StoredFirst(u, c, d);
    ThreeRefs(u, c, d);
    hide Stored, Refs;
    var one := Store({u}, map[(u.chain, 1) := u], map[u.chain := u], map[Genesis := [Some(u)]], {u});
    EntersTwo(Put(one, c), u, c);
    StoredIs(one, u, c);
  }

  lemma EntersTwo(s: Store, u: Unit, c: Unit)
    requires s.entries == map[Genesis := [Some(u)]] && u != Genesis
    ensures EnterAll(s, [Genesis, u], c) == s.(entries := Recorded(u, c))
  {
    hide EnterAll;
    assert [Genesis, u] == [Genesis] + [u] && [u] == [u] + [];
    var t := s.(entries := s.entries[Genesis := [Some(u)] + [Some(c)]]);
    EnterOne(s, Genesis, [u], c);
    EnterOne(t, u, [], c);
    assert [Some(u)] + [Some(c)] == [Some(u), Some(c)] && [] + [Some(c)] == [Some(c)];
    assert t.entries[u := [Some(c)]] == Recorded(u, c);
    EnterNone(t.(entries := Recorded(u, c)), c);
  }

  lemma EnterNone(s: Store, u: Unit)
    ensures EnterAll(s, [], u) == s
  {
  }

  lemma StoredIs(one: Store, u: Unit, c: Unit)
    requires u.Unit? && c.Unit? && u.chain != c.chain && c.number == 1
    requires one == Store({u}, map[(u.chain, 1) := u], map[u.chain := u], map[Genesis := [Some(u)]], {u})
    requires EnterAll(Put(one, c), [Genesis, u], c) == Put(one, c).(entries := Recorded(u, c))
    ensures Stored(one, c, [Genesis, u]) == Both(u, c)
  {
    hide EnterAll;
  }

  /** Storing `u` and `c` with their bodies. */
  lemma BothReached(u: Unit, c: Unit, d: Unit)
    requires Three(u, c, d)
    ensures Reaches(At0(NOTHING), At0(Both(u, c)))
  {
    hide Reaches, EnterAll;
    ThreeRefs(u, c, d);
    var one := Stored(NOTHING, u, [Genesis]);
    assert Members([Genesis]) == {Genesis} && Members([Genesis, u]) == {Genesis, u};
    InsertReaches(At0(NOTHING), u, [Genesis]);
    StoredFirst(u, c, d);
    InsertReaches(At0(one), c, [Genesis, u]);
    StoredSecond(u, c, d);
    ReachesOn(At0(NOTHING), At0(one), At0(Both(u, c)));
  }

  lemma FilledOne(es: seq<Option<Unit>>, x: Unit)
    ensures Filled(es + [Some(x)]) == Filled(es) + [x]
  {
    assert (es + [Some(x)])[..|es|] == es;
  }

  lemma KidsOf(s: Store, u: Unit, c: Unit)
    requires u != c && u.Unit? && c.Unit? && s.entries == Recorded(u, c)
    ensures Kids(s, u) == [c] && Kids(s, Genesis) == [u, c] && forall r :: r != u && r != Genesis ==> Kids(s, r) == []
  {
    FilledOne([], c);
    FilledOne([], u);
    FilledOne([Some(u)], c);
    assert [] + [Some(c)] == [Some(c)] && [] + [Some(u)] == [Some(u)] && [Some(u)] + [Some(c)] == [Some(u), Some(c)];
    hide Filled;
    assert Filled([]) == [] by { FilledNone(); }
  }

  lemma FilledNone()
    ensures Filled([]) == []
  {
  }

  lemma LinksAreTrue(s: Store, u: Unit, c: Unit, d: Unit)
    requires Three(u, c, d) && s.entries == Recorded(u, c)
    ensures TrueKids(s)
  {
    ThreeRefs(u, c, d);
    KidsOf(s, u, c);
  }

  lemma PostLeaf(s: Store, left: set<Unit>, v: Unit)
    requires TrueKids(s) && v.Unit? && Kids(s, v) == []
    ensures Post(s, left, v) == if v in left then [v] else []
  {
    hide TrueKids, Kids;
  }

  lemma PostOver(s: Store, left: set<Unit>, u: Unit, c: Unit)
    requires TrueKids(s) && u.Unit? && Kids(s, u) == [c] && u in left
    ensures Post(s, left, u) == Post(s, left, c) + [u]
  {
    hide Kids, Above;
    assert [c][..0] == [] && left - Members([]) == left;
    assert PostAll(s, left, left, u, []) == [];
    assert PostAll(s, left, left, u, [c]) == [] + Post(s, left, c);
  }

  /** What clearing `u` takes: `c` and then `u`, as far as they are there. */
  lemma PostOf(s: Store, left: set<Unit>, u: Unit, c: Unit, d: Unit)
    requires Three(u, c, d) && s.entries == Recorded(u, c) && TrueKids(s)
    ensures Post(s, left, c) == if c in left then [c] else []
    ensures Post(s, left, d) == if d in left then [d] else []
    ensures u in left ==> Post(s, left, u) == (if c in left then [c] else []) + [u]
  {
    hide Post, TrueKids, Kids, Refs;
    ThreeRefs(u, c, d);
    KidsOf(s, u, c);
    PostLeaf(s, left, c);
    PostLeaf(s, left, d);
    if u in left {
      PostOver(s, left, u, c);
    }
  }

  /** Clearing `u` then empties the store, all but the links. */
  lemma ClearedBoth(u: Unit, c: Unit, d: Unit)
    requires Three(u, c, d)
    ensures TrueKids(Both(u, c)) && Clear(Both(u, c), u) == NOTHING.(entries := Recorded(u, c))
  {
    hide Clear, TrueKids, Post, Refs, TakeOut, Remove;
    var s := Both(u, c);
    LinksAreTrue(s, u, c, d);
    PostOf(s, s.headers, u, c, d);
    ClearIsPost(s, s, u);
    TwoOut(s, c, u);
    BothOut(u, c);
  }

  lemma TwoOut(s: Store, x: Unit, y: Unit)
    requires x.Unit? && y.Unit?
    ensures TakeOut(s, [x] + [y]) == Remove(Remove(s, x), y)
  {
    hide Remove;
    var xs := [x] + [y];
    assert xs[..1] == [x] && [x][..0] == [];
    assert TakeOut(s, [x]) == Remove(TakeOut(s, []), x);
    assert TakeOut(s, xs) == Remove(TakeOut(s, [x]), y);
  }

  lemma BothOut(u: Unit, c: Unit)
    requires u.Unit? && c.Unit? && u.chain != c.chain && u.number == 1 && c.number == 1
    ensures Remove(Remove(Both(u, c), c), u) == NOTHING.(entries := Recorded(u, c))
  {
    var t := Remove(Remove(Both(u, c), c), u);
    assert t.headers == {} && t.bodies == {} && t.stable == map[] && t.tail == map[];
  }

  lemma HeadersReached(u: Unit, c: Unit, d: Unit) returns (a: Async)
    requires Three(u, c, d)
    ensures a.s == Headers(u, c, d) && Reaches(At0(NOTHING.(entries := Recorded(u, c))), a)
  {
    hide Reaches;
    ThreeRefs(u, c, d);
    var a0 := At0(NOTHING.(entries := Recorded(u, c)));
    var a1 := a0.(s := Put(a0.s, u), marks := a0.marks[u := u.chain], queue := a0.queue + [u]);
    HeaderReaches(a0, u);
    var a2 := a1.(s := Put(a1.s, c), marks := a1.marks[c := c.chain], queue := a1.queue + [c]);
    HeaderReaches(a1, c);
    ReachesOn(a0, a1, a2);
    a := a2.(s := Put(a2.s, d), marks := a2.marks[d := d.chain], queue := a2.queue + [d]);
    HeaderReaches(a2, d);
    ReachesOn(a0, a2, a);
    assert a.s.headers == {u, c, d} && a.s.stable == Headers(u, c, d).stable && a.s.tail == Headers(u, c, d).tail;
  }

  /** From the empty store: `u` and `c` are inserted with their bodies, `u` is cleared and `c` with it, then the
      headers of `u`, `c` and `d` are inserted and no body is written. */
  lemma CrashReached(u: Unit, c: Unit, d: Unit) returns (a: Async)
    requires Three(u, c, d)
    ensures a.s == Headers(u, c, d) && Reaches(At0(NOTHING), a) && Running(a)
  {
    hide Reaches, Clear, Running;
    BothReached(u, c, d);
    ClearedBoth(u, c, d);
    var b := At0(NOTHING.(entries := Recorded(u, c)));
    MoveOn(At0(NOTHING), At0(Both(u, c)), ClearAt(u), b);
    a := HeadersReached(u, c, d);
    ReachesOn(At0(NOTHING), b, a);
    NothingRuns();
    ReachedRuns(At0(NOTHING), a);
  }

  lemma NothingRuns()
    ensures Running(At0(NOTHING))
  {
  }

  lemma ReachedRuns(a: Async, b: Async)
    requires Running(a) && Reaches(a, b)
    ensures Running(b)
  {
    hide Running, MoveOk;
    var run, moves :| IsRun(run, moves) && run[0] == a && run[|moves|] == b;
    AnyCrashPoint(run, moves);
  }

  // ---- the two orders -----------------------------------------------------------------------------------------------

  lemma WalkOne(s: Store, left: set<Unit>, c: nat, n: nat, u: Unit, p: seq<Unit>, q: seq<Unit>)
    requires TrueKids(s) && n >= 1 && u == At(s, c, n) && u.Unit? && u in left && u !in s.bodies
    requires p == Post(s, left, u) && q == Walk(s, left - Members(p), c, n - 1)
    ensures Walk(s, left, c, n) == p + q
  {
    hide Post, TrueKids, At;
  }

  lemma WalkNone(s: Store, left: set<Unit>, c: nat)
    requires TrueKids(s)
    ensures Walk(s, left, c, 0) == []
  {
  }

  lemma TurnIs(s: Store, done: seq<Unit>, c: nat, cs: seq<nat>, next: seq<Unit>)
    requires TrueKids(s) && (forall v :: v in done || v in next ==> v.Unit?) && next == Next(s, done, c)
    ensures Restorable(s, done, [c] + cs)
       <==> LowestLast(done, c) && AllTaken(s, next, c) && Restorable(s, next, cs)
  {
    hide TrueKids, LowestLast, AllTaken;
    assert ([c] + cs)[1..] == cs;
  }

  lemma LastOfTwo(x: Unit, y: Unit, c: nat)
    requires x.Unit? && y.Unit?
    ensures LastOn([x, y], c) == if y.chain == c then Some(y) else if x.chain == c then Some(x) else None
  {
    assert [x, y][..1] == [x] && [x][..0] == [];
  }

  /** The chain of `u` takes `c`. */
  lemma FromTheSide(s: Store, u: Unit, c: Unit, d: Unit)
    requires Three(u, c, d) && s == Headers(u, c, d) && TrueKids(s)
    ensures Next(s, [], u.chain) == [c, u]
  {
    hide TrueKids, Post, Walk, Refs, LastOn;
    var left := s.headers - Members([]);
    assert left == s.headers;
    PostOf(s, left, u, c, d);
    assert [c] + [u] == [c, u] && [c, u] + [] == [c, u] && [] + [c, u] == [c, u];
    WalkNone(s, left - Members([c, u]), u.chain);
    WalkOne(s, left, u.chain, 1, u, [c, u], []);
    LastOfNone(u.chain);
  }

  /** Then the chain of `c` looks empty. */
  lemma NothingMore(s: Store, u: Unit, c: Unit, d: Unit)
    requires Three(u, c, d) && s == Headers(u, c, d) && TrueKids(s)
    ensures Next(s, [c, u], c.chain) == [c, u]
  {
    hide TrueKids, Post, Walk, Refs, LastOn;
    LastOfTwo(c, u, c.chain);
    WalkNone(s, s.headers - Members([c, u]), c.chain);
    assert [c, u] + [] == [c, u];
  }

  /** With the chain of `u` first, its links take `c` from under `d`. */
  lemma FirstOrder(s: Store, u: Unit, c: Unit, d: Unit)
    requires Three(u, c, d) && s == Headers(u, c, d) && TrueKids(s)
    ensures !Restorable(s, [], [u.chain, c.chain])
  {
    hide Restorable, TrueKids, Next, Refs, LowestLast;
    ThreeRefs(u, c, d);
    FromTheSide(s, u, c, d);
    NothingMore(s, u, c, d);
    TurnIs(s, [], u.chain, [c.chain], [c, u]);
    TurnIs(s, [c, u], c.chain, [], [c, u]);
    assert [u.chain] + [c.chain] == [u.chain, c.chain] && [c.chain] + [] == [c.chain];
    assert d !in [c, u];
  }

  lemma LastOfNone(c: nat)
    ensures LastOn([], c) == None && LowestLast([], c)
  {
  }

  /** With the chain of `c` first, everything goes from the top down. */
  lemma SecondOrder(s: Store, u: Unit, c: Unit, d: Unit)
    requires Three(u, c, d) && s == Headers(u, c, d) && TrueKids(s)
    ensures Restorable(s, [], [c.chain, u.chain])
  {
    hide Restorable, TrueKids, Post, Walk, Refs, LastOn, LowestLast;
    ThreeRefs(u, c, d);
    FromTheTop(s, u, c, d);
    LastOfNone(c.chain);
    TurnIs(s, [], c.chain, [u.chain], [d, c]);
    LastOfTwo(d, c, u.chain);
    NotOn([d, c], u.chain);
    assert s.headers - Members([d, c]) == {u};
    PostOf(s, {u}, u, c, d);
    WalkNone(s, {u} - Members([u]), u.chain);
    assert [] + [u] == [u] && [u] + [] == [u];
    WalkOne(s, {u}, u.chain, 1, u, [u], []);
    TurnIs(s, [d, c], u.chain, [], [d, c] + [u]);
    assert [c.chain] + [u.chain] == [c.chain, u.chain] && [u.chain] + [] == [u.chain];
    AllDone(s, [d, c] + [u]);
  }

  lemma NotOn(xs: seq<Unit>, c: nat)
    requires (forall v :: v in xs ==> v.Unit?) && LastOn(xs, c) == None
    ensures LowestLast(xs, c)
  {
  }

  lemma AllDone(s: Store, done: seq<Unit>)
    requires TrueKids(s) && forall v :: v in done ==> v.Unit?
    ensures Restorable(s, done, [])
  {
  }

  lemma FromTheTop(s: Store, u: Unit, c: Unit, d: Unit)
    requires Three(u, c, d) && s == Headers(u, c, d) && TrueKids(s)
    ensures Next(s, [], c.chain) == [d, c]
  {
    hide TrueKids, Post, Walk, Refs, LastOn;
    ThreeRefs(u, c, d);
    var left := s.headers - Members([]);
    assert left == {u, c, d} && left - Members([d]) == {u, c};
    PostOf(s, left, u, c, d);
    PostOf(s, {u, c}, u, c, d);
    WalkNone(s, {u, c} - Members([c]), c.chain);
    assert [c] + [] == [c] && [d] + [c] == [d, c] && [] + [d, c] == [d, c];
    WalkOne(s, {u, c}, c.chain, 1, c, [c], []);
    WalkOne(s, left, c.chain, 2, d, [d], [c]);
    LastOfNone(c.chain);
  }

  /** The same crash is survived in one order of the marked chains and not in the other. */
  lemma OrderMatters(u: Unit, c: Unit, d: Unit) returns (a: Async)
    requires Three(u, c, d)
    ensures Reaches(At0(NOTHING), a) && Running(a) && TrueKids(a.s)
    ensures Restored(a.s, Recover(a.s, [c.chain, u.chain])) && !Restored(a.s, Recover(a.s, [u.chain, c.chain]))
  {
    hide Reaches, Recover, Restored, Restorable, Running;
    a := CrashReached(u, c, d);
    LinksAreTrue(a.s, u, c, d);
    FirstOrder(a.s, u, c, d);
    SecondOrder(a.s, u, c, d);
    RunningIsWeak(a);
    RestoredIff(a.s, [c.chain, u.chain]);
    RestoredIff(a.s, [u.chain, c.chain]);
  }

  lemma RunningIsWeak(a: Async)
    requires Running(a)
    ensures Weak(a.s)
  {
  }
}
