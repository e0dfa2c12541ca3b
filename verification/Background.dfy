/** Runs of the store when bodies follow in the background, written by a single writer one database entry at a time. */
module Background {
  import opened Options
  import opened Dag
  import opened Store
  import opened Clearing
  import opened StoreRuns

  /** How far the writer is with the unit at the head of its queue: recorded with the units in `done`, and counted but
      not yet entered with `half`. */
  datatype Stage = Idle | Linking(done: set<Unit>, half: Option<Unit>) | BodyWritten

  /** The store with its pending markers (unit to chain), the writer's queue, and the units that are queued while their
      headers are not committed yet. A crash loses all but the store and the markers. */
  datatype Async = Async(s: Store, marks: map<Unit, nat>, queue: seq<Unit>, stage: Stage, open: set<Unit>)

  /** The count of `p`'s children is raised. */
  function AddHole(s: Store, p: Unit): (t: Store) { s.(entries := s.entries[p := Entries(s, p) + [None]]) }

  /** The entry for the last count of `p`'s children is written. */
  function FillHole(s: Store, p: Unit, u: Unit): (t: Store)
    requires Entries(s, p) != []
  {
    var es := Entries(s, p);
    s.(entries := s.entries[p := es[..|es| - 1] + [Some(u)]])
  }

  /** Units recorded so far in the life of the writer's present unit. */
  function Done(a: Async): (r: set<Unit>) { if a.stage.Linking? then a.stage.done else {} }

  /** Nothing that is queued or about to be committed is the unit or refers to it. */
  ghost predicate Unheld(a: Async, u: Unit) { forall q :: q in a.queue || q in a.open ==> !Refers(q, u) }

  /** Clearing while the writer may be busy. */
  ghost predicate Clears(a: Async, u: Unit, b: Async) { u.Unit? && TrueKids(a.s) && b == a.(s := Clear(a.s, u)) }

  /** The steps of inserting a unit: it is queued, then its header, index entry, tail and marker are committed together;
      the steps of the writer: for each unit referenced, in any order, the count and the entry, then the body, then the
      marker; and clearing what the writer does not hold. A crash may come between any two. */
  datatype Move = Enqueue(u: Unit) | Commit(u: Unit) | PutCount(p: Unit) | PutEntry | PutBody | Finish | ClearAt(u: Unit)

  ghost predicate MoveOk(a: Async, m: Move, b: Async) {
    match m
    case Enqueue(u) =>
      && Extends(a.s, u) && (forall r :: r in Refs(u) ==> Known(a.s, r))
      && (forall v :: v in a.open && v.Unit? ==> v.chain != u.chain)
      && b == a.(queue := a.queue + [u], open := a.open + {u})
    case Commit(u) =>
      && u in a.open && u.Unit?
      && b == a.(s := Put(a.s, u), marks := a.marks[u := u.chain], open := a.open - {u})
    case PutCount(p) =>
      && a.queue != [] && p in Refs(a.queue[0]) - Done(a) && (a.stage.Idle? || (a.stage.Linking? && a.stage.half.None?))
      && b == a.(s := AddHole(a.s, p), stage := Linking(Done(a), Some(p)))
    case PutEntry =>
      && a.queue != [] && a.stage.Linking? && a.stage.half.Some? && Entries(a.s, a.stage.half.value) != []
      && b == a.(s := FillHole(a.s, a.stage.half.value, a.queue[0]),
                 stage := Linking(a.stage.done + {a.stage.half.value}, None))
    case PutBody =>
      && a.queue != [] && a.stage == Linking(Refs(a.queue[0]), None)
      && b == a.(s := a.s.(bodies := a.s.bodies + {a.queue[0]}), stage := BodyWritten)
    case Finish =>
      && a.queue != [] && a.stage == BodyWritten
      && b == a.(marks := a.marks - {a.queue[0]}, queue := a.queue[1..], stage := Idle)
    case ClearAt(u) => Clears(a, u, b) && (u in a.s.headers ==> Unheld(a, u))
  }

  // ---- the invariant ------------------------------------------------------------------------------------------------

  /** Everything a unit references is stored, with its body or ahead of it in the queue. */
  ghost predicate Ahead(a: Async, u: Unit, i: nat) {
    forall r :: r in Refs(u) ==>
      r.Genesis? || (r in a.s.headers && (r in a.s.bodies || exists j :: 0 <= j < i < |a.queue| && a.queue[j] == r))
  }

  /** Units without a body are marked and queued; a body without a header belongs to a unit about to be committed, and
      its links are complete. */
  ghost predicate Bodied(a: Async) {
    && (forall u :: u in a.s.headers && u !in a.s.bodies ==>
          u.Unit? && u in a.queue && u in a.marks && a.marks[u] == u.chain)
    && (forall u :: u in a.s.bodies && u !in a.s.headers ==> u in a.open && FullUnit(a.s, u))
  }

  /** Units about to be committed go on top of their chains, one to a chain. */
  ghost predicate OpenOk(a: Async) {
    && (forall u :: u in a.open ==> Extends(a.s, u) && (u in a.s.bodies || u in a.queue))
    && (forall u, v :: u in a.open && v in a.open && u.Unit? && v.Unit? && u.chain == v.chain ==> u == v)
  }

  /** The queue respects references. */
  ghost predicate QueueOk(a: Async) {
    && (forall i, j :: 0 <= i < j < |a.queue| ==> a.queue[i] != a.queue[j])
    && (forall i :: 0 <= i < |a.queue| ==>
          a.queue[i].Unit? && (a.queue[i] in a.s.headers || a.queue[i] in a.open) && Ahead(a, a.queue[i], i))
    && (forall i :: 0 <= i < |a.queue| && (i > 0 || a.stage != BodyWritten) ==> a.queue[i] !in a.s.bodies)
  }

  ghost predicate StageOk(a: Async) {
    && (a.stage != Idle ==> a.queue != [])
    && (a.stage.Linking? ==>
          && a.stage.done <= Refs(a.queue[0]) && (forall r :: r in a.stage.done ==> a.queue[0] in Kids(a.s, r))
          && (a.stage.half.Some? ==>
                var p := a.stage.half.value;
                && p in Refs(a.queue[0]) && Entries(a.s, p) != [] && Entries(a.s, p)[|Entries(a.s, p)| - 1] == None))
    && (a.stage.BodyWritten? ==> a.queue[0] in a.s.bodies)
  }

  ghost predicate Running(a: Async) { Weak(a.s) && Bodied(a) && OpenOk(a) && QueueOk(a) && StageOk(a) }

  // ---- recording one entry at a time --------------------------------------------------------------------------------

  lemma HoleKeepsKids(s: Store, p: Unit)
    ensures forall r :: Kids(AddHole(s, p), r) == Kids(s, r)
  {
    var es := Entries(s, p);
    assert (es + [None])[..|es|] == es;
    assert Entries(AddHole(s, p), p) == es + [None];
  }

  lemma FillAddsKid(s: Store, p: Unit, u: Unit)
    requires Entries(s, p) != [] && Entries(s, p)[|Entries(s, p)| - 1] == None
    ensures forall r :: Kids(FillHole(s, p, u), r) == Kids(s, r) + if r == p then [u] else []
  {
    var es := Entries(s, p);
    var t := FillHole(s, p, u);
    var fs := es[..|es| - 1] + [Some(u)];
    assert Entries(t, p) == fs && fs[..|fs| - 1] == es[..|es| - 1];
    assert Filled(es) == Filled(es[..|es| - 1]);
    forall r
      ensures Kids(t, r) == Kids(s, r) + if r == p then [u] else []
    {
      if r != p {
        assert Entries(t, r) == Entries(s, r);
      }
    }
  }

  /** `t` is `s` with at most `u` recorded as a child of units it references. */
  ghost predicate Grows(s: Store, t: Store, u: Unit) {
    && t == s.(entries := t.entries)
    && forall r :: Kids(t, r) == Kids(s, r) || (r in Refs(u) && Kids(t, r) == Kids(s, r) + [u])
  }

  lemma GrowWeak(s: Store, t: Store, u: Unit)
    requires Weak(s) && Grows(s, t, u)
    ensures Weak(t) && forall v :: FullUnit(s, v) ==> FullUnit(t, v)
  {
    ShapeOnly(s, t);
    hide Shape;
    forall r, c | c in Kids(t, r)
      ensures r in Refs(c)
    {
      assert c in Kids(s, r) || (r in Refs(u) && c == u);
    }
    forall v | FullUnit(s, v)
      ensures FullUnit(t, v)
    {
      assert forall r :: v in Kids(s, r) ==> v in Kids(t, r);
    }
  }

  // ---- every move keeps it ------------------------------------------------------------------------------------------

  lemma AheadStays(a: Async, b: Async, u: Unit, i: nat)
    requires Ahead(a, u, i) && a.s.headers <= b.s.headers && a.s.bodies <= b.s.bodies
    requires a.queue <= b.queue && i < |a.queue|
    ensures Ahead(b, u, i)
  {
    forall r | r in Refs(u) && r.Unit? && r !in b.s.bodies
      ensures r in b.s.headers && exists j :: 0 <= j < i < |b.queue| && b.queue[j] == r
    {
      var j :| 0 <= j < i < |a.queue| && a.queue[j] == r;
      assert b.queue[j] == r;
    }
  }

  /** The queue stays in order when headers, entries or bodies are added. */
  lemma QueueStays(a: Async, b: Async)
    requires forall i :: 0 <= i < |a.queue| ==> Ahead(a, a.queue[i], i)
    requires b.queue == a.queue && a.s.headers <= b.s.headers && a.s.bodies <= b.s.bodies
    ensures forall i :: 0 <= i < |b.queue| ==> Ahead(b, b.queue[i], i)
  {
    hide Ahead;
    forall i | 0 <= i < |b.queue|
      ensures Ahead(b, b.queue[i], i)
    {
      AheadStays(a, b, a.queue[i], i);
    }
  }

  lemma NewIsAhead(a: Async, b: Async, u: Unit)
    requires forall v :: v in a.s.headers && v !in a.s.bodies ==> v in a.queue
    requires forall r :: r in Refs(u) ==> Known(a.s, r)
    requires b.queue == a.queue + [u] && b.s == a.s
    ensures Ahead(b, u, |a.queue|)
  {
    forall r | r in Refs(u) && r.Unit? && r !in b.s.bodies
      ensures r in b.s.headers && exists j :: 0 <= j < |a.queue| < |b.queue| && b.queue[j] == r
    {
      var j :| 0 <= j < |a.queue| && a.queue[j] == r;
      assert b.queue[j] == r;
    }
  }

  /** A unit to be queued is nowhere yet. */
  lemma NewIsNowhere(a: Async, u: Unit, b: Async)
    requires Running(a) && MoveOk(a, Enqueue(u), b)
    ensures u.Unit? && u !in a.s.headers && u !in a.open && u !in a.s.bodies && u !in a.queue
  {
    hide Weak, Ahead, FullUnit;
  }

  lemma EnqueueKeeps(a: Async, u: Unit, b: Async)
    requires Running(a) && MoveOk(a, Enqueue(u), b)
    ensures Running(b)
  {
    hide Weak, Ahead, FullUnit, Extends, Kids, Entries;
    NewIsNowhere(a, u, b);
    forall i | 0 <= i < |b.queue|
      ensures b.queue[i].Unit? && (b.queue[i] in b.s.headers || b.queue[i] in b.open) && Ahead(b, b.queue[i], i)
    {
      if i < |a.queue| {
        assert b.queue[i] == a.queue[i];
        AheadStays(a, b, a.queue[i], i);
      } else {
        NewIsAhead(a, b, u);
      }
    }
    forall i, j | 0 <= i < j < |b.queue|
      ensures b.queue[i] != b.queue[j]
    {
      assert b.queue[i] == a.queue[i] && (j < |a.queue| ==> b.queue[j] == a.queue[j]);
    }
  }

  lemma CommitWeak(s: Store, u: Unit)
    requires Weak(s) && Extends(s, u) && (u in s.bodies ==> FullUnit(s, u))
    ensures Weak(Put(s, u)) && forall v :: FullUnit(s, v) ==> FullUnit(Put(s, u), v)
  {
    PutShape(s, u);
    hide Shape, Extends;
    var t := Put(s, u);
    assert forall r :: Kids(t, r) == Kids(s, r);
    forall v | FullUnit(s, v)
      ensures FullUnit(t, v)
    {
      assert forall r :: r in Refs(v) ==> v in Kids(t, r);
    }
    forall v | v in t.headers && v in t.bodies
      ensures FullUnit(t, v)
    {
      assert FullUnit(s, v);
    }
  }

  lemma CommitKeepsOpen(a: Async, u: Unit, b: Async)
    requires OpenOk(a) && MoveOk(a, Commit(u), b)
    ensures OpenOk(b)
  {
    forall v | v in b.open
      ensures Extends(b.s, v) && (v in b.s.bodies || v in b.queue)
    {
      assert v in a.open && v != u && v.chain != u.chain;
    }
  }

  lemma CommitKeeps(a: Async, u: Unit, b: Async)
    requires Running(a) && MoveOk(a, Commit(u), b)
    ensures Running(b)
  {
    hide Weak, Ahead, FullUnit, Extends, Kids, Entries;
    CommitKeepsOpen(a, u, b);
    CommitFacts(a, u);
    CommitWeak(a.s, u);
    QueueStays(a, b);
    SameLinks(a.s, b.s);
  }

  lemma CommitFacts(a: Async, u: Unit)
    requires Bodied(a) && OpenOk(a) && u in a.open
    ensures Extends(a.s, u) && u.Unit? && (u in a.s.bodies ==> FullUnit(a.s, u))
  {
    hide FullUnit;
  }

  lemma SameLinks(s: Store, t: Store)
    requires t.entries == s.entries
    ensures forall r :: Kids(t, r) == Kids(s, r) && Entries(t, r) == Entries(s, r)
  {
  }

  /** What the writer's puts of counts and entries have in common. */
  lemma LinkingKeeps(a: Async, b: Async)
    requires Running(a) && a.queue != [] && !a.stage.BodyWritten? && !b.stage.BodyWritten?
    requires Grows(a.s, b.s, a.queue[0]) && b == a.(s := b.s, stage := b.stage) && StageOk(b)
    ensures Running(b)
  {
    hide Weak, Ahead, FullUnit, Kids, Entries, StageOk;
    assert b.s == a.s.(entries := b.s.entries);
    SameExtends(a.s, b.s);
    GrowWeak(a.s, b.s, a.queue[0]);
    QueueStays(a, b);
  }

  lemma SameExtends(s: Store, t: Store)
    requires t == s.(entries := t.entries, bodies := t.bodies)
    ensures forall u :: Extends(s, u) ==> Extends(t, u)
  {
  }

  lemma PutCountKeeps(a: Async, p: Unit, b: Async)
    requires Running(a) && MoveOk(a, PutCount(p), b)
    ensures Running(b)
  {
    hide Weak, Ahead, FullUnit, Kids, Extends;
    HoleKeepsKids(a.s, p);
    assert Entries(b.s, p) == Entries(a.s, p) + [None];
    LinkingKeeps(a, b);
  }

  lemma PutEntryKeeps(a: Async, b: Async)
    requires Running(a) && MoveOk(a, PutEntry, b)
    ensures Running(b)
  {
    hide Weak, Ahead, FullUnit, Kids, Extends, Entries;
    FillAddsKid(a.s, a.stage.half.value, a.queue[0]);
    LinkingKeeps(a, b);
  }

  lemma BodyWeak(s: Store, u: Unit)
    requires Weak(s) && FullUnit(s, u)
    ensures Weak(s.(bodies := s.bodies + {u}))
    ensures forall v :: FullUnit(s, v) ==> FullUnit(s.(bodies := s.bodies + {u}), v)
  {
    var t := s.(bodies := s.bodies + {u});
    BodyKeeps(s, u);
    ShapeOnly(s, t);
    assert forall r :: Kids(t, r) == Kids(s, r);
    forall v | FullUnit(s, v)
      ensures FullUnit(t, v)
    {
      assert forall r :: r in Refs(v) ==> v in Kids(t, r);
    }
  }

  /** Once its links are complete, the first unit of the queue has everything a body needs. */
  lemma LinkedIsFull(a: Async)
    requires QueueOk(a) && StageOk(a) && a.queue != [] && a.stage == Linking(Refs(a.queue[0]), None)
    ensures FullUnit(a.s, a.queue[0])
  {
    assert Ahead(a, a.queue[0], 0);
  }

  lemma PutBodyKeeps(a: Async, b: Async)
    requires Running(a) && MoveOk(a, PutBody, b)
    ensures Running(b)
  {
    hide Weak, Ahead, FullUnit, Kids, Extends, Entries;
    LinkedIsFull(a);
    BodyWeak(a.s, a.queue[0]);
    SameExtends(a.s, b.s);
    QueueStays(a, b);
  }

  lemma FinishKeeps(a: Async, b: Async)
    requires Running(a) && MoveOk(a, Finish, b)
    ensures Running(b)
  {
    hide Weak, FullUnit, Kids, Extends, Entries;
    var u := a.queue[0];
    forall i | 0 <= i < |b.queue|
      ensures Ahead(b, b.queue[i], i)
    {
      assert b.queue[i] == a.queue[i + 1] && Ahead(a, a.queue[i + 1], i + 1);
      forall r | r in Refs(b.queue[i]) && r.Unit? && r !in b.s.bodies
        ensures r in b.s.headers && exists j :: 0 <= j < i < |b.queue| && b.queue[j] == r
      {
        var j :| 0 <= j < i + 1 < |a.queue| && a.queue[j] == r;
        assert b.queue[j - 1] == r;
      }
    }
    forall v | v in a.queue && v !in b.s.bodies
      ensures v in b.queue
    {
      var j :| 0 <= j < |a.queue| && a.queue[j] == v;
      assert b.queue[j - 1] == v;
    }
  }

  // ---- clearing while the writer is busy ----------------------------------------------------------------------------

  /** What clearing a unit that is not held leaves. */
  ghost predicate Lost(s: Store, t: Store, u: Unit) {
    && Weak(t) && t.headers == s.headers - Descendants(s.headers, u) && t.entries == s.entries
    && t.bodies == s.bodies - Descendants(s.headers, u)
  }

  lemma UnheldIsLost(a: Async, u: Unit)
    requires Running(a) && u.Unit? && Unheld(a, u)
    ensures TrueKids(a.s) && Lost(a.s, Clear(a.s, u), u)
  {
    hide Ahead, FullUnit, Kids, Extends, Entries, Clear, Shape, TrueKids, Down;
    assert Whole(a.s, u);
    ClearIsExact(a.s, u);
    var t := Clear(a.s, u);
    assert a.s.headers - t.headers == Descendants(a.s.headers, u);
  }

  /** What is referenced by something that is not lost is not lost. */
  lemma RefsAreKept(v: Unit, u: Unit)
    requires !Refers(v, u)
    ensures forall r :: r in Refs(v) ==> !Refers(r, u)
  {
    forall r | r in Refs(v)
      ensures !Refers(r, u)
    {
      RefRank(v, r);
    }
  }

  lemma LostKeepsBodies(a: Async, u: Unit, b: Async)
    requires Running(a) && Unheld(a, u) && Lost(a.s, b.s, u) && b == a.(s := b.s)
    ensures Bodied(b)
  {
    hide Weak, Ahead, Extends, Entries;
    SameLinks(a.s, b.s);
    forall v | v in b.s.bodies && v !in b.s.headers
      ensures v in b.open && FullUnit(b.s, v)
    {
      RefsAreKept(v, u);
      assert FullUnit(a.s, v);
    }
  }

  lemma LostKeepsTop(s: Store, t: Store, u: Unit, v: Unit)
    requires Weak(s) && Lost(s, t, u) && Extends(s, v) && !Refers(v, u)
    ensures Extends(t, v)
  {
    hide TrueKids, Down, Kids;
    RefsAreKept(v, u);
    if v.number != 1 {
      assert v.parent in Refs(v) && v.parent in t.headers;
      BelowTail(t, v.parent);
      var x := t.tail[v.chain];
      BelowTail(s, x);
      assert s.stable[(x.chain, x.number)] == x;
    }
  }

  lemma LostKeepsOpen(a: Async, u: Unit, b: Async)
    requires Running(a) && Unheld(a, u) && Lost(a.s, b.s, u) && b == a.(s := b.s)
    ensures OpenOk(b)
  {
    hide Weak, Ahead, Entries, Kids, FullUnit, Extends;
    forall v | v in b.open
      ensures Extends(b.s, v) && (v in b.s.bodies || v in b.queue)
    {
      LostKeepsTop(a.s, b.s, u, v);
    }
  }

  lemma LostKeepsQueue(a: Async, u: Unit, b: Async)
    requires Running(a) && Unheld(a, u) && Lost(a.s, b.s, u) && b == a.(s := b.s)
    ensures QueueOk(b)
  {
    hide Weak, Entries, Kids, FullUnit, Extends;
    forall i | 0 <= i < |b.queue|
      ensures b.queue[i].Unit? && (b.queue[i] in b.s.headers || b.queue[i] in b.open) && Ahead(b, b.queue[i], i)
    {
      assert a.queue[i] in a.queue && Ahead(a, a.queue[i], i);
      RefsAreKept(a.queue[i], u);
    }
  }

  lemma ClearAtKeeps(a: Async, u: Unit, b: Async)
    requires Running(a) && MoveOk(a, ClearAt(u), b)
    ensures Running(b)
  {
    hide Weak, Ahead, FullUnit, Extends, Clear, Bodied, OpenOk, QueueOk;
    if u in a.s.headers {
      UnheldIsLost(a, u);
      LostKeepsBodies(a, u, b);
      LostKeepsOpen(a, u, b);
      LostKeepsQueue(a, u, b);
      SameLinks(a.s, b.s);
    } else {
      ClearsNothing(a.s, u);
    }
  }

  lemma ClearsNothing(s: Store, u: Unit)
    requires TrueKids(s) && u !in s.headers
    ensures Clear(s, u) == s
  {
  }

  lemma ClearsItself(s: Store, u: Unit)
    requires TrueKids(s) && u.Unit? && u in s.headers
    ensures u !in Clear(s, u).headers
  {
  }

  /** What a queued unit refers to is stored, unless it is that unit itself. */
  lemma {:induction false} QueueKnows(a: Async, i: nat, u: Unit)
    requires Weak(a.s) && QueueOk(a) && i < |a.queue| && Refers(a.queue[i], u) && u.Unit?
    ensures u in a.s.headers || u == a.queue[i]
    decreases i
  {
    hide Shape, TrueKids, Kids;
    var q := a.queue[i];
    if q != u {
      var r :| r in Refs(q) && (RefRank(q, r); Refers(r, u));
      assert Ahead(a, q, i);
      if r.Genesis? {
        GenesisRefers(u);
      } else if r in a.s.bodies {
        DownAll(a.s, r, u);
      } else {
        var j :| 0 <= j < i < |a.queue| && a.queue[j] == r;
        QueueKnows(a, j, u);
      }
    }
  }

  /** So does a unit about to be committed. */
  lemma OpenKnows(a: Async, q: Unit, u: Unit)
    requires Running(a) && q in a.open && Refers(q, u) && u.Unit?
    ensures u in a.s.headers || u == q
  {
    hide Shape, TrueKids, Kids, Ahead, StageOk;
    if q in a.queue {
      var i :| 0 <= i < |a.queue| && a.queue[i] == q;
      QueueKnows(a, i, u);
    } else if q != u {
      assert FullUnit(a.s, q);
      var r :| r in Refs(q) && (RefRank(q, r); Refers(r, u));
      if r.Genesis? {
        GenesisRefers(u);
      } else {
        DownAll(a.s, r, u);
      }
    }
  }

  /** Clearing a stored unit in the middle of things leaves them in order if and only if nothing that is queued or about
      to be committed refers to it. */
  lemma ClearKeepsIff(a: Async, u: Unit, b: Async)
    requires Running(a) && u in a.s.headers && Clears(a, u, b)
    ensures Running(b) <==> Unheld(a, u)
  {
    if Unheld(a, u) {
      hide MoveOk, Running, Clear;
      ClearAtIs(a, u, b);
      ClearAtKeeps(a, u, b);
    } else if Running(b) {
      hide Running, Clear;
      HeldIsNotCleared(a, u, b);
    }
  }

  lemma ClearAtIs(a: Async, u: Unit, b: Async)
    requires Clears(a, u, b) && Unheld(a, u)
    ensures MoveOk(a, ClearAt(u), b)
  {
  }

  lemma HeldIsNotCleared(a: Async, u: Unit, b: Async)
    requires Running(a) && u in a.s.headers && Clears(a, u, b) && !Unheld(a, u)
    ensures !Running(b)
  {
    hide Weak, Ahead, Kids, Entries, Clear, Bodied, StageOk;
    ClearsItself(a.s, u);
    var q :| (q in a.queue || q in a.open) && Refers(q, u);
    if Running(b) {
      if q in b.open {
        OpenKnows(b, q, u);
      } else {
        var i :| 0 <= i < |b.queue| && b.queue[i] == q;
        QueueKnows(b, i, u);
      }
    }
  }

  lemma MoveKeeps(a: Async, m: Move, b: Async)
    requires Running(a) && MoveOk(a, m, b)
    ensures Running(b)
  {
    hide MoveOk, Running;
    match m
    case Enqueue(u) => EnqueueKeeps(a, u, b);
    case Commit(u) => CommitKeeps(a, u, b);
    case PutCount(p) => PutCountKeeps(a, p, b);
    case PutEntry => PutEntryKeeps(a, b);
    case PutBody => PutBodyKeeps(a, b);
    case Finish => FinishKeeps(a, b);
    case ClearAt(u) => ClearAtKeeps(a, u, b);
  }

  ghost predicate IsRun(run: seq<Async>, moves: seq<Move>) {
    |run| == |moves| + 1 && forall i :: 0 <= i < |moves| ==> MoveOk(run[i], moves[i], run[i + 1])
  }

  /** At any point of any run, between any two puts, the store can be read back: its chains are in order, every unit
      with a body is recorded with all it references, and everything without a body is marked. */
  lemma {:induction false} AnyCrashPoint(run: seq<Async>, moves: seq<Move>)
    requires IsRun(run, moves) && Running(run[0])
    ensures Running(run[|moves|])
    decreases |moves|
  {
    hide MoveOk, Running;
    if moves != [] {
      var n := |moves| - 1;
      AnyCrashPoint(run[..n + 1], moves[..n]);
      MoveKeeps(run[n], moves[n], run[n + 1]);
    }
  }

  // ---- links from an earlier life -----------------------------------------------------------------------------------

  /** No unit without a body is recorded as a child, except the one the writer is working on. */
  ghost predicate NoOldLinks(a: Async) {
    forall c, r :: (c in a.s.headers || c in a.open) && c !in a.s.bodies && c in Kids(a.s, r) ==>
      a.stage.Linking? && a.queue != [] && c == a.queue[0]
  }

  /** Without links left over from units that were cleared and inserted again, no unit without a body has a stored
      recorded child. */
  lemma NewUnitsAreQuiet(a: Async)
    requires Running(a) && NoOldLinks(a)
    ensures Quiet(a.s)
  {
    hide Shape, Extends, Entries;
    forall u, c | u in a.s.headers && u !in a.s.bodies && c in Kids(a.s, u)
      ensures c !in a.s.headers
    {
      assert u in Refs(c);
      assert c in a.s.headers && c in a.s.bodies ==> FullUnit(a.s, c);
      assert c in a.s.headers && c !in a.s.bodies ==> a.queue != [] && c == a.queue[0] && Ahead(a, c, 0);
    }
  }

  /** A unit that was never recorded as a child brings no old links. */
  lemma NewUnitsStayNew(a: Async, m: Move, b: Async)
    requires Running(a) && NoOldLinks(a) && MoveOk(a, m, b)
    requires m.Enqueue? ==> forall r :: m.u !in Kids(a.s, r)
    ensures NoOldLinks(b)
  {
    hide Weak, Ahead, Extends, Kids, Entries, FullUnit, Clear;
    match m
    case PutCount(p) => HoleKeepsKids(a.s, p);
    case PutEntry => FillAddsKid(a.s, a.stage.half.value, a.queue[0]);
    case ClearAt(u) => LostLinksStay(a, u, b);
    case _ => SameLinks(a.s, b.s);
  }

  lemma LostLinksStay(a: Async, u: Unit, b: Async)
    requires Running(a) && NoOldLinks(a) && MoveOk(a, ClearAt(u), b)
    ensures NoOldLinks(b)
  {
    hide Weak, Ahead, Kids, Entries, FullUnit, Clear, QueueOk, StageOk, Bodied;
    SameLinks(a.s, b.s);
    if u in a.s.headers {
      UnheldIsLost(a, u);
    } else {
      ClearsNothing(a.s, u);
    }
  }

  /** A run in which every unit that is queued was never recorded before. */
  ghost predicate FreshRun(run: seq<Async>, moves: seq<Move>) {
    && IsRun(run, moves)
    && forall i, r :: 0 <= i < |moves| && moves[i].Enqueue? ==> moves[i].u !in Kids(run[i].s, r)
  }

  lemma {:induction false} FreshStaysFresh(run: seq<Async>, moves: seq<Move>)
    requires FreshRun(run, moves) && Running(run[0]) && NoOldLinks(run[0])
    ensures Running(run[|moves|]) && NoOldLinks(run[|moves|])
    decreases |moves|
  {
    hide MoveOk, Running, NoOldLinks, Kids;
    if moves != [] {
      var n := |moves| - 1;
      FreshStaysFresh(run[..n + 1], moves[..n]);
      MoveKeeps(run[n], moves[n], run[n + 1]);
      NewUnitsStayNew(run[n], moves[n], run[n + 1]);
    }
  }
}
