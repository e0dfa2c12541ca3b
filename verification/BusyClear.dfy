/** Why nothing may be cleared from under the writer: a run, from the empty store, in which a unit is cleared while the
    body of a unit that refers to it is still to be written. */
module BusyClear {
  import opened Options
  import opened Dag
  import opened Store
  import opened Clearing
  import opened Background
  import opened Recovery
  import opened OldLinks

  /** `c`, the first unit of its chain, links to `u`, the first unit of another. */
  predicate Two(u: Unit, c: Unit) {
    && u.Unit? && u.number == 1 && u.parent == Genesis && u.links == []
    && c.Unit? && c.chain != u.chain && c.number == 1 && c.parent == Genesis && c.links == [u]
  }

  lemma TwoRefs(u: Unit, c: Unit)
    requires Two(u, c)
    ensures Refs(u) == {Genesis} && Refs(c) == {Genesis, u} && u != c && Refers(c, u)
  {
    ThreeRefs(u, c, Unit(c.chain, 2, c, [], 0));
    RefRank(c, u);
    assert u in Refs(c) && Refers(u, u);
  }

  /** The store with `u` and its body. */
  function Alone(u: Unit): (s: Store)
    requires u.Unit?
  {
    Store({u}, map[(u.chain, 1) := u], map[u.chain := u], map[Genesis := [Some(u)]], {u})
  }

  /** `u` is stored, and the body of `c` is queued. */
  function Busy(u: Unit, c: Unit): (a: Async)
    requires u.Unit? && c.Unit?
  {
    Async(Put(Alone(u), c), map[c := c.chain], [c], Idle, {})
  }

  lemma BusyReached(u: Unit, c: Unit)
    requires Two(u, c)
    ensures Reaches(At0(NOTHING), Busy(u, c)) && Running(Busy(u, c))
  {
    hide Reaches, Running, Refs;
    TwoRefs(u, c);
    assert Members([Genesis]) == {Genesis};
    InsertReaches(At0(NOTHING), u, [Genesis]);
    StoredFirst(u, c, Unit(c.chain, 2, c, [], 0));
    var a := At0(Alone(u));
    HeaderReaches(a, c);
    assert a.queue + [c] == [c] && a.marks[c := c.chain] == map[c := c.chain];
    ReachesOn(At0(NOTHING), a, Busy(u, c));
    NothingRuns();
    ReachedRuns(At0(NOTHING), Busy(u, c));
  }

  /** The writer goes on after the clearing: links, then the body. */
  lemma WritesOn(a: Async, c: Unit, ps: seq<Unit>)
    requires a.queue == [c] && a.stage == Idle && Members(ps) == Refs(c) && Refs(c) != {}
    requires forall i, j :: 0 <= i < j < |ps| ==> ps[i] != ps[j]
    ensures var s := EnterAll(a.s, ps, c);
            Reaches(a, a.(s := s.(bodies := s.bodies + {c}), stage := BodyWritten))
  {
    hide Reaches, Refs;
    LinksReach(a, {}, ps);
    var b := a.(s := EnterAll(a.s, ps, c), stage := LinkStage(Refs(c)));
    MoveOn(a, b, PutBody, b.(s := b.s.(bodies := b.s.bodies + {c}), stage := BodyWritten));
  }

  /** If `u` is cleared while `c`'s body is queued, the writer ends up storing a complete unit whose reference is gone.
      */
  lemma ClearedFromUnder(u: Unit, c: Unit) returns (b: Async, z: Async)
    requires Two(u, c)
    ensures Reaches(At0(NOTHING), Busy(u, c)) && Clears(Busy(u, c), u, b) && !Running(b) && Reaches(b, z)
    ensures c in z.s.headers && c in z.s.bodies && u in Refs(c) && u !in z.s.headers && !Weak(z.s)
  {
    hide Reaches, Running, Clear, Refs;
    var a := Busy(u, c);
    TwoRefs(u, c);
    BusyReached(u, c);
    assert TrueKids(a.s) by { RunningIsWeak(a); }
    b := a.(s := Clear(a.s, u));
    ClearKeepsIff(a, u, b);
    ClearsItself(a.s, u);
    KeepsTheOther(a.s, u, c);
    assert Members([Genesis, u]) == {Genesis, u};
    WritesOn(b, c, [Genesis, u]);
    var s := EnterAll(b.s, [Genesis, u], c);
    z := b.(s := s.(bodies := s.bodies + {c}), stage := BodyWritten);
    NotInOrder(z.s, u, c);
  }

  lemma KeepsTheOther(s: Store, u: Unit, c: Unit)
    requires TrueKids(s) && u.Unit? && u != c && u in s.headers && c in s.headers
    requires s.entries == map[Genesis := [Some(u)]]
    ensures c in Clear(s, u).headers
  {
    assert Kids(s, u) == [];
  }

  lemma NotInOrder(s: Store, u: Unit, c: Unit)
    requires c in s.headers && c in s.bodies && u in Refs(c) && u.Unit? && u !in s.headers
    ensures !Weak(s)
  {
    hide Shape, TrueKids;
    assert !FullUnit(s, c);
  }
}
