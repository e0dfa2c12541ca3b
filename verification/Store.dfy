/** What the unit store holds, and what every insertion and removal keeps. */
module Store {
  import opened Options
  import opened Dag

  /** A chain and a height on it. */
  type Slot = (nat, nat)

  /** Stored headers, the index of stable units, the last unit of each chain, the numbered entries for the children of
      each unit, and the units whose bodies are stored. Entries are only ever added, and the count is written before the
      entry: a crash in between leaves a hole. */
  datatype Store = Store(headers: set<Unit>, stable: map<Slot, Unit>, tail: map<nat, Unit>,
                         entries: map<Unit, seq<Option<Unit>>>, bodies: set<Unit>)

  function Entries(s: Store, u: Unit): (r: seq<Option<Unit>>) { if u in s.entries then s.entries[u] else [] }

  /** A list read back without its holes. */
  function Filled(es: seq<Option<Unit>>): (r: seq<Unit>) {
    if es == [] then []
    else Filled(es[..|es| - 1]) + match es[|es| - 1] { case None => [] case Some(c) => [c] }
  }

  /** The recorded children of a unit. */
  function Kids(s: Store, u: Unit): (r: seq<Unit>) { Filled(Entries(s, u)) }

  predicate Known(s: Store, u: Unit) { u.Genesis? || u in s.headers }

  /** The index holds exactly the stored units, each at its chain and height. */
  ghost predicate Indexed(s: Store) {
    && (forall u :: u in s.headers ==>
          u.Unit? && u.number >= 1 && (u.chain, u.number) in s.stable && s.stable[(u.chain, u.number)] == u)
    && (forall k :: k in s.stable ==>
          s.stable[k] in s.headers && s.stable[k].Unit? && k == (s.stable[k].chain, s.stable[k].number))
  }

  /** A unit's parent is the unit below it on its chain. */
  predicate OnParent(s: Store, u: Unit) {
    u.Unit? && (if u.number == 1 then u.parent.Genesis?
                else u.parent in s.headers && u.parent.Unit? && u.parent.chain == u.chain
                     && u.parent.number == u.number - 1)
  }

  ghost predicate Linked(s: Store) { forall u {:trigger OnParent(s, u)} :: u in s.headers ==> OnParent(s, u) }

  /** The tail of a chain is a stored unit with none above it; a chain without a tail has no units. */
  ghost predicate Tailed(s: Store) {
    && (forall c :: c in s.tail ==>
          s.tail[c] in s.headers && s.tail[c].Unit? && s.tail[c].chain == c && (c, s.tail[c].number + 1) !in s.stable)
    && (forall u :: u in s.headers && u.Unit? ==> u.chain in s.tail)
  }

  ghost predicate Shape(s: Store) { Indexed(s) && Linked(s) && Tailed(s) }

  /** Whoever is recorded as a child references the unit; recorded children need not be stored any more. */
  ghost predicate TrueKids(s: Store) { forall r, c :: c in Kids(s, r) ==> r in Refs(c) }

  /** A unit with a body is recorded with every unit it references, and those are stored with their bodies. */
  ghost predicate Down(s: Store) {
    forall u {:trigger FullUnit(s, u)} :: u in s.headers && u in s.bodies ==> FullUnit(s, u)
  }

  ghost predicate FullUnit(s: Store, u: Unit) {
    forall r :: r in Refs(u) ==> (r.Genesis? || (r in s.headers && r in s.bodies)) && u in Kids(s, r)
  }

  ghost predicate Weak(s: Store) { Shape(s) && TrueKids(s) && Down(s) }

  /** The store between operations when bodies are written with their headers. */
  ghost predicate Inv(s: Store) { Weak(s) && s.headers <= s.bodies }

  // ---- chains ---------------------------------------------------------------------------------------------------

  /** Below a stored unit every height is taken, and the units there are parents of one another. */
  lemma {:induction false} Contiguous(s: Store, u: Unit, n: nat)
    requires Shape(s) && u in s.headers && u.Unit? && 1 <= n <= u.number
    ensures (u.chain, n) in s.stable
    ensures n < u.number ==> (u.chain, n + 1) in s.stable && s.stable[(u.chain, n + 1)].parent == s.stable[(u.chain, n)]
    decreases u.number - n
  {
    if n < u.number {
      assert OnParent(s, u);
      if n < u.number - 1 {
        Contiguous(s, u.parent, n);
      }
    }
  }

  lemma BelowTail(s: Store, u: Unit)
    requires Shape(s) && u in s.headers
    ensures u.Unit? && u.chain in s.tail && s.tail[u.chain].Unit? && u.number <= s.tail[u.chain].number
  {
    var t := s.tail[u.chain];
    if u.number > t.number {
      Contiguous(s, u, t.number + 1);
    }
  }

  /** A stored unit that is nobody's parent is the tail of its chain. */
  lemma TopIsTail(s: Store, u: Unit)
    requires Shape(s) && u in s.headers
    requires forall d :: d in s.headers && d.Unit? ==> d.parent != u
    ensures u.Unit? && u.chain in s.tail && s.tail[u.chain] == u
  {
    BelowTail(s, u);
    var t := s.tail[u.chain];
    if u.number < t.number {
      Contiguous(s, t, u.number);
    } else {
      assert s.stable[(t.chain, t.number)] == t;
    }
  }

  /** Whatever a stored unit with a body refers to is stored with its body. */
  lemma {:induction false} DownAll(s: Store, v: Unit, u: Unit)
    requires Down(s) && v in s.headers && v in s.bodies && Refers(v, u)
    ensures u.Genesis? || (u in s.headers && u in s.bodies)
    decreases Rank(v)
  {
    if v != u {
      assert FullUnit(s, v);
      var r :| r in Refs(v) && (RefRank(v, r); Refers(r, u));
      RefRank(v, r);
      if r.Genesis? {
        assert Refs(r) == {};
      } else {
        DownAll(s, r, u);
      }
    }
  }

  // ---- removal --------------------------------------------------------------------------------------------------

  /** One unit taken out: index entry, tail, header and body; recorded children stay. */
  function Remove(s: Store, u: Unit): (r: Store)
    requires u.Unit?
  {
    s.(headers := s.headers - {u}, stable := s.stable - {(u.chain, u.number)},
       tail := if u.number == 1 then s.tail - {u.chain} else s.tail[u.chain := u.parent],
       bodies := s.bodies - {u})
  }

  /** The stored units above `u` on its chain are recorded as its children. */
  ghost predicate NextRecorded(s: Store, u: Unit) {
    forall d :: d in s.headers && d.Unit? && d.parent == u ==> d in Kids(s, u)
  }

  /** Of a stored unit without a body, every stored recorded child has the unit above it recorded. */
  ghost predicate Quiet(s: Store) {
    forall u, c :: u in s.headers && u !in s.bodies && c in Kids(s, u) && c in s.headers ==> NextRecorded(s, c)
  }

  lemma RemoveIndexed(s: Store, u: Unit)
    requires Indexed(s) && u in s.headers && u.Unit?
    ensures Indexed(Remove(s, u))
  {
    var t := Remove(s, u);
    forall v | v in t.headers
      ensures v.Unit? && v.number >= 1 && (v.chain, v.number) in t.stable && t.stable[(v.chain, v.number)] == v
    {
      assert s.stable[(v.chain, v.number)] == v && s.stable[(u.chain, u.number)] == u;
    }
  }

  lemma RemoveLinked(s: Store, u: Unit)
    requires Linked(s) && u in s.headers && u.Unit?
    requires forall d :: d in s.headers && d.Unit? ==> d.parent != u
    ensures Linked(Remove(s, u))
  {
    var t := Remove(s, u);
    forall v | v in t.headers
      ensures OnParent(t, v)
    {
      assert OnParent(s, v);
    }
  }

  /** The unit below the removed tail is the new tail. */
  lemma RemoveTails(s: Store, u: Unit)
    requires Indexed(s) && Tailed(s) && u in s.headers && OnParent(s, u)
    requires u.chain in s.tail && s.tail[u.chain] == u
    ensures forall c :: c in Remove(s, u).tail ==>
              && Remove(s, u).tail[c] in Remove(s, u).headers && Remove(s, u).tail[c].Unit?
              && Remove(s, u).tail[c].chain == c
              && (c, Remove(s, u).tail[c].number + 1) !in Remove(s, u).stable
  {
    var t := Remove(s, u);
    RefRank(u, u.parent);
    forall c | c in t.tail
      ensures t.tail[c] in t.headers && t.tail[c].Unit? && t.tail[c].chain == c && (c, t.tail[c].number + 1) !in t.stable
    {
      if c != u.chain {
        assert t.tail[c] == s.tail[c];
      } else {
        assert u.number != 1 && t.tail[c] == u.parent;
      }
    }
  }

  lemma RemoveTailed(s: Store, u: Unit)
    requires Shape(s) && u in s.headers && u.Unit?
    requires forall d :: d in s.headers && d.Unit? ==> d.parent != u
    ensures Tailed(Remove(s, u))
  {
    TopIsTail(s, u);
    assert OnParent(s, u);
    RemoveTails(s, u);
    var t := Remove(s, u);
    forall v | v in t.headers && v.Unit?
      ensures v.chain in t.tail
    {
      BelowTail(s, v);
      assert s.stable[(v.chain, v.number)] == v && s.stable[(u.chain, u.number)] == u;
    }
  }

  lemma RemoveShape(s: Store, u: Unit)
    requires Shape(s) && u in s.headers && u.Unit?
    requires forall d :: d in s.headers && d.Unit? ==> d.parent != u
    ensures Shape(Remove(s, u))
  {
    hide Indexed, Linked, Tailed, Remove;
    RemoveIndexed(s, u);
    RemoveLinked(s, u);
    RemoveTailed(s, u);
  }

  lemma RemoveKeeps(s: Store, u: Unit)
    requires Weak(s) && u in s.headers && u.Unit?
    requires forall d :: d in s.headers && d.Unit? ==> d.parent != u
    requires forall v :: v in s.headers && v in s.bodies ==> u !in Refs(v)
    ensures Weak(Remove(s, u)) && (Quiet(s) ==> Quiet(Remove(s, u)))
  {
    hide Shape;
    RemoveShape(s, u);
    var t := Remove(s, u);
    assert forall v :: Kids(t, v) == Kids(s, v);
    forall v | v in t.headers && v in t.bodies
      ensures FullUnit(t, v)
    {
      assert FullUnit(s, v);
    }
    forall v, c | Quiet(s) && v in t.headers && v !in t.bodies && c in Kids(t, v) && c in t.headers
      ensures NextRecorded(t, c)
    {
      assert NextRecorded(s, c);
    }
  }

  // ---- insertion ------------------------------------------------------------------------------------------------

  /** What validation establishes: the unit is new and goes on top of its chain. */
  predicate Extends(s: Store, u: Unit) {
    && u.Unit? && u !in s.headers && u.number >= 1
    && (if u.number == 1 then u.parent.Genesis? && u.chain !in s.tail
        else u.chain in s.tail && s.tail[u.chain] == u.parent && u.parent.Unit? && u.parent.number == u.number - 1)
  }

  function Put(s: Store, u: Unit): (r: Store)
    requires u.Unit?
  {
    s.(headers := s.headers + {u}, stable := s.stable[(u.chain, u.number) := u], tail := s.tail[u.chain := u])
  }

  lemma PutIsFree(s: Store, u: Unit)
    requires Shape(s) && Extends(s, u)
    ensures (u.chain, u.number) !in s.stable && (u.chain, u.number + 1) !in s.stable
  {
    if (u.chain, u.number) in s.stable {
      BelowTail(s, s.stable[(u.chain, u.number)]);
    }
    if (u.chain, u.number + 1) in s.stable {
      BelowTail(s, s.stable[(u.chain, u.number + 1)]);
    }
  }

  lemma PutLinked(s: Store, u: Unit)
    requires Linked(s) && Tailed(s) && Extends(s, u)
    ensures Linked(Put(s, u))
  {
    var t := Put(s, u);
    forall v | v in t.headers
      ensures OnParent(t, v)
    {
      assert v != u ==> OnParent(s, v);
    }
  }

  lemma PutTailed(s: Store, u: Unit)
    requires Indexed(s) && Tailed(s) && Extends(s, u)
    requires (u.chain, u.number) !in s.stable && (u.chain, u.number + 1) !in s.stable
    ensures Indexed(Put(s, u)) && Tailed(Put(s, u))
  {
    var t := Put(s, u);
    forall v | v in t.headers
      ensures v.Unit? && v.number >= 1 && (v.chain, v.number) in t.stable && t.stable[(v.chain, v.number)] == v
    {
      assert v != u ==> (v.chain, v.number) in s.stable;
    }
  }

  lemma PutShape(s: Store, u: Unit)
    requires Shape(s) && Extends(s, u)
    ensures Shape(Put(s, u))
  {
    hide Indexed, Linked, Tailed, Put, Extends;
    PutIsFree(s, u);
    PutLinked(s, u);
    PutTailed(s, u);
  }

  // ---- recorded children ----------------------------------------------------------------------------------------

  /** `t` is `s` with `u` recorded as a child of everything it references. */
  ghost predicate Records(s: Store, t: Store, u: Unit) {
    && t == s.(entries := t.entries)
    && forall r :: Kids(t, r) == Kids(s, r) + if r in Refs(u) then [u] else []
  }

  lemma RecordKeeps(s: Store, t: Store, u: Unit)
    requires Records(s, t, u) && TrueKids(s) && Down(s)
    ensures TrueKids(t) && Down(t)
  {
    forall r, c | c in Kids(t, r)
      ensures r in Refs(c)
    {
      assert c in Kids(s, r) || c == u;
    }
    forall v | v in t.headers && v in t.bodies
      ensures FullUnit(t, v)
    {
      assert FullUnit(s, v);
    }
  }

  /** A recorded unit whose references have bodies can have its own. */
  lemma BodyKeeps(s: Store, u: Unit)
    requires Down(s) && FullUnit(s, u)
    ensures Down(s.(bodies := s.bodies + {u}))
  {
    var t := s.(bodies := s.bodies + {u});
    forall v | v in t.headers && v in t.bodies
      ensures FullUnit(t, v)
    {
      assert v != u ==> FullUnit(s, v);
      assert forall r :: Kids(t, r) == Kids(s, r);
    }
  }

  lemma PutDown(s: Store, u: Unit)
    requires Down(s) && TrueKids(s) && u.Unit? && u !in s.bodies
    ensures Down(Put(s, u)) && TrueKids(Put(s, u))
  {
    var t := Put(s, u);
    assert forall r :: Kids(t, r) == Kids(s, r);
    forall v | v in t.headers && v in t.bodies
      ensures FullUnit(t, v)
    {
      assert FullUnit(s, v);
    }
  }

  /** What is stored after a unit was inserted with its body. */
  ghost predicate Inserted(s: Store, t: Store, u: Unit)
    requires u.Unit?
  {
    t.bodies == s.bodies + {u} && Records(Put(s, u), t.(bodies := s.bodies), u)
  }

  lemma InsertedParts(s: Store, t: Store, u: Unit)
    requires Inv(s) && Extends(s, u) && s.bodies <= s.headers && Inserted(s, t, u)
    ensures Shape(t) && TrueKids(t) && t.headers == t.bodies == s.headers + {u}
    ensures Down(t.(bodies := s.bodies))
    ensures (forall r :: r in Refs(u) ==> Known(s, r)) ==> FullUnit(t.(bodies := s.bodies), u)
  {
    var p := Put(s, u);
    var q := t.(bodies := s.bodies);
    PutShape(s, u);
    assert u !in s.bodies;
    hide Shape, Extends;
    PutDown(s, u);
    RecordKeeps(p, q, u);
    assert Shape(t) by { ShapeOnly(p, t); }
    assert forall r :: Kids(t, r) == Kids(q, r);
  }

  /** Inserting on top of a chain keeps the store in order if and only if everything the unit references is stored. */
  lemma InsertKeepsIff(s: Store, t: Store, u: Unit)
    requires Inv(s) && Extends(s, u) && s.bodies <= s.headers && Inserted(s, t, u)
    ensures Inv(t) <==> forall r :: r in Refs(u) ==> Known(s, r)
    ensures Shape(t) && TrueKids(t) && t.headers == t.bodies == s.headers + {u}
  {
    InsertedParts(s, t, u);
    hide Shape, TrueKids, Extends, Records;
    var q := t.(bodies := s.bodies);
    assert t == q.(bodies := q.bodies + {u});
    if forall r :: r in Refs(u) ==> Known(s, r) {
      BodyKeeps(q, u);
    } else {
      MissingBreaks(s, t, u);
    }
  }

  lemma MissingBreaks(s: Store, t: Store, u: Unit)
    requires t.headers == s.headers + {u} && u in t.bodies && exists r :: r in Refs(u) && !Known(s, r)
    ensures !Inv(t)
  {
    hide Shape, TrueKids;
    var r :| r in Refs(u) && !Known(s, r);
    RefRank(u, r);
    assert u in t.headers && r !in t.headers;
    assert !FullUnit(t, u);
  }

  lemma ShapeOnly(s: Store, t: Store)
    requires Shape(s) && t.headers == s.headers && t.stable == s.stable && t.tail == s.tail
    ensures Shape(t)
  {
    forall u | u in t.headers
      ensures OnParent(t, u)
    {
      assert OnParent(s, u);
    }
  }

  // ---- clearing -------------------------------------------------------------------------------------------------

  /** The stored units that are `u` or refer to it. */
  ghost function Descendants(hs: set<Unit>, u: Unit): (r: set<Unit>) { set v | v in hs && Refers(v, u) }

  /** On a chain, units refer to all units below them. */
  lemma {:induction false} ChainRefers(s: Store, v: Unit, n: nat)
    requires Shape(s) && v in s.headers && v.Unit? && 1 <= n <= v.number
    ensures (v.chain, n) in s.stable && Refers(v, s.stable[(v.chain, n)])
    decreases v.number
  {
    if n == v.number {
      assert s.stable[(v.chain, n)] == v;
    } else {
      assert OnParent(s, v);
      ChainRefers(s, v.parent, n);
      RefRank(v, v.parent);
    }
  }

  /** The unit below a cleared unit survives and has nothing above it. */
  lemma BelowSurvives(s: Store, hs: set<Unit>, prior: Unit, p: Unit)
    requires Indexed(s) && Linked(s) && prior in s.headers && prior.Unit? && prior.parent == p && p in s.headers && p.Unit?
    requires prior.chain == p.chain && prior.number == p.number + 1
    requires hs == s.headers - Descendants(s.headers, prior)
    ensures p in hs && forall d :: d in hs && d.Unit? ==> d.parent != p
  {
    if Refers(p, prior) {
      RefersRank(p, prior);
      RefRank(prior, p);
    }
    forall d | d in hs && d.Unit?
      ensures d.parent != p
    {
      assert OnParent(s, d);
      assert s.stable[(d.chain, d.number)] == d && s.stable[(prior.chain, prior.number)] == prior;
    }
  }

  /** After the unit at a slot and all its descendants are gone, a unit for that slot goes on top of the chain. */
  lemma ReplacementExtends(s: Store, t: Store, prior: Unit, u: Unit)
    requires Shape(s) && Shape(t) && prior in s.headers && prior.Unit?
    requires t.headers == s.headers - Descendants(s.headers, prior)
    requires u.Unit? && u.chain == prior.chain && u.number == prior.number && OnParent(s, u)
    requires u !in t.headers
    ensures Extends(t, u)
  {
    assert s.stable[(prior.chain, prior.number)] == prior && prior.number >= 1;
    assert OnParent(s, prior);
    if u.number == 1 {
      if u.chain in t.tail {
        ChainRefers(s, t.tail[u.chain], 1);
      }
    } else {
      assert s.stable[(u.chain, u.number - 1)] == u.parent == prior.parent;
      BelowSurvives(s, t.headers, prior, u.parent);
      hide Linked, Indexed;
      TopIsTail(t, u.parent);
    }
  }
}
