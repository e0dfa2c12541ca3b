/** Runs of the store when bodies are written together with headers. */
module StoreRuns {
  import opened Dag
  import opened Store
  import opened Clearing

  /** Every stored unit has its body and nothing else has. */
  ghost predicate Full(s: Store) { Inv(s) && s.bodies == s.headers }

  /** What validation establishes before a unit is inserted: its references are stored, and it goes on top of its chain
      or, for a unit of the special proposer whose slot is taken, on the unit below that slot. */
  predicate Validated(s: Store, u: Unit, special: bool) {
    && u.Unit? && u.number >= 1
    && (forall r :: r in Refs(u) ==> Known(s, r))
    && if special && (u.chain, u.number) in s.stable then OnParent(s, u) else u in s.headers || Extends(s, u)
  }

  /** Each chain's index is contiguous from 1 to its tail and linked by parents; an empty chain has no entry. */
  lemma ChainIndex(s: Store, c: nat)
    requires Shape(s)
    ensures c in s.tail ==> s.tail[c].Unit?
    ensures forall n: nat :: (c, n) in s.stable <==> c in s.tail && 1 <= n <= s.tail[c].number
    ensures forall n: nat :: (c, n) in s.stable ==>
              s.stable[(c, n)].Unit?
              && s.stable[(c, n)].parent == if n == 1 then Genesis else (assert (c, n - 1) in s.stable; s.stable[(c, n - 1)])
    ensures c in s.tail ==> s.stable[(c, s.tail[c].number)] == s.tail[c]
  {
    forall n: nat
      ensures (c, n) in s.stable <==> c in s.tail && 1 <= n <= s.tail[c].number
    {
      if (c, n) in s.stable {
        BelowTail(s, s.stable[(c, n)]);
      } else if c in s.tail && 1 <= n <= s.tail[c].number {
        Contiguous(s, s.tail[c], n);
      }
    }
    forall n: nat | (c, n) in s.stable && n > 1
      ensures (c, n - 1) in s.stable && s.stable[(c, n)].parent == s.stable[(c, n - 1)]
    {
      Contiguous(s, s.stable[(c, n)], n - 1);
    }
    forall n: nat | (c, n) in s.stable
      ensures n == 1 ==> s.stable[(c, n)].Unit? && s.stable[(c, n)].parent == Genesis
    {
      assert OnParent(s, s.stable[(c, n)]);
    }
  }

  lemma ClearKeepsFull(s: Store, u: Unit)
    requires Full(s) && u.Unit?
    ensures Full(Clear(s, u)) && Clear(s, u).headers == s.headers - Descendants(s.headers, u)
  {
    ClearIsExact(s, u);
  }

  /** Replacing the unit at a slot keeps the store in order if and only if the new unit refers to nothing that is
      cleared with the old one. */
  lemma ReplaceKeepsIff(s: Store, t: Store, prior: Unit, u: Unit)
    requires Full(s) && Validated(s, u, true)
    requires (u.chain, u.number) in s.stable && prior == s.stable[(u.chain, u.number)]
    requires Inserted(Clear(s, prior), t, u)
    ensures Full(t) <==> forall r :: r in Refs(u) ==> !Refers(r, prior)
    ensures t.headers == t.bodies == s.headers - Descendants(s.headers, prior) + {u}
  {
    assert prior.Unit? && TrueKids(s);
    hide Clear, Inserted, Weak;
    ClearKeepsFull(s, prior);
    var m := Clear(s, prior);
    PriorFacts(s, m, prior, u);
    hide Inv, Full, Validated, Shape;
    ReplacementExtends(s, m, prior, u);
    assert Inv(m) && m.bodies <= m.headers by { FullIsInv(m); }
    InsertKeepsIff(m, t, u);
    KnownAfter(s, m, prior, u);
    assert Full(t) <==> Inv(t) by { FullMeans(t); }
  }

  lemma FullIsInv(s: Store)
    requires Full(s)
    ensures Inv(s) && s.bodies <= s.headers
  {
  }

  lemma FullMeans(s: Store)
    requires s.bodies == s.headers
    ensures Full(s) <==> Inv(s)
  {
  }

  lemma PriorFacts(s: Store, m: Store, prior: Unit, u: Unit)
    requires Full(s) && Full(m) && Validated(s, u, true)
    requires (u.chain, u.number) in s.stable && prior == s.stable[(u.chain, u.number)]
    requires m.headers == s.headers - Descendants(s.headers, prior)
    ensures Shape(s) && Shape(m) && prior in s.headers && prior.Unit? && u !in m.headers
    ensures u.chain == prior.chain && u.number == prior.number && OnParent(s, u)
  {
    NotKept(s, m, prior, u);
  }

  lemma KnownAfter(s: Store, m: Store, prior: Unit, u: Unit)
    requires Validated(s, u, true) && prior.Unit? && m.headers == s.headers - Descendants(s.headers, prior)
    ensures (forall r :: r in Refs(u) ==> Known(m, r)) <==> (forall r :: r in Refs(u) ==> !Refers(r, prior))
  {
    forall r | r in Refs(u)
      ensures Known(m, r) <==> !Refers(r, prior)
    {
      if r.Genesis? {
        assert Refs(r) == {};
      }
    }
  }

  /** The slot is the prior unit's, so the new unit is either that one or not stored. */
  lemma NotKept(s: Store, m: Store, prior: Unit, u: Unit)
    requires Indexed(s) && u.Unit? && (u.chain, u.number) in s.stable && prior == s.stable[(u.chain, u.number)]
    requires m.headers == s.headers - Descendants(s.headers, prior)
    ensures u !in m.headers
  {
    assert Refers(prior, prior);
  }

  datatype Op = InsertOp(u: Unit) | ReplaceOp(u: Unit) | ClearOp(u: Unit)

  /** One operation of the store with synchronous bodies. */
  ghost predicate StepOk(s: Store, op: Op, t: Store) {
    match op
    case InsertOp(u) => u.Unit? && u !in s.headers && Validated(s, u, false) && Inserted(s, t, u)
    case ReplaceOp(u) =>
      && Validated(s, u, true) && (u.chain, u.number) in s.stable && TrueKids(s)
      && (forall r :: r in Refs(u) ==> !Refers(r, s.stable[(u.chain, u.number)]))
      && Inserted(Clear(s, s.stable[(u.chain, u.number)]), t, u)
    case ClearOp(u) => u.Unit? && TrueKids(s) && t == Clear(s, u)
  }

  lemma StepKeepsFull(s: Store, op: Op, t: Store)
    requires Full(s) && StepOk(s, op, t)
    ensures Full(t)
  {
    hide Clear, Inserted, Inv;
    match op
    case InsertOp(u) => InsertKeepsIff(s, t, u);
    case ReplaceOp(u) => ReplaceKeepsIff(s, t, s.stable[(u.chain, u.number)], u);
    case ClearOp(u) => ClearKeepsFull(s, u);
  }

  /** Every run of validated insertions, replacements and clearings keeps the store in order. */
  lemma {:induction false} RunKeepsFull(ss: seq<Store>, ops: seq<Op>)
    requires |ss| == |ops| + 1 && Full(ss[0])
    requires forall i :: 0 <= i < |ops| ==> StepOk(ss[i], ops[i], ss[i + 1])
    ensures Full(ss[|ops|])
    decreases |ops|
  {
    hide StepOk, Full;
    if ops != [] {
      var n := |ops| - 1;
      RunKeepsFull(ss[..n + 1], ops[..n]);
      assert StepOk(ss[n], ops[n], ss[n + 1]);
      StepKeepsFull(ss[n], ops[n], ss[n + 1]);
    }
  }
}
