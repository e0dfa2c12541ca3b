/** The unit store as it is updated in place: database entries and caches. */
module DagStore {
  import opened Options
  import opened Dag
  import opened Store
  import opened Clearing
  import opened StoreRuns
  import opened Background
  import opened Recovery

  class DagStore {
    var headers: set<Unit>
    var stable: map<Slot, Unit>
    var tail: map<nat, Unit>
    var entries: map<Unit, seq<Option<Unit>>>
    var bodies: set<Unit>
    var marks: map<Unit, nat>
    var queue: seq<Unit>
    var stage: Stage
    var open: set<Unit>
    var headCache: set<Unit>
    var tailCache: map<nat, Unit>

    ghost function Value(): (r: Store)
      reads this
    {
      Store(headers, stable, tail, entries, bodies)
    }

    ghost function Pending(): (a: Async)
      reads this
    {
      Async(Value(), marks, queue, stage, open)
    }

    /** Cached headers are stored headers, cached tails the stored tails; an evicted entry is simply missing. */
    ghost predicate Cached()
      reads this
    {
      && headCache <= headers + {Genesis}
      && forall c :: c in tailCache ==> tailCache[c] == if c in tail then tail[c] else Genesis
    }

    constructor ()
      ensures Cached() && Full(Value()) && Running(Pending()) && headers == {}
    {
      queue, stage, open := [], Idle, {};
      headers, stable, tail, entries, bodies, marks := {}, map[], map[], map[], {}, map[];
      headCache, tailCache := {}, map[];
    }

    /** Looks a header up, first in the cache. */
    method GetHeader(u: Unit) returns (found: bool)
      requires Cached()
      modifies `headCache
      ensures Cached() && found == Known(Value(), u)
    {
      if u in headCache || u == Genesis {
        return true;
      }
      found := u in headers;
      if found {
        headCache := headCache + {u};
      }
    }

    /** Looks a chain's tail up, first in the cache; the genesis unit stands for an empty chain. */
    method GetChainTail(c: nat) returns (t: Unit)
      requires Cached()
      modifies `tailCache
      ensures Cached() && t == if c in tail then tail[c] else Genesis
    {
      if c in tailCache {
        return tailCache[c];
      }
      t := if c in tail then tail[c] else Genesis;
      tailCache := tailCache[c := t];
    }

    method Evict(u: Unit, c: nat)
      requires Cached()
      modifies `headCache, `tailCache
      ensures Cached() && u !in headCache && c !in tailCache
    {
      headCache := headCache - {u};
      tailCache := tailCache - {c};
    }

    /** Removes a unit with everything that refers to it, children first. A unit that is gone already is passed over:
        removing it again would move the tail of its chain below units that are still there. */
    method ClearUnit(u: Unit)
      requires Cached() && TrueKids(Value())
      modifies `headers, `stable, `tail, `bodies, `headCache, `tailCache
      ensures Cached() && Value() == Clear(old(Value()), u)
      decreases |Above(headers, u)|
    {
      hide Remove, Above, Clear, ClearAll, Filled, TrueKids, Refs;
      ghost var s := Value();
      ClearOf(s, u);
      var found := GetHeader(u);
      if !found || u == Genesis {
        return;
      }
      var es := if u in entries then entries[u] else [];
      for i := 0 to |es|
        invariant Cached() && forall c :: c in Filled(es[..i]) ==> u in Refs(c)
        invariant Value() == ClearAll(s, s.headers, u, Filled(es[..i])) && Value().entries == s.entries
      {
        FilledStep(es, i);
        match es[i] {
          case None => assert Filled(es[..i]) + [] == Filled(es[..i]);
          case Some(c) =>
            KidsRefer(s, u);
            RefRank(c, u);
            AboveShrinks(s.headers, headers, u, c);
            StillTrue(s, Value());
            ClearAllStep(s, s.headers, u, Filled(es[..i]), c);
            ClearUnit(c);
        }
      }
      assert es[..|es|] == es;
      RemoveOne(u);
    }

    /** Takes a unit that nothing stored refers to out of the database and the caches. */
    method RemoveOne(u: Unit)
      requires Cached() && u.Unit?
      modifies `headers, `stable, `tail, `bodies, `headCache, `tailCache
      ensures Cached() && Value() == Remove(old(Value()), u)
    {
      stable := stable - {(u.chain, u.number)};
      tail := if u.number == 1 then tail - {u.chain} else tail[u.chain := u.parent];
      headers, bodies := headers - {u}, bodies - {u};
      headCache, tailCache := headCache - {u}, tailCache - {u.chain};
    }

    /** Raises the count of a unit's children. */
    method WriteCount(p: Unit)
      modifies `entries
      ensures Value() == AddHole(old(Value()), p)
    {
      entries := entries[p := (if p in entries then entries[p] else []) + [None]];
    }

    /** Writes the entry for the last count of a unit's children. */
    method WriteEntry(p: Unit, u: Unit)
      requires Entries(Value(), p) != []
      modifies `entries
      ensures Value() == FillHole(old(Value()), p, u)
    {
      var es := entries[p];
      entries := entries[p := es[..|es| - 1] + [Some(u)]];
    }

    /** Records a unit as a child of every unit it references, in whatever order they come. */
    method WriteChildrens(u: Unit)
      modifies `entries
      ensures Records(old(Value()), Value(), u)
    {
      hide Kids;
      ghost var s := Value();
      var todo := Refs(u);
      while todo != {}
        invariant todo <= Refs(u) && Value() == s.(entries := entries)
        invariant forall r :: Kids(Value(), r) == Kids(s, r) + if r in Refs(u) - todo then [u] else []
        decreases |todo|
      {
        var p :| p in todo;
        HoleKeepsKids(Value(), p);
        WriteCount(p);
        FillAddsKid(Value(), p, u);
        WriteEntry(p, u);
        todo := todo - {p};
      }
    }

    /** Header, index entry and tail, written together. */
    method WriteHead(u: Unit)
      requires Cached() && u.Unit?
      modifies `headers, `stable, `tail, `headCache, `tailCache
      ensures Cached() && Value() == Put(old(Value()), u)
    {
      headers := headers + {u};
      stable := stable[(u.chain, u.number) := u];
      tail := tail[u.chain := u];
      headCache := headCache + {u};
      tailCache := tailCache[u.chain := u];
    }

    /** Inserts a validated unit with its body. A unit of the special proposer first clears whatever holds its slot. */
    method Insert(u: Unit, special: bool) returns (ok: bool)
      requires Cached() && Full(Value()) && Validated(Value(), u, special)
      modifies this
      ensures Cached()
      ensures if special && (u.chain, u.number) in old(stable) then
                var prior := old(stable)[(u.chain, u.number)];
                && ok && headers == bodies == old(headers) - Descendants(old(headers), prior) + {u}
                && (Full(Value()) <==> forall r :: r in Refs(u) ==> !Refers(r, prior))
              else
                && ok == (u !in old(headers)) && Full(Value())
                && headers == old(headers) + {u}
    {
      hide Clear, Inv, Extends, Put;
      ghost var s := Value();
      ghost var replace := special && (u.chain, u.number) in stable;
      if special && (u.chain, u.number) in stable {
        assert TrueKids(s) by { FullHasTrueKids(s); }
        ClearUnit(stable[(u.chain, u.number)]);
        assert u !in headers by { SlotIsFree(s, Value(), u); }
      }
      if u in headers {
        return false;
      }
      ghost var mid := Value();
      WriteHead(u);
      WriteChildrens(u);
      bodies := bodies + {u};
      ok := true;
      assert Inserted(mid, Value(), u);
      if replace {
        ReplaceKeepsIff(s, Value(), s.stable[(u.chain, u.number)], u);
      } else {
        InsertKeepsIff(s, Value(), u);
        FullMeans(Value());
      }
    }

    /** A unit of the special proposer first clears whatever holds its slot, also while the writer is busy. That leaves
        things in order, and the slot free, exactly if nothing the writer holds refers to what is cleared. */
    method ClearSlot(u: Unit)
      requires Cached() && Running(Pending()) && Validated(Value(), u, true) && (u.chain, u.number) in stable
      modifies `headers, `stable, `tail, `bodies, `headCache, `tailCache
      ensures Cached()
      ensures var prior := old(stable)[(u.chain, u.number)];
              && (Running(Pending()) <==> Unheld(old(Pending()), prior))
              && (Unheld(old(Pending()), prior) ==>
                    headers == old(headers) - Descendants(old(headers), prior) && Extends(Value(), u))
    {
      hide Running, Clear, Unheld, Extends, Weak;
      ghost var a := Pending();
      var prior := stable[(u.chain, u.number)];
      SlotFacts(a, u);
      ClearUnit(prior);
      ClearKeepsIff(a, prior, Pending());
      if Unheld(a, prior) {
        SlotIsOpen(a, Pending(), u);
      }
    }

    /** Queues a unit for the writer, commits its header with a pending marker, and leaves the body to the writer, who
        may get any number of things done before the header is committed. */
    method InsertAsync(u: Unit, steps: nat)
      requires Cached() && Running(Pending()) && Extends(Value(), u) && forall r :: r in Refs(u) ==> Known(Value(), r)
      requires forall v :: v in open && v.Unit? ==> v.chain != u.chain
      modifies this
      ensures Cached() && Running(Pending()) && headers == old(headers) + {u} && open == old(open)
    {
      hide Running, Extends, Known;
      ghost var a := Pending();
      queue, open := queue + [u], open + {u};
      EnqueueKeeps(a, u, Pending());
      NewIsNowhere(a, u, Pending());
      for i := 0 to steps
        invariant Cached() && Running(Pending()) && headers == old(headers) && open == old(open) + {u}
      {
        if queue != [] {
          var m := WriterStep();
        }
      }
      CommitHeader(u);
    }

    /** Header, index entry, tail and marker, written together. */
    method CommitHeader(u: Unit)
      requires Cached() && Running(Pending()) && u in open && u.Unit?
      modifies this
      ensures Cached() && Running(Pending()) && MoveOk(old(Pending()), Commit(u), Pending())
    {
      hide Running, Put;
      ghost var a := Pending();
      WriteHead(u);
      marks, open := marks[u := u.chain], open - {u};
      CommitKeeps(a, u, Pending());
    }

    /** The writer's next write: a count, an entry, the body, or taking the marker away. */
    method WriterStep() returns (m: Move)
      requires Cached() && Running(Pending()) && queue != []
      modifies this
      ensures Cached() && Running(Pending()) && MoveOk(old(Pending()), m, Pending())
      ensures m.PutCount? || m.PutEntry? || m.PutBody? || m.Finish?
      ensures headers == old(headers) && open == old(open)
    {
      hide Running, Kids, Refs, Put, Extends, Clear, Known;
      ghost var a := Pending();
      StageFacts(a);
      var u := queue[0];
      match stage {
        case BodyWritten =>
          marks := marks - {u};
          queue := queue[1..];
          m, stage := Finish, Idle;
        case Linking(done, Some(p)) =>
          WriteEntry(p, u);
          m, stage := PutEntry, Linking(done + {p}, None);
        case Linking(done, None) =>
          if done == Refs(u) {
            bodies := bodies + {u};
            m, stage := PutBody, BodyWritten;
          } else {
            m := NextCount(done);
          }
        case Idle =>
          m := NextCount({});
      }
      MoveKeeps(a, m, Pending());
    }

    method NextCount(done: set<Unit>) returns (m: Move)
      requires queue != [] && done < Refs(queue[0]) && done == Done(Pending())
      requires stage.Idle? || (stage.Linking? && stage.half.None?)
      modifies `entries, `stage
      ensures m.PutCount? && MoveOk(old(Pending()), m, Pending())
    {
      var todo := Refs(queue[0]) - done;
      SomeLeft(done, Refs(queue[0]));
      var p :| p in todo;
      WriteCount(p);
      m, stage := PutCount(p), Linking(done, Some(p));
    }

    /** Brings a store left by a crash back in order: on every marked chain, units without a body go, last one first.
        It is fatal if the tail of a chain is not stored. */
    method CheckData() returns (ok: bool, order: seq<nat>)
      requires Cached() && Weak(Value())
      requires forall u :: Missing(Value(), u) ==> u in marks && marks[u] == u.chain
      modifies this
      ensures headers <= old(headers) && MarksKept(old(marks), marks, headers)
      ensures TrueKids(old(Value())) && Recover(old(Value()), order) == if ok then Some(Value()) else None
      ensures ok ==> Cached() && forall c :: c in order <==> exists u :: u in old(marks) && old(marks)[u] == c
      ensures ok ==> (Restored(old(Value()), Some(Value())) <==> Restorable(old(Value()), [], order))
      ensures !ok ==> forall rest :: Covers(old(Value()), order + rest) ==> !Restorable(old(Value()), [], order + rest)
    {
      hide Clear, Weak, TrueKids, Recover, Restorable, Missing, Restored, RecoverChain;
      ghost var s := Value();
      WeakParts(s);
      var chains := set u | u in marks :: marks[u];
      ghost var all := chains;
      order := [];
      NothingToRecover(s);
      while chains != {}
        invariant Cached() && Recover(s, order) == Some(Value()) && Value().entries == s.entries && TrueKids(Value())
        invariant headers <= s.headers && MarksKept(old(marks), marks, headers)
        invariant chains <= all && forall c :: c in all <==> c in chains || c in order
        decreases |chains|
      {
        var c :| c in chains;
        RecoverNext(s, order, c);
        ok := RecoverOn(c);
        order := order + [c];
        if !ok {
          forall rest | Covers(s, order + rest)
            ensures !Restorable(s, [], order + rest)
          {
            StaysFatal(s, order, rest);
            RestoredIff(s, order + rest);
            FatalIsNotRestored(s);
          }
          return;
        }
        StillTrue(s, Value());
        chains := chains - {c};
      }
      ok := true;
      assert Covers(s, order) by { MarksCover(s, old(marks), order); }
      RestoredIff(s, order);
    }

    /** One chain's recovery. */
    method RecoverOn(c: nat) returns (ok: bool)
      requires Cached() && TrueKids(Value())
      modifies this
      ensures headers <= old(headers) && MarksKept(old(marks), marks, headers)
      ensures RecoverChain(old(Value()), c) == if ok then Some(Value()) else None
      ensures ok ==> Cached() && Value().entries == old(Value()).entries
    {
      hide Clear;
      ghost var s := Value();
      var t := GetChainTail(c);
      while t != Genesis
        invariant Cached() && TrueKids(Value()) && Value().entries == s.entries && t == TailOf(Value(), c)
        invariant RecoverChain(s, c) == RecoverChain(Value(), c)
        invariant headers <= s.headers && MarksKept(old(marks), marks, headers)
        decreases |headers|
      {
        var found := GetHeader(t);
        if !found {
          return false;
        }
        if t in bodies {
          return true;
        }
        ghost var now := Value();
        ClearsItself(now, t);
        Shrinks(Clear(now, t).headers, now.headers, t);
        ClearUnit(t);
        StillTrue(now, Value());
        marks := marks - {t};
        t := GetChainTail(c);
      }
      ok := true;
    }
  }

  /** Of the units that are still stored, none has lost its marker. */
  ghost predicate MarksKept(was: map<Unit, nat>, now: map<Unit, nat>, hs: set<Unit>) {
    now.Keys <= was.Keys && forall u :: u in was && u in hs ==> u in now && now[u] == was[u]
  }

  lemma SomeLeft(a: set<Unit>, b: set<Unit>)
    requires a < b
    ensures b - a != {}
  {
    assert b == a + (b - a);
  }

  lemma FilledStep(es: seq<Option<Unit>>, i: nat)
    requires i < |es|
    ensures Filled(es[..i + 1]) == Filled(es[..i]) + match es[i] { case None => [] case Some(c) => [c] }
    ensures es[i].Some? ==> es[i].value in Filled(es)
  {
    assert es[..i + 1][..i] == es[..i];
    EntryIsKid(es, i);
  }

  lemma EntryIsKid(es: seq<Option<Unit>>, i: nat)
    requires i < |es|
    ensures es[i].Some? ==> es[i].value in Filled(es)
  {
    if i < |es| - 1 {
      EntryIsKid(es[..|es| - 1], i);
    }
  }

  lemma ClearOf(s: Store, u: Unit)
    requires TrueKids(s)
    ensures u.Genesis? || u !in s.headers ==> Clear(s, u) == s
    ensures u.Unit? && u in s.headers ==>
              && (forall c :: c in Kids(s, u) ==> u in Refs(c)) && Filled([]) == []
              && ClearAll(s, s.headers, u, []) == s
              && Clear(s, u) == Remove(ClearAll(s, s.headers, u, Kids(s, u)), u)
  {
    hide Remove;
  }

  lemma ClearAllStep(s: Store, hs: set<Unit>, u: Unit, cs: seq<Unit>, c: Unit)
    requires TrueKids(s) && s.headers <= hs && u in hs && forall d :: d in cs + [c] ==> u in Refs(d)
    requires TrueKids(ClearAll(s, hs, u, cs))
    ensures ClearAll(s, hs, u, cs + [c]) == Clear(ClearAll(s, hs, u, cs), c)
  {
    hide TrueKids, Clear;
    assert (cs + [c])[..|cs|] == cs;
  }

  lemma StageFacts(a: Async)
    requires Running(a) && a.queue != []
    ensures a.queue[0].Unit? && Done(a) <= Refs(a.queue[0]) && Refs(a.queue[0]) != {}
    ensures a.stage.Linking? && a.stage.half.Some? ==> Entries(a.s, a.stage.half.value) != []
  {
    assert a.queue[0].parent in Refs(a.queue[0]);
  }

  lemma NothingToRecover(s: Store)
    requires TrueKids(s)
    ensures Recover(s, []) == Some(s)
  {
  }

  lemma {:induction false} RecoverNext(s: Store, cs: seq<nat>, c: nat)
    requires TrueKids(s)
    ensures Recover(s, cs + [c])
         == match Recover(s, cs) {
              case None => None
              case Some(t) => if TrueKids(t) then RecoverChain(t, c) else None
            }
    decreases |cs|
  {
    hide RecoverChain, TrueKids;
    if cs == [] {
      assert [] + [c] == [c] && [c][1..] == [];
    } else {
      assert (cs + [c])[1..] == cs[1..] + [c];
      var t := RecoverChain(s, cs[0]);
      if t.Some? {
        StillTrue(s, t.value);
        RecoverNext(t.value, cs[1..], c);
      }
    }
  }

  /** A fatal recovery stays fatal whatever chains were to follow. */
  lemma {:induction false} StaysFatal(s: Store, cs: seq<nat>, rest: seq<nat>)
    requires TrueKids(s) && Recover(s, cs).None?
    ensures Recover(s, cs + rest).None?
    decreases |cs|
  {
    hide RecoverChain, TrueKids;
    if cs != [] {
      assert (cs + rest)[1..] == cs[1..] + rest;
      var t := RecoverChain(s, cs[0]);
      if t.Some? {
        StillTrue(s, t.value);
        StaysFatal(t.value, cs[1..], rest);
      }
    }
  }

  lemma FatalIsNotRestored(s: Store)
    ensures !Restored(s, None)
  {
  }

  lemma MarksCover(s: Store, marks: map<Unit, nat>, order: seq<nat>)
    requires forall u :: Missing(s, u) ==> u in marks && marks[u] == u.chain
    requires forall u :: u in marks ==> marks[u] in order
    ensures Covers(s, order)
  {
  }

  lemma SlotFacts(a: Async, u: Unit)
    requires Running(a) && u.Unit? && (u.chain, u.number) in a.s.stable
    ensures TrueKids(a.s)
    ensures var prior := a.s.stable[(u.chain, u.number)];
            prior.Unit? && prior in a.s.headers && prior.chain == u.chain && prior.number == u.number
  {
    hide Ahead, Extends, FullUnit;
  }

  lemma SlotIsOpen(a: Async, b: Async, u: Unit)
    requires Running(a) && Running(b) && Validated(a.s, u, true) && (u.chain, u.number) in a.s.stable && TrueKids(a.s)
    requires var prior := a.s.stable[(u.chain, u.number)]; Unheld(a, prior) && b.s == Clear(a.s, prior)
    ensures b.s.headers == a.s.headers - Descendants(a.s.headers, a.s.stable[(u.chain, u.number)]) && Extends(b.s, u)
  {
    hide Clear, Extends, Bodied, OpenOk, QueueOk, StageOk, Down, Unheld;
    var prior := a.s.stable[(u.chain, u.number)];
    SlotFacts(a, u);
    UnheldIsLost(a, prior);
    NotKept(a.s, b.s, prior, u);
    ReplacementExtends(a.s, b.s, prior, u);
  }

  lemma FullHasTrueKids(s: Store)
    requires Full(s)
    ensures TrueKids(s)
  {
  }

  lemma SlotIsFree(s: Store, t: Store, u: Unit)
    requires Full(s) && u.Unit? && (u.chain, u.number) in s.stable && t == Clear(s, s.stable[(u.chain, u.number)])
    ensures u !in t.headers
  {
    var prior := s.stable[(u.chain, u.number)];
    assert prior.Unit? && Indexed(s);
    ClearKeepsFull(s, prior);
    NotKept(s, t, prior, u);
  }
}
