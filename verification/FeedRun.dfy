/** The feed itself: its lists of cases live in one buffer that is swapped, shifted and cut short in place. */
module FeedRun {
  import opened Options
  import opened Feed

  method FindCase(a: array<Chan>, len: nat, ch: Chan) returns (index: int)
    requires len <= a.Length
    ensures index == Find(a[..len], ch)
  {
    for i := 0 to len
      invariant forall j :: 0 <= j < i ==> a[j] != ch
    {
      if a[i] == ch {
        return i;
      }
    }
    return -1;
  }

  /** The cases after `index` move down by one. */
  method DeleteCase(a: array<Chan>, len: nat, index: nat)
    requires index < len <= a.Length
    modifies a
    ensures a[..len - 1] == Delete(old(a[..len]), index)
  {
    for i := index to len - 1
      invariant a[..i] == Delete(old(a[..len]), index)[..i]
      invariant a[i + 1..len] == old(a[i + 1..len])
      invariant i == index ==> a[..len] == old(a[..len])
    {
      ghost var was := a[i + 1..len];
      a[i] := a[i + 1];
      assert a[i + 2..len] == was[1..];
      assert a[..i + 1] == a[..i] + [a[i]];
    }
  }

  /** The case changes places with the last one. */
  method DeactivateCase(a: array<Chan>, n: nat, index: nat)
    requires index < n <= a.Length
    modifies a
    ensures forall len :: n <= len <= a.Length ==> a[..len] == Swap(old(a[..len]), index, n - 1)
  {
    a[index], a[n - 1] := a[n - 1], a[index];
  }

  class EventFeed {
    var buf: array<Chan>
    var len: nat
    var inbox: seq<Chan>
    var live: multiset<Chan>
    var pending: multiset<Chan>
    ghost var progress: Option<Progress>

    ghost function View(): (s: State)
      requires len <= buf.Length
      reads this, buf
    {
      State(live, pending, inbox, buf[..len], progress)
    }

    ghost predicate Valid()
      reads this, buf
    {
      len <= buf.Length && Inv(View())
    }

    constructor ()
      ensures Valid() && View() == START && fresh(buf)
    {
      buf := new Chan[1](_ => RemoveSub);
      len, inbox, live, pending, progress := 1, [], multiset{}, multiset{}, None;
    }

    method Subscribe(ch: Chan)
      requires Valid() && ch.Sub?
      modifies this`inbox, this`live
      ensures Valid() && Next(old(View()), Event.Subscribe(ch)) == Some(View())
    {
      hide Inv;
      StepKeeps(View(), Event.Subscribe(ch));
      inbox := inbox + [ch];
      live := live + multiset{ch};
    }

    /** The first half of a removal: a channel that no send has seen leaves at once, another waits for the feed. */
    method Cancel(ch: Chan)
      requires Valid() && ch in live
      modifies this`inbox, this`live, this`pending
      ensures Valid() && Next(old(View()), Event.Cancel(ch)) == Some(View())
    {
      hide Inv, Find;
      StepKeeps(View(), Event.Cancel(ch));
      live := live - multiset{ch};
      var index := Find(inbox, ch);
      if index != -1 {
        inbox := inbox[..index] + inbox[index + 1..];
      } else {
        pending := pending + multiset{ch};
      }
    }

    /** A removal while no send is under way. */
    method RemoveIdle(ch: Chan)
      requires Valid() && progress.None? && ch in pending
      modifies this`len, this`pending, buf
      ensures Valid() && Next(old(View()), Idle(ch)) == Some(View())
    {
      hide Inv, Find, Delete;
      StepKeeps(View(), Idle(ch));
      RequestFinds(View(), ch);
      var index := FindCase(buf, len, ch);
      DeleteCase(buf, len, index);
      len := len - 1;
      pending := pending - multiset{ch};
    }

    /** What other threads do between two steps of a send: subscribe and leave, in any order and number. */
    method Others(ghost origin: State, ghost before: seq<Event>) returns (ghost es: seq<Event>)
      requires Valid() && Inv(origin) && Reach(origin, before) == Some(View()) && End !in before
      modifies this`inbox, this`live, this`pending
      ensures Valid() && Reach(origin, es) == Some(View()) && before <= es && End !in es
    {
      hide Inv, Next;
      es := before;
      var k: nat := *;
      while k > 0
        invariant Valid() && Reach(origin, es) == Some(View()) && before <= es && End !in es
      {
        var ch: Chan, leave: bool := *, *;
        ghost var s := View();
        if leave && ch in live {
          Cancel(ch);
          ReachOne(origin, es, s, Event.Cancel(ch));
          es := es + [Event.Cancel(ch)];
        } else if ch.Sub? {
          Subscribe(ch);
          ReachOne(origin, es, s, Event.Subscribe(ch));
          es := es + [Event.Subscribe(ch)];
        }
        k := k - 1;
      }
    }

    /** The locals of a send are its progress. */
    ghost predicate Stands(n: nat, next: nat, nsent: nat)
      reads this
    {
      progress.Some? && progress.value.n == n && progress.value.next == next && progress.value.nsent == nsent
    }

    /** Case `k` takes the value. */
    method Deliver(n: nat, next: nat, nsent: nat, k: nat, ghost e: Event)
      requires Valid() && progress.Some? && progress.value.n == n && progress.value.nsent == nsent && 1 <= k < n
      requires Enabled(View(), e) && Next(View(), e) == Serve(View(), k, next)
      modifies buf, this`progress
      ensures Valid() && Next(old(View()), e) == Some(View()) && Stands(n - 1, next, nsent + 1)
    {
      hide Inv, Swap, Next;
      ghost var s := View();
      StepKeeps(s, e);
      Bounds(s);
      DeactivateCase(buf, n, k);
      progress := Some(progress.value.(n := n - 1, next := next, nsent := nsent + 1,
                                       served := progress.value.served + multiset{s.cases[k]}));
    }

    /** One scan that does not block: any case may be ready or not. */
    method Scan(n0: nat, sent: nat, ghost origin: State, ghost before: seq<Event>)
      returns (n: nat, nsent: nat, ghost es: seq<Event>)
      requires Valid() && Stands(n0, 1, sent)
      requires Inv(origin) && Reach(origin, before) == Some(View()) && End !in before
      modifies buf, this`progress, this`inbox, this`live, this`pending
      ensures Valid() && Stands(n, n, nsent) && 1 <= n <= n0
      ensures Reach(origin, es) == Some(View()) && before <= es && End !in es
    {
      hide Inv, Next, Serve;
      n, nsent, es := n0, sent, before;
      var i := 1;
      Bounds(View());
      while i < n
        invariant Valid() && Stands(n, i, nsent) && 1 <= i <= n <= n0
        invariant Reach(origin, es) == Some(View()) && before <= es && End !in es
      {
        es := Others(origin, es);
        ghost var s := View();
        var ready: bool := *;
        NextTry(s);
        if ready {
          Deliver(n, i, nsent, i, Try(true));
          nsent := nsent + 1;
          n := n - 1;
        } else {
          StepKeeps(s, Try(false));
          i := i + 1;
          progress := Some(progress.value.(next := i));
        }
        ReachOne(origin, es, s, Try(ready));
        es := es + [Try(ready)];
      }
    }

    /** Waits until a subscriber takes the value or a removal request comes in. */
    method Select(n0: nat, sent: nat, ghost origin: State, ghost before: seq<Event>)
      returns (n: nat, nsent: nat, ghost es: seq<Event>)
      requires Valid() && Stands(n0, n0, sent) && n0 > 1
      requires Inv(origin) && Reach(origin, before) == Some(View()) && End !in before
      modifies buf, this`len, this`pending, this`progress
      ensures Valid() && Stands(n, 1, nsent) && n + len < n0 + old(len)
      ensures Reach(origin, es) == Some(View()) && before <= es && End !in es
    {
      hide Inv, Next, Serve, Remove;
      n, nsent := n0, sent;
      ghost var s := View();
      var interrupted: bool := *;
      if interrupted && pending != multiset{} {
        var ch :| ch in pending;
        n := TakeOut(n, nsent, ch);
        ReachOne(origin, before, s, Interrupt(ch));
        es := before + [Interrupt(ch)];
      } else {
        var k :| 1 <= k < n;
        NextChosen(s, k);
        Deliver(n, 1, nsent, k, Chosen(k));
        ReachOne(origin, before, s, Chosen(k));
        es := before + [Chosen(k)];
        n, nsent := n - 1, nsent + 1;
      }
    }

    /** A removal request during a send. */
    method TakeOut(n0: nat, nsent: nat, ch: Chan) returns (n: nat)
      requires Valid() && Stands(n0, n0, nsent) && n0 > 1 && ch in pending
      modifies buf, this`len, this`pending, this`progress
      ensures Valid() && Next(old(View()), Interrupt(ch)) == Some(View()) && Stands(n, 1, nsent)
      ensures n + len < n0 + old(len)
    {
      hide Inv, Find, Delete;
      StepKeeps(View(), Interrupt(ch));
      RequestFinds(View(), ch);
      n := n0;
      var index := FindCase(buf, len, ch);
      DeleteCase(buf, len, index);
      len := len - 1;
      pending := pending - multiset{ch};
      progress := Some(Without(progress.value, ch, index));
      if index < n {
        n := n - 1;
      }
    }

    /** The inbox joins the list. */
    method Join()
      requires Valid() && progress.None?
      modifies this
      ensures Valid() && Next(old(View()), Begin) == Some(View()) && Stands(len, 1, 0) && fresh(buf)
    {
      hide Inv;
      StepKeeps(View(), Begin);
      var cases, more := buf, inbox;
      var size := len;
      Starts(View());
      var all := new Chan[size + |more|](i requires 0 <= i < size + |more| reads cases requires size <= cases.Length =>
        if i < size then cases[i] else more[i - size]);
      assert all[..] == cases[..size] + more;
      progress := Some(Progress(size + |more|, 1, 0, multiset(all[1..]), multiset{}, multiset{}, multiset{}));
      buf, len, inbox := all, size + |more|, [];
      assert buf[..len] == all[..];
    }

    method Send() returns (nsent: nat, ghost during: seq<Event>)
      requires Valid() && progress.None?
      modifies this, buf
      ensures Valid() && fresh(buf) && End !in during
      ensures var t := Reach(old(View()), [Begin] + during);
              && t.Some? && Enabled(t.value, End) && Next(t.value, End) == Some(View())
              && var p := t.value.progress.value;
              && nsent == p.nsent == |p.served|
              && p.served + p.dropped == multiset(old(buf[..len])[1..]) + multiset(old(inbox))
              && p.dropped <= Removed(during)
    {
      hide Inv, Next;
      ghost var s := View();
      Join();
      ReachBegin(s);
      ghost var es := [Begin];
      var n: nat := len;
      nsent := 0;
      while true
        invariant Valid() && Stands(n, 1, nsent) && fresh(buf)
        invariant Reach(s, es) == Some(View()) && [Begin] <= es && End !in es
        decreases n + len
      {
        n, nsent, es := Scan(n, nsent, s, es);
        if n == 1 {
          break;
        }
        es := Others(s, es);
        n, nsent, es := Select(n, nsent, s, es);
      }
      during := es[1..];
      assert es == [Begin] + during;
      Close(s, during);
    }

    /** The end of a send. */
    method Close(ghost origin: State, ghost during: seq<Event>)
      requires Valid() && Inv(origin) && origin.progress.None? && End !in during
      requires Reach(origin, [Begin] + during) == Some(View()) && Enabled(View(), End)
      modifies this`progress
      ensures Valid() && Next(old(View()), End) == Some(View())
      ensures var p := old(progress).value;
              && p.nsent == |p.served|
              && p.served + p.dropped == multiset(origin.cases[1..]) + multiset(origin.inbox)
              && p.dropped <= Removed(during)
    {
      hide Inv, Next, Reach;
      SendAccounts(origin, during);
      NextEnd(View());
      progress := None;
    }
  }

  lemma ReachOne(s: State, es: seq<Event>, t: State, e: Event)
    requires Reach(s, es) == Some(t) && Enabled(t, e)
    ensures Reach(s, es + [e]) == Next(t, e)
  {
    assert (es + [e])[..|es|] == es;
  }

  lemma ReachBegin(s: State)
    requires s.progress.None?
    ensures Reach(s, [Begin]) == Next(s, Begin)
  {
    assert [] + [Begin] == [Begin];
    ReachOne(s, [], s, Begin);
  }

  lemma NextTry(s: State)
    requires s.progress.Some? && Enabled(s, Try(true))
    ensures Next(s, Try(true)) == Serve(s, s.progress.value.next, s.progress.value.next)
    ensures Next(s, Try(false)) == Some(s.(progress := Some(s.progress.value.(next := s.progress.value.next + 1))))
  {
  }

  lemma NextChosen(s: State, k: nat)
    requires Enabled(s, Chosen(k))
    ensures Next(s, Chosen(k)) == Serve(s, k, 1)
  {
  }

  lemma NextEnd(s: State)
    requires Inv(s) && Enabled(s, End)
    ensures Next(s, End) == Some(s.(progress := None)) && Inv(s.(progress := None))
  {
  }

  lemma Starts(s: State)
    requires Inv(s)
    ensures |s.cases| >= 1
  {
  }
}
