/** What the calls of the ring come back with: who ended has put or got what, and what a call does when it runs alone. */
module RingCalls {
  import opened Options
  import opened Ring

  // ---- who won what -------------------------------------------------------------------------------------------------

  /** A producer that was accepted won a ticket; one that was turned down is an offer; no other answer is possible unless
      the ring was disposed of. Whoever does not hold a ticket and was not accepted won none. */
  ghost predicate ProducerPast(r: Ring, id: nat, t: Thread)
    requires t.Producer?
  {
    match t.at
    case Won(k) => k < |r.winners| && r.winners[k] == id
    case Filled(k) => k < |r.winners| && r.winners[k] == id
    case Ended(Accepted) => id in r.winners
    case Ended(TurnedDown) => t.offer && id !in r.winners
    case Ended(WasDisposed) => r.disposed && id !in r.winners
    case Ended(_) => false
    case _ => id !in r.winners
  }

  ghost predicate ConsumerPast(r: Ring, id: nat, t: Thread)
    requires t.Consumer?
  {
    match t.at
    case Won(k) => k < |r.getters| && r.getters[k] == id
    case Read(k, _) => k < |r.getters| && r.getters[k] == id
    case Emptied(k, _) => k < |r.getters| && r.getters[k] == id
    case Ended(Returned(_)) => id in r.getters
    case Ended(TimedOut) => id !in r.getters
    case Ended(WasDisposed) => r.disposed && id !in r.getters
    case Ended(_) => false
    case _ => id !in r.getters
  }

  ghost predicate ThreadPast(r: Ring, id: nat)
    requires id in r.threads
  {
    if r.threads[id].Producer? then ProducerPast(r, id, r.threads[id]) else ConsumerPast(r, id, r.threads[id])
  }

  /** The producer of a ticket is on its way to put its own item, or has. */
  ghost predicate WinnerOk(r: Ring, k: nat)
    requires k < |r.winners| <= |r.put|
  {
    var id := r.winners[k];
    && id in r.threads && r.threads[id].Producer? && r.put[k] == r.threads[id].item
    && (r.threads[id].at == Won(k) || r.threads[id].at == Filled(k) || r.threads[id].at == Ended(Accepted))
  }

  /** The consumer of a ticket is on its way to return the item of that ticket, or has. */
  ghost predicate GetterOk(r: Ring, k: nat)
    requires k < |r.getters| <= |r.put|
  {
    var id := r.getters[k];
    && id in r.threads && r.threads[id].Consumer?
    && var at := r.threads[id].at;
       || at == Won(k) || (at.Read? && at.pos == k) || (at.Emptied? && at.pos == k)
       || at == Ended(Returned(Some(r.put[k])))
  }

  ghost predicate Past(r: Ring) {
    && |r.winners| == r.queue == |r.put| && |r.getters| == r.dequeue <= r.queue
    && (forall id :: id in r.threads ==> ThreadPast(r, id))
    && (forall k :: 0 <= k < |r.winners| ==> WinnerOk(r, k))
    && (forall k :: 0 <= k < |r.getters| ==> GetterOk(r, k))
    && (forall j, k :: 0 <= j < k < |r.winners| ==> r.winners[j] != r.winners[k])
    && (forall j, k :: 0 <= j < k < |r.getters| ==> r.getters[j] != r.getters[k])
  }

  /** Where a thread without a ticket may go. */
  predicate Ticketless(r: Ring, t: Thread, at: Pc) {
    match at
    case Ended(TurnedDown) => t.Producer? && t.offer
    case Ended(WasDisposed) => r.disposed
    case Ended(TimedOut) => t.Consumer?
    case Ended(_) => false
    case _ => !Holds(at)
  }

  /** A thread without a ticket goes on without one. */
  lemma MovePast(r: Ring, id: nat, at: Pc)
    requires Past(r) && id in r.threads && id !in r.winners && id !in r.getters && Ticketless(r, r.threads[id], at)
    ensures Past(Goto(r, id, at))
  {
    var s := Goto(r, id, at);
    forall j | j in s.threads
      ensures ThreadPast(s, j)
    {
      assert j != id ==> ThreadPast(r, j) && s.threads[j] == r.threads[j];
    }
    forall k | 0 <= k < |s.winners|
      ensures WinnerOk(s, k)
    {
      assert WinnerOk(r, k);
    }
    forall k | 0 <= k < |s.getters|
      ensures GetterOk(s, k)
    {
      assert GetterOk(r, k);
    }
  }

  /** A thread that holds a ticket goes on with it. */
  lemma HolderPast(r: Ring, s: Ring, id: nat)
    requires Past(r) && id in r.threads && id in s.threads && s.threads == r.threads[id := s.threads[id]]
    requires ThreadPast(s, id)
    requires s.winners == r.winners && s.getters == r.getters && s.put == r.put && s.queue == r.queue
    requires s.dequeue == r.dequeue && s.disposed == r.disposed
    requires forall k :: 0 <= k < |s.winners| && s.winners[k] == id ==> WinnerOk(s, k)
    requires forall k :: 0 <= k < |s.getters| && s.getters[k] == id ==> GetterOk(s, k)
    ensures Past(s)
  {
    forall j | j in s.threads
      ensures ThreadPast(s, j)
    {
      assert j != id ==> ThreadPast(r, j) && s.threads[j] == r.threads[j];
    }
    forall k | 0 <= k < |s.winners|
      ensures WinnerOk(s, k)
    {
      assert WinnerOk(r, k);
    }
    forall k | 0 <= k < |s.getters|
      ensures GetterOk(s, k)
    {
      assert GetterOk(r, k);
    }
  }

  lemma ProducerWonPast(r: Ring, id: nat)
    requires Past(r) && id in r.threads && r.threads[id].Producer? && r.threads[id].at.Seen?
    ensures Past(ProducerWon(r, id))
  {
    var s := ProducerWon(r, id);
    assert ThreadPast(r, id);
    forall j | j in s.threads
      ensures ThreadPast(s, j)
    {
      if j != id {
        assert ThreadPast(r, j) && s.threads[j] == r.threads[j];
        assert forall k :: 0 <= k < |r.winners| ==> s.winners[k] == r.winners[k];
      }
    }
    forall k | 0 <= k < |s.winners|
      ensures WinnerOk(s, k)
    {
      if k < |r.winners| {
        assert WinnerOk(r, k) && r.winners[k] in r.winners;
      }
    }
    forall k | 0 <= k < |s.getters|
      ensures GetterOk(s, k)
    {
      assert GetterOk(r, k);
    }
  }

  lemma ConsumerWonPast(r: Ring, id: nat)
    requires Past(r) && id in r.threads && r.threads[id].Consumer? && r.threads[id].at.Seen? && r.dequeue < r.queue
    ensures Past(ConsumerWon(r, id))
  {
    var s := ConsumerWon(r, id);
    assert ThreadPast(r, id);
    forall j | j in s.threads
      ensures ThreadPast(s, j)
    {
      if j != id {
        assert ThreadPast(r, j) && s.threads[j] == r.threads[j];
        assert forall k :: 0 <= k < |r.getters| ==> s.getters[k] == r.getters[k];
      }
    }
    forall k | 0 <= k < |s.winners|
      ensures WinnerOk(s, k)
    {
      assert WinnerOk(r, k);
    }
    forall k | 0 <= k < |s.getters|
      ensures GetterOk(s, k)
    {
      if k < |r.getters| {
        assert GetterOk(r, k) && r.getters[k] in r.getters;
      }
    }
  }

  /** A thread is a winner or a getter only as what it is. */
  lemma OneRole(r: Ring, id: nat)
    requires Past(r) && id in r.threads
    ensures r.threads[id].Producer? ==> id !in r.getters
    ensures r.threads[id].Consumer? ==> id !in r.winners
  {
    forall k | 0 <= k < |r.getters|
      ensures r.getters[k] == id ==> r.threads[id].Consumer?
    {
      assert GetterOk(r, k);
    }
    forall k | 0 <= k < |r.winners|
      ensures r.winners[k] == id ==> r.threads[id].Producer?
    {
      assert WinnerOk(r, k);
    }
  }

  /** A thread on its way to a ticket has won none. */
  lemma NoneYet(r: Ring, id: nat)
    requires Past(r) && id in r.threads && !Holds(r.threads[id].at) && !r.threads[id].at.Ended?
    ensures id !in r.winners && id !in r.getters
  {
    assert ThreadPast(r, id);
    OneRole(r, id);
  }

  /** The one ticket a thread won. */
  lemma OneTicket(r: Ring, id: nat, k: nat)
    requires Past(r)
    ensures k < |r.winners| && r.winners[k] == id ==> forall j :: 0 <= j < |r.winners| && r.winners[j] == id ==> j == k
    ensures k < |r.getters| && r.getters[k] == id ==> forall j :: 0 <= j < |r.getters| && r.getters[j] == id ==> j == k
  {
  }

  lemma ProducerHolds(r: Ring, id: nat, pos: nat, s: Ring)
    requires Inv(r) && Past(r) && id in r.threads && r.threads[id].Producer?
    requires (r.threads[id].at == Won(pos) && s == ProducerFilled(r, id, pos))
             || (r.threads[id].at == Filled(pos) && s == ProducerStored(r, id, pos))
    ensures Past(s)
  {
    hide Inv, Slot, NodeAt;
    assert ThreadPast(r, id);
    OneRole(r, id);
    OneTicket(r, id, pos);
    assert WinnerOk(r, pos);
    HolderPast(r, s, id);
  }

  /** What a consumer with a ticket goes on to. */
  predicate CarriesOn(r: Ring, pos: nat, at: Pc) {
    || (at.Read? && at.pos == pos) || (at.Emptied? && at.pos == pos)
    || (pos < |r.put| && at == Ended(Returned(Some(r.put[pos]))))
  }

  lemma ConsumerHolds(r: Ring, id: nat, pos: nat, s: Ring, at: Pc)
    requires Past(r) && id in r.threads && r.threads[id].Consumer? && Holds(r.threads[id].at)
    requires !r.threads[id].at.Filled? && pos == r.threads[id].at.pos && CarriesOn(r, pos, at)
    requires s.threads == r.threads[id := Consumer(at)]
    requires s == r.(threads := s.threads, nodes := s.nodes, got := s.got, takers := s.takers)
    ensures Past(s)
  {
    assert ThreadPast(r, id);
    OneRole(r, id);
    OneTicket(r, id, pos);
    assert GetterOk(r, pos);
    HolderPast(r, s, id);
  }

  lemma ConsumerHas(r: Ring, id: nat)
    requires Inv(r) && id in r.threads && r.threads[id].Consumer? && r.threads[id].at.Emptied?
    ensures var at := r.threads[id].at; at.pos < |r.put| && at.data == Some(r.put[at.pos])
  {
    assert ThreadOk(r, id);
    hide SlotsOk, OwnersOk, Accounted, Slot, NodeAt;
  }

  lemma ProducerStepPast(r: Ring, id: nat)
    requires Inv(r) && Past(r) && id in r.threads && r.threads[id].Producer?
    ensures Past(ProducerStep(r, id))
  {
    hide Inv, Past, NodeAt, Goto, ProducerWon, ProducerFilled, ProducerStored;
    assert Cap(r) >= 2 by { Bounds(r); }
    if !Holds(r.threads[id].at) && !r.threads[id].at.Ended? {
      NoneYet(r, id);
    }
    match r.threads[id].at
    case Begin => MovePast(r, id, Top(r.queue));
    case Top(pos) => MovePast(r, id, if r.disposed then Ended(WasDisposed) else AtNode(pos));
    case AtNode(pos) => MovePast(r, id, Seen(pos, NodeAt(r, pos).position));
    case Seen(pos, seqNo) =>
      if seqNo != pos {
        MovePast(r, id, Retry(r.queue));
      } else if r.queue != pos {
        MovePast(r, id, Retry(pos));
      } else {
        ProducerWonPast(r, id);
      }
    case Retry(pos) => MovePast(r, id, if r.threads[id].offer then Ended(TurnedDown) else Top(pos));
    case Won(pos) => ProducerHolds(r, id, pos, ProducerStep(r, id));
    case Filled(pos) => ProducerHolds(r, id, pos, ProducerStep(r, id));
    case _ =>
  }

  lemma ConsumerStepPast(r: Ring, id: nat)
    requires Inv(r) && Past(r) && id in r.threads && r.threads[id].Consumer?
    ensures Past(ConsumerStep(r, id))
  {
    hide Inv, Past, NodeAt, ConsumerWon, ThreadPast;
    assert Cap(r) >= 2 by { Bounds(r); }
    if !Holds(r.threads[id].at) && !r.threads[id].at.Ended? {
      NoneYet(r, id);
    }
    match r.threads[id].at
    case Begin => MovePast(r, id, Top(r.dequeue));
    case Top(pos) => MovePast(r, id, if r.disposed then Ended(WasDisposed) else AtNode(pos));
    case AtNode(pos) => MovePast(r, id, Seen(pos, NodeAt(r, pos).position));
    case Seen(pos, seqNo) =>
      if seqNo != pos + 1 {
        MovePast(r, id, Retry(r.dequeue));
      } else if r.dequeue != pos {
        MovePast(r, id, Retry(pos));
      } else {
        SeenIsThere(r, id);
        ConsumerWonPast(r, id);
      }
    case Retry(pos) => MovePast(r, id, Top(pos));
    case Won(pos) => ConsumerHolds(r, id, pos, ConsumerStep(r, id), Read(pos, NodeAt(r, pos).data));
    case Read(pos, data) => ConsumerHolds(r, id, pos, ConsumerStep(r, id), Emptied(pos, data));
    case Emptied(pos, data) =>
      ConsumerHas(r, id);
      ConsumerHolds(r, id, pos, ConsumerStep(r, id), Ended(Returned(data)));
    case _ =>
  }

  /** A consumer that saw its ticket filled is not ahead of the producers. */
  lemma SeenIsThere(r: Ring, id: nat)
    requires Inv(r) && id in r.threads && r.threads[id] == Consumer(Seen(r.dequeue, r.dequeue + 1))
    ensures r.dequeue < r.queue
  {
    assert ConsumerOk(r, id, r.threads[id]);
    WhichOne(r, r.dequeue);
  }

  lemma SpawnPast(r: Ring, id: nat, t: Thread)
    requires Past(r) && id !in r.threads && t.at == Begin
    ensures Past(r.(threads := r.threads[id := t]))
  {
    var s := r.(threads := r.threads[id := t]);
    forall k | 0 <= k < |s.winners|
      ensures WinnerOk(s, k) && s.winners[k] != id
    {
      assert WinnerOk(r, k);
    }
    forall k | 0 <= k < |s.getters|
      ensures GetterOk(s, k) && s.getters[k] != id
    {
      assert GetterOk(r, k);
    }
    forall j | j in s.threads
      ensures ThreadPast(s, j)
    {
      assert j != id ==> ThreadPast(r, j) && s.threads[j] == r.threads[j];
    }
  }

  lemma DisposePast(r: Ring)
    requires Past(r)
    ensures Past(r.(disposed := true))
  {
    var s := r.(disposed := true);
    forall j | j in s.threads
      ensures ThreadPast(s, j)
    {
      assert ThreadPast(r, j);
    }
    forall k | 0 <= k < |s.winners|
      ensures WinnerOk(s, k)
    {
      assert WinnerOk(r, k);
    }
    forall k | 0 <= k < |s.getters|
      ensures GetterOk(s, k)
    {
      assert GetterOk(r, k);
    }
  }

  lemma StepPast(r: Ring, a: Act)
    requires Inv(r) && Past(r) && Enabled(r, a)
    ensures Past(Next(r, a))
  {
    hide Inv, Past, ProducerStep, ConsumerStep;
    Bounds(r);
    match a
    case Spawn(id, t) => SpawnPast(r, id, t);
    case Run(id) => if r.threads[id].Producer? { ProducerStepPast(r, id); } else { ConsumerStepPast(r, id); }
    case TimeOut(id) =>
      NoneYet(r, id);
      MovePast(r, id, Ended(TimedOut));
    case Dispose => DisposePast(r);
  }

  lemma {:induction false} RunPast(r: Ring, acts: seq<Act>)
    requires Inv(r) && Past(r) && Feasible(r, acts)
    ensures Past(After(r, acts))
    decreases |acts|
  {
    if acts != [] {
      hide Inv, Past, Next, Enabled;
      Bounds(r);
      StepKeeps(r, acts[0]);
      StepPast(r, acts[0]);
      RunPast(Next(r, acts[0]), acts[1..]);
    }
  }

  /** In every run, a producer that came back was accepted, and then won exactly one ticket, under which its item was put;
      or it was an offer that was turned down, or the ring was disposed of, and then it won none. */
  lemma ProducersPut(r: Ring, acts: seq<Act>, id: nat)
    requires Fresh(r) && Feasible(r, acts)
    requires var s := After(r, acts); id in s.threads && s.threads[id].Producer? && s.threads[id].at.Ended?
    ensures var s := After(r, acts);
            var t := s.threads[id];
            && |s.winners| == |s.put|
            && if t.at.answer == Accepted then
                 exists k :: 0 <= k < |s.put| && s.winners[k] == id && s.put[k] == t.item
                             && forall j :: 0 <= j < |s.put| && s.winners[j] == id ==> j == k
               else
                 && id !in s.winners
                 && ((t.at.answer == TurnedDown && t.offer) || (t.at.answer == WasDisposed && s.disposed))
  {
    FreshIsOk(r);
    RunPast(r, acts);
    var s := After(r, acts);
    hide After, Feasible, Fresh;
    assert ThreadPast(s, id);
    if s.threads[id].at.answer == Accepted {
      var k :| 0 <= k < |s.winners| && s.winners[k] == id;
      assert WinnerOk(s, k);
      OneTicket(s, id, k);
    }
  }

  /** In every run, a consumer that came back returned the item of the one ticket it won; or its time was up, or the ring
      was disposed of, and then it won none. */
  lemma ConsumersGet(r: Ring, acts: seq<Act>, id: nat)
    requires Fresh(r) && Feasible(r, acts)
    requires var s := After(r, acts); id in s.threads && s.threads[id].Consumer? && s.threads[id].at.Ended?
    ensures var s := After(r, acts);
            var at := s.threads[id].at;
            && |s.getters| <= |s.put|
            && if at.answer.Returned? then
                 exists k :: 0 <= k < |s.getters| && s.getters[k] == id && at.answer == Returned(Some(s.put[k]))
                             && forall j :: 0 <= j < |s.getters| && s.getters[j] == id ==> j == k
               else id !in s.getters && (at.answer == TimedOut || (at.answer == WasDisposed && s.disposed))
  {
    FreshIsOk(r);
    RunPast(r, acts);
    var s := After(r, acts);
    hide After, Feasible, Fresh;
    assert ThreadPast(s, id);
    if s.threads[id].at.answer.Returned? {
      var k :| 0 <= k < |s.getters| && s.getters[k] == id;
      assert GetterOk(s, k);
      OneTicket(s, id, k);
    }
  }
}
