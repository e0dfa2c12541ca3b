/** What a call of the ring does when no other thread takes a step, and what the ring is when no thread holds a ticket:
    a bounded queue. */
module RingAlone {
  import opened Options
  import opened Arith
  import opened Ring

  /** The ring after `n` steps of one thread. */
  function Alone(r: Ring, id: nat, n: nat): (s: Ring)
    requires Cap(r) >= 2 && id in r.threads
    ensures Cap(s) == Cap(r) && id in s.threads
    decreases n
  {
    if n == 0 then r else Alone(Next(r, Run(id)), id, n - 1)
  }

  /** The node of the next ticket waits for it. */
  predicate HasRoom(r: Ring)
    requires Cap(r) >= 2
  {
    NodeAt(r, r.queue).position == r.queue
  }

  /** The next item is there to be got. */
  predicate HasItem(r: Ring)
    requires Cap(r) >= 2
  {
    NodeAt(r, r.dequeue).position == r.dequeue + 1
  }

  lemma GotoTwice(r: Ring, id: nat, a: Pc, b: Pc)
    requires id in r.threads
    ensures Goto(Goto(r, id, a), id, b) == Goto(r, id, b)
    ensures Goto(r, id, a).threads[id] == r.threads[id].(at := a)
    ensures Goto(r, id, a) == r.(threads := Goto(r, id, a).threads)
    ensures r.threads[id].at == a ==> Goto(r, id, a) == r
  {
    assert r.threads[id := r.threads[id].(at := a)][id := r.threads[id].(at := b)]
        == r.threads[id := r.threads[id].(at := b)];
  }

  lemma SameNode(r: Ring, id: nat, at: Pc, pos: nat)
    requires Cap(r) >= 2 && id in r.threads
    ensures NodeAt(Goto(r, id, at), pos) == NodeAt(r, pos)
  {
  }

  // ---- putting ------------------------------------------------------------------------------------------------------

  /** Where a producer without a ticket goes next in an undisposed ring. */
  function Onward(r: Ring, offer: bool, at: Pc): (b: Pc)
    requires Cap(r) >= 2
  {
    match at
    case Begin => Top(r.queue)
    case Top(pos) => AtNode(pos)
    case AtNode(pos) => Seen(pos, NodeAt(r, pos).position)
    case Seen(pos, _) => Retry(r.queue)
    case Retry(pos) => if offer then Ended(TurnedDown) else Top(pos)
    case _ => at
  }

  lemma ProducerMoves(r: Ring, id: nat, at: Pc)
    requires Cap(r) >= 2 && !r.disposed && id in r.threads && r.threads[id].Producer?
    requires !Holds(at) && !(at.Seen? && at.seqNo == at.pos)
    ensures Next(Goto(r, id, at), Run(id)) == Goto(r, id, Onward(r, r.threads[id].offer, at))
  {
    hide Slot, NodeAt, Goto;
    GotoTwice(r, id, at, Onward(r, r.threads[id].offer, at));
    if at.AtNode? {
      SameNode(r, id, at, at.pos);
    }
  }

  lemma AloneMoves(r: Ring, id: nat, at: Pc, n: nat)
    requires Cap(r) >= 2 && !r.disposed && id in r.threads && r.threads[id].Producer? && n > 0
    requires !Holds(at) && !(at.Seen? && at.seqNo == at.pos)
    ensures Alone(Goto(r, id, at), id, n) == Alone(Goto(r, id, Onward(r, r.threads[id].offer, at)), id, n - 1)
  {
    hide Next, Goto, Onward;
    ProducerMoves(r, id, at);
  }

  lemma OnwardIs(r: Ring, offer: bool)
    requires Cap(r) >= 2
    ensures var q, p := r.queue, NodeAt(r, r.queue).position;
            && Onward(r, offer, Begin) == Top(q) && Onward(r, offer, Top(q)) == AtNode(q)
            && Onward(r, offer, AtNode(q)) == Seen(q, p) && Onward(r, offer, Seen(q, p)) == Retry(q)
            && Onward(r, offer, Retry(q)) == if offer then Ended(TurnedDown) else Top(q)
  {
    hide Slot, NodeAt;
  }

  /** A producer sees the node of the next ticket after three steps. */
  lemma ToSeen(r: Ring, id: nat, n: nat)
    requires Cap(r) >= 2 && !r.disposed && n >= 3
    requires id in r.threads && r.threads[id].Producer? && r.threads[id].at == Begin
    ensures Alone(r, id, n) == Alone(Goto(r, id, Seen(r.queue, NodeAt(r, r.queue).position)), id, n - 3)
  {
    hide Slot, NodeAt, Goto, Next, Alone, Onward;
    GotoTwice(r, id, Begin, Begin);
    OnwardIs(r, r.threads[id].offer);
    AloneMoves(r, id, Begin, n);
    AloneMoves(r, id, Top(r.queue), n - 1);
    AloneMoves(r, id, AtNode(r.queue), n - 2);
  }

  /** One node is new. */
  predicate SlotIs(r: Ring, s: Ring, pos: nat, n: Node)
    requires Cap(r) >= 2
  {
    s.nodes == r.nodes[Slot(Cap(r), pos) := n]
  }

  /** The two writes of a producer that won a ticket. */
  lemma PutStores(r: Ring, id: nat, pos: nat)
    requires Cap(r) >= 2 && id in r.threads && r.threads[id].Producer? && r.threads[id].at == Won(pos)
    ensures var s := Next(Next(r, Run(id)), Run(id));
            && s.threads == r.threads[id := r.threads[id].(at := Ended(Accepted))]
            && SlotIs(r, s, pos, Node(pos + 1, Some(r.threads[id].item)))
            && s.put == r.put && s.queue == r.queue && s.dequeue == r.dequeue && s.winners == r.winners
  {
  }

  /** The item has been published under the next ticket, and nothing else has happened. */
  predicate PutBy(r: Ring, id: nat, s: Ring)
    requires Cap(r) >= 2 && id in r.threads && r.threads[id].Producer?
  {
    && s.threads == r.threads[id := r.threads[id].(at := Ended(Accepted))]
    && s.queue == r.queue + 1 && s.dequeue == r.dequeue && s.put == r.put + [r.threads[id].item]
    && s.winners == r.winners + [id] && SlotIs(r, s, r.queue, Node(r.queue + 1, Some(r.threads[id].item)))
  }

  lemma WinsFromTop(r: Ring, id: nat, n: nat)
    requires Cap(r) >= 2 && !r.disposed && HasRoom(r) && id in r.threads && r.threads[id].Producer? && n >= 3
    ensures Alone(Goto(r, id, Top(r.queue)), id, n) == Alone(ProducerWon(r, id), id, n - 3)
  {
    hide Slot, NodeAt, Goto, Next, Alone, ProducerWon, Onward;
    OnwardIs(r, r.threads[id].offer);
    AloneMoves(r, id, Top(r.queue), n);
    AloneMoves(r, id, AtNode(r.queue), n - 1);
    OneStep(Goto(r, id, Seen(r.queue, r.queue)), id, n - 2);
    PutWins(r, id);
  }

  lemma PutFromTop(r: Ring, id: nat)
    requires Cap(r) >= 2 && !r.disposed && HasRoom(r) && id in r.threads && r.threads[id].Producer?
    ensures PutBy(r, id, Alone(Goto(r, id, Top(r.queue)), id, 5))
  {
    hide Slot, NodeAt, Goto, Next, Alone, ProducerWon;
    var w := ProducerWon(r, id);
    WinsFromTop(r, id, 5);
    TwoSteps(w, id);
    WonThreads(r, id);
    PutStores(w, id, r.queue);
  }

  /** With room, a put or an offer that runs alone is accepted: its item is published under the next ticket. */
  lemma PutAlone(r: Ring, id: nat)
    requires Cap(r) >= 2 && !r.disposed && HasRoom(r)
    requires id in r.threads && r.threads[id].Producer? && r.threads[id].at == Begin
    ensures PutBy(r, id, Alone(r, id, 6))
  {
    hide Slot, NodeAt, Goto, Next, Alone, PutBy;
    GotoTwice(r, id, Begin, Begin);
    OnwardIs(r, r.threads[id].offer);
    AloneMoves(r, id, Begin, 6);
    PutFromTop(r, id);
  }

  lemma OneStep(r: Ring, id: nat, n: nat)
    requires Cap(r) >= 2 && id in r.threads && n > 0
    ensures Alone(r, id, n) == Alone(Next(r, Run(id)), id, n - 1)
  {
    hide Next;
  }

  lemma NoStep(r: Ring, id: nat)
    requires Cap(r) >= 2 && id in r.threads
    ensures Alone(r, id, 0) == r
  {
  }

  lemma TwoSteps(r: Ring, id: nat)
    requires Cap(r) >= 2 && id in r.threads
    ensures Alone(r, id, 2) == Next(Next(r, Run(id)), Run(id))
  {
    hide Next;
    assert Alone(Next(r, Run(id)), id, 1) == Next(Next(r, Run(id)), Run(id));
  }

  lemma PutWins(r: Ring, id: nat)
    requires Cap(r) >= 2 && id in r.threads && r.threads[id].Producer?
    ensures Next(Goto(r, id, Seen(r.queue, r.queue)), Run(id)) == ProducerWon(r, id)
  {
    hide Slot, NodeAt;
    GotoTwice(r, id, Seen(r.queue, r.queue), Won(r.queue));
  }

  lemma WonThreads(r: Ring, id: nat)
    requires id in r.threads && r.threads[id].Producer?
    ensures var w := ProducerWon(r, id);
            && w.threads[id] == r.threads[id].(at := Won(r.queue))
            && w.threads[id := r.threads[id].(at := Ended(Accepted))]
               == r.threads[id := r.threads[id].(at := Ended(Accepted))]
            && w.queue == r.queue + 1 && w.dequeue == r.dequeue && w.put == r.put + [r.threads[id].item]
            && w.winners == r.winners + [id] && w.nodes == r.nodes
  {
  }

  /** Without room, an offer that runs alone is turned down, and nothing has changed. */
  lemma OfferAlone(r: Ring, id: nat)
    requires Cap(r) >= 2 && !r.disposed && !HasRoom(r)
    requires id in r.threads && r.threads[id].Producer? && r.threads[id].offer && r.threads[id].at == Begin
    ensures Alone(r, id, 5) == Goto(r, id, Ended(TurnedDown))
  {
    hide Slot, NodeAt, Goto, Next, Alone, Onward;
    var q, p := r.queue, NodeAt(r, r.queue).position;
    OnwardIs(r, true);
    ToSeen(r, id, 5);
    AloneMoves(r, id, Seen(q, p), 2);
    AloneMoves(r, id, Retry(q), 1);
    NoStep(Goto(r, id, Ended(TurnedDown)), id);
  }

  /** On its way round without room. */
  predicate Round(r: Ring, at: Pc)
    requires Cap(r) >= 2
  {
    at == Begin || at == Top(r.queue) || at == AtNode(r.queue) || at == Seen(r.queue, NodeAt(r, r.queue).position)
    || at == Retry(r.queue)
  }

  /** Without room, a put that runs alone goes round and never comes back. */
  lemma {:induction false} PutSpins(r: Ring, id: nat, at: Pc, n: nat)
    requires Cap(r) >= 2 && !r.disposed && !HasRoom(r) && Round(r, at)
    requires id in r.threads && r.threads[id].Producer? && !r.threads[id].offer
    ensures exists b :: Round(r, b) && Alone(Goto(r, id, at), id, n) == Goto(r, id, b)
    decreases n
  {
    hide Slot, NodeAt, Goto, Next;
    if n > 0 {
      AloneMoves(r, id, at, n);
      PutSpins(r, id, Onward(r, false, at), n - 1);
    } else {
      assert Alone(Goto(r, id, at), id, 0) == Goto(r, id, at);
    }
  }

  /** A producer that lost its ticket to another looks for the next one once the other has published. */
  lemma BackToTop(r: Ring, id: nat, pos: nat, n: nat)
    requires Cap(r) >= 2 && !r.disposed && NodeAt(r, pos).position != pos && n >= 4
    requires id in r.threads && r.threads[id].Producer? && !r.threads[id].offer && r.threads[id].at == Top(pos)
    ensures Alone(r, id, n) == Alone(Goto(r, id, Top(r.queue)), id, n - 4)
  {
    hide Slot, NodeAt, Goto, Next, Alone;
    GotoTwice(r, id, Top(pos), Top(pos));
    AloneMoves(r, id, Top(pos), n);
    AloneMoves(r, id, AtNode(pos), n - 1);
    AloneMoves(r, id, Seen(pos, NodeAt(r, pos).position), n - 2);
    AloneMoves(r, id, Retry(r.queue), n - 3);
  }

  /** With room, a put that runs alone from the head of its loop, with whatever ticket it last read, is accepted unless
      that ticket is another's who has not published yet. */
  lemma PutGoesOn(r: Ring, id: nat, pos: nat)
    requires Cap(r) >= 2 && !r.disposed && HasRoom(r) && (pos == r.queue || NodeAt(r, pos).position != pos)
    requires id in r.threads && r.threads[id].Producer? && !r.threads[id].offer && r.threads[id].at == Top(pos)
    ensures PutBy(r, id, Alone(r, id, if pos == r.queue then 5 else 9))
  {
    hide Slot, NodeAt, Goto, Next, Alone, PutBy;
    GotoTwice(r, id, Top(pos), Top(pos));
    PutFromTop(r, id);
    if pos != r.queue {
      BackToTop(r, id, pos, 9);
    }
  }

  /** Going round with a ticket that another has won. */
  predicate OnTicket(at: Pc, pos: nat) { at == Top(pos) || at == AtNode(pos) || at == Seen(pos, pos) || at == Retry(pos) }

  /** In that case it goes round until the other publishes. */
  lemma {:induction false} PutHangs(r: Ring, id: nat, pos: nat, at: Pc, n: nat)
    requires Cap(r) >= 2 && !r.disposed && pos != r.queue && NodeAt(r, pos).position == pos && OnTicket(at, pos)
    requires id in r.threads && r.threads[id].Producer? && !r.threads[id].offer
    ensures exists b :: OnTicket(b, pos) && Alone(Goto(r, id, at), id, n) == Goto(r, id, b)
    decreases n
  {
    hide Slot, NodeAt, Goto, Next;
    if n == 0 {
      assert Alone(Goto(r, id, at), id, 0) == Goto(r, id, at);
    } else if at == Seen(pos, pos) {
      LosesTicket(r, id, pos);
      PutHangs(r, id, pos, Retry(pos), n - 1);
    } else {
      AloneMoves(r, id, at, n);
      PutHangs(r, id, pos, Onward(r, false, at), n - 1);
    }
  }

  lemma LosesTicket(r: Ring, id: nat, pos: nat)
    requires Cap(r) >= 2 && pos != r.queue && id in r.threads && r.threads[id].Producer?
    ensures Next(Goto(r, id, Seen(pos, pos)), Run(id)) == Goto(r, id, Retry(pos))
  {
    hide Slot, NodeAt;
    GotoTwice(r, id, Seen(pos, pos), Retry(pos));
  }

  // ---- getting ------------------------------------------------------------------------------------------------------

  /** Where a consumer without a ticket goes next in an undisposed ring. */
  function Onwards(r: Ring, at: Pc): (b: Pc)
    requires Cap(r) >= 2
  {
    match at
    case Begin => Top(r.dequeue)
    case Top(pos) => AtNode(pos)
    case AtNode(pos) => Seen(pos, NodeAt(r, pos).position)
    case Seen(pos, _) => Retry(r.dequeue)
    case Retry(pos) => Top(pos)
    case _ => at
  }

  lemma ConsumerMoves(r: Ring, id: nat, at: Pc, n: nat)
    requires Cap(r) >= 2 && !r.disposed && id in r.threads && r.threads[id].Consumer? && n > 0
    requires !Holds(at) && !(at.Seen? && at.seqNo == at.pos + 1)
    ensures Alone(Goto(r, id, at), id, n) == Alone(Goto(r, id, Onwards(r, at)), id, n - 1)
  {
    hide Slot, NodeAt, Goto, Alone;
    GotoTwice(r, id, at, Onwards(r, at));
    if at.AtNode? {
      SameNode(r, id, at, at.pos);
    }
    OneStep(Goto(r, id, at), id, n);
  }

  lemma OnwardsIs(r: Ring)
    requires Cap(r) >= 2
    ensures var q, p := r.dequeue, NodeAt(r, r.dequeue).position;
            && Onwards(r, Begin) == Top(q) && Onwards(r, Top(q)) == AtNode(q) && Onwards(r, AtNode(q)) == Seen(q, p)
            && Onwards(r, Seen(q, p)) == Retry(q) && Onwards(r, Retry(q)) == Top(q)
  {
    hide Slot, NodeAt;
  }

  lemma GetWins(r: Ring, id: nat)
    requires Cap(r) >= 2 && id in r.threads && r.threads[id].Consumer?
    ensures Next(Goto(r, id, Seen(r.dequeue, r.dequeue + 1)), Run(id)) == ConsumerWon(r, id)
    ensures var w := ConsumerWon(r, id);
            && w.threads == r.threads[id := Consumer(Won(r.dequeue))] && w.dequeue == r.dequeue + 1 && w.put == r.put
            && w.queue == r.queue && w.got == r.got && w.nodes == r.nodes
            && w.getters == r.getters + [id]
  {
    hide Slot;
    GotoTwice(r, id, Seen(r.dequeue, r.dequeue + 1), Won(r.dequeue));
  }

  lemma GetReads(r: Ring, id: nat, pos: nat)
    requires Cap(r) >= 2 && id in r.threads && r.threads[id].Consumer? && r.threads[id].at == Won(pos)
    ensures var s := Next(r, Run(id));
            && s == r.(threads := r.threads[id := Consumer(Read(pos, NodeAt(r, pos).data))])
            && NodeAt(s, pos) == NodeAt(r, pos)
  {
    hide Slot;
  }

  lemma GetClears(r: Ring, id: nat, pos: nat, data: Option<Item>)
    requires Cap(r) >= 2 && id in r.threads && r.threads[id].Consumer? && r.threads[id].at == Read(pos, data)
    ensures var s := Next(r, Run(id));
            && s == r.(threads := r.threads[id := Consumer(Emptied(pos, data))], nodes := s.nodes)
            && SlotIs(r, s, pos, NodeAt(r, pos).(data := None))
  {
    hide Slot;
  }

  lemma GetReturns(r: Ring, id: nat, pos: nat, data: Option<Item>)
    requires Cap(r) >= 2 && id in r.threads && r.threads[id].Consumer? && r.threads[id].at == Emptied(pos, data)
    ensures var s := Next(r, Run(id));
            && s == r.(threads := r.threads[id := Consumer(Ended(Returned(data)))], nodes := s.nodes,
                       got := r.got[pos := data], takers := s.takers)
            && SlotIs(r, s, pos, NodeAt(r, pos).(position := pos + Cap(r)))
  {
    hide Slot;
  }

  /** The read and the two writes of a consumer that won a ticket. */
  lemma GetStores(r: Ring, id: nat, pos: nat)
    requires Cap(r) >= 2 && id in r.threads && r.threads[id].Consumer? && r.threads[id].at == Won(pos)
    ensures var s := Next(Next(Next(r, Run(id)), Run(id)), Run(id));
            && s.threads == r.threads[id := Consumer(Ended(Returned(NodeAt(r, pos).data)))]
            && SlotIs(r, s, pos, Node(pos + Cap(r), None)) && s.got == r.got[pos := NodeAt(r, pos).data]
            && s.put == r.put && s.queue == r.queue && s.dequeue == r.dequeue && s.getters == r.getters
  {
    hide Slot, NodeAt, Next, SlotIs;
    var d, a := NodeAt(r, pos).data, Next(r, Run(id));
    GetReads(r, id, pos);
    GetClears(a, id, pos, d);
    var b := Next(a, Run(id));
    GetReturns(b, id, pos, d);
    SlotTwice(a, b, Next(b, Run(id)), pos, NodeAt(a, pos).(data := None), Node(pos + Cap(r), None));
    NodesKept(r, a, pos);
  }

  lemma SlotTwice(r: Ring, s: Ring, t: Ring, pos: nat, n: Node, m: Node)
    requires Cap(r) >= 2 && SlotIs(r, s, pos, n)
    ensures Cap(s) == Cap(r) && NodeAt(s, pos) == n && (SlotIs(s, t, pos, m) ==> SlotIs(r, t, pos, m))
  {
  }

  /** The oldest item has been returned, and nothing else has happened. */
  ghost predicate GotBy(r: Ring, id: nat, s: Ring)
    requires Cap(r) >= 2 && r.dequeue < |r.put|
  {
    && s.threads == r.threads[id := Consumer(Ended(Returned(Some(r.put[r.dequeue]))))]
    && s.dequeue == r.dequeue + 1 && s.queue == r.queue && s.put == r.put && s.getters == r.getters + [id]
    && s.got == r.got[r.dequeue := Some(r.put[r.dequeue])] && SlotIs(r, s, r.dequeue, Node(r.dequeue + Cap(r), None))
  }

  lemma TakesFromTop(r: Ring, id: nat, n: nat)
    requires Cap(r) >= 2 && !r.disposed && HasItem(r) && id in r.threads && r.threads[id].Consumer? && n >= 3
    ensures Alone(Goto(r, id, Top(r.dequeue)), id, n) == Alone(ConsumerWon(r, id), id, n - 3)
  {
    hide Slot, NodeAt, Goto, Next, Alone, ConsumerWon, Onwards;
    OnwardsIs(r);
    ConsumerMoves(r, id, Top(r.dequeue), n);
    ConsumerMoves(r, id, AtNode(r.dequeue), n - 1);
    OneStep(Goto(r, id, Seen(r.dequeue, r.dequeue + 1)), id, n - 2);
    GetWins(r, id);
  }

  lemma GetFromTop(r: Ring, id: nat)
    requires Inv(r) && !r.disposed && HasItem(r) && id in r.threads && r.threads[id].Consumer?
    ensures r.dequeue < r.queue == |r.put| && GotBy(r, id, Alone(Goto(r, id, Top(r.dequeue)), id, 6))
  {
    hide Slot, NodeAt, Goto, Next, Alone, ConsumerWon, Inv, InBounds, SlotIs;
    AtLeastTwo(r);
    ItemIsThere(r);
    var q, w := r.dequeue, ConsumerWon(r, id);
    TakesFromTop(r, id, 6);
    GetWins(r, id);
    NodesKept(r, w, q);
    ThreeSteps(w, id);
    GetStores(w, id, q);
    Overwrite(r.threads, id, Consumer(Won(q)), Consumer(Ended(Returned(Some(r.put[q])))));
  }

  lemma NodesKept(r: Ring, w: Ring, pos: nat)
    requires Cap(r) >= 2 && w.nodes == r.nodes
    ensures NodeAt(w, pos) == NodeAt(r, pos) && forall s, n :: SlotIs(w, s, pos, n) <==> SlotIs(r, s, pos, n)
  {
  }

  /** With an item there, a get or poll that runs alone returns the oldest one. */
  lemma GetAlone(r: Ring, id: nat)
    requires Inv(r) && !r.disposed && HasItem(r) && id in r.threads && r.threads[id] == Consumer(Begin)
    ensures r.dequeue < r.queue == |r.put| && GotBy(r, id, Alone(r, id, 7))
  {
    hide Slot, NodeAt, Goto, Next, Alone, Inv, GotBy;
    AtLeastTwo(r);
    GotoTwice(r, id, Begin, Begin);
    ConsumerMoves(r, id, Begin, 7);
    GetFromTop(r, id);
  }

  lemma BackToHead(r: Ring, id: nat, pos: nat, n: nat)
    requires Cap(r) >= 2 && !r.disposed && NodeAt(r, pos).position != pos + 1 && n >= 4
    requires id in r.threads && r.threads[id] == Consumer(Top(pos))
    ensures Alone(r, id, n) == Alone(Goto(r, id, Top(r.dequeue)), id, n - 4)
  {
    hide Slot, NodeAt, Goto, Next, Alone;
    GotoTwice(r, id, Top(pos), Top(pos));
    ConsumerMoves(r, id, Top(pos), n);
    ConsumerMoves(r, id, AtNode(pos), n - 1);
    ConsumerMoves(r, id, Seen(pos, NodeAt(r, pos).position), n - 2);
    ConsumerMoves(r, id, Retry(r.dequeue), n - 3);
  }

  /** So does one that runs alone from the head of its loop, with whatever ticket it last read, unless that ticket is
      another's who has not given the node back yet. */
  lemma GetGoesOn(r: Ring, id: nat, pos: nat)
    requires Inv(r) && !r.disposed && HasItem(r) && (pos == r.dequeue || NodeAt(r, pos).position != pos + 1)
    requires id in r.threads && r.threads[id] == Consumer(Top(pos))
    ensures r.dequeue < r.queue == |r.put| && GotBy(r, id, Alone(r, id, if pos == r.dequeue then 6 else 10))
  {
    hide Slot, NodeAt, Goto, Next, Alone, Inv, GotBy;
    AtLeastTwo(r);
    GotoTwice(r, id, Top(pos), Top(pos));
    GetFromTop(r, id);
    if pos != r.dequeue {
      BackToHead(r, id, pos, 10);
    }
  }

  /** Going round with a ticket that another consumer has won. */
  predicate OnTaken(at: Pc, pos: nat) {
    at == Top(pos) || at == AtNode(pos) || at == Seen(pos, pos + 1) || at == Retry(pos)
  }

  /** In that case it goes round until the other gives the node back or its time is up. */
  lemma {:induction false} GetHangs(r: Ring, id: nat, pos: nat, at: Pc, n: nat)
    requires Cap(r) >= 2 && !r.disposed && pos != r.dequeue && NodeAt(r, pos).position == pos + 1 && OnTaken(at, pos)
    requires id in r.threads && r.threads[id].Consumer?
    ensures exists b :: OnTaken(b, pos) && Alone(Goto(r, id, at), id, n) == Goto(r, id, b)
    decreases n
  {
    hide Slot, NodeAt, Goto, Next;
    if n == 0 {
      assert Alone(Goto(r, id, at), id, 0) == Goto(r, id, at);
    } else if at == Seen(pos, pos + 1) {
      LosesItem(r, id, pos);
      GetHangs(r, id, pos, Retry(pos), n - 1);
    } else {
      ConsumerMoves(r, id, at, n);
      GetHangs(r, id, pos, Onwards(r, at), n - 1);
    }
  }

  lemma LosesItem(r: Ring, id: nat, pos: nat)
    requires Cap(r) >= 2 && pos != r.dequeue && id in r.threads && r.threads[id].Consumer?
    ensures Next(Goto(r, id, Seen(pos, pos + 1)), Run(id)) == Goto(r, id, Retry(pos))
  {
    hide Slot, NodeAt;
    GotoTwice(r, id, Seen(pos, pos + 1), Retry(pos));
  }

  /** Disposing of the ring ends every call that comes to the head of its loop, and it has done nothing. */
  lemma DisposeUnblocks(r: Ring, id: nat, pos: nat)
    requires Cap(r) >= 2 && r.disposed && id in r.threads && r.threads[id].at == Top(pos)
    ensures Alone(r, id, 1) == Goto(r, id, Ended(WasDisposed))
  {
    hide Slot, NodeAt, Goto;
    OneStep(r, id, 1);
    NoStep(Next(r, Run(id)), id);
  }

  lemma Overwrite(m: map<nat, Thread>, id: nat, a: Thread, b: Thread)
    ensures m[id := a][id := b] == m[id := b]
  {
  }

  lemma ThreeSteps(r: Ring, id: nat)
    requires Cap(r) >= 2 && id in r.threads
    ensures Alone(r, id, 3) == Next(Next(Next(r, Run(id)), Run(id)), Run(id))
  {
    hide Next, Alone;
    OneStep(r, id, 3);
    TwoSteps(Next(r, Run(id)), id);
  }

  lemma AtLeastTwo(r: Ring)
    requires Inv(r)
    ensures Cap(r) >= 2
  {
  }

  lemma ItemIsThere(r: Ring)
    requires Inv(r) && HasItem(r)
    ensures r.dequeue < r.queue == |r.put| && NodeAt(r, r.dequeue).data == Some(r.put[r.dequeue])
  {
    WhichOne(r, r.dequeue);
  }

  /** On its way round without an item. */
  predicate Roundabout(r: Ring, at: Pc)
    requires Cap(r) >= 2
  {
    at == Begin || at == Top(r.dequeue) || at == AtNode(r.dequeue)
    || at == Seen(r.dequeue, NodeAt(r, r.dequeue).position) || at == Retry(r.dequeue)
  }

  /** Without one, it goes round until its time is up. */
  lemma {:induction false} GetSpins(r: Ring, id: nat, at: Pc, n: nat)
    requires Cap(r) >= 2 && !r.disposed && !HasItem(r) && Roundabout(r, at)
    requires id in r.threads && r.threads[id].Consumer?
    ensures exists b :: Roundabout(r, b) && Alone(Goto(r, id, at), id, n) == Goto(r, id, b)
    decreases n
  {
    hide Slot, NodeAt, Goto, Next;
    if n > 0 {
      ConsumerMoves(r, id, at, n);
      GetSpins(r, id, Onwards(r, at), n - 1);
    } else {
      assert Alone(Goto(r, id, at), id, 0) == Goto(r, id, at);
    }
  }

  // ---- at rest ------------------------------------------------------------------------------------------------------

  /** The node of a returned ticket has moved on. */
  ghost predicate MovedOn(r: Ring)
    requires Cap(r) >= 2
  {
    forall k :: k in r.got ==> NodeAt(r, k).position >= k + Cap(r)
  }

  lemma SetGrows(r: Ring, s: Ring, pos: nat, n: Node, q: nat)
    requires Cap(r) >= 2 && s.nodes == SetNode(r, pos, n).nodes && n.position >= NodeAt(r, pos).position
    ensures NodeAt(s, q).position >= NodeAt(r, q).position && NodeAt(s, pos) == n
  {
    hide Slot;
  }

  lemma SameNodes(r: Ring, s: Ring, q: nat)
    requires Cap(r) >= 2 && s.nodes == r.nodes
    ensures NodeAt(s, q) == NodeAt(r, q)
  {
  }

  lemma SetOnly(r: Ring, id: nat, at: Pc, pos: nat, n: Node)
    requires Cap(r) >= 2 && id in r.threads
    ensures var s := SetNode(Goto(r, id, at), pos, n); s.nodes == SetNode(r, pos, n).nodes && s.got == r.got
  {
    hide Slot;
  }

  lemma HeldPosition(r: Ring, id: nat)
    requires Inv(r) && Cap(r) >= 2 && id in r.threads
    ensures var t := r.threads[id];
            && (t.Producer? && t.at.Filled? ==> NodeAt(r, t.at.pos).position == t.at.pos)
            && (t.Consumer? && t.at.Emptied? ==> NodeAt(r, t.at.pos).position == t.at.pos + 1)
  {
    assert ThreadOk(r, id);
  }

  /** Positions never go down. */
  lemma ProducerGrows(r: Ring, id: nat, q: nat)
    requires Inv(r) && id in r.threads && r.threads[id].Producer?
    ensures Cap(r) >= 2 && NodeAt(ProducerStep(r, id), q).position >= NodeAt(r, q).position
    ensures ProducerStep(r, id).got == r.got
  {
    hide Inv, Slot, NodeAt, SetNode;
    Bounds(r);
    HeldPosition(r, id);
    var s := ProducerStep(r, id);
    match r.threads[id].at {
      case Won(pos) =>
        SetOnly(r, id, Filled(pos), pos, NodeAt(r, pos).(data := Some(r.threads[id].item)));
        SetGrows(r, s, pos, NodeAt(r, pos).(data := Some(r.threads[id].item)), q);
      case Filled(pos) =>
        SetOnly(r, id, Ended(Accepted), pos, NodeAt(r, pos).(position := pos + 1));
        SetGrows(r, s, pos, NodeAt(r, pos).(position := pos + 1), q);
      case _ => SameNodes(r, s, q);
    }
  }

  lemma ConsumerGrows(r: Ring, id: nat, q: nat)
    requires Inv(r) && id in r.threads && r.threads[id].Consumer?
    ensures Cap(r) >= 2 && NodeAt(ConsumerStep(r, id), q).position >= NodeAt(r, q).position
    ensures q in ConsumerStep(r, id).got && q !in r.got ==> NodeAt(ConsumerStep(r, id), q).position == q + Cap(r)
  {
    hide Inv, Slot, NodeAt, SetNode;
    Bounds(r);
    HeldPosition(r, id);
    var s := ConsumerStep(r, id);
    match r.threads[id].at {
      case Read(pos, data) =>
        SetOnly(r, id, Emptied(pos, data), pos, NodeAt(r, pos).(data := None));
        SetGrows(r, s, pos, NodeAt(r, pos).(data := None), q);
      case Emptied(pos, data) =>
        SetOnly(r, id, Ended(Returned(data)), pos, NodeAt(r, pos).(position := pos + Cap(r)));
        SetGrows(r, s, pos, NodeAt(r, pos).(position := pos + Cap(r)), q);
      case _ => SameNodes(r, s, q);
    }
  }

  lemma StepMovedOn(r: Ring, a: Act)
    requires Inv(r) && Cap(r) >= 2 && MovedOn(r) && Enabled(r, a)
    ensures MovedOn(Next(r, a))
  {
    hide Inv, NodeAt, ProducerStep, ConsumerStep;
    var s := Next(r, a);
    forall k | k in s.got
      ensures NodeAt(s, k).position >= k + Cap(r)
    {
      match a {
        case Run(id) => if r.threads[id].Producer? { ProducerGrows(r, id, k); } else { ConsumerGrows(r, id, k); }
        case _ => SameNodes(r, s, k);
      }
    }
  }

  lemma {:induction false} RunMovedOn(r: Ring, acts: seq<Act>)
    requires Inv(r) && Cap(r) >= 2 && MovedOn(r) && Feasible(r, acts)
    ensures Cap(After(r, acts)) >= 2 && MovedOn(After(r, acts))
    decreases |acts|
  {
    if acts != [] {
      hide Inv, MovedOn, Next, Enabled;
      StepKeeps(r, acts[0]);
      StepMovedOn(r, acts[0]);
      RunMovedOn(Next(r, acts[0]), acts[1..]);
    }
  }

  /** Of as many tickets in a row as there are nodes, no two share a node. */
  lemma OneInWindow(p: nat, q: nat, n: nat)
    requires n >= 2 && Slot(n, p) == Slot(n, q) && p < q + n && q < p + n
    ensures p == q
  {
    var a, b, c := p / n, q / n, p % n;
    assert p == a * n + c && q == b * n + c;
    assert (a - b) * n == p - q by { assert a * n - b * n == (a - b) * n; }
    AtLeastOnce(a - b, n);
  }

  /** Nobody holds a ticket. */
  predicate AtRest(r: Ring) { r.makers == map[] && r.takers == map[] }

  lemma RoomAtRest(r: Ring)
    requires Inv(r) && Cap(r) >= 2 && MovedOn(r) && AtRest(r)
    ensures HasRoom(r) <==> r.queue < r.dequeue + Cap(r)
  {
    var i := Slot(Cap(r), r.queue);
    var p := r.nodes[i].position;
    assert Waiting(r, i) || Holding(r, i);
    WhichOne(r, r.queue);
    hide Slot, ThreadsOk, SlotsOk;
    if Waiting(r, i) && r.queue < r.dequeue + Cap(r) {
      OneInWindow(p, r.queue, Cap(r));
    } else if Holding(r, i) && r.queue < r.dequeue + Cap(r) {
      LaggingNode(r, p - 1);
    }
  }

  /** A node that still holds the item of one round ago means that the ring is full. */
  lemma LaggingNode(r: Ring, k: nat)
    requires Inv(r) && Cap(r) >= 2 && MovedOn(r) && AtRest(r) && k < r.queue <= k + Cap(r)
    requires Slot(Cap(r), k) == Slot(Cap(r), r.queue) && NodeAt(r, k).position == k + 1
    ensures r.queue == r.dequeue + Cap(r)
  {
    SameSlot(k, Cap(r));
    hide ThreadsOk, SlotsOk;
    OneInWindow(k + Cap(r), r.queue, Cap(r));
    assert k < r.dequeue ==> k in r.got;
  }

  lemma ItemAtRest(r: Ring)
    requires Inv(r) && Cap(r) >= 2 && AtRest(r)
    ensures HasItem(r) <==> r.dequeue < r.queue
  {
    WhichOne(r, r.dequeue);
  }

  /** At rest in any run, the ring is a bounded queue: there is room exactly if it holds fewer items than it has nodes,
      and an item exactly if it holds any. */
  lemma BoundedQueue(r: Ring, acts: seq<Act>)
    requires Fresh(r) && Feasible(r, acts) && AtRest(After(r, acts))
    ensures var s := After(r, acts);
            && Cap(s) == Cap(r) && (HasRoom(s) <==> s.queue - s.dequeue < Cap(s)) && (HasItem(s) <==> s.queue > s.dequeue)
  {
    FreshIsOk(r);
    RunKeeps(r, acts);
    RunMovedOn(r, acts);
    CapStays(r, acts);
    hide After, Feasible, Fresh, Inv, MovedOn, AtRest, HasRoom, HasItem;
    RoomAtRest(After(r, acts));
    ItemAtRest(After(r, acts));
  }
}
