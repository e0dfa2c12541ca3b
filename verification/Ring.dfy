/** A bounded queue for many producers and consumers, built on compare-and-swap only. Every load, swap and store of a
    thread is one step, and steps of any number of threads interleave in any order. */
module Ring {
  import opened Options
  import opened Arith
  import RS = RingSize

  /** Items are opaque. */
  type Item = nat

  datatype Node = Node(position: nat, data: Option<Item>)

  /** What a call comes back with: the item was put, an offer was turned down, an item was got, the time was up, or the
      ring was disposed of. */
  datatype Answer = Accepted | TurnedDown | Returned(data: Option<Item>) | TimedOut | WasDisposed

  /** Where a thread is. `pos` is the ticket it is after. */
  datatype Pc =
    | Begin
    | Top(pos: nat)                         // about to look at the disposed flag
    | AtNode(pos: nat)                      // about to load the node's position
    | Seen(pos: nat, seqNo: nat)            // has loaded it
    | Retry(pos: nat)                       // goes round again, or gives up
    | Won(pos: nat)                         // holds ticket `pos`
    | Filled(pos: nat)                      // producer: has stored the item
    | Read(pos: nat, data: Option<Item>)       // consumer: has loaded the item
    | Emptied(pos: nat, data: Option<Item>)    // consumer: has cleared the node
    | Ended(answer: Answer)

  datatype Thread = Producer(item: Item, offer: bool, at: Pc) | Consumer(at: Pc)

  /** `put` lists the items by the ticket their producers won, `got` what consumers returned by ticket; `makers` and
      `takers` tell which thread holds which ticket, `winners` and `getters` which thread won it. */
  datatype Ring = Ring(queue: nat, dequeue: nat, disposed: bool, nodes: seq<Node>, threads: map<nat, Thread>,
                       put: seq<Item>, got: map<nat, Option<Item>>, makers: map<nat, nat>, takers: map<nat, nat>,
                       winners: seq<nat>, getters: seq<nat>)

  function Cap(r: Ring): (n: nat) { |r.nodes| }

  /** The node of a ticket; the capacity is a power of two, so masking is taking the remainder. */
  function Slot(cap: nat, pos: nat): (i: nat)
    requires cap >= 2
    ensures i < cap
  {
    pos % cap
  }

  lemma SlotIsMasked(w: bv64, pos: nat)
    requires RS.OneBit(w) && w as nat >= 2
    ensures Slot(w as nat, pos) == RS.And(pos, w as nat - 1)
  {
    RS.MaskFindsSlot(w, pos);
  }

  function NodeAt(r: Ring, pos: nat): (n: Node)
    requires Cap(r) >= 2
  {
    r.nodes[Slot(Cap(r), pos)]
  }

  // ---- steps ------------------------------------------------------------------------------------------------------

  function Goto(r: Ring, id: nat, at: Pc): (s: Ring)
    requires id in r.threads
    ensures Cap(s) == Cap(r) && s.threads.Keys == r.threads.Keys
  {
    r.(threads := r.threads[id := r.threads[id].(at := at)])
  }

  function SetNode(r: Ring, pos: nat, n: Node): (s: Ring)
    requires Cap(r) >= 2
    ensures Cap(s) == Cap(r) && s.threads == r.threads
  {
    r.(nodes := r.nodes[Slot(Cap(r), pos) := n])
  }

  function ProducerWon(r: Ring, id: nat): (s: Ring)
    requires id in r.threads && r.threads[id].Producer?
    ensures Cap(s) == Cap(r) && s.threads.Keys == r.threads.Keys
  {
    Goto(r, id, Won(r.queue)).(queue := r.queue + 1, put := r.put + [r.threads[id].item],
                               makers := r.makers[r.queue := id], winners := r.winners + [id])
  }

  function ProducerFilled(r: Ring, id: nat, pos: nat): (s: Ring)
    requires Cap(r) >= 2 && id in r.threads && r.threads[id].Producer?
    ensures Cap(s) == Cap(r) && s.threads.Keys == r.threads.Keys
  {
    SetNode(Goto(r, id, Filled(pos)), pos, NodeAt(r, pos).(data := Some(r.threads[id].item)))
  }

  function ProducerStored(r: Ring, id: nat, pos: nat): (s: Ring)
    requires Cap(r) >= 2 && id in r.threads
    ensures Cap(s) == Cap(r) && s.threads.Keys == r.threads.Keys
  {
    SetNode(Goto(r, id, Ended(Accepted)), pos, NodeAt(r, pos).(position := pos + 1)).(makers := r.makers - {pos})
  }

  function ProducerStep(r: Ring, id: nat): (s: Ring)
    requires Cap(r) >= 2 && id in r.threads && r.threads[id].Producer?
    ensures Cap(s) == Cap(r) && s.threads.Keys == r.threads.Keys
  {
    var t := r.threads[id];
    match t.at
    case Begin => Goto(r, id, Top(r.queue))
    case Top(pos) => Goto(r, id, if r.disposed then Ended(WasDisposed) else AtNode(pos))
    case AtNode(pos) => Goto(r, id, Seen(pos, NodeAt(r, pos).position))
    case Seen(pos, seqNo) =>
      if seqNo != pos then Goto(r, id, Retry(r.queue))
      else if r.queue != pos then Goto(r, id, Retry(pos))
      else ProducerWon(r, id)
    case Retry(pos) => Goto(r, id, if t.offer then Ended(TurnedDown) else Top(pos))
    case Won(pos) => ProducerFilled(r, id, pos)
    case Filled(pos) => ProducerStored(r, id, pos)
    case _ => r
  }

  function ConsumerWon(r: Ring, id: nat): (s: Ring)
    requires id in r.threads
    ensures Cap(s) == Cap(r) && s.threads.Keys == r.threads.Keys
  {
    Goto(r, id, Won(r.dequeue)).(dequeue := r.dequeue + 1, takers := r.takers[r.dequeue := id],
                                 getters := r.getters + [id])
  }

  function ConsumerCleared(r: Ring, id: nat, pos: nat, data: Option<Item>): (s: Ring)
    requires Cap(r) >= 2 && id in r.threads
    ensures Cap(s) == Cap(r) && s.threads.Keys == r.threads.Keys
  {
    SetNode(Goto(r, id, Emptied(pos, data)), pos, NodeAt(r, pos).(data := None))
  }

  function ConsumerStored(r: Ring, id: nat, pos: nat, data: Option<Item>): (s: Ring)
    requires Cap(r) >= 2 && id in r.threads
    ensures Cap(s) == Cap(r) && s.threads.Keys == r.threads.Keys
  {
    SetNode(Goto(r, id, Ended(Returned(data))), pos, NodeAt(r, pos).(position := pos + Cap(r)))
      .(got := r.got[pos := data], takers := r.takers - {pos})
  }

  function ConsumerStep(r: Ring, id: nat): (s: Ring)
    requires Cap(r) >= 2 && id in r.threads && r.threads[id].Consumer?
    ensures Cap(s) == Cap(r) && s.threads.Keys == r.threads.Keys
  {
    match r.threads[id].at
    case Begin => Goto(r, id, Top(r.dequeue))
    case Top(pos) => Goto(r, id, if r.disposed then Ended(WasDisposed) else AtNode(pos))
    case AtNode(pos) => Goto(r, id, Seen(pos, NodeAt(r, pos).position))
    case Seen(pos, seqNo) =>
      if seqNo != pos + 1 then Goto(r, id, Retry(r.dequeue))
      else if r.dequeue != pos then Goto(r, id, Retry(pos))
      else ConsumerWon(r, id)
    case Retry(pos) => Goto(r, id, Top(pos))
    case Won(pos) => Goto(r, id, Read(pos, NodeAt(r, pos).data))
    case Read(pos, data) => ConsumerCleared(r, id, pos, data)
    case Emptied(pos, data) => ConsumerStored(r, id, pos, data)
    case _ => r
  }

  /** A thread starts, takes a step, gives up waiting, or the ring is disposed of. */
  datatype Act = Spawn(id: nat, t: Thread) | Run(id: nat) | TimeOut(id: nat) | Dispose

  predicate Enabled(r: Ring, a: Act) {
    match a
    case Spawn(id, t) => id !in r.threads && t.at == Begin
    case Run(id) => id in r.threads
    case TimeOut(id) => id in r.threads && r.threads[id].Consumer? && r.threads[id].at.Retry?
    case Dispose => true
  }

  function Next(r: Ring, a: Act): (s: Ring)
    requires Cap(r) >= 2 && Enabled(r, a)
    ensures Cap(s) == Cap(r) && r.threads.Keys <= s.threads.Keys
  {
    match a
    case Spawn(id, t) => r.(threads := r.threads[id := t])
    case Run(id) => if r.threads[id].Producer? then ProducerStep(r, id) else ConsumerStep(r, id)
    case TimeOut(id) => Goto(r, id, Ended(TimedOut))
    case Dispose => r.(disposed := true)
  }

  // ---- the invariant ------------------------------------------------------------------------------------------------

  /** The node waits for the producer of the ticket that is its position. */
  ghost predicate Waiting(r: Ring, i: nat)
    requires i < Cap(r) && Cap(r) >= 2
  {
    var p := r.nodes[i].position;
    Slot(Cap(r), p) == i && r.dequeue <= p < r.dequeue + Cap(r)
  }

  /** The node holds the item of the ticket below its position, unless its consumer is at work on it. */
  ghost predicate Holding(r: Ring, i: nat)
    requires i < Cap(r) && Cap(r) >= 2 && |r.put| == r.queue
  {
    var p := r.nodes[i].position;
    && p >= 1 && Slot(Cap(r), p - 1) == i && p - 1 < r.queue <= p - 1 + Cap(r)
    && (r.dequeue <= p - 1 ==> r.nodes[i].data == Some(r.put[p - 1]))
  }

  ghost predicate ProducerOk(r: Ring, id: nat, t: Thread)
    requires Cap(r) >= 2 && |r.put| == r.queue && t.Producer?
  {
    match t.at
    case Seen(pos, seqNo) => seqNo == pos ==> pos < r.queue || NodeAt(r, pos).position == pos
    case Won(pos) =>
      pos < r.queue && NodeAt(r, pos).position == pos && r.put[pos] == t.item && pos in r.makers && r.makers[pos] == id
    case Filled(pos) =>
      && pos < r.queue && NodeAt(r, pos) == Node(pos, Some(t.item)) && r.put[pos] == t.item
      && pos in r.makers && r.makers[pos] == id
    case _ => true
  }

  ghost predicate ConsumerOk(r: Ring, id: nat, t: Thread)
    requires Cap(r) >= 2 && |r.put| == r.queue && t.Consumer? && r.dequeue <= r.queue
  {
    match t.at
    case Seen(pos, seqNo) => seqNo == pos + 1 ==> pos < r.dequeue || NodeAt(r, pos).position == pos + 1
    case Won(pos) =>
      && pos < r.dequeue && NodeAt(r, pos) == Node(pos + 1, Some(r.put[pos]))
      && pos in r.takers && r.takers[pos] == id
    case Read(pos, data) =>
      && pos < r.dequeue && NodeAt(r, pos).position == pos + 1 && data == Some(r.put[pos])
      && pos in r.takers && r.takers[pos] == id
    case Emptied(pos, data) =>
      && pos < r.dequeue && NodeAt(r, pos).position == pos + 1 && data == Some(r.put[pos])
      && pos in r.takers && r.takers[pos] == id
    case _ => true
  }

  ghost predicate ThreadsOk(r: Ring)
    requires Cap(r) >= 2 && |r.put| == r.queue && r.dequeue <= r.queue
  {
    forall id :: id in r.threads ==> ThreadOk(r, id)
  }

  ghost predicate ThreadOk(r: Ring, id: nat)
    requires Cap(r) >= 2 && |r.put| == r.queue && r.dequeue <= r.queue && id in r.threads
  {
    if r.threads[id].Producer? then ProducerOk(r, id, r.threads[id]) else ConsumerOk(r, id, r.threads[id])
  }

  /** The thread recorded for a ticket holds it. */
  ghost predicate OwnersOk(r: Ring) {
    && (forall k :: k in r.makers ==>
          && r.makers[k] in r.threads && r.threads[r.makers[k]].Producer?
          && (r.threads[r.makers[k]].at == Won(k) || r.threads[r.makers[k]].at == Filled(k)))
    && (forall k :: k in r.takers ==>
          && k !in r.got && r.takers[k] in r.threads && r.threads[r.takers[k]].Consumer?
          && (var at := r.threads[r.takers[k]].at;
              at == Won(k) || (at.Read? && at.pos == k) || (at.Emptied? && at.pos == k)))
  }

  /** Every ticket won by a producer is being filled, or in the ring, or was won by a consumer; every ticket won by a
      consumer is being taken or was returned, with the item of that ticket's producer. */
  ghost predicate Accounted(r: Ring)
    requires Cap(r) >= 2 && |r.put| == r.queue && r.dequeue <= r.queue
  {
    && (forall k :: r.dequeue <= k < r.queue ==> k in r.makers || NodeAt(r, k).position == k + 1)
    && (forall k :: 0 <= k < r.dequeue ==> k in r.takers || k in r.got)
    && (forall k :: k in r.got ==> k < r.dequeue && r.got[k] == Some(r.put[k]))
  }

  ghost predicate SlotsOk(r: Ring)
    requires Cap(r) >= 2 && |r.put| == r.queue
  {
    forall i :: 0 <= i < Cap(r) ==> Waiting(r, i) || Holding(r, i)
  }

  /** No more tickets are taken than put, and no more are out than the ring holds. */
  predicate InBounds(r: Ring) {
    Cap(r) >= 2 && |r.put| == r.queue && r.dequeue <= r.queue <= r.dequeue + Cap(r)
  }

  ghost predicate Inv(r: Ring) {
    && InBounds(r) && SlotsOk(r) && ThreadsOk(r) && OwnersOk(r) && Accounted(r)
  }

  // ---- every step keeps it ------------------------------------------------------------------------------------------

  lemma NextSlot(p: nat, n: nat)
    requires n >= 2
    ensures Slot(n, p + 1) != Slot(n, p)
  {
    var a, b := p / n, p % n;
    assert p == a * n + b;
    if b == n - 1 {
      assert p + 1 == (a + 1) * n + 0;
      Remainder(p + 1, n, a + 1, 0);
    } else {
      Remainder(p + 1, n, a, b + 1);
    }
  }

  lemma SameSlot(p: nat, n: nat)
    requires n >= 2
    ensures Slot(n, p + n) == Slot(n, p)
  {
    var a, b := p / n, p % n;
    assert p == a * n + b;
    assert p + n == (a + 1) * n + b;
    Remainder(p + n, n, a + 1, b);
  }

  /** The ticket a thread is after or holds. */
  function Ticket(at: Pc): (n: nat) { if at.Begin? || at.Ended? then 0 else at.pos }

  predicate Holds(at: Pc) { at.Won? || at.Filled? || at.Read? || at.Emptied? }

  /** A thread that holds no ticket goes where it holds none. */
  lemma MoveKeeps(r: Ring, id: nat, at: Pc)
    requires Inv(r) && id in r.threads && !Holds(r.threads[id].at) && !Holds(at)
    requires at.Seen? ==> at.seqNo == NodeAt(r, at.pos).position
    ensures Inv(Goto(r, id, at))
  {
    var s := Goto(r, id, at);
    forall i | 0 <= i < Cap(s)
      ensures Waiting(s, i) || Holding(s, i)
    {
      assert Waiting(r, i) || Holding(r, i);
    }
    forall j | j in s.threads
      ensures ThreadOk(s, j)
    {
      assert j != id ==> s.threads[j] == r.threads[j];
    }
    assert OwnersOk(s);
  }

  /** A node whose position is its own ticket waits; one whose position is one further holds. */
  lemma WhichOne(r: Ring, pos: nat)
    requires InBounds(r) && SlotsOk(r)
    ensures NodeAt(r, pos).position == pos ==> Waiting(r, Slot(Cap(r), pos)) && !Holding(r, Slot(Cap(r), pos))
    ensures NodeAt(r, pos).position == pos + 1 ==> Holding(r, Slot(Cap(r), pos)) && !Waiting(r, Slot(Cap(r), pos))
  {
    NextSlot(pos, Cap(r));
    if pos > 0 {
      NextSlot(pos - 1, Cap(r));
    }
  }

  /** The node of ticket `pos`, which one thread holds, is written: position and data may change, other nodes and the
      other records of owners do not. */
  ghost predicate Written(r: Ring, s: Ring, id: nat, pos: nat) {
    && InBounds(r) && InBounds(s) && Cap(s) == Cap(r)
    && s.queue == r.queue && s.dequeue == r.dequeue && s.put == r.put
    && (forall q: nat :: Slot(Cap(r), q) != Slot(Cap(r), pos) ==> NodeAt(s, q) == NodeAt(r, q))
    && (forall k :: k in r.makers && r.makers[k] != id ==> k in s.makers && s.makers[k] == r.makers[k])
    && (forall k :: k in r.takers && r.takers[k] != id ==> k in s.takers && s.takers[k] == r.takers[k])
  }

  /** The holder of the ticket. */
  ghost predicate Holder(r: Ring, id: nat, pos: nat)
    requires Cap(r) >= 2
  {
    || (NodeAt(r, pos).position == pos < r.queue && pos in r.makers && r.makers[pos] == id)
    || (NodeAt(r, pos).position == pos + 1 <= r.dequeue && pos in r.takers && r.takers[pos] == id)
  }

  /** Nobody else notices. */
  lemma OtherProducer(r: Ring, s: Ring, id: nat, pos: nat, j: nat)
    requires Written(r, s, id, pos) && Holder(r, id, pos)
    requires j != id && j in r.threads && j in s.threads && s.threads[j] == r.threads[j] && r.threads[j].Producer?
    requires ThreadOk(r, j)
    ensures ThreadOk(s, j)
  {
    var q := Ticket(r.threads[j].at);
    NextSlot(q, Cap(r));
    NextSlot(pos, Cap(r));
    assert Slot(Cap(r), q) == Slot(Cap(r), pos) ==> NodeAt(r, q) == NodeAt(r, pos);
    hide Slot, NodeAt;
  }

  lemma OtherConsumer(r: Ring, s: Ring, id: nat, pos: nat, j: nat)
    requires Written(r, s, id, pos) && Holder(r, id, pos)
    requires j != id && j in r.threads && j in s.threads && s.threads[j] == r.threads[j] && r.threads[j].Consumer?
    requires ThreadOk(r, j)
    ensures ThreadOk(s, j)
  {
    var q := Ticket(r.threads[j].at);
    NextSlot(q, Cap(r));
    NextSlot(pos, Cap(r));
    assert Slot(Cap(r), q) == Slot(Cap(r), pos) ==> NodeAt(r, q) == NodeAt(r, pos);
    hide Slot, NodeAt;
  }

  lemma OthersStay(r: Ring, s: Ring, id: nat, pos: nat)
    requires InBounds(r) && InBounds(s) && Written(r, s, id, pos) && Holder(r, id, pos) && ThreadsOk(r)
    requires s.threads.Keys == r.threads.Keys && id in s.threads && ThreadOk(s, id)
    requires forall j :: j in r.threads && j != id ==> s.threads[j] == r.threads[j]
    ensures ThreadsOk(s)
  {
    hide Written, Holder, ThreadOk;
    forall j | j in s.threads
      ensures ThreadOk(s, j)
    {
      if j != id {
        if r.threads[j].Producer? {
          OtherProducer(r, s, id, pos, j);
        } else {
          OtherConsumer(r, s, id, pos, j);
        }
      }
    }
  }

  lemma ProducerWinsSlots(r: Ring, id: nat)
    requires InBounds(r) && SlotsOk(r) && id in r.threads && r.threads[id].Producer?
    requires NodeAt(r, r.queue).position == r.queue && !Holds(r.threads[id].at)
    ensures InBounds(ProducerWon(r, id)) && SlotsOk(ProducerWon(r, id))
  {
    var s := ProducerWon(r, id);
    WhichOne(r, r.queue);
    forall i | 0 <= i < Cap(s)
      ensures Waiting(s, i) || Holding(s, i)
    {
      if !Waiting(r, i) {
        assert Holding(r, i);
        SameSlot(r.nodes[i].position - 1, Cap(r));
      }
    }
  }

  lemma ProducerWinsThreads(r: Ring, id: nat)
    requires InBounds(r) && ThreadsOk(r) && OwnersOk(r) && id in r.threads && r.threads[id].Producer?
    requires NodeAt(r, r.queue).position == r.queue && !Holds(r.threads[id].at)
    requires InBounds(ProducerWon(r, id))
    ensures ThreadsOk(ProducerWon(r, id))
  {
    var s := ProducerWon(r, id);
    forall j | j in s.threads
      ensures ThreadOk(s, j)
    {
      assert j != id ==> s.threads[j] == r.threads[j];
    }
  }

  lemma ProducerWinsOwners(r: Ring, id: nat)
    requires InBounds(r) && OwnersOk(r) && Accounted(r) && id in r.threads && r.threads[id].Producer?
    requires NodeAt(r, r.queue).position == r.queue && !Holds(r.threads[id].at)
    requires InBounds(ProducerWon(r, id))
    ensures OwnersOk(ProducerWon(r, id)) && Accounted(ProducerWon(r, id))
  {
  }

  /** A producer wins the ticket it saw waiting: the node still waits, so the ring has room. */
  lemma ProducerWins(r: Ring, id: nat)
    requires Inv(r) && id in r.threads && r.threads[id].Producer? && r.threads[id].at == Seen(r.queue, r.queue)
    ensures Inv(ProducerWon(r, id))
  {
    assert NodeAt(r, r.queue).position == r.queue by { assert ProducerOk(r, id, r.threads[id]); }
    hide SlotsOk, ThreadsOk, OwnersOk, Accounted;
    ProducerWinsSlots(r, id);
    ProducerWinsThreads(r, id);
    ProducerWinsOwners(r, id);
  }

  lemma ProducerFillsSlots(r: Ring, id: nat, pos: nat)
    requires InBounds(r) && SlotsOk(r) && id in r.threads && r.threads[id].Producer?
    requires r.threads[id].at == Won(pos) && ProducerOk(r, id, r.threads[id])
    ensures InBounds(ProducerFilled(r, id, pos)) && SlotsOk(ProducerFilled(r, id, pos))
  {
    var s := ProducerFilled(r, id, pos);
    WhichOne(r, pos);
    forall i | 0 <= i < Cap(s)
      ensures Waiting(s, i) || Holding(s, i)
    {
      assert Waiting(r, i) || Holding(r, i);
    }
  }

  lemma ProducerFillsThreads(r: Ring, id: nat, pos: nat)
    requires InBounds(r) && ThreadsOk(r) && OwnersOk(r) && id in r.threads && r.threads[id].Producer?
    requires r.threads[id].at == Won(pos) && ProducerOk(r, id, r.threads[id])
    requires InBounds(ProducerFilled(r, id, pos))
    ensures ThreadsOk(ProducerFilled(r, id, pos))
  {
    hide Slot;
    var s := ProducerFilled(r, id, pos);
    assert Holder(r, id, pos);
    assert Written(r, s, id, pos);
    OthersStay(r, s, id, pos);
  }

  lemma ProducerFillsOwners(r: Ring, id: nat, pos: nat)
    requires InBounds(r) && OwnersOk(r) && Accounted(r) && id in r.threads && r.threads[id].Producer?
    requires r.threads[id].at == Won(pos) && ProducerOk(r, id, r.threads[id])
    requires InBounds(ProducerFilled(r, id, pos))
    ensures OwnersOk(ProducerFilled(r, id, pos)) && Accounted(ProducerFilled(r, id, pos))
  {
  }

  /** The item goes into a node nothing else reads or writes. */
  lemma ProducerFills(r: Ring, id: nat, pos: nat)
    requires Inv(r) && id in r.threads && r.threads[id].Producer? && r.threads[id].at == Won(pos)
    ensures Inv(ProducerFilled(r, id, pos))
  {
    assert ProducerOk(r, id, r.threads[id]);
    hide SlotsOk, ThreadsOk, OwnersOk, Accounted;
    ProducerFillsSlots(r, id, pos);
    ProducerFillsThreads(r, id, pos);
    ProducerFillsOwners(r, id, pos);
  }

  lemma ProducerStoresSlots(r: Ring, id: nat, pos: nat)
    requires InBounds(r) && SlotsOk(r) && id in r.threads && r.threads[id].Producer?
    requires r.threads[id].at == Filled(pos) && ProducerOk(r, id, r.threads[id])
    ensures InBounds(ProducerStored(r, id, pos)) && SlotsOk(ProducerStored(r, id, pos))
  {
    var s := ProducerStored(r, id, pos);
    WhichOne(r, pos);
    forall i | 0 <= i < Cap(s)
      ensures Waiting(s, i) || Holding(s, i)
    {
      assert Waiting(r, i) || Holding(r, i);
    }
  }

  lemma ProducerStoresThreads(r: Ring, id: nat, pos: nat)
    requires InBounds(r) && ThreadsOk(r) && OwnersOk(r) && id in r.threads && r.threads[id].Producer?
    requires r.threads[id].at == Filled(pos) && ProducerOk(r, id, r.threads[id])
    requires InBounds(ProducerStored(r, id, pos))
    ensures ThreadsOk(ProducerStored(r, id, pos))
  {
    hide Slot;
    var s := ProducerStored(r, id, pos);
    assert Holder(r, id, pos);
    assert Written(r, s, id, pos);
    OthersStay(r, s, id, pos);
  }

  lemma ProducerStoresOwners(r: Ring, id: nat, pos: nat)
    requires InBounds(r) && OwnersOk(r) && Accounted(r) && id in r.threads && r.threads[id].Producer?
    requires r.threads[id].at == Filled(pos) && ProducerOk(r, id, r.threads[id])
    requires InBounds(ProducerStored(r, id, pos))
    ensures OwnersOk(ProducerStored(r, id, pos)) && Accounted(ProducerStored(r, id, pos))
  {
    hide Slot;
    var s := ProducerStored(r, id, pos);
    forall k | r.dequeue <= k < r.queue
      ensures k in s.makers || NodeAt(s, k).position == k + 1
    {
      NextSlot(k, Cap(r));
    }
  }

  /** The item is published. */
  lemma ProducerStores(r: Ring, id: nat, pos: nat)
    requires Inv(r) && id in r.threads && r.threads[id].Producer? && r.threads[id].at == Filled(pos)
    ensures Inv(ProducerStored(r, id, pos))
  {
    assert ProducerOk(r, id, r.threads[id]);
    hide SlotsOk, ThreadsOk, OwnersOk, Accounted;
    ProducerStoresSlots(r, id, pos);
    ProducerStoresThreads(r, id, pos);
    ProducerStoresOwners(r, id, pos);
  }

  lemma ConsumerWinsSlots(r: Ring, id: nat)
    requires InBounds(r) && SlotsOk(r) && id in r.threads && r.threads[id].Consumer?
    requires r.dequeue < r.queue && NodeAt(r, r.dequeue) == Node(r.dequeue + 1, Some(r.put[r.dequeue]))
    requires !Holds(r.threads[id].at)
    ensures InBounds(ConsumerWon(r, id)) && SlotsOk(ConsumerWon(r, id))
  {
    var s := ConsumerWon(r, id);
    WhichOne(r, r.dequeue);
    forall i | 0 <= i < Cap(s)
      ensures Waiting(s, i) || Holding(s, i)
    {
      assert Waiting(r, i) || Holding(r, i);
    }
  }

  lemma ConsumerWinsThreads(r: Ring, id: nat)
    requires InBounds(r) && ThreadsOk(r) && OwnersOk(r) && id in r.threads && r.threads[id].Consumer?
    requires r.dequeue < r.queue && NodeAt(r, r.dequeue) == Node(r.dequeue + 1, Some(r.put[r.dequeue]))
    requires !Holds(r.threads[id].at)
    requires InBounds(ConsumerWon(r, id))
    ensures ThreadsOk(ConsumerWon(r, id))
  {
    var s := ConsumerWon(r, id);
    assert forall q: nat :: NodeAt(s, q) == NodeAt(r, q);
    assert s.threads == r.threads[id := Consumer(Won(r.dequeue))];
    hide Slot, Goto, NodeAt;
    forall j | j in s.threads
      ensures ThreadOk(s, j)
    {
      assert j != id ==> s.threads[j] == r.threads[j];
    }
  }

  lemma ConsumerWinsOwners(r: Ring, id: nat)
    requires InBounds(r) && OwnersOk(r) && Accounted(r) && id in r.threads && r.threads[id].Consumer?
    requires r.dequeue < r.queue && NodeAt(r, r.dequeue) == Node(r.dequeue + 1, Some(r.put[r.dequeue]))
    requires !Holds(r.threads[id].at)
    requires InBounds(ConsumerWon(r, id))
    ensures OwnersOk(ConsumerWon(r, id)) && Accounted(ConsumerWon(r, id))
  {
  }

  /** A consumer wins the ticket it saw filled: the node still holds that ticket's item. */
  lemma ConsumerWins(r: Ring, id: nat)
    requires Inv(r) && id in r.threads && r.threads[id].Consumer? && r.threads[id].at == Seen(r.dequeue, r.dequeue + 1)
    ensures Inv(ConsumerWon(r, id))
  {
    assert NodeAt(r, r.dequeue).position == r.dequeue + 1 by { assert ConsumerOk(r, id, r.threads[id]); }
    WhichOne(r, r.dequeue);
    hide SlotsOk, ThreadsOk, OwnersOk, Accounted;
    ConsumerWinsSlots(r, id);
    ConsumerWinsThreads(r, id);
    ConsumerWinsOwners(r, id);
  }

  lemma ConsumerReadsSlots(r: Ring, id: nat, pos: nat)
    requires InBounds(r) && SlotsOk(r) && id in r.threads && r.threads[id].Consumer?
    requires r.threads[id].at == Won(pos) && ConsumerOk(r, id, r.threads[id])
    ensures InBounds(Goto(r, id, Read(pos, NodeAt(r, pos).data))) && SlotsOk(Goto(r, id, Read(pos, NodeAt(r, pos).data)))
  {
    var s := Goto(r, id, Read(pos, NodeAt(r, pos).data));
    forall i | 0 <= i < Cap(s)
      ensures Waiting(s, i) || Holding(s, i)
    {
      assert Waiting(r, i) || Holding(r, i);
    }
  }

  lemma ConsumerReadsThreads(r: Ring, id: nat, pos: nat)
    requires InBounds(r) && ThreadsOk(r) && OwnersOk(r) && id in r.threads && r.threads[id].Consumer?
    requires r.threads[id].at == Won(pos) && ConsumerOk(r, id, r.threads[id])
    requires InBounds(Goto(r, id, Read(pos, NodeAt(r, pos).data)))
    ensures ThreadsOk(Goto(r, id, Read(pos, NodeAt(r, pos).data)))
  {
    var s := Goto(r, id, Read(pos, NodeAt(r, pos).data));
    hide Slot;
    forall j | j in s.threads
      ensures ThreadOk(s, j)
    {
      assert j != id ==> s.threads[j] == r.threads[j];
      NextSlot(Ticket(r.threads[j].at), Cap(r));
    }
  }

  lemma ConsumerReadsOwners(r: Ring, id: nat, pos: nat)
    requires InBounds(r) && OwnersOk(r) && Accounted(r) && id in r.threads && r.threads[id].Consumer?
    requires r.threads[id].at == Won(pos) && ConsumerOk(r, id, r.threads[id])
    requires InBounds(Goto(r, id, Read(pos, NodeAt(r, pos).data)))
    ensures OwnersOk(Goto(r, id, Read(pos, NodeAt(r, pos).data))) && Accounted(Goto(r, id, Read(pos, NodeAt(r, pos).data)))
  {
  }

  /** The item read is the one put with the ticket. */
  lemma ConsumerReads(r: Ring, id: nat, pos: nat)
    requires Inv(r) && id in r.threads && r.threads[id].Consumer? && r.threads[id].at == Won(pos)
    ensures Inv(Goto(r, id, Read(pos, NodeAt(r, pos).data)))
  {
    assert ConsumerOk(r, id, r.threads[id]);
    hide SlotsOk, ThreadsOk, OwnersOk, Accounted;
    ConsumerReadsSlots(r, id, pos);
    ConsumerReadsThreads(r, id, pos);
    ConsumerReadsOwners(r, id, pos);
  }

  lemma ConsumerClearsSlots(r: Ring, id: nat, pos: nat, data: Option<Item>)
    requires InBounds(r) && SlotsOk(r) && id in r.threads && r.threads[id].Consumer?
    requires r.threads[id].at == Read(pos, data) && ConsumerOk(r, id, r.threads[id])
    ensures InBounds(ConsumerCleared(r, id, pos, data)) && SlotsOk(ConsumerCleared(r, id, pos, data))
  {
    var s := ConsumerCleared(r, id, pos, data);
    WhichOne(r, pos);
    forall i | 0 <= i < Cap(s)
      ensures Waiting(s, i) || Holding(s, i)
    {
      assert Waiting(r, i) || Holding(r, i);
    }
  }

  lemma ConsumerClearsThreads(r: Ring, id: nat, pos: nat, data: Option<Item>)
    requires InBounds(r) && ThreadsOk(r) && OwnersOk(r) && id in r.threads && r.threads[id].Consumer?
    requires r.threads[id].at == Read(pos, data) && ConsumerOk(r, id, r.threads[id])
    requires InBounds(ConsumerCleared(r, id, pos, data))
    ensures ThreadsOk(ConsumerCleared(r, id, pos, data))
  {
    hide Slot;
    var s := ConsumerCleared(r, id, pos, data);
    assert Holder(r, id, pos);
    assert Written(r, s, id, pos);
    OthersStay(r, s, id, pos);
  }

  lemma ConsumerClearsOwners(r: Ring, id: nat, pos: nat, data: Option<Item>)
    requires InBounds(r) && OwnersOk(r) && Accounted(r) && id in r.threads && r.threads[id].Consumer?
    requires r.threads[id].at == Read(pos, data) && ConsumerOk(r, id, r.threads[id])
    requires InBounds(ConsumerCleared(r, id, pos, data))
    ensures OwnersOk(ConsumerCleared(r, id, pos, data)) && Accounted(ConsumerCleared(r, id, pos, data))
  {
  }

  lemma ConsumerClears(r: Ring, id: nat, pos: nat, data: Option<Item>)
    requires Inv(r) && id in r.threads && r.threads[id].Consumer? && r.threads[id].at == Read(pos, data)
    ensures Inv(ConsumerCleared(r, id, pos, data))
  {
    assert ConsumerOk(r, id, r.threads[id]);
    hide SlotsOk, ThreadsOk, OwnersOk, Accounted;
    ConsumerClearsSlots(r, id, pos, data);
    ConsumerClearsThreads(r, id, pos, data);
    ConsumerClearsOwners(r, id, pos, data);
  }

  lemma ConsumerStoresSlots(r: Ring, id: nat, pos: nat, data: Option<Item>)
    requires InBounds(r) && SlotsOk(r) && id in r.threads && r.threads[id].Consumer?
    requires r.threads[id].at == Emptied(pos, data) && ConsumerOk(r, id, r.threads[id])
    ensures InBounds(ConsumerStored(r, id, pos, data)) && SlotsOk(ConsumerStored(r, id, pos, data))
  {
    var s := ConsumerStored(r, id, pos, data);
    WhichOne(r, pos);
    SameSlot(pos, Cap(r));
    forall i | 0 <= i < Cap(s)
      ensures Waiting(s, i) || Holding(s, i)
    {
      assert Waiting(r, i) || Holding(r, i);
    }
  }

  lemma ConsumerStoresThreads(r: Ring, id: nat, pos: nat, data: Option<Item>)
    requires InBounds(r) && ThreadsOk(r) && OwnersOk(r) && id in r.threads && r.threads[id].Consumer?
    requires r.threads[id].at == Emptied(pos, data) && ConsumerOk(r, id, r.threads[id])
    requires InBounds(ConsumerStored(r, id, pos, data))
    ensures ThreadsOk(ConsumerStored(r, id, pos, data))
  {
    hide Slot;
    var s := ConsumerStored(r, id, pos, data);
    assert Holder(r, id, pos);
    assert Written(r, s, id, pos);
    OthersStay(r, s, id, pos);
  }

  lemma ConsumerStoresOwners(r: Ring, id: nat, pos: nat, data: Option<Item>)
    requires InBounds(r) && OwnersOk(r) && Accounted(r) && id in r.threads && r.threads[id].Consumer?
    requires r.threads[id].at == Emptied(pos, data) && ConsumerOk(r, id, r.threads[id])
    requires InBounds(ConsumerStored(r, id, pos, data))
    ensures OwnersOk(ConsumerStored(r, id, pos, data)) && Accounted(ConsumerStored(r, id, pos, data))
  {
    hide Slot;
    var s := ConsumerStored(r, id, pos, data);
    forall k | r.dequeue <= k < r.queue
      ensures k in s.makers || NodeAt(s, k).position == k + 1
    {
      assert k != pos;
    }
  }

  /** The node is handed on to the producer one round later. */
  lemma ConsumerStores(r: Ring, id: nat, pos: nat, data: Option<Item>)
    requires Inv(r) && id in r.threads && r.threads[id].Consumer? && r.threads[id].at == Emptied(pos, data)
    ensures Inv(ConsumerStored(r, id, pos, data))
  {
    assert ConsumerOk(r, id, r.threads[id]);
    hide SlotsOk, ThreadsOk, OwnersOk, Accounted;
    ConsumerStoresSlots(r, id, pos, data);
    ConsumerStoresThreads(r, id, pos, data);
    ConsumerStoresOwners(r, id, pos, data);
  }

  // ---- whole runs ---------------------------------------------------------------------------------------------------

  /** Every step of every thread keeps the invariant. */
  lemma StepKeeps(r: Ring, a: Act)
    requires Inv(r) && Enabled(r, a)
    ensures Inv(Next(r, a))
  {
    match a
    case Spawn(id, t) => SpawnKeeps(r, id, t);
    case Run(id) => if r.threads[id].Producer? { ProducerKeeps(r, id); } else { ConsumerKeeps(r, id); }
    case TimeOut(id) => MoveKeeps(r, id, Ended(TimedOut));
    case Dispose => DisposeKeeps(r);
  }

  lemma SlotsStay(r: Ring, s: Ring)
    requires InBounds(r) && SlotsOk(r)
    requires s.nodes == r.nodes && s.put == r.put && s.queue == r.queue && s.dequeue == r.dequeue
    ensures SlotsOk(s)
  {
    forall i | 0 <= i < Cap(s)
      ensures Waiting(s, i) || Holding(s, i)
    {
      assert Waiting(r, i) || Holding(r, i);
    }
  }

  lemma OwnersStay(r: Ring, s: Ring)
    requires InBounds(r) && OwnersOk(r) && Accounted(r)
    requires s == r.(threads := s.threads) && forall j :: j in r.threads ==> j in s.threads && s.threads[j] == r.threads[j]
    ensures OwnersOk(s) && Accounted(s)
  {
  }

  lemma SpawnKeeps(r: Ring, id: nat, t: Thread)
    requires Inv(r) && id !in r.threads && t.at == Begin
    ensures Inv(r.(threads := r.threads[id := t]))
  {
    var s := r.(threads := r.threads[id := t]);
    SlotsStay(r, s);
    OwnersStay(r, s);
    hide SlotsOk, OwnersOk, Accounted;
    forall j | j in s.threads
      ensures ThreadOk(s, j)
    {
      assert j != id ==> ThreadOk(r, j) && s.threads[j] == r.threads[j];
    }
  }

  lemma DisposeKeeps(r: Ring)
    requires Inv(r)
    ensures Inv(r.(disposed := true))
  {
    var s := r.(disposed := true);
    forall i | 0 <= i < Cap(s)
      ensures Waiting(s, i) || Holding(s, i)
    {
      assert Waiting(r, i) || Holding(r, i);
    }
    forall j | j in s.threads
      ensures ThreadOk(s, j)
    {
      assert s.threads[j] == r.threads[j];
    }
  }

  lemma ProducerKeeps(r: Ring, id: nat)
    requires Inv(r) && id in r.threads && r.threads[id].Producer?
    ensures Inv(ProducerStep(r, id))
  {
    hide Inv, ProducerWon, ProducerFilled, ProducerStored, Goto;
    assert Cap(r) >= 2 by { Bounds(r); }
    match r.threads[id].at
    case Begin => MoveKeeps(r, id, Top(r.queue));
    case Top(pos) => MoveKeeps(r, id, if r.disposed then Ended(WasDisposed) else AtNode(pos));
    case AtNode(pos) => MoveKeeps(r, id, Seen(pos, NodeAt(r, pos).position));
    case Seen(pos, seqNo) =>
      if seqNo != pos {
        MoveKeeps(r, id, Retry(r.queue));
      } else if r.queue != pos {
        MoveKeeps(r, id, Retry(pos));
      } else {
        ProducerWins(r, id);
      }
    case Retry(pos) => MoveKeeps(r, id, if r.threads[id].offer then Ended(TurnedDown) else Top(pos));
    case Won(pos) => ProducerFills(r, id, pos);
    case Filled(pos) => ProducerStores(r, id, pos);
    case _ =>
  }

  lemma ConsumerKeeps(r: Ring, id: nat)
    requires Inv(r) && id in r.threads && r.threads[id].Consumer?
    ensures Inv(ConsumerStep(r, id))
  {
    hide Inv, ConsumerWon, ConsumerCleared, ConsumerStored, Goto;
    assert Cap(r) >= 2 by { Bounds(r); }
    match r.threads[id].at
    case Begin => MoveKeeps(r, id, Top(r.dequeue));
    case Top(pos) => MoveKeeps(r, id, if r.disposed then Ended(WasDisposed) else AtNode(pos));
    case AtNode(pos) => MoveKeeps(r, id, Seen(pos, NodeAt(r, pos).position));
    case Seen(pos, seqNo) =>
      if seqNo != pos + 1 {
        MoveKeeps(r, id, Retry(r.dequeue));
      } else if r.dequeue != pos {
        MoveKeeps(r, id, Retry(pos));
      } else {
        ConsumerWins(r, id);
      }
    case Retry(pos) => MoveKeeps(r, id, Top(pos));
    case Won(pos) => ConsumerReads(r, id, pos);
    case Read(pos, data) => ConsumerClears(r, id, pos, data);
    case Emptied(pos, data) => ConsumerStores(r, id, pos, data);
    case _ =>
  }

  lemma Bounds(r: Ring)
    requires Inv(r)
    ensures InBounds(r)
  {
  }

  /** A fresh ring: node `i` waits for ticket `i`. */
  predicate Fresh(r: Ring) {
    && r.queue == r.dequeue == 0 && !r.disposed && r.threads == map[] && r.put == [] && r.got == map[]
    && r.makers == map[] && r.takers == map[] && r.winners == [] && r.getters == [] && Cap(r) >= 2
    && forall i :: 0 <= i < Cap(r) ==> r.nodes[i].position == i
  }

  lemma FreshIsOk(r: Ring)
    requires Fresh(r)
    ensures Inv(r)
  {
    forall i: nat | i < Cap(r)
      ensures Waiting(r, i)
    {
      Remainder(i, Cap(r), 0, i);
    }
  }

  ghost predicate Feasible(r: Ring, acts: seq<Act>)
    requires Cap(r) >= 2
    decreases |acts|
  {
    acts == [] || (Enabled(r, acts[0]) && Feasible(Next(r, acts[0]), acts[1..]))
  }

  ghost function After(r: Ring, acts: seq<Act>): (s: Ring)
    requires Cap(r) >= 2 && Feasible(r, acts)
    decreases |acts|
  {
    if acts == [] then r else After(Next(r, acts[0]), acts[1..])
  }

  lemma {:induction false} RunKeeps(r: Ring, acts: seq<Act>)
    requires Inv(r) && Feasible(r, acts)
    ensures Inv(After(r, acts))
    decreases |acts|
  {
    if acts != [] {
      hide Inv, Next, Enabled;
      Bounds(r);
      StepKeeps(r, acts[0]);
      RunKeeps(Next(r, acts[0]), acts[1..]);
    }
  }

  /** In every run of any number of producers and consumers: the consumer of ticket `k` gets exactly the item of the
      producer of ticket `k`; a ticket is being filled, waits in the ring, is being taken, or was returned, and never
      two of these; and no more items are out than the ring holds. */
  lemma EveryTicketOnce(r: Ring, acts: seq<Act>)
    requires Fresh(r) && Feasible(r, acts)
    ensures var s := After(r, acts);
            && s.dequeue <= s.queue <= s.dequeue + Cap(r) && |s.put| == s.queue && Cap(s) == Cap(r)
            && (forall k :: k in s.got ==> k < s.dequeue && s.got[k] == Some(s.put[k]))
            && (forall k :: 0 <= k < s.dequeue ==> (k in s.got) != (k in s.takers))
            && (forall k :: s.dequeue <= k < s.queue ==>
                  (k in s.makers) != (NodeAt(s, k) == Node(k + 1, Some(s.put[k]))))
  {
    FreshIsOk(r);
    RunKeeps(r, acts);
    CapStays(r, acts);
    hide After, Feasible;
    var s := After(r, acts);
    forall k | s.dequeue <= k < s.queue
      ensures (k in s.makers) != (NodeAt(s, k) == Node(k + 1, Some(s.put[k])))
    {
      TicketInRing(s, k);
    }
  }

  lemma TicketInRing(r: Ring, k: nat)
    requires Inv(r) && r.dequeue <= k < r.queue
    ensures (k in r.makers) != (NodeAt(r, k) == Node(k + 1, Some(r.put[k])))
  {
    WhichOne(r, k);
    if k in r.makers {
      assert ProducerOk(r, r.makers[k], r.threads[r.makers[k]]);
    }
  }

  lemma {:induction false} CapStays(r: Ring, acts: seq<Act>)
    requires Cap(r) >= 2 && Feasible(r, acts)
    ensures Cap(After(r, acts)) == Cap(r)
    decreases |acts|
  {
    if acts != [] {
      CapStays(Next(r, acts[0]), acts[1..]);
    }
  }
}
