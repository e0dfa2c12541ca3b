/** One-to-many event feed: one value goes to every subscribed channel while others subscribe and leave. Each step is
    what one thread does without being seen in the middle of it. */
module Feed {
  import opened Options

  /** The channel of removal requests, and the channels of subscribers. */
  datatype Chan = RemoveSub | Sub(id: nat)

  /** A send under way. `cases[1..n]` still have to be served; `next` is where the scan without blocking stands. The
      multisets tell the story so far: everyone there at the start, those served, those who left before being served,
      and those who left afterwards. */
  datatype Progress = Progress(n: nat, next: nat, nsent: nat, start: multiset<Chan>, served: multiset<Chan>,
                               dropped: multiset<Chan>, left: multiset<Chan>)

  /** `live` are the subscriptions not yet cancelled, `pending` the cancellations that wait for the feed. */
  datatype State = State(live: multiset<Chan>, pending: multiset<Chan>, inbox: seq<Chan>, cases: seq<Chan>,
                         progress: Option<Progress>)

  datatype Event =
    | Subscribe(ch: Chan)
    | Cancel(ch: Chan)
    | Begin
    | Try(ok: bool)
    | Chosen(k: nat)
    | Interrupt(ch: Chan)
    | Idle(ch: Chan)
    | End

  // ---- lists of cases -----------------------------------------------------------------------------------------------

  /** The first place of a channel, or -1. */
  function Find(cs: seq<Chan>, ch: Chan): (i: int)
    ensures -1 <= i < |cs| && (i >= 0 ==> cs[i] == ch) && (i == -1 <==> ch !in cs)
    ensures forall j :: 0 <= j < i ==> cs[j] != ch
  {
    if cs == [] then -1
    else
      var i := Find(cs[..|cs| - 1], ch);
      assert cs == cs[..|cs| - 1] + [cs[|cs| - 1]];
      if i >= 0 then i else if cs[|cs| - 1] == ch then |cs| - 1 else -1
  }

  function Delete(cs: seq<Chan>, i: nat): (r: seq<Chan>)
    requires i < |cs|
    ensures |r| == |cs| - 1
  {
    cs[..i] + cs[i + 1..]
  }

  function Swap(cs: seq<Chan>, i: nat, j: nat): (r: seq<Chan>)
    requires i < |cs| && j < |cs|
    ensures |r| == |cs|
  {
    cs[i := cs[j]][j := cs[i]]
  }

  // ---- steps --------------------------------------------------------------------------------------------------------

  /** The value goes to case `k`, which changes places with the last of those still to be served. */
  function Serve(s: State, k: nat, next: nat): (r: Option<State>)
    requires s.progress.Some?
  {
    var p := s.progress.value;
    if !(k < p.n <= |s.cases|) then None
    else
      Some(s.(cases := Swap(s.cases, k, p.n - 1),
              progress := Some(p.(n := p.n - 1, next := next, nsent := p.nsent + 1,
                                  served := p.served + multiset{s.cases[k]}))))
  }

  /** The channel is taken out; a send under way takes notice. */
  function Remove(s: State, ch: Chan): (r: Option<State>) {
    var i := Find(s.cases, ch);
    if i < 0 then None
    else
      Some(s.(pending := s.pending - multiset{ch}, cases := Delete(s.cases, i),
              progress := if s.progress.None? then None else Some(Without(s.progress.value, ch, i))))
  }

  function Without(p: Progress, ch: Chan, i: nat): (q: Progress) {
    if i < p.n then p.(n := p.n - 1, next := 1, dropped := p.dropped + multiset{ch})
    else p.(next := 1, left := p.left + multiset{ch})
  }

  /** The scan is over and someone is still waiting. */
  predicate Selecting(s: State) {
    s.progress.Some? && s.progress.value.next >= s.progress.value.n > 1
  }

  predicate Enabled(s: State, e: Event) {
    match e
    case Subscribe(ch) => ch.Sub?
    case Cancel(ch) => ch in s.live
    case Begin => s.progress.None?
    case Try(_) => s.progress.Some? && s.progress.value.next < s.progress.value.n
    case Chosen(k) => Selecting(s) && 1 <= k < s.progress.value.n
    case Interrupt(ch) => Selecting(s) && ch in s.pending
    case Idle(ch) => s.progress.None? && ch in s.pending
    case End => s.progress.Some? && s.progress.value.n == 1
  }

  /** The state after a step; none where an index would be out of range. */
  function Next(s: State, e: Event): (t: Option<State>)
    requires Enabled(s, e)
  {
    match e
    case Subscribe(ch) => Some(s.(inbox := s.inbox + [ch], live := s.live + multiset{ch}))
    case Cancel(ch) =>
      var l := s.(live := s.live - multiset{ch});
      if ch in s.inbox then Some(l.(inbox := Delete(s.inbox, Find(s.inbox, ch))))
      else Some(l.(pending := s.pending + multiset{ch}))
    case Begin =>
      var all := s.cases + s.inbox;
      if all == [] then None
      else
        Some(s.(cases := all, inbox := [],
                progress := Some(Progress(|all|, 1, 0, multiset(all[1..]), multiset{}, multiset{}, multiset{}))))
    case Try(ok) =>
      var p := s.progress.value;
      if ok then Serve(s, p.next, p.next) else Some(s.(progress := Some(p.(next := p.next + 1))))
    case Chosen(k) => Serve(s, k, 1)
    case Interrupt(ch) => Remove(s, ch)
    case Idle(ch) => Remove(s, ch)
    case End => Some(s.(progress := None))
  }

  ghost predicate Inv(s: State) {
    && Lists(s)
    && Balanced(s.live, s.pending, multiset(s.inbox), multiset(s.cases[1..]))
    && (s.progress.Some? ==>
          var p := s.progress.value;
          Told(p, multiset(s.cases[1..p.n]), multiset(s.cases[p.n..])))
  }

  ghost predicate Lists(s: State) {
    && |s.cases| >= 1 && s.cases[0] == RemoveSub && RemoveSub !in s.cases[1..] && RemoveSub !in s.inbox
    && (s.progress.Some? ==> 1 <= s.progress.value.next <= s.progress.value.n <= |s.cases|)
  }

  /** Every subscription is in one of the lists, and removal requests are for the second. */
  ghost predicate Balanced(live: multiset<Chan>, pending: multiset<Chan>, inbox: multiset<Chan>, cases: multiset<Chan>) {
    live + pending == inbox + cases && pending <= cases
  }

  /** Everyone there at the start was served, has left, or is among the `waiting`; the `rest` of the list are those
      served who have not left. */
  ghost predicate Told(p: Progress, waiting: multiset<Chan>, rest: multiset<Chan>) {
    && p.start == p.served + p.dropped + waiting
    && p.served == p.left + rest
    && p.nsent == |p.served|
  }

  /** A removal request always finds its channel among the subscribers. */
  lemma RequestFinds(s: State, ch: Chan)
    requires Inv(s) && ch in s.pending
    ensures Find(s.cases, ch) >= 1
  {
    assert ch in multiset(s.cases[1..]);
    assert ch in s.cases[1..];
    assert ch != RemoveSub;
  }

  // ---- what lists keep ----------------------------------------------------------------------------------------------

  lemma DeleteTakesOne(cs: seq<Chan>, i: nat)
    requires i < |cs|
    ensures multiset(cs) == multiset(Delete(cs, i)) + multiset{cs[i]}
  {
    assert cs == cs[..i] + [cs[i]] + cs[i + 1..];
  }

  lemma DeleteSub(cs: seq<Chan>, i: nat)
    requires 1 <= i < |cs|
    ensures Delete(cs, i)[1..] == Delete(cs[1..], i - 1) && Delete(cs, i)[0] == cs[0]
    ensures multiset(cs[1..]) == multiset(Delete(cs, i)[1..]) + multiset{cs[i]}
  {
    DeleteTakesOne(cs[1..], i - 1);
  }

  lemma DeletePrefix(cs: seq<Chan>, n: nat, i: nat)
    requires 1 <= i < n <= |cs|
    ensures multiset(cs[1..n]) == multiset(Delete(cs, i)[1..n - 1]) + multiset{cs[i]}
    ensures Delete(cs, i)[n - 1..] == cs[n..]
  {
    DeleteTakesOne(cs[1..n], i - 1);
    assert Delete(cs, i)[1..n - 1] == Delete(cs[1..n], i - 1);
  }

  lemma DeleteSuffix(cs: seq<Chan>, n: nat, i: nat)
    requires 1 <= n <= i < |cs|
    ensures multiset(cs[n..]) == multiset(Delete(cs, i)[n..]) + multiset{cs[i]}
    ensures Delete(cs, i)[1..n] == cs[1..n]
  {
    DeleteTakesOne(cs[n..], i - n);
    assert Delete(cs, i)[n..] == Delete(cs[n..], i - n);
  }

  lemma SwapSuffix(cs: seq<Chan>, n: nat, k: nat)
    requires 1 <= k < n <= |cs|
    ensures Swap(cs, k, n - 1)[n - 1..] == [cs[k]] + cs[n..]
  {
  }

  lemma SwapPrefix(cs: seq<Chan>, n: nat, k: nat)
    requires 1 <= k < n <= |cs|
    ensures multiset(cs[1..n]) == multiset(Swap(cs, k, n - 1)[1..n - 1]) + multiset{cs[k]}
  {
    var front, last := cs[1..n - 1], cs[n - 1];
    var kept := Swap(cs, k, n - 1)[1..n - 1];
    assert cs[1..n] == front + [last];
    if k == n - 1 {
      assert kept == front;
    } else {
      assert kept == front[k - 1 := last];
      Overwrite(front, k - 1, last);
    }
  }

  /** Overwriting an entry loses just that entry. */
  lemma Overwrite(front: seq<Chan>, k: nat, last: Chan)
    requires k < |front|
    ensures multiset(front + [last]) == multiset(front[k := last]) + multiset{front[k]}
  {
    assert front[k := last] == front[..k] + [last] + front[k + 1..];
    assert front == front[..k] + [front[k]] + front[k + 1..];
  }

  lemma SwapAll(cs: seq<Chan>, n: nat, k: nat)
    requires 1 <= k < n <= |cs|
    ensures multiset(Swap(cs, k, n - 1)[1..]) == multiset(cs[1..]) && Swap(cs, k, n - 1)[0] == cs[0]
  {
    SwapPrefix(cs, n, k);
    SwapSuffix(cs, n, k);
    var r := Swap(cs, k, n - 1);
    assert cs[1..] == cs[1..n] + cs[n..];
    assert r[1..] == r[1..n - 1] + r[n - 1..];
  }

  lemma InMultiset(cs: seq<Chan>, ch: Chan)
    ensures ch in cs <==> ch in multiset(cs)
  {
  }

  // ---- what the multisets keep --------------------------------------------------------------------------------------

  lemma OneLess(inbox: multiset<Chan>, after: multiset<Chan>, ch: Chan, s: State, cases: multiset<Chan>)
    requires Balanced(s.live, s.pending, inbox, cases) && ch in s.live && inbox == after + multiset{ch}
    ensures Balanced(s.live - multiset{ch}, s.pending, after, cases)
  {
    forall c
      ensures (s.live - multiset{ch} + s.pending)[c] == (after + cases)[c]
    {
      assert (s.live + s.pending)[c] == (inbox + cases)[c];
    }
  }

  lemma OneMoreRequest(inbox: multiset<Chan>, cases: multiset<Chan>, ch: Chan, s: State)
    requires Balanced(s.live, s.pending, inbox, cases) && ch in s.live && ch !in inbox
    ensures Balanced(s.live - multiset{ch}, s.pending + multiset{ch}, inbox, cases)
  {
    assert s.live == (s.live - multiset{ch}) + multiset{ch};
    assert (s.live + s.pending)[ch] == (inbox + cases)[ch];
  }

  lemma OneRequestDone(inbox: multiset<Chan>, cases: multiset<Chan>, after: multiset<Chan>, ch: Chan, s: State)
    requires Balanced(s.live, s.pending, inbox, cases) && ch in s.pending && cases == after + multiset{ch}
    ensures Balanced(s.live, s.pending - multiset{ch}, inbox, after)
  {
    forall c
      ensures (s.live + (s.pending - multiset{ch}))[c] == (inbox + after)[c]
    {
      assert (s.live + s.pending)[c] == (inbox + cases)[c];
    }
  }

  lemma OneServed(p: Progress, waiting: multiset<Chan>, rest: multiset<Chan>, after: multiset<Chan>, x: Chan, q: Progress)
    requires Told(p, waiting, rest) && waiting == after + multiset{x}
    requires q.start == p.start && q.served == p.served + multiset{x} && q.dropped == p.dropped && q.left == p.left
    requires q.nsent == p.nsent + 1
    ensures Told(q, after, multiset{x} + rest)
  {
  }

  lemma OneDropped(p: Progress, waiting: multiset<Chan>, rest: multiset<Chan>, after: multiset<Chan>, x: Chan, q: Progress)
    requires Told(p, waiting, rest) && waiting == after + multiset{x}
    requires q.start == p.start && q.served == p.served && q.dropped == p.dropped + multiset{x} && q.left == p.left
    requires q.nsent == p.nsent
    ensures Told(q, after, rest)
  {
  }

  lemma OneLeft(p: Progress, waiting: multiset<Chan>, rest: multiset<Chan>, after: multiset<Chan>, x: Chan, q: Progress)
    requires Told(p, waiting, rest) && rest == after + multiset{x}
    requires q.start == p.start && q.served == p.served && q.dropped == p.dropped && q.left == p.left + multiset{x}
    requires q.nsent == p.nsent
    ensures Told(q, waiting, after)
  {
  }

  // ---- every step ---------------------------------------------------------------------------------------------------

  /** The step is possible and keeps the invariant. */
  ghost predicate Fine(r: Option<State>) { r.Some? && Inv(r.value) }

  lemma ServeKeeps(s: State, k: nat, next: nat)
    requires Inv(s) && s.progress.Some? && 1 <= k < s.progress.value.n && 1 <= next <= s.progress.value.n - 1
    ensures Fine(Serve(s, k, next))
  {
    hide Swap, Told, Balanced;
    var p, t := s.progress.value, Serve(s, k, next).value;
    SwapPrefix(s.cases, p.n, k);
    SwapSuffix(s.cases, p.n, k);
    SwapAll(s.cases, p.n, k);
    InMultiset(s.cases[1..], RemoveSub);
    InMultiset(t.cases[1..], RemoveSub);
    OneServed(p, multiset(s.cases[1..p.n]), multiset(s.cases[p.n..]), multiset(t.cases[1..p.n - 1]), s.cases[k],
              t.progress.value);
  }

  lemma CancelKeeps(s: State, ch: Chan)
    requires Inv(s) && ch in s.live
    ensures Fine(Next(s, Cancel(ch)))
  {
    hide Told, Balanced, Delete;
    var inbox, cases := multiset(s.inbox), multiset(s.cases[1..]);
    InMultiset(s.inbox, ch);
    if ch in s.inbox {
      var i := Find(s.inbox, ch);
      DeleteTakesOne(s.inbox, i);
      InMultiset(s.inbox, RemoveSub);
      InMultiset(Delete(s.inbox, i), RemoveSub);
      OneLess(inbox, multiset(Delete(s.inbox, i)), ch, s, cases);
    } else {
      OneMoreRequest(inbox, cases, ch, s);
    }
  }

  lemma BeginKeeps(s: State)
    requires Inv(s) && s.progress.None?
    ensures Fine(Next(s, Begin))
  {
    var all := s.cases + s.inbox;
    assert all[1..] == s.cases[1..] + s.inbox;
    assert all[1..|all|] == all[1..] && all[|all|..] == [];
  }

  lemma ListKeeps(s: State, ch: Chan, i: nat)
    requires Inv(s) && ch in s.pending && 1 <= i < |s.cases| && s.cases[i] == ch
    ensures var cs := Delete(s.cases, i);
            && |cs| >= 1 && cs[0] == RemoveSub && RemoveSub !in cs[1..]
            && Balanced(s.live, s.pending - multiset{ch}, multiset(s.inbox), multiset(cs[1..]))
  {
    hide Told, Balanced, Delete;
    DeleteSub(s.cases, i);
    var cs := Delete(s.cases, i);
    InMultiset(s.cases[1..], RemoveSub);
    InMultiset(cs[1..], RemoveSub);
    OneRequestDone(multiset(s.inbox), multiset(s.cases[1..]), multiset(cs[1..]), ch, s);
  }

  lemma StoryKeeps(cases: seq<Chan>, p: Progress, ch: Chan, i: nat)
    requires 1 <= p.n <= |cases| && 1 <= i < |cases| && cases[i] == ch
    requires Told(p, multiset(cases[1..p.n]), multiset(cases[p.n..]))
    ensures var q, cs := Without(p, ch, i), Delete(cases, i);
            1 <= q.n <= |cs| && Told(q, multiset(cs[1..q.n]), multiset(cs[q.n..]))
  {
    hide Told, Delete;
    var q, cs := Without(p, ch, i), Delete(cases, i);
    var waiting, rest := multiset(cases[1..p.n]), multiset(cases[p.n..]);
    if i < p.n {
      DeletePrefix(cases, p.n, i);
      OneDropped(p, waiting, rest, multiset(cs[1..p.n - 1]), ch, q);
    } else {
      DeleteSuffix(cases, p.n, i);
      OneLeft(p, waiting, rest, multiset(cs[p.n..]), ch, q);
    }
  }

  lemma RemoveKeeps(s: State, ch: Chan)
    requires Inv(s) && ch in s.pending
    ensures Fine(Remove(s, ch))
  {
    hide Told, Balanced, Delete;
    RequestFinds(s, ch);
    var i := Find(s.cases, ch);
    ListKeeps(s, ch, i);
    if s.progress.Some? {
      StoryKeeps(s.cases, s.progress.value, ch, i);
    }
  }

  lemma SubscribeKeeps(s: State, ch: Chan)
    requires Inv(s) && ch.Sub?
    ensures Fine(Next(s, Subscribe(ch)))
  {
    hide Told;
    var inbox, cases := multiset(s.inbox), multiset(s.cases[1..]);
    assert multiset(s.inbox + [ch]) == inbox + multiset{ch};
    assert s.live + multiset{ch} + s.pending == inbox + multiset{ch} + cases by {
      forall c
        ensures (s.live + multiset{ch} + s.pending)[c] == (inbox + multiset{ch} + cases)[c]
      {
        assert (s.live + s.pending)[c] == (inbox + cases)[c];
      }
    }
  }

  lemma ScanKeeps(s: State)
    requires Inv(s) && (Enabled(s, Try(false)) || Enabled(s, End))
    ensures Enabled(s, Try(false)) ==> Fine(Next(s, Try(false)))
    ensures Enabled(s, End) ==> Fine(Next(s, End))
  {
  }

  /** No step goes wrong. */
  lemma StepKeeps(s: State, e: Event)
    requires Inv(s) && Enabled(s, e)
    ensures Fine(Next(s, e))
  {
    hide Inv, Serve, Remove;
    match e
    case Subscribe(ch) => SubscribeKeeps(s, ch);
    case Cancel(ch) => CancelKeeps(s, ch);
    case Begin => BeginKeeps(s);
    case Try(ok) =>
      if ok {
        Bounds(s);
        ServeKeeps(s, s.progress.value.next, s.progress.value.next);
      } else {
        ScanKeeps(s);
      }
    case Chosen(k) => ServeKeeps(s, k, 1);
    case Interrupt(ch) => RemoveKeeps(s, ch);
    case Idle(ch) => RemoveKeeps(s, ch);
    case End => ScanKeeps(s);
  }

  lemma Bounds(s: State)
    requires Inv(s) && s.progress.Some?
    ensures 1 <= s.progress.value.next <= s.progress.value.n <= |s.cases|
  {
  }

  // ---- every run ----------------------------------------------------------------------------------------------------

  const START := State(multiset{}, multiset{}, [], [RemoveSub], None)

  /** The state after a run; none if a step is not possible. */
  function Reach(s: State, es: seq<Event>): (r: Option<State>) {
    if es == [] then Some(s)
    else
      var t := Reach(s, es[..|es| - 1]);
      if t.None? || !Enabled(t.value, es[|es| - 1]) then None else Next(t.value, es[|es| - 1])
  }

  lemma {:induction false} RunKeeps(s: State, es: seq<Event>)
    requires Inv(s) && Reach(s, es).Some?
    ensures Inv(Reach(s, es).value)
    decreases |es|
  {
    if es != [] {
      hide Inv, Next;
      RunKeeps(s, es[..|es| - 1]);
      StepKeeps(Reach(s, es[..|es| - 1]).value, es[|es| - 1]);
    }
  }

  /** Whatever subscribers and senders do, no index is ever out of range. */
  lemma NeverOutOfRange(es: seq<Event>, e: Event)
    requires Reach(START, es).Some? && Enabled(Reach(START, es).value, e)
    ensures Next(Reach(START, es).value, e).Some?
  {
    assert Inv(START);
    RunKeeps(START, es);
    StepKeeps(Reach(START, es).value, e);
  }

  /** The channels taken out during a send. */
  function Removed(es: seq<Event>): (r: multiset<Chan>) {
    if es == [] then multiset{}
    else
      var e := es[|es| - 1];
      Removed(es[..|es| - 1]) + if e.Interrupt? then multiset{e.ch} else multiset{}
  }

  /** Between its beginning and its end a send serves everyone who was there, once, except those who leave first. */
  lemma {:induction false} SendServes(s: State, during: seq<Event>)
    requires Inv(s) && s.progress.None? && End !in during && Reach(s, [Begin] + during).Some?
    ensures var t := Reach(s, [Begin] + during).value;
            && Inv(t) && t.progress.Some?
            && t.progress.value.start == multiset(s.cases[1..]) + multiset(s.inbox)
            && t.progress.value.dropped + t.progress.value.left == Removed(during)
    decreases |during|
  {
    hide Inv;
    RunKeeps(s, [Begin] + during);
    if during == [] {
      assert [Begin] + during == [Begin];
      JustBegun(s);
    } else {
      var front, e := during[..|during| - 1], during[|during| - 1];
      assert ([Begin] + during)[..|during|] == [Begin] + front;
      assert e != End;
      SendServes(s, front);
      StoryGoesOn(Reach(s, [Begin] + front).value, e);
    }
  }

  lemma JustBegun(s: State)
    requires Inv(s) && s.progress.None?
    ensures Reach(s, [Begin]) == Next(s, Begin)
    ensures var t := Next(s, Begin);
            && t.Some? && t.value.progress.Some?
            && t.value.progress.value.start == multiset(s.cases[1..]) + multiset(s.inbox)
            && t.value.progress.value.dropped + t.value.progress.value.left == multiset{}
  {
    assert [Begin][..0] == [];
    assert Reach(s, []) == Some(s);
    assert (s.cases + s.inbox)[1..] == s.cases[1..] + s.inbox;
  }

  lemma StoryGoesOn(s: State, e: Event)
    requires s.progress.Some? && Enabled(s, e) && e != End && Next(s, e).Some?
    ensures var t := Next(s, e).value;
            && t.progress.Some? && t.progress.value.start == s.progress.value.start
            && t.progress.value.dropped + t.progress.value.left
               == s.progress.value.dropped + s.progress.value.left
                  + if e.Interrupt? then multiset{e.ch} else multiset{}
  {
    hide Find, Delete, Swap;
  }

  /** When a send ends, its count is the number of those served, and served and dropped together are everyone who was
      there. */
  lemma SendAccounts(s: State, during: seq<Event>)
    requires Inv(s) && s.progress.None? && End !in during && Reach(s, [Begin] + during).Some?
    requires Enabled(Reach(s, [Begin] + during).value, End)
    ensures var p := Reach(s, [Begin] + during).value.progress.value;
            && p.served + p.dropped == multiset(s.cases[1..]) + multiset(s.inbox)
            && p.dropped <= Removed(during)
            && p.nsent == |p.served|
  {
    SendServes(s, during);
    var t := Reach(s, [Begin] + during).value;
    hide Reach, Removed;
    assert t.cases[1..1] == [];
  }

  // ---- a send waits for nobody it has not tried ---------------------------------------------------------------------

  /** The channel the scan has come to. */
  function Tried(s: State): (r: multiset<Chan>) {
    if s.progress.Some? && s.progress.value.next < |s.cases| then multiset{s.cases[s.progress.value.next]} else multiset{}
  }

  /** The channels a send tried in vain since it began or last waited. */
  function InVain(s: State, es: seq<Event>): (r: multiset<Chan>)
    requires Reach(s, es).Some?
  {
    if es == [] then multiset{}
    else
      var front, e := es[..|es| - 1], es[|es| - 1];
      if e == Try(false) then InVain(s, front) + Tried(Reach(s, front).value)
      else if e.Begin? || e.Chosen? || e.Interrupt? then multiset{}
      else InVain(s, front)
  }

  /** What the scan has passed over. */
  ghost function Passed(s: State): (r: multiset<Chan>)
    requires Lists(s) && s.progress.Some?
  {
    multiset(s.cases[1..s.progress.value.next])
  }

  lemma PassedMiss(s: State)
    requires Inv(s) && Enabled(s, Try(false))
    ensures Next(s, Try(false)).Some? && Inv(Next(s, Try(false)).value)
    ensures Passed(Next(s, Try(false)).value) == Passed(s) + Tried(s)
  {
    StepKeeps(s, Try(false));
    hide Told, Balanced;
    var i := s.progress.value.next;
    assert s.cases[1..i + 1] == s.cases[1..i] + [s.cases[i]];
  }

  /** A channel served in passing makes room for the last of those waiting, which the scan has not passed. */
  lemma PassedHit(s: State)
    requires Inv(s) && Enabled(s, Try(true))
    ensures Next(s, Try(true)).Some? && Inv(Next(s, Try(true)).value)
    ensures Next(s, Try(true)).value.progress.Some? && Passed(Next(s, Try(true)).value) == Passed(s)
  {
    StepKeeps(s, Try(true));
    hide Told, Balanced;
    var i := s.progress.value.next;
    assert Swap(s.cases, i, s.progress.value.n - 1)[1..i] == s.cases[1..i];
  }

  lemma NonePassed(s: State)
    requires Inv(s) && s.progress.Some? && s.progress.value.next == 1
    ensures Passed(s) == multiset{}
  {
    assert s.cases[1..1] == [];
  }

  lemma PassedAnew(s: State, e: Event)
    requires Inv(s) && Enabled(s, e) && (e.Chosen? || e.Interrupt?)
    ensures Next(s, e).Some? && Inv(Next(s, e).value)
    ensures Next(s, e).value.progress.Some? && Passed(Next(s, e).value) == multiset{}
  {
    hide Inv, Find, Delete, Swap, Passed;
    StepKeeps(s, e);
    NonePassed(Next(s, e).value);
  }

  lemma PassedNext(s: State, e: Event)
    requires Inv(s) && s.progress.Some? && Enabled(s, e) && e != End && Next(s, e).Some? && Inv(Next(s, e).value)
    ensures var t := Next(s, e).value;
            && t.progress.Some?
            && Passed(t) == if e == Try(false) then Passed(s) + Tried(s)
                            else if e.Chosen? || e.Interrupt? then multiset{}
                            else Passed(s)
  {
    hide Inv, Serve, Remove, Find, Delete, Passed, Tried;
    match e
    case Try(ok) =>
      if ok {
        PassedHit(s);
      } else {
        PassedMiss(s);
      }
    case Chosen(_) => PassedAnew(s, e);
    case Interrupt(_) => PassedAnew(s, e);
    case Subscribe(_) => SamePassed(s, Next(s, e).value);
    case Cancel(_) => SamePassed(s, Next(s, e).value);
    case _ =>
  }

  lemma SamePassed(s: State, t: State)
    requires Inv(s) && Inv(t) && s.progress.Some? && t.progress == s.progress && t.cases == s.cases
    ensures Passed(t) == Passed(s)
  {
  }

  lemma {:induction false} VainIsPassed(s: State, during: seq<Event>)
    requires Inv(s) && s.progress.None? && End !in during && Reach(s, [Begin] + during).Some?
    ensures var t := Reach(s, [Begin] + during).value;
            Inv(t) && t.progress.Some? && InVain(s, [Begin] + during) == Passed(t)
    decreases |during|
  {
    hide Inv, Next, Passed, Tried;
    RunKeeps(s, [Begin] + during);
    if during == [] {
      assert [Begin] + during == [Begin];
      JustBegun(s);
      StartsAtOne(s);
      NonePassed(Next(s, Begin).value);
    } else {
      var front, e := during[..|during| - 1], during[|during| - 1];
      assert ([Begin] + during)[..|during|] == [Begin] + front;
      assert e != End;
      VainIsPassed(s, front);
      PassedNext(Reach(s, [Begin] + front).value, e);
    }
  }

  lemma StartsAtOne(s: State)
    requires s.progress.None? && Next(s, Begin).Some?
    ensures Next(s, Begin).value.progress.Some? && Next(s, Begin).value.progress.value.next == 1
  {
  }

  /** When a send waits, it has tried in vain, since it began or last waited, exactly those who are neither served nor
      gone: each of them once. */
  lemma WaitsForTheTried(s: State, during: seq<Event>)
    requires Inv(s) && s.progress.None? && End !in during && Reach(s, [Begin] + during).Some?
    requires Selecting(Reach(s, [Begin] + during).value)
    ensures var p := Reach(s, [Begin] + during).value.progress.value;
            p.start == p.served + p.dropped + InVain(s, [Begin] + during)
  {
    VainIsPassed(s, during);
    hide Reach, InVain;
  }

  // ---- sends come to an end -----------------------------------------------------------------------------------------

  predicate Own(e: Event) { e.Try? || e.Chosen? || e.Interrupt? }

  function Count(es: seq<Event>): (r: nat) {
    if es == [] then 0 else Count(es[..|es| - 1]) + if Own(es[|es| - 1]) then 1 else 0
  }

  /** One scan for every length of the lists. */
  function Scans(t: nat): (r: nat) { if t == 0 then 0 else Scans(t - 1) + t }

  /** A bound on the steps a send has left. */
  ghost function Weight(s: State): (w: int)
    requires s.progress.Some?
  {
    Scans(s.progress.value.n + |s.cases|) + (s.progress.value.n - s.progress.value.next)
  }

  lemma {:induction false} FewerScans(t: nat, t': nat)
    requires t' < t
    ensures Scans(t') + t' < Scans(t)
    decreases t
  {
    if t' < t - 1 {
      FewerScans(t - 1, t');
    }
  }

  lemma StepUsesUp(s: State, e: Event)
    requires Inv(s) && s.progress.Some? && Enabled(s, e) && e != End && Next(s, e).Some?
    ensures var t := Next(s, e).value;
            t.progress.Some? && Weight(t) >= 0 && Weight(t) + (if Own(e) then 1 else 0) <= Weight(s)
  {
    hide Inv, Next, Scans;
    StepKeeps(s, e);
    StoryGoesOn(s, e);
    SizesAfter(s, e);
    var t := Next(s, e).value;
    var p, q := s.progress.value, t.progress.value;
    Bounds(s);
    Bounds(t);
    if Own(e) && e != Try(false) {
      FewerScans(p.n + |s.cases|, q.n + |t.cases|);
    }
  }

  lemma SizesAfter(s: State, e: Event)
    requires s.progress.Some? && Enabled(s, e) && e != End && Next(s, e).Some?
    ensures var t := Next(s, e).value;
            && t.progress.Some?
            && (if Own(e) && e != Try(false) then t.progress.value.n + |t.cases| < s.progress.value.n + |s.cases|
                else t.progress.value.n + |t.cases| == s.progress.value.n + |s.cases|)
            && (!Own(e) || e == Try(false) ==>
                  t.progress.value.n - t.progress.value.next
                  == s.progress.value.n - s.progress.value.next - if Own(e) then 1 else 0)
  {
    hide Find, Delete, Swap;
  }

  /** However long others go on subscribing and leaving, a send takes a limited number of steps. */
  lemma {:induction false} SendIsBounded(s: State, es: seq<Event>)
    requires Inv(s) && s.progress.Some? && End !in es && Reach(s, es).Some?
    ensures Reach(s, es).value.progress.Some? && Count(es) + Weight(Reach(s, es).value) <= Weight(s)
    ensures Weight(Reach(s, es).value) >= 0
    decreases |es|
  {
    hide Inv, Next, Weight;
    if es != [] {
      var front, e := es[..|es| - 1], es[|es| - 1];
      assert e != End;
      RunKeeps(s, front);
      SendIsBounded(s, front);
      StepUsesUp(Reach(s, front).value, e);
    } else {
      WeightIsPositive(s);
    }
  }

  lemma WeightIsPositive(s: State)
    requires Inv(s) && s.progress.Some?
    ensures Weight(s) >= 0
  {
  }
}
