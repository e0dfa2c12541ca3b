/** Whole runs: submissions, actions and reloads in any order, on any number of chains. */
module Runs {
  import opened Options
  import opened Sums
  import opened Ledger
  import opened Transition
  import opened Processor
  import opened Conservation
  import opened Lifecycle
  import opened DealCalls
  import opened MultiChain
  import opened Guards

  ghost predicate Feasible(env: Env, s: Sys, steps: seq<Event>)
    requires EnvOk(env)
    decreases |steps|
  {
    steps == [] || (Enabled(env, s, steps[0]) && Feasible(env, Do(env, s, steps[0]), steps[1..]))
  }

  ghost function After(env: Env, s: Sys, steps: seq<Event>): (t: Sys)
    requires EnvOk(env) && Feasible(env, s, steps)
    decreases |steps|
  {
    if steps == [] then s else After(env, Do(env, s, steps[0]), steps[1..])
  }

  /** Some balances, and nothing else yet. */
  ghost predicate Initial(s: Sys) {
    && s.txs == map[] && s.pending == map[] && s.executed == [] && s.steps == map[] && s.fan == map[]
    && (forall c :: c in s.chains ==> ChainOk(c, s.chains[c], s.txs))
  }

  lemma StepKeepsInv(env: Env, s: Sys, st: Event)
    requires EnvOk(env) && Inv(s) && Enabled(env, s, st)
    ensures Inv(Do(env, s, st))
  {
    hide Inv, CanExec, Exec, Submit, Reloaded;
    match st
    case SubmitStep(tx) => SubmitKeepsInv(s, tx);
    case ExecStep(k, pool, used, header) => ExecKeepsInv(env, s, k, pool, used, header);
    case ReloadStep(c, db) => ReloadKeepsInv(s, c, db);
  }

  lemma {:induction false} RunKeepsInv(env: Env, s: Sys, steps: seq<Event>)
    requires EnvOk(env) && Inv(s) && Feasible(env, s, steps)
    ensures Inv(After(env, s, steps))
    decreases |steps|
  {
    if steps != [] {
      hide Inv, Enabled, Do;
      StepKeepsInv(env, s, steps[0]);
      RunKeepsInv(env, Do(env, s, steps[0]), steps[1..]);
    }
  }

  /** Runs one after the other. */
  lemma {:induction false} RunThen(env: Env, s: Sys, a: seq<Event>, b: seq<Event>)
    requires EnvOk(env) && Feasible(env, s, a) && Feasible(env, After(env, s, a), b)
    ensures Feasible(env, s, a + b) && After(env, s, a + b) == After(env, After(env, s, a), b)
    decreases |a|
  {
    hide Enabled, Do;
    if a == [] {
      assert a + b == b;
    } else {
      assert (a + b)[0] == a[0] && (a + b)[1..] == a[1..] + b;
      RunThen(env, Do(env, s, a[0]), a[1..], b);
    }
  }

  // ---- conservation ------------------------------------------------------------------------------------------

  lemma FlyingPlus(p: Pending, k: Key, e: TxExec)
    requires k !in p
    ensures Flying(p[k := e]) == Flying(p) + InFlight(k, e)
  {
    hide Flying, InFlight;
    var one := map[k := e];
    FlyingOne(k, e, one);
    FlyingSplit(p, one, p[k := e]);
  }

  lemma SubmitConserves(s: Sys, tx: Tx)
    requires Inv(s) && CanSubmit(s, tx)
    ensures Total(Submit(s, tx)) == Total(s)
  {
    hide Owning, Flying;
    var t := Submit(s, tx);
    OwningDependsOnChains(s, t);
    var (c, a) := FirstAction(tx);
    var k := Key(c, tx.id, a);
    assert k !in s.pending by {
      assert k in s.pending ==> GoodKey(s.txs, k, s.pending[k]);
    }
    FlyingPlus(s.pending, k, TxExec(tx, a, None));
  }

  lemma ReloadOwn(db: Db, e: Db, c: Address)
    requires Reloaded(db, e, c)
    ensures OwnBalance(e, c) == OwnBalance(db, c)
  {
    var all := Owned(db.w, c) + Owned(e.w, c);
    SumBalWiden(db.w, Owned(db.w, c), all);
    SumBalWiden(e.w, Owned(e.w, c), all);
    SumBalAgree(db.w, e.w, all);
  }

  lemma ReloadConserves(s: Sys, c: Address, db: Db)
    requires c in s.chains && Reloaded(s.chains[c], db, c)
    ensures Total(s.(chains := s.chains[c := db])) == Total(s)
  {
    ReloadOwn(s.chains[c], db, c);
    hide OwnBalance, Reloaded, Owning;
    OwningAfter(s, c, db);
  }

  /** Only deals can be unsound. */
  ghost predicate SoundStep(env: Env, s: Sys, st: Event)
    requires EnvOk(env) && Enabled(env, s, st)
  {
    match st
    case ExecStep(k, pool, used, header) => Sound(env, s, k, pool, header)
    case _ => true
  }

  /** One step keeps the total value exactly when it is sound. */
  lemma StepConservesIff(env: Env, s: Sys, st: Event)
    requires EnvOk(env) && Inv(s) && Enabled(env, s, st)
    ensures Total(Do(env, s, st)) == Total(s) <==> SoundStep(env, s, st)
  {
    match st
    case SubmitStep(tx) => {
      hide Inv, Submit, Total;
      SubmitConserves(s, tx);
    }
    case ExecStep(k, pool, used, header) => {
      hide Inv, Exec, Total, ProcessTransaction, NoStaleGain, Moved, CallFor, EnvOk;
      if IsDeal(k.action) {
        DealConservesIff(env, s, k, pool, used, header);
      } else {
        OtherActionsConserve(env, s, k, pool, used, header);
      }
    }
    case ReloadStep(c, db) => {
      hide Inv, Reloaded, Total;
      ReloadConserves(s, c, db);
    }
  }

  ghost predicate AllSound(env: Env, s: Sys, steps: seq<Event>)
    requires EnvOk(env) && Feasible(env, s, steps)
    decreases |steps|
  {
    steps == [] || (SoundStep(env, s, steps[0]) && AllSound(env, Do(env, s, steps[0]), steps[1..]))
  }

  /** The total value is `v` in every state of the run. */
  ghost predicate Constant(env: Env, s: Sys, steps: seq<Event>, v: int)
    requires EnvOk(env) && Feasible(env, s, steps)
    decreases |steps|
  {
    Total(s) == v && (steps == [] || Constant(env, Do(env, s, steps[0]), steps[1..], v))
  }

  /** Balances, value in flight and fees add up to the same total in every state of a run, over any interleaving of
      any number of transactions and chains, if and only if every deal of the run is sound. */
  lemma {:induction false} RunConservesIff(env: Env, s: Sys, steps: seq<Event>)
    requires EnvOk(env) && Inv(s) && Feasible(env, s, steps)
    ensures Constant(env, s, steps, Total(s)) <==> AllSound(env, s, steps)
    ensures AllSound(env, s, steps) ==> Total(After(env, s, steps)) == Total(s)
    decreases |steps|
  {
    if steps != [] {
      hide Inv, Enabled, Do, Total, SoundStep;
      var t := Do(env, s, steps[0]);
      StepKeepsInv(env, s, steps[0]);
      StepConservesIff(env, s, steps[0]);
      RunConservesIff(env, t, steps[1..]);
      if Total(t) != Total(s) {
        assert !Constant(env, t, steps[1..], Total(s));
      }
    }
  }

  /** A deal that is safe by what is known before it runs and by the machine's answer: the machine is not called or
      errs; or its output is paid for and every other user is measured afresh, or there is nothing to pay with; or,
      where nobody delivers flows, it pays no user. */
  ghost predicate Safe(env: Env, s: Sys, k: Key, pool: nat, header: Header)
    requires EnvOk(env) && k in s.pending && WellFormed(ChainDb(s, k.chain))
  {
    var tx, db := s.pending[k].tx, ChainDb(s, k.chain);
    var c := CallFor(env, s, k, pool, header);
    || !IsDeal(k.action) || !Succeeded(c)
    || (if Silent(k, tx) then NoUserGains(c.value)
        else !Unpaid(c.value.answer) && (MeasuredFor(db, tx.from) || NoMoney(db, tx)))
  }

  ghost predicate SafeStep(env: Env, s: Sys, st: Event)
    requires EnvOk(env) && Enabled(env, s, st)
  {
    match st
    case ExecStep(k, pool, used, header) => Safe(env, s, k, pool, header)
    case _ => true
  }

  lemma SafeConserves(env: Env, s: Sys, k: Key, pool: nat, used: nat, header: Header)
    requires EnvOk(env) && Inv(s) && CanExec(env, s, k, pool, used, header) && Safe(env, s, k, pool, header)
    ensures Total(Exec(env, s, k, pool, used, header)) == Total(s)
  {
    hide Inv, Exec, Total, ProcessTransaction, CallFor, EnvOk, NoUserGains, MeasuredFor, NoMoney, Unpaid;
    if !IsDeal(k.action) {
      OtherActionsConserve(env, s, k, pool, used, header);
    } else if !Succeeded(CallFor(env, s, k, pool, header)) {
      ErrorsConserve(env, s, k, pool, used, header);
    } else if Silent(k, s.pending[k].tx) {
      SilentConservesIff(env, s, k, pool, used, header);
    } else {
      MeasuredIsSound(env, s, k, pool, used, header);
    }
  }

  ghost predicate AllSafe(env: Env, s: Sys, steps: seq<Event>)
    requires EnvOk(env) && Feasible(env, s, steps)
    decreases |steps|
  {
    steps == [] || (SafeStep(env, s, steps[0]) && AllSafe(env, Do(env, s, steps[0]), steps[1..]))
  }

  /** A run of safe deals keeps the total value in every state. */
  lemma {:induction false} SafeRunConserves(env: Env, s: Sys, steps: seq<Event>)
    requires EnvOk(env) && Inv(s) && Feasible(env, s, steps) && AllSafe(env, s, steps)
    ensures Constant(env, s, steps, Total(s)) && Total(After(env, s, steps)) == Total(s)
    decreases |steps|
  {
    if steps != [] {
      hide Inv, Enabled, Do, Total, SafeStep;
      StepKeepsInv(env, s, steps[0]);
      SafeStepConserves(env, s, steps[0]);
      SafeRunConserves(env, Do(env, s, steps[0]), steps[1..]);
    }
  }

  lemma SafeStepConserves(env: Env, s: Sys, st: Event)
    requires EnvOk(env) && Inv(s) && Enabled(env, s, st) && SafeStep(env, s, st)
    ensures Total(Do(env, s, st)) == Total(s)
  {
    hide Inv, Total, CanExec, Exec, Submit, Reloaded, Safe;
    match st
    case SubmitStep(tx) => SubmitConserves(s, tx);
    case ExecStep(k, pool, used, header) => SafeConserves(env, s, k, pool, used, header);
    case ReloadStep(c, db) => ReloadConserves(s, c, db);
  }

  // ---- each action at most once ------------------------------------------------------------------------------

  /** Nothing ran twice, and whatever ran is marked on its chain. */
  ghost predicate Once(s: Sys) {
    && (forall i, j :: 0 <= i < j < |s.executed| ==> s.executed[i] != s.executed[j])
    && (forall k :: k in s.executed ==> (k.id, k.action) in ChainDb(s, k.chain).marks)
  }

  lemma MarkKeepsOnce(s: Sys, t: Sys, k: Key, mark: TxAction)
    requires Once(s) && t.executed == s.executed + [Key(k.chain, k.id, mark)]
    requires (k.id, mark) !in ChainDb(s, k.chain).marks
    requires forall c :: ChainDb(t, c).marks == ChainDb(s, c).marks + (if c == k.chain then {(k.id, mark)} else {})
    ensures Once(t)
  {
    hide ChainDb;
  }

  lemma StepKeepsOnce(env: Env, s: Sys, st: Event)
    requires EnvOk(env) && Inv(s) && Once(s) && Enabled(env, s, st)
    ensures Once(Do(env, s, st))
  {
    match st
    case SubmitStep(tx) => { }
    case ReloadStep(c, db) => { }
    case ExecStep(k, pool, used, header) => ExecKeepsOnce(env, s, k, pool, used, header);
  }

  lemma ExecKeepsOnce(env: Env, s: Sys, k: Key, pool: nat, used: nat, header: Header)
    requires EnvOk(env) && Inv(s) && Once(s) && CanExec(env, s, k, pool, used, header)
    ensures Once(Exec(env, s, k, pool, used, header))
  {
    assert GoodKey(s.txs, k, s.pending[k]);
    hide ProcessTransaction, GoodKey, Inv, Once, Emitted, Fee, MarkOf;
    MarkedOnce(env, ChainDb(s, k.chain), pool, used, s.pending[k], header);
    MarkKeepsOnce(s, Exec(env, s, k, pool, used, header), k, MarkOf(k.action));
  }

  /** In any run, every (chain, transaction, mark) executes at most once. */
  lemma {:induction false} ExecutedAtMostOnce(env: Env, s: Sys, steps: seq<Event>)
    requires EnvOk(env) && Inv(s) && Once(s) && Feasible(env, s, steps)
    ensures Once(After(env, s, steps))
    decreases |steps|
  {
    if steps != [] {
      hide Inv, Enabled, Do, Once;
      StepKeepsInv(env, s, steps[0]);
      StepKeepsOnce(env, s, steps[0]);
      ExecutedAtMostOnce(env, Do(env, s, steps[0]), steps[1..]);
    }
  }

  /** A credit in flight can always be taken: no state of its chain, no pool and no unit refuses it. */
  lemma CreditsNeverStuck(env: Env, s: Sys, k: Key, pool: nat, used: nat, header: Header)
    requires EnvOk(env) && Inv(s) && k in s.pending && IsCredit(k.action)
    requires header.mc == k.chain && header.number >= 1 && pool < TWO64
    ensures CanExec(env, s, k, pool, used, header)
  {
    assert GoodKey(s.txs, k, s.pending[k]);
    if k.chain in s.chains {
      assert ChainOk(k.chain, s.chains[k.chain], s.txs);
      assert MarksFit(k, s.pending[k].tx, k.chain, s.chains[k.chain].marks);
    }
    assert (k.id, MarkOf(k.action)) !in ChainDb(s, k.chain).marks;
    hide Fee, BaseAbove;
  }

  // ---- the length of a transaction's life ---------------------------------------------------------------------

  /** How many more actions an action in flight can lead to, itself included and coin flows aside. */
  function Weight(k: Key, tx: Tx): (n: nat) {
    match k.action
    case TransferPayment => 2
    case ContractFreeze => if tx.create then 4 else 3
    case ContractDeal => if tx.create && k.chain == SC then 3 else 2
    case _ => 1
  }

  ghost function Weights(p: Pending): (f: Key -> int) {
    (k: Key) => if k in p then Weight(k, p[k].tx) as int else 0
  }

  ghost function OfTx(p: Pending, id: nat): (s: set<Key>) { set k | k in p && k.id == id }

  ghost function Potential(p: Pending, id: nat): (n: int) { Sum(Weights(p), OfTx(p, id)) }

  function StepsOf(s: Sys, id: nat): (n: nat) { if id in s.steps then s.steps[id] else 0 }

  function FanOf(s: Sys, id: nat): (n: nat) { if id in s.fan then s.fan[id] else 0 }

  ghost predicate Bounded(s: Sys) {
    forall id: nat :: StepsOf(s, id) + Potential(s.pending, id) <= 4 + FanOf(s, id)
  }

  /** Replacing one action in flight by others of the same transaction. */
  lemma PotentialAfter(pending: Pending, k: Key, p: Pending, id: nat)
    requires k in pending && p.Keys !! (pending.Keys - {k})
    requires forall j :: j in p ==> j.id == k.id
    ensures Potential((pending - {k}) + p, id)
         == Potential(pending, id) + (if id == k.id then Sum(Weights(p), p.Keys) - Weight(k, pending[k].tx) else 0)
  {
    hide Weight;
    var q := (pending - {k}) + p;
    var rest := OfTx(pending, id) - {k};
    if id == k.id {
      Pick(Weights(pending), OfTx(pending, id), k);
      assert OfTx(q, id) == rest + p.Keys;
      Split(Weights(q), rest, p.Keys);
      Agree(Weights(p), Weights(q), p.Keys);
    } else {
      assert OfTx(q, id) == rest && OfTx(pending, id) == rest;
    }
    Agree(Weights(pending), Weights(q), rest);
  }

  /** Credits weigh one each. */
  lemma {:induction false} CreditsWeigh(f: Key -> int, s: set<Key>)
    requires forall k :: k in s ==> f(k) == 1
    ensures Sum(f, s) == |s|
    decreases |s|
  {
    if s != {} {
      var k :| k in s;
      Pick(f, s, k);
      CreditsWeigh(f, s - {k});
    }
  }

  lemma {:induction false} AsManyKeys(flows: set<Address>, id: nat)
    ensures |set a | a in flows :: Key(a, id, ContractReceipt)| <= |flows|
  {
    var keys := set a | a in flows :: Key(a, id, ContractReceipt);
    if flows != {} {
      var a :| a in flows;
      AsManyKeys(flows - {a}, id);
      var less := set b | b in flows - {a} :: Key(b, id, ContractReceipt);
      assert keys == less + {Key(a, id, ContractReceipt)};
    } else {
      assert keys == {};
    }
  }

  ghost function CreditKeys(k: Key, tx: Tx, r: Receipt): (s: set<Key>) {
    ReceiverKeys(r, k.id) + (if k.action == ContractDeal then {Key(tx.from, k.id, ContractRefund)} else {})
  }

  lemma DealEmitsCredits(env: Env, k: Key, e: TxExec, r: Receipt)
    requires IsDeal(k.action) && !(k.action == ContractDeal && k.chain == SC && e.tx.create && !r.failed)
    ensures Emitted(env, k, e, r).Keys <= if k.action == PowTxContractDeal then {} else CreditKeys(k, e.tx, r)
  {
    var p := Emitted(env, k, e, r);
    hide Emitted;
  }

  lemma CreditCount(flows: set<Address>, id: nat, refund: set<Key>, s: set<Key>)
    requires s <= (set a | a in flows :: Key(a, id, ContractReceipt)) + refund
    ensures |s| <= |flows| + |refund|
  {
    var keys := set a | a in flows :: Key(a, id, ContractReceipt);
    AsManyKeys(flows, id);
    Within(s, keys + refund);
  }

  lemma Within(s: set<Key>, t: set<Key>)
    requires s <= t
    ensures |s| <= |t|
  {
    assert t == s + (t - s);
  }

  /** What a deal emits as credits is at most a refund and its flows. */
  lemma CreditsOfDeal(env: Env, k: Key, e: TxExec, r: Receipt)
    requires IsDeal(k.action) && !(k.action == ContractDeal && k.chain == SC && e.tx.create && !r.failed)
    ensures Sum(Weights(Emitted(env, k, e, r)), Emitted(env, k, e, r).Keys)
         <= FlowsEmitted(k, r) + if k.action == ContractDeal then 1 else 0
  {
    hide NextActions, Weights, Sum, Emitted, CreditKeys;
    var p := Emitted(env, k, e, r);
    DealEmitsCredits(env, k, e, r);
    CreditsOnly(env, k, e, r);
    if k.action != PowTxContractDeal {
      CreditKeyCount(k, e.tx, r, p.Keys);
    }
  }

  lemma CreditsOnly(env: Env, k: Key, e: TxExec, r: Receipt)
    requires IsDeal(k.action) && !(k.action == ContractDeal && k.chain == SC && e.tx.create && !r.failed)
    ensures Sum(Weights(Emitted(env, k, e, r)), Emitted(env, k, e, r).Keys) == |Emitted(env, k, e, r)|
  {
    var p := Emitted(env, k, e, r);
    hide Emitted, Sum;
    CreditsWeigh(Weights(p), p.Keys);
  }

  lemma CreditKeyCount(k: Key, tx: Tx, r: Receipt, s: set<Key>)
    requires s <= CreditKeys(k, tx, r)
    ensures |s| <= |r.flows| + if k.action == ContractDeal then 1 else 0
  {
    var refund := if k.action == ContractDeal then {Key(tx.from, k.id, ContractRefund)} else {};
    assert ReceiverKeys(r, k.id) == set a | a in r.flows.Keys :: Key(a, k.id, ContractReceipt);
    CreditCount(r.flows.Keys, k.id, refund, s);
  }

  /** Executing an action uses up one unit of weight, new coin flows aside. */
  lemma WeightFalls(env: Env, txs: Txs, k: Key, e: TxExec, r: Receipt)
    requires EnvOk(env) && GoodKey(txs, k, e)
    ensures Sum(Weights(Emitted(env, k, e, r)), Emitted(env, k, e, r).Keys) + 1 <= Weight(k, e.tx) + FlowsEmitted(k, r)
  {
    hide Emitted;
    if IsDeal(k.action) && !(k.action == ContractDeal && k.chain == SC && e.tx.create && !r.failed) {
      CreditsOfDeal(env, k, e, r);
    } else {
      OneOrNone(env, txs, k, e, r);
    }
  }

  lemma OneOrNone(env: Env, txs: Txs, k: Key, e: TxExec, r: Receipt)
    requires EnvOk(env) && GoodKey(txs, k, e)
    requires !IsDeal(k.action) || (k.action == ContractDeal && k.chain == SC && e.tx.create && !r.failed)
    ensures Sum(Weights(Emitted(env, k, e, r)), Emitted(env, k, e, r).Keys) + 1 <= Weight(k, e.tx) + FlowsEmitted(k, r)
  {
    var p := Emitted(env, k, e, r);
    hide Emitted;
    if p.Keys != {} {
      var j :| j in p;
      assert p.Keys == {j};
      Pick(Weights(p), p.Keys, j);
      assert p.Keys - {j} == {};
    }
  }

  lemma ExecKeepsBound(env: Env, s: Sys, k: Key, pool: nat, used: nat, header: Header)
    requires EnvOk(env) && Inv(s) && Bounded(s) && CanExec(env, s, k, pool, used, header)
    ensures Bounded(Exec(env, s, k, pool, used, header))
  {
    EmittedGood(env, s, k, pool, used, header);
    var p := EmittedBy(env, s, k, pool, used, header);
    EmissionIsNew(s, k, p);
    assert GoodKey(s.txs, k, s.pending[k]);
    hide ProcessTransaction, Emitted, Inv, Weight, Potential, GoodKey, Exec;
    var r := OutcomeOf(env, s, k, pool, used, header).receipt;
    WeightFalls(env, s.txs, k, s.pending[k], r);
    var t := Exec(env, s, k, pool, used, header);
    forall id: nat
      ensures StepsOf(t, id) + Potential(t.pending, id) <= 4 + FanOf(t, id)
    {
      PotentialAfter(s.pending, k, p, id);
      CountsAfter(env, s, k, pool, used, header, id);
      assert StepsOf(s, id) + Potential(s.pending, id) <= 4 + FanOf(s, id);
    }
  }

  lemma CountsAfter(env: Env, s: Sys, k: Key, pool: nat, used: nat, header: Header, id: nat)
    requires EnvOk(env) && CanExec(env, s, k, pool, used, header)
    ensures var t := Exec(env, s, k, pool, used, header);
            var r := OutcomeOf(env, s, k, pool, used, header).receipt;
            && t.pending == (s.pending - {k}) + EmittedBy(env, s, k, pool, used, header)
            && StepsOf(t, id) == StepsOf(s, id) + (if id == k.id then 1 else 0)
            && FanOf(t, id) == FanOf(s, id) + (if id == k.id then FlowsEmitted(k, r) else 0)
  {
    hide ProcessTransaction, Emitted;
  }

  lemma SubmitKeepsBound(s: Sys, tx: Tx)
    requires Inv(s) && Bounded(s) && CanSubmit(s, tx)
    ensures Bounded(Submit(s, tx))
  {
    var t := Submit(s, tx);
    var (c, a) := FirstAction(tx);
    var k := Key(c, tx.id, a);
    forall j | j in s.pending
      ensures j.id != tx.id
    {
      assert GoodKey(s.txs, j, s.pending[j]);
    }
    hide Inv, Sum;
    forall id: nat
      ensures StepsOf(t, id) + Potential(t.pending, id) <= 4 + FanOf(t, id)
    {
      assert StepsOf(s, id) + Potential(s.pending, id) <= 4 + FanOf(s, id);
      if id == tx.id {
        assert OfTx(t.pending, id) == {k};
        Pick(Weights(t.pending), {k}, k);
        assert {k} - {k} == {};
        Zero(Weights(t.pending), {});
      } else {
        assert OfTx(t.pending, id) == OfTx(s.pending, id);
        Agree(Weights(t.pending), Weights(s.pending), OfTx(s.pending, id));
      }
    }
  }

  /** In any run, a transaction executes at most four actions plus one per coin flow of its deals, and what is still
      in flight of it is counted in that bound. */
  lemma {:induction false} LifeIsBounded(env: Env, s: Sys, steps: seq<Event>)
    requires EnvOk(env) && Inv(s) && Bounded(s) && Feasible(env, s, steps)
    ensures Bounded(After(env, s, steps))
    decreases |steps|
  {
    if steps != [] {
      hide Inv, Bounded, CanExec, Reloaded, Exec, Submit;
      var st := steps[0];
      StepKeepsInv(env, s, st);
      match st {
        case SubmitStep(tx) => SubmitKeepsBound(s, tx);
        case ExecStep(k, pool, used, header) => ExecKeepsBound(env, s, k, pool, used, header);
        case ReloadStep(c, db) => ReloadKeepsBound(s, c, db);
      }
      LifeIsBounded(env, Do(env, s, st), steps[1..]);
    }
  }

  lemma ReloadKeepsBound(s: Sys, c: Address, db: Db)
    requires Bounded(s)
    ensures Bounded(s.(chains := s.chains[c := db]))
  {
    var t := s.(chains := s.chains[c := db]);
    forall id: nat
      ensures StepsOf(t, id) + Potential(t.pending, id) <= 4 + FanOf(t, id)
    {
      assert StepsOf(s, id) + Potential(s.pending, id) <= 4 + FanOf(s, id);
    }
  }

  lemma {:induction false} WeightsArePositive(f: Key -> int, s: set<Key>)
    requires forall k :: k in s ==> f(k) >= 0
    ensures Sum(f, s) >= 0
    decreases |s|
  {
    if s != {} {
      var k :| k in s;
      Pick(f, s, k);
      WeightsArePositive(f, s - {k});
    }
  }

  /** From a system with balances only: whatever is submitted and in whatever order its actions run, the state stays
      in order, nothing runs twice, and every transaction ends after at most four actions and one per coin flow. */
  lemma EveryRun(env: Env, s: Sys, steps: seq<Event>)
    requires EnvOk(env) && Initial(s) && Feasible(env, s, steps)
    ensures var t := After(env, s, steps);
            && Inv(t) && Once(t)
            && forall id: nat :: StepsOf(t, id) <= 4 + FanOf(t, id)
  {
    assert Inv(s);
    assert Bounded(s) by {
      forall id: nat ensures Potential(s.pending, id) == 0 {
        assert OfTx(s.pending, id) == {};
      }
    }
    hide Inv, Feasible, After;
    RunKeepsInv(env, s, steps);
    ExecutedAtMostOnce(env, s, steps);
    LifeIsBounded(env, s, steps);
    var t := After(env, s, steps);
    forall id: nat
      ensures StepsOf(t, id) <= 4 + FanOf(t, id)
    {
      WeightsArePositive(Weights(t.pending), OfTx(t.pending, id));
      assert StepsOf(t, id) + Potential(t.pending, id) <= 4 + FanOf(t, id);
    }
  }
}
