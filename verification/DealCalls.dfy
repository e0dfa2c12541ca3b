/** The virtual machine's part in a deal: when it is called, on which accounts, and what its answer means for the value
    of the chain. */
module DealCalls {
  import opened Options
  import opened Sums
  import opened Ledger
  import opened Transition
  import opened Processor
  import opened GasLaws
  import opened Conservation

  /** The accounts a machine is called on, and its answer. */
  datatype Call = Call(before: World, answer: VmResult)

  /** The call succeeded, but its gas does not pay for what it returned. */
  predicate Unpaid(r: VmResult) { r.err == NoError && |r.ret| > 0 && r.gas < DataGas(r.ret) }

  ghost function Users(k: set<Address>): (s: set<Address>) { set a | a in k && a.User? }

  /** The value a call moved from users into contracts, what was destroyed of it included. */
  ghost function Moved(c: Call): (r: int) {
    var k := Users(c.answer.w.bal.Keys);
    SumBal(c.before, k) - SumBal(c.answer.w, k)
  }

  /** The value a call destroyed. */
  ghost function Destroyed(c: Call): (r: int) { TotalBalance(c.before) - TotalBalance(c.answer.w) }

  /** The call a deal makes once it is funded; none if the gas cannot be bought. */
  ghost function RunCall(env: Env, db: Db, pool: nat, tx: Tx, gas: u64, remaining: u64, header: Header): (r: Option<Call>)
    requires WellFormed(db) && VmOk(env.vm)
  {
    var p := PreApply(FundedFor(db, tx, remaining), pool, tx, gas, FreeAt(true, tx, header), ContractDeal);
    if p.Fail? then None
    else
      var at := AtCall(DealReady(env, db, pool, tx, gas, remaining, header), tx, ContractDeal, header);
      Some(Call(at.w, env.vm(at.w, CallOf(tx, p.value.0, header))))
  }

  /** The call a deal in flight makes; none if its rehearsal fails or the gas cannot be bought. */
  ghost function DealCall(env: Env, db: Db, pool: nat, x: TxExec, header: Header): (r: Option<Call>)
    requires WellFormed(db) && EnvOk(env)
  {
    var db1 := AddMark(db, x.tx.id, ContractDeal);
    if !(x.tx.create && header.mc == SC) then RunCall(env, db1, pool, x.tx, Remaining(x), Remaining(x), header)
    else
      var n := Rehearsal(env, db1, pool, x.tx, Remaining(x), x.action == SCIdleContractDeal, x.pre.None?, header);
      if n.Err? || n.receipt.failed then None
      else RunCall(env, db1, n.pool, x.tx, ForceSafeSub(Remaining(x), n.receipt.gasUsed), Remaining(x), header)
  }

  /** The effect of a deal, from its call alone. */
  ghost function CallEffect(c: Option<Call>): (r: Effect) {
    if c.None? || c.value.answer.err != NoError then NO_EFFECT else Effect(Moved(c.value), Destroyed(c.value))
  }

  // ---- the call and the run -----------------------------------------------------------------------------------------

  /** The run of a deal is its call. */
  lemma RunIsItsCall(env: Env, db: Db, pool: nat, tx: Tx, gas: u64, remaining: u64, header: Header)
    requires WellFormed(db) && VmOk(env.vm) && tx.to.Contract?
    requires RunCall(env, db, pool, tx, gas, remaining, header).Some?
    ensures PreApply(FundedFor(db, tx, remaining), pool, tx, gas, FreeAt(true, tx, header), ContractDeal).Fine?
    ensures var c := RunCall(env, db, pool, tx, gas, remaining, header).value;
            var ran := DealRan(env, db, pool, tx, gas, remaining, header);
            && ran.db.w == c.answer.w && ran.gas == c.answer.gas && ran.ret == c.answer.ret && ran.err == c.answer.err
    ensures var c := RunCall(env, db, pool, tx, gas, remaining, header).value;
            var ready := DealReady(env, db, pool, tx, gas, remaining, header);
            && (forall a :: Bal(c.before, a) == Bal(ready.w, a)) && ready.w.bal.Keys <= c.before.bal.Keys
            && RunMoves(c.before, c.answer.w, c.answer.err == NoError, tx.from, CallValue(tx, header))
  {
    hide PreApply, FundedFor, FreeAt, Run, AtCall, RunMoves, VmStepOk, CallOf;
    var p := PreApply(FundedFor(db, tx, remaining), pool, tx, gas, FreeAt(true, tx, header), ContractDeal);
    var ready := DealReady(env, db, pool, tx, gas, remaining, header);
    RunIsCall(env, ready, tx, p.value.0, ContractDeal, header);
    var at := AtCall(ready, tx, ContractDeal, header);
    var call := CallOf(tx, p.value.0, header);
    assert VmStepOk(at.w, call, env.vm(at.w, call));
    CallMoves(at.w, at.w, call, env.vm(at.w, call));
    CallIsBySender(tx, p.value.0, header);
  }

  /** The effect of the run is that of the call. */
  lemma EffectIsOfCall(env: Env, db: Db, pool: nat, tx: Tx, gas: u64, remaining: u64, header: Header)
    requires WellFormed(db) && VmOk(env.vm) && tx.to.Contract? && tx.from.User?
    ensures RunEffect(env, db, pool, tx, gas, remaining, header)
         == CallEffect(RunCall(env, db, pool, tx, gas, remaining, header))
  {
    hide PreApply, FundedFor, FreeAt, DealRan, DealReady, Moved, RunMoves, Gained, TotalBalance;
    var c := RunCall(env, db, pool, tx, gas, remaining, header);
    if c.Some? {
      RunIsItsCall(env, db, pool, tx, gas, remaining, header);
      if c.value.answer.err == NoError {
        ReadyBalances(env, db, pool, tx, gas, remaining, header);
        SenderHasAccount(env, db, pool, tx, gas, remaining, header);
        MovedIsLost(db, c.value, tx.from);
        TotalAgree(DealReady(env, db, pool, tx, gas, remaining, header).w, c.value.before);
      }
    }
  }

  lemma SenderHasAccount(env: Env, db: Db, pool: nat, tx: Tx, gas: u64, remaining: u64, header: Header)
    requires WellFormed(db) && VmOk(env.vm)
    ensures tx.from in DealReady(env, db, pool, tx, gas, remaining, header).w.bal
  {
  }

  /** Buying gas changes the sender's balance only. */
  lemma ReadyBalances(env: Env, db: Db, pool: nat, tx: Tx, gas: u64, remaining: u64, header: Header)
    requires WellFormed(db) && VmOk(env.vm)
    ensures forall a :: a != tx.from ==> Bal(DealReady(env, db, pool, tx, gas, remaining, header).w, a) == Bal(db.w, a)
  {
    hide FundedFor, FreeAt, BuyCost, Fee, IntrinsicGas;
  }

  lemma UsersSplit(w: World, k: set<Address>, from: Address)
    requires from in k && from.User?
    ensures SumBal(w, Users(k)) == Bal(w, from) + SumBal(w, UsersIn(k, from))
  {
    SumBalPick(w, Users(k), from);
    assert Users(k) - {from} == UsersIn(k, from);
  }

  lemma MovedIsLost(db: Db, c: Call, from: Address)
    requires c.before.bal.Keys <= c.answer.w.bal.Keys && from in c.before.bal && from.User?
    requires forall a :: a != from ==> Bal(c.before, a) == Bal(db.w, a)
    ensures Moved(c) == Bal(c.before, from) - Bal(c.answer.w, from) - Gained(db, c.answer.w, from)
  {
    var k := c.answer.w.bal.Keys;
    UsersSplit(c.before, k, from);
    UsersSplit(c.answer.w, k, from);
    SumBalAgree(c.before, db.w, UsersIn(k, from));
  }

  /** A call without value takes nothing from users, and gives them nothing exactly if no user gains. */
  lemma MovedWithoutValue(c: Call, from: Address)
    requires RunMoves(c.before, c.answer.w, true, from, 0)
    ensures Moved(c) <= 0
    ensures Moved(c) == 0 <==> NoUserGains(c)
  {
    hide TotalBalance;
    var k := Users(c.answer.w.bal.Keys);
    Monotone(BalOf(c.before), BalOf(c.answer.w), k);
    if Moved(c) == 0 {
      forall a: Address | a.User?
        ensures Bal(c.answer.w, a) == Bal(c.before, a)
      {
        assert a in k ==> BalOf(c.before)(a) == BalOf(c.answer.w)(a);
      }
    } else {
      assert NoUserGains(c) ==> SumBal(c.before, k) == SumBal(c.answer.w, k) by {
        if NoUserGains(c) {
          SumBalAgree(c.before, c.answer.w, k);
        }
      }
    }
  }

  ghost predicate NoUserGains(c: Call) {
    forall a: Address :: a.User? ==> Bal(c.answer.w, a) == Bal(c.before, a)
  }

  // ---- the outcome, from the call -----------------------------------------------------------------------------------

  /** What a deal that was run owes to its call: whether it failed, what it returns, its effect, and who gained. */
  ghost predicate ByCall(db: Db, from: Address, value: nat, c: Option<Call>, e: Effect, o: Outcome)
    requires o.Ok?
  {
    && (o.receipt.failed <==> c.None? || c.value.answer.err != NoError || Unpaid(c.value.answer))
    && o.receipt.output == (if o.receipt.failed then [] else c.value.answer.ret)
    && e == CallEffect(c)
    && (c.Some? ==>
          && RunMoves(c.value.before, c.value.answer.w, c.value.answer.err == NoError, from, value)
          && from in c.value.before.bal
          && (forall a :: a != from ==> Bal(c.value.before, a) == Bal(db.w, a))
          && (NoStaleGain(db, o.db.w, from) <==> NoStaleGain(db, c.value.answer.w, from)))
  }

  /** How a run ends, in terms of its call. */
  lemma EndByCall(env: Env, db: Db, pool: nat, tx: Tx, gas: u64, remaining: u64, header: Header)
    requires WellFormed(db) && VmOk(env.vm) && tx.to.Contract?
    requires gas + FreeAt(true, tx, header) < TWO64
    requires DealEnd(env, db, pool, tx, gas, remaining, header).Fine?
    ensures RunCall(env, db, pool, tx, gas, remaining, header).Some?
    ensures var t := DealEnd(env, db, pool, tx, gas, remaining, header);
            var c := RunCall(env, db, pool, tx, gas, remaining, header).value;
            && (t.value.failed <==> c.answer.err != NoError || Unpaid(c.answer)) && t.value.output == c.answer.ret
            && t.db.w.bal.Keys == c.answer.w.bal.Keys
            && forall a :: a != tx.from ==> Bal(t.db.w, a) == Bal(c.answer.w, a)
  {
    hide DealEnd, DealRan, DealReady, PreApply, FundedFor, FreeAt, RunMoves, Fee, DataGas, CallOf, AtCall;
    DealRun(env, db, pool, tx, gas, remaining, header);
    EndOutput(env, db, pool, tx, gas, remaining, header);
    RunIsItsCall(env, db, pool, tx, gas, remaining, header);
    var t := DealEnd(env, db, pool, tx, gas, remaining, header);
    var ran := DealRan(env, db, pool, tx, gas, remaining, header);
    forall a | a != tx.from
      ensures Bal(t.db.w, a) == Bal(ran.db.w, a)
    {
      DealBalance(env, db, pool, tx, gas, remaining, header, a);
    }
  }

  lemma EndOutput(env: Env, db: Db, pool: nat, tx: Tx, gas: u64, remaining: u64, header: Header)
    requires WellFormed(db) && VmOk(env.vm) && tx.to.Contract?
    requires DealEnd(env, db, pool, tx, gas, remaining, header).Fine?
    ensures PreApply(FundedFor(db, tx, remaining), pool, tx, gas, FreeAt(true, tx, header), ContractDeal).Fine?
    ensures DealEnd(env, db, pool, tx, gas, remaining, header).value.output
         == DealRan(env, db, pool, tx, gas, remaining, header).ret
  {
    hide ApplyMessage, RunOf, PreApply, FundedFor, FreeAt, PayOutput;
    MessageGas(env, true, FundedFor(db, tx, remaining), pool, tx, gas, ContractDeal, header);
  }

  /** The call is made by the sender, on the balances of the chain. */
  lemma CallFacts(env: Env, db: Db, pool: nat, tx: Tx, gas: u64, remaining: u64, header: Header)
    requires WellFormed(db) && VmOk(env.vm) && tx.to.Contract?
    requires RunCall(env, db, pool, tx, gas, remaining, header).Some?
    ensures var c := RunCall(env, db, pool, tx, gas, remaining, header).value;
            && RunMoves(c.before, c.answer.w, c.answer.err == NoError, tx.from, CallValue(tx, header))
            && tx.from in c.before.bal
            && forall a :: a != tx.from ==> Bal(c.before, a) == Bal(db.w, a)
  {
    hide DealRan, DealReady, PreApply, FundedFor, FreeAt, RunMoves, CallOf, AtCall;
    RunIsItsCall(env, db, pool, tx, gas, remaining, header);
    ReadyBalances(env, db, pool, tx, gas, remaining, header);
    SenderHasAccount(env, db, pool, tx, gas, remaining, header);
  }

  lemma RunDealByCall(env: Env, db: Db, pool: nat, used: nat, tx: Tx, gas: u64, remaining: u64, refund: u64,
                      first: bool, header: Header)
    requires WellFormed(db) && VmOk(env.vm) && tx.to.Contract? && tx.from.User?
    requires GasCovered(tx, gas, remaining, refund, header)
    requires RunDeal(env, db, pool, used, tx, gas, remaining, refund, first, header).Ok?
    ensures ByCall(db, tx.from, CallValue(tx, header), RunCall(env, db, pool, tx, gas, remaining, header),
                   RunEffect(env, db, pool, tx, gas, remaining, header),
                   RunDeal(env, db, pool, used, tx, gas, remaining, refund, first, header))
  {
    hide RunDeal, DealEnd, RunCall, RunEffect, CallEffect, RunMoves, Closed, GasCovered, Fee, Flows, SenderFlow, Unpaid,
      NoStaleGain, FreeAt, ForceSafeSub;
    CoveredFits(tx, gas, remaining, refund, header);
    RunDealShape(env, db, pool, used, tx, gas, remaining, refund, first, header);
    EndByCall(env, db, pool, tx, gas, remaining, header);
    CallFacts(env, db, pool, tx, gas, remaining, header);
    EffectIsOfCall(env, db, pool, tx, gas, remaining, header);
    var t := DealEnd(env, db, pool, tx, gas, remaining, header);
    var c := RunCall(env, db, pool, tx, gas, remaining, header).value;
    SameStaleGain(db, t.db, c.answer.w, tx.from);
  }

  lemma CoveredFits(tx: Tx, gas: u64, remaining: u64, refund: u64, header: Header)
    requires GasCovered(tx, gas, remaining, refund, header)
    ensures gas + FreeAt(true, tx, header) < TWO64
  {
  }

  lemma SameStaleGain(db: Db, t: Db, w: World, from: Address)
    requires WellFormed(t) && t.w.bal.Keys == w.bal.Keys && forall a :: a != from ==> Bal(t.w, a) == Bal(w, a)
    ensures NoStaleGain(db, Closed(t, from).w, from) <==> NoStaleGain(db, w, from)
  {
  }

  /** A deal as the life cycle runs it. */
  lemma DealByCall(env: Env, db: Db, pool: nat, used: nat, x: TxExec, header: Header)
    requires WellFormed(db) && EnvOk(env) && pool < TWO64
    requires DealReadyToRun(x) && header.number >= 1
    requires ProcessTransaction(env, db, pool, used, x, header).Ok?
    ensures ByCall(db, x.tx.from, CallValue(x.tx, header), DealCall(env, db, pool, x, header),
                   EffectBy(env, db, pool, x, header), ProcessTransaction(env, db, pool, used, x, header))
  {
    hide ProcessTransaction, RunDeal, Fee, RehearsalDb, RunEffect, RunCall, ByCall, GasCovered, Nonce, VmOk;
    DealIsCovered(x, header);
    var db1 := AddMark(db, x.tx.id, ContractDeal);
    var idle := x.action == SCIdleContractDeal;
    var o := ProcessTransaction(env, db, pool, used, x, header);
    DealIsApplied(env, db, pool, used, x, header);
    if !(x.tx.create && header.mc == SC) {
      RunDealByCall(env, db1, pool, used, x.tx, Remaining(x), Remaining(x), 0, x.pre.None?, header);
    } else {
      DeployByCall(env, db1, pool, used, x.tx, Remaining(x), idle, x.pre.None?, header);
    }
    MarkIsNoCall(db, x.tx.id, x.tx.from, CallValue(x.tx, header), DealCall(env, db, pool, x, header),
                 EffectBy(env, db, pool, x, header), o);
  }

  lemma DealIsApplied(env: Env, db: Db, pool: nat, used: nat, x: TxExec, header: Header)
    requires WellFormed(db) && EnvOk(env) && DealReadyToRun(x)
    requires ProcessTransaction(env, db, pool, used, x, header).Ok?
    ensures ProcessTransaction(env, db, pool, used, x, header)
         == ApplyDeal(env, AddMark(db, x.tx.id, ContractDeal), pool, used, x.tx, Remaining(x), Remaining(x),
                      x.action == SCIdleContractDeal, x.pre.None?, header)
  {
    hide ApplyDeal, Fee;
  }

  lemma MarkIsNoCall(db: Db, id: nat, from: Address, value: nat, c: Option<Call>, e: Effect, o: Outcome)
    requires o.Ok? && ByCall(AddMark(db, id, ContractDeal), from, value, c, e, o)
    ensures ByCall(db, from, value, c, e, o)
  {
    hide RunMoves, CallEffect, Unpaid;
    if c.Some? {
      MarkIsNotStale(db, id, o.db.w, from);
      MarkIsNotStale(db, id, c.value.answer.w, from);
    }
  }

  lemma NoCall(db: Db, pool: nat, used: nat, tx: Tx, remaining: u64, n: Outcome, header: Header)
    requires WellFormed(db) && (n.Ok? ==> n.receipt.failed) && FailedRehearsal(db, pool, used, remaining, n).Ok?
    ensures ByCall(db, tx.from, CallValue(tx, header), None, NO_EFFECT, FailedRehearsal(db, pool, used, remaining, n))
  {
    hide Flows, Rebase, SubGas;
  }

  lemma DeployByCall(env: Env, db: Db, pool: nat, used: nat, tx: Tx, remaining: u64, idle: bool, first: bool,
                     header: Header)
    requires WellFormed(db) && EnvOk(env) && pool < TWO64 && tx.create && header.mc == SC && header.number >= 1
    requires tx.to.Contract? && tx.from.User? && !tx.IsFree()
    requires GasCovered(tx, remaining, remaining, 0, header)
    requires ApplyDeal(env, db, pool, used, tx, remaining, remaining, idle, first, header).Ok?
    ensures var n := Rehearsal(env, db, pool, tx, remaining, idle, first, header);
            var o := ApplyDeal(env, db, pool, used, tx, remaining, remaining, idle, first, header);
            ByCall(db, tx.from, CallValue(tx, header),
                   if n.Err? || n.receipt.failed then None
                   else RunCall(env, db, n.pool, tx, ForceSafeSub(remaining, n.receipt.gasUsed), remaining, header),
                   DealEffect(env, db, pool, tx, remaining, idle, first, header), o)
  {
    hide RunDeal, Fee, RehearsalDb, RunEffect, RunCall, Nonce, ByCall, FailedRehearsal, VmOk;
    var h := Header(env.newContract(Nonce(db.w, header.mc)), 1, 0, 0);
    var d := RehearsalDb(env, tx.from, Fee(remaining, tx.price) + tx.value);
    RehearsalGas(env, d, pool, tx, remaining, idle, first, h);
    var n := Rehearsal(env, db, pool, tx, remaining, idle, first, header);
    if n.Err? || n.receipt.failed {
      NoCall(db, pool, used, tx, remaining, n, header);
    } else {
      RunDealByCall(env, db, n.pool, used, tx, ForceSafeSub(remaining, n.receipt.gasUsed), remaining,
                    n.receipt.gasUsed, first, header);
    }
  }

  // ---- deals that get as far as their call --------------------------------------------------------------------------

  /** A deal other than a deployment's first stage that the machine will be called for: not yet marked, caused by an
      action that did not fail, sent to the system chain if idle, and with enough gas in the pool. */
  predicate Callable(db: Db, pool: nat, x: TxExec, header: Header) {
    && WellFormed(db) && DealReadyToRun(x) && header.number >= 1 && !(x.tx.create && header.mc == SC)
    && (x.action == SCIdleContractDeal ==> x.tx.idle && header.mc == SC)
    && (x.pre.Some? ==> !x.pre.value.failed)
    && (x.tx.id, ContractDeal) !in db.marks
    && Remaining(x) + FreeAt(true, x.tx, header) <= pool < TWO64
  }

  lemma GasIsPaidFor(db: Db, pool: nat, x: TxExec, header: Header)
    requires Callable(db, pool, x, header)
    ensures var free := FreeAt(true, x.tx, header);
            && BuyCost(Remaining(x), x.tx.price, free) == Fee(Remaining(x), x.tx.price) < TWO64
            && Remaining(x) + free <= pool < TWO64
  {
    if x.pre.Some? {
      FeeOrder(Remaining(x), x.tx.gas, x.tx.price);
    }
    if x.tx.IsFree() {
      FeeAtNoPrice(Remaining(x));
      FeeAtNoPrice(FreeAt(true, x.tx, header));
    }
  }

  lemma BuysAll(db: Db, pool: nat, tx: Tx, gas: u64, free: u64)
    requires WellFormed(db) && tx.from in db.w.bal && Fee(gas, tx.price) < TWO64
    requires gas + free <= pool < TWO64
    requires BuyCost(gas, tx.price, free) <= db.w.bal[tx.from]
    ensures var p := PreApply(db, pool, tx, gas, free, ContractDeal);
            && p.Fine? && p.value == (gas + free, gas + free)
            && p.db.w.bal == db.w.bal[tx.from := db.w.bal[tx.from] - BuyCost(gas, tx.price, free)]
  {
    hide BuyCost, Fee;
    assert (gas + free) % TWO64 == gas + free;
  }

  /** The accounts of a call: the chain's, with an amount in the sender's and an account for the receiver. */
  function CalledWith(db: Db, tx: Tx, amount: nat, header: Header): (m: map<Address, nat>) {
    var m := db.w.bal[tx.from := amount];
    if tx.to in m || (tx.create && header.mc != SC) then m else m[tx.to := 0]
  }

  function Called(db: Db, tx: Tx, header: Header): (m: map<Address, nat>) { CalledWith(db, tx, tx.value, header) }

  lemma CalledAccounts(ready: Db, tx: Tx, header: Header)
    requires WellFormed(ready)
    ensures AtCall(ready, tx, ContractDeal, header).w.bal
         == if tx.to in ready.w.bal || (tx.create && header.mc != SC) then ready.w.bal else ready.w.bal[tx.to := 0]
  {
  }

  lemma CallAfterPurchase(env: Env, db: Db, pool: nat, tx: Tx, gas: u64, remaining: u64, header: Header)
    requires WellFormed(db) && VmOk(env.vm)
    requires PreApply(FundedFor(db, tx, remaining), pool, tx, gas, FreeAt(true, tx, header), ContractDeal).Fine?
    requires tx.from in PreApply(FundedFor(db, tx, remaining), pool, tx, gas, FreeAt(true, tx, header),
                                 ContractDeal).db.w.bal
    ensures var p := PreApply(FundedFor(db, tx, remaining), pool, tx, gas, FreeAt(true, tx, header), ContractDeal);
            var c := RunCall(env, db, pool, tx, gas, remaining, header);
            && c.Some?
            && c.value.before.bal == (if tx.to in p.db.w.bal || (tx.create && header.mc != SC) then p.db.w.bal
                                      else p.db.w.bal[tx.to := 0])
            && c.value.answer == env.vm(c.value.before, CallOf(tx, p.value.0, header))
  {
    hide PreApply, FundedFor, FreeAt, AtCall, VmOk, CallOf;
    CalledAccounts(DealReady(env, db, pool, tx, gas, remaining, header), tx, header);
  }

  /** A callable deal makes its call, on accounts that do not depend on the machine. */
  lemma MakesCall(env: Env, db: Db, pool: nat, x: TxExec, header: Header)
    requires EnvOk(env) && Callable(db, pool, x, header)
    ensures WellFormed(db)
    ensures var c := DealCall(env, db, pool, x, header);
            && c.Some? && c.value.before.bal == Called(db, x.tx, header)
            && c.value.answer
               == env.vm(c.value.before, CallOf(x.tx, Remaining(x) + FreeAt(true, x.tx, header), header))
  {
    hide VmOk, Callable, PreApply, FundedFor, FreeAt, RunCall, CallOf;
    var db1 := AddMark(db, x.tx.id, ContractDeal);
    MarkedIsReady(db, db1, pool, x, header);
    CallAfterPurchase(env, db1, pool, x.tx, Remaining(x), Remaining(x), header);
  }

  lemma MarkedIsReady(db: Db, db1: Db, pool: nat, x: TxExec, header: Header)
    requires Callable(db, pool, x, header) && db1 == AddMark(db, x.tx.id, ContractDeal)
    ensures WellFormed(db) && WellFormed(db1) && !(x.tx.create && header.mc == SC)
    ensures var free := FreeAt(true, x.tx, header);
            var p := PreApply(FundedFor(db1, x.tx, Remaining(x)), pool, x.tx, Remaining(x), free, ContractDeal);
            && p.Fine? && p.value == (Remaining(x) + free, Remaining(x) + free)
            && p.db.w.bal == db1.w.bal[x.tx.from := x.tx.value] && db1.w == db.w
  {
    hide BuyCost, Fee, FreeAt, PreApply;
    GasIsPaidFor(db, pool, x, header);
    BuysAll(FundedFor(db1, x.tx, Remaining(x)), pool, x.tx, Remaining(x), FreeAt(true, x.tx, header));
  }

  /** A rehearsal that succeeds takes exactly the gas it used out of a pool that had all it was given. */
  lemma RehearsalPool(env: Env, db: Db, pool: nat, tx: Tx, gas: u64, idle: bool, first: bool, header: Header)
    requires WellFormed(db) && EnvOk(env) && header.mc != SC
    ensures var n := ApplyDeal(env, db, pool, 0, tx, gas, gas, idle, first, header);
            n.Ok? && !n.receipt.failed ==> n.pool + n.receipt.gasUsed == pool && gas <= Low64(pool)
  {
    hide ApplyMessage, RunOf, PreApply, Low64, PayOutput, Funded, Fee, Flows, SenderFlow, VmOk, Rebase, SetBalance;
    var d := Funded(db, tx.from, Fee(gas, tx.price) + tx.value);
    if ApplyMessage(env, true, d, pool, tx, gas, ContractDeal, header).Fine? {
      MessageGas(env, true, d, pool, tx, gas, ContractDeal, header);
      PurchaseFits(d, pool, tx, gas, ContractDeal);
    }
  }

  lemma PurchaseFits(db: Db, pool: nat, tx: Tx, gas: u64, action: TxAction)
    requires WellFormed(db) && PreApply(db, pool, tx, gas, 0, action).Fine?
    ensures gas <= Low64(pool)
  {
  }

  /** The first stage of a deployment, once rehearsed, makes its call with the gas the rehearsal left, on accounts where
      the sender has the value and the price of what the rehearsal used. */
  lemma DeployMakesCall(env: Env, db: Db, pool: nat, x: TxExec, header: Header)
    requires EnvOk(env) && WellFormed(db) && DealReadyToRun(x) && header.number >= 1
    requires x.tx.create && header.mc == SC && Remaining(x) <= pool < TWO64
    requires var n := Rehearsal(env, AddMark(db, x.tx.id, ContractDeal), pool, x.tx, Remaining(x),
                                x.action == SCIdleContractDeal, x.pre.None?, header);
             n.Ok? && !n.receipt.failed
    ensures var n := Rehearsal(env, AddMark(db, x.tx.id, ContractDeal), pool, x.tx, Remaining(x),
                               x.action == SCIdleContractDeal, x.pre.None?, header);
            var c := DealCall(env, db, pool, x, header);
            && n.receipt.gasUsed <= Remaining(x) && c.Some?
            && c.value.before.bal == CalledWith(db, x.tx, x.tx.value + Fee(n.receipt.gasUsed, x.tx.price), header)
            && c.value.answer == env.vm(c.value.before, CallOf(x.tx, Remaining(x) - n.receipt.gasUsed, header))
  {
    hide VmOk, PreApply, FundedFor, FreeAt, RunCall, CallOf, ApplyDeal, Fee, RehearsalDb, Nonce;
    var db1 := AddMark(db, x.tx.id, ContractDeal);
    var idle, first := x.action == SCIdleContractDeal, x.pre.None?;
    var n := Rehearsal(env, db1, pool, x.tx, Remaining(x), idle, first, header);
    var h := Header(env.newContract(Nonce(db1.w, header.mc)), 1, 0, 0);
    var d := RehearsalDb(env, x.tx.from, Fee(Remaining(x), x.tx.price) + x.tx.value);
    DeployFacts(x, header);
    RehearsalGas(env, d, pool, x.tx, Remaining(x), idle, first, h);
    RehearsalPool(env, d, pool, x.tx, Remaining(x), idle, first, h);
    RehearsedIsReady(db1, n.pool, x.tx, Remaining(x) - n.receipt.gasUsed, Remaining(x), header);
    CallAfterPurchase(env, db1, n.pool, x.tx, Remaining(x) - n.receipt.gasUsed, Remaining(x), header);
  }

  lemma DeployFacts(x: TxExec, header: Header)
    requires DealReadyToRun(x) && header.number >= 1 && x.tx.create && header.mc == SC
    ensures x.tx.to.Contract? && x.tx.from.User? && !x.tx.IsFree() && FreeAt(true, x.tx, header) == 0
    ensures Fee(Remaining(x), x.tx.price) < TWO64
  {
    if x.pre.Some? {
      FeeOrder(Remaining(x), x.tx.gas, x.tx.price);
    }
  }

  lemma RehearsedIsReady(db: Db, pool: nat, tx: Tx, gas: u64, remaining: u64, header: Header)
    requires WellFormed(db) && gas <= remaining && gas <= pool < TWO64 && Fee(remaining, tx.price) < TWO64
    requires FreeAt(true, tx, header) == 0
    ensures var p := PreApply(FundedFor(db, tx, remaining), pool, tx, gas, FreeAt(true, tx, header), ContractDeal);
            && p.Fine? && p.value == (gas, gas)
            && p.db.w.bal == db.w.bal[tx.from := tx.value + Fee(remaining - gas, tx.price)]
  {
    hide Fee, FreeAt, PreApply;
    FeeOrder(gas, remaining, tx.price);
    FeeSplit(gas, remaining - gas, tx.price);
    BuysAll(FundedFor(db, tx, remaining), pool, tx, gas, 0);
  }

  // ---- when a funded deal fails -------------------------------------------------------------------------------------

  /** Buying the gas leaves a funded sender with at least the value of the call. */
  lemma ValueIsThere(env: Env, db: Db, pool: nat, tx: Tx, gas: u64, remaining: u64, header: Header)
    requires WellFormed(db) && VmOk(env.vm) && gas <= remaining
    requires PreApply(FundedFor(db, tx, remaining), pool, tx, gas, FreeAt(true, tx, header), ContractDeal).Fine?
    ensures Bal(DealReady(env, db, pool, tx, gas, remaining, header).w, tx.from) >= CallValue(tx, header)
  {
    hide PreApply, Fee, FreeAt, FundedFor, VmOk;
    FeeOrder(gas, remaining, tx.price);
    PreApplyAccount(FundedFor(db, tx, remaining), pool, tx, gas, FreeAt(true, tx, header), ContractDeal, tx.from);
  }

  /** The machine never misses balance in a funded deal, before or after a rehearsal. */
  lemma NeverMisses(env: Env, db: Db, pool: nat, tx: Tx, gas: u64, remaining: u64, header: Header)
    requires WellFormed(db) && VmOk(env.vm) && gas <= remaining
    requires RunCall(env, db, pool, tx, gas, remaining, header).Some?
    ensures RunCall(env, db, pool, tx, gas, remaining, header).value.answer.err != NotEnoughBalance
  {
    hide PreApply, FundedFor, FreeAt, CallOf, TotalBalance, AtCall, Bal;
    ValueIsThere(env, db, pool, tx, gas, remaining, header);
    var p := PreApply(FundedFor(db, tx, remaining), pool, tx, gas, FreeAt(true, tx, header), ContractDeal);
    var at := AtCall(DealReady(env, db, pool, tx, gas, remaining, header), tx, ContractDeal, header);
    var call := CallOf(tx, p.value.0, header);
    CallIsBySender(tx, p.value.0, header);
    assert VmStepOk(at.w, call, env.vm(at.w, call));
  }

  /** A funded deal is an error if the pool is too low for its gas, or if it is free and its call fails or is not paid
      for. */
  ghost predicate FailsFunded(env: Env, db: Db, pool: nat, tx: Tx, gas: u64, remaining: u64, first: bool, header: Header)
    requires WellFormed(db) && VmOk(env.vm)
  {
    || Low64(pool) < gas + FreeAt(true, tx, header)
    || var c := RunCall(env, db, pool, tx, gas, remaining, header);
       c.Some? && first && tx.IsFree() && (c.value.answer.err != NoError || Unpaid(c.value.answer))
  }

  lemma RunDealErrIff(env: Env, db: Db, pool: nat, used: nat, tx: Tx, gas: u64, remaining: u64, refund: u64,
                      first: bool, header: Header)
    requires WellFormed(db) && VmOk(env.vm) && tx.to.Contract? && tx.from.User?
    requires gas <= remaining && Fee(remaining, tx.price) < TWO64 && gas + FreeAt(true, tx, header) + refund < TWO64
    ensures RunDeal(env, db, pool, used, tx, gas, remaining, refund, first, header).Err?
       <==> FailsFunded(env, db, pool, tx, gas, remaining, first, header)
  {
    hide ApplyMessage, CloseDeal, Fee, FreeAt, RunCall, Low64, VmOk;
    PurchaseIff(env, db, pool, tx, gas, remaining, header);
    var t := DealEnd(env, db, pool, tx, gas, remaining, header);
    EndIff(env, db, pool, tx, gas, remaining, header);
    if RunCall(env, db, pool, tx, gas, remaining, header).Some? {
      NeverMisses(env, db, pool, tx, gas, remaining, header);
    }
    if t.Fine? {
      EndByCall(env, db, pool, tx, gas, remaining, header);
      UsesAtMost(env, db, pool, tx, gas, remaining, header);
      ClosesIff(t.db, t.pool, used, tx, t.value, remaining, refund, header);
    }
  }

  lemma PurchaseIff(env: Env, db: Db, pool: nat, tx: Tx, gas: u64, remaining: u64, header: Header)
    requires WellFormed(db) && VmOk(env.vm)
    requires gas <= remaining && Fee(remaining, tx.price) < TWO64 && gas + FreeAt(true, tx, header) < TWO64
    ensures RunCall(env, db, pool, tx, gas, remaining, header).Some? <==> gas + FreeAt(true, tx, header) <= Low64(pool)
  {
    hide Fee, VmOk, AtCall, CallOf, FreeAt, DealReady, SubBalance, FreeGas;
    FeeOrder(gas, remaining, tx.price);
    assert (gas + FreeAt(true, tx, header)) % TWO64 == gas + FreeAt(true, tx, header);
  }

  /** A run that could buy its gas ends unless the machine misses balance. */
  lemma EndIff(env: Env, db: Db, pool: nat, tx: Tx, gas: u64, remaining: u64, header: Header)
    requires WellFormed(db) && VmOk(env.vm) && tx.to.Contract?
    ensures var c := RunCall(env, db, pool, tx, gas, remaining, header);
            DealEnd(env, db, pool, tx, gas, remaining, header).Fine?
            <==> c.Some? && c.value.answer.err != NotEnoughBalance
  {
    hide ApplyMessage, PreApply, FundedFor, FreeAt, DealReady, AtCall, CallOf, RunMoves, VmOk;
    var d := FundedFor(db, tx, remaining);
    if RunCall(env, db, pool, tx, gas, remaining, header).Some? {
      RunIsItsCall(env, db, pool, tx, gas, remaining, header);
      MessageIsFinish(env, d, pool, tx, gas, header);
      var p := PreApply(d, pool, tx, gas, FreeAt(true, tx, header), ContractDeal);
      FinishesUnless(DealRan(env, db, pool, tx, gas, remaining, header), p.pool, tx, p.value.1, FreeAt(true, tx, header));
    } else {
      MessageNeedsGas(env, d, pool, tx, gas, header);
    }
  }

  lemma MessageNeedsGas(env: Env, db: Db, pool: nat, tx: Tx, gas: u64, header: Header)
    requires WellFormed(db) && VmOk(env.vm)
    requires PreApply(db, pool, tx, gas, FreeAt(true, tx, header), ContractDeal).Fail?
    ensures ApplyMessage(env, true, db, pool, tx, gas, ContractDeal, header).Fail?
  {
    hide PreApply;
  }

  lemma MessageIsFinish(env: Env, db: Db, pool: nat, tx: Tx, gas: u64, header: Header)
    requires WellFormed(db) && VmOk(env.vm)
    requires PreApply(db, pool, tx, gas, FreeAt(true, tx, header), ContractDeal).Fine?
    ensures var p := PreApply(db, pool, tx, gas, FreeAt(true, tx, header), ContractDeal);
            ApplyMessage(env, true, db, pool, tx, gas, ContractDeal, header)
            == Finish(true, RunOf(env, true, db, pool, tx, gas, ContractDeal, header), p.pool, tx, p.value.1,
                      FreeAt(true, tx, header))
  {
    hide PreApply, Run, Finish;
  }

  lemma FinishesUnless(ran: Ran, pool: nat, tx: Tx, bought: u64, free: u64)
    requires WellFormed(ran.db) && ran.gas <= bought
    ensures Finish(true, ran, pool, tx, bought, free).Fail? <==> ran.err == NotEnoughBalance
  {
  }

  lemma UsesAtMost(env: Env, db: Db, pool: nat, tx: Tx, gas: u64, remaining: u64, header: Header)
    requires WellFormed(db) && VmOk(env.vm) && DealEnd(env, db, pool, tx, gas, remaining, header).Fine?
    requires gas + FreeAt(true, tx, header) < TWO64
    ensures DealEnd(env, db, pool, tx, gas, remaining, header).value.gasUsed <= gas + FreeAt(true, tx, header)
  {
    hide ApplyMessage, FundedFor, FreeAt, PreApply, RunOf, PayOutput, VmOk;
    MessageGas(env, true, FundedFor(db, tx, remaining), pool, tx, gas, ContractDeal, header);
    assert (gas + FreeAt(true, tx, header)) % TWO64 == gas + FreeAt(true, tx, header);
  }

  lemma ClosesIff(db: Db, pool: nat, used: nat, tx: Tx, a: Applied, remaining: u64, refund: u64, header: Header)
    requires WellFormed(db) && a.gasUsed + refund < TWO64
    ensures CloseDeal(db, pool, used, tx, a, remaining, refund, header).Ok?
  {
    hide Flows, SenderFlow, ForceSafeSub;
  }

  /** When a callable deal is an error. */
  lemma CallableErrIff(env: Env, db: Db, pool: nat, used: nat, x: TxExec, header: Header)
    requires EnvOk(env) && Callable(db, pool, x, header)
    ensures WellFormed(db) && DealCall(env, db, pool, x, header).Some?
    ensures var a := DealCall(env, db, pool, x, header).value.answer;
            ProcessTransaction(env, db, pool, used, x, header).Err?
            <==> x.pre.None? && (a.err != NoError || Unpaid(a))
    ensures DealCall(env, db, pool, x, header).value.answer.err != NotEnoughBalance
  {
    hide VmOk, Callable, ProcessTransaction, RunDeal, RunCall, Fee, FreeAt, Unpaid, Called, CallOf, BuyCost;
    MakesCall(env, db, pool, x, header);
    GasIsPaidFor(db, pool, x, header);
    CallableRuns(env, db, pool, used, x, header);
    CallableParts(db, pool, x, header);
    var db1 := AddMark(db, x.tx.id, ContractDeal);
    assert Low64(pool) == pool;
    NeverMisses(env, db1, pool, x.tx, Remaining(x), Remaining(x), header);
    RunDealErrIff(env, db1, pool, used, x.tx, Remaining(x), Remaining(x), 0, x.pre.None?, header);
  }

  lemma CallableParts(db: Db, pool: nat, x: TxExec, header: Header)
    requires Callable(db, pool, x, header)
    ensures WellFormed(db) && x.tx.to.Contract? && x.tx.from.User? && (x.pre.None? <==> x.tx.IsFree())
    ensures !(x.tx.create && header.mc == SC)
  {
  }

  lemma CallableRuns(env: Env, db: Db, pool: nat, used: nat, x: TxExec, header: Header)
    requires EnvOk(env) && Callable(db, pool, x, header)
    ensures var db1 := AddMark(db, x.tx.id, ContractDeal);
            ProcessTransaction(env, db, pool, used, x, header)
            == RunDeal(env, db1, pool, used, x.tx, Remaining(x), Remaining(x), 0, x.pre.None?, header)
  {
    hide RunDeal, FreeAt, Fee;
  }
}
