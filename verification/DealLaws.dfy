/** What a deal's one call means for gas, nonces and flows, in numbers. */
module DealLaws {
  import opened Options
  import opened Ledger
  import opened Transition
  import opened Processor
  import opened GasLaws
  import opened Conservation
  import opened DealCalls
  import A = ActionLaws

  // ---- refusals -----------------------------------------------------------------------------------------------------

  /** Why a deal is turned away before anything is run, if it is. */
  function TurnedAway(db: Db, x: TxExec, header: Header): (e: Option<Error>) {
    if !x.tx.to.Contract? then Some(InvalidMessage)
    else if (x.tx.id, ContractDeal) in db.marks then Some(RepeatedAction)
    else if x.pre.Some? && x.pre.value.failed then Some(PreviousFailed)
    else if x.action == SCIdleContractDeal && !(x.tx.value == x.tx.price == Remaining(x) == 0 && header.mc == SC)
    then Some(InvalidMessage)
    else None
  }

  /** A deal that is turned away costs nothing and changes no account; one that is not marked already is marked, if it is
      for a contract at all. */
  lemma TurnedAwayIs(env: Env, db: Db, pool: nat, used: nat, x: TxExec, header: Header)
    requires WellFormed(db) && EnvOk(env) && IsDeal(x.action) && TurnedAway(db, x, header).Some?
    ensures ProcessTransaction(env, db, pool, used, x, header)
         == Err(if x.tx.to.Contract? then AddMark(db, x.tx.id, ContractDeal) else db, pool,
                TurnedAway(db, x, header).value)
  {
    hide RunDeal, Fee, RehearsalDb, FailedRehearsal, Nonce;
    if (x.tx.id, ContractDeal) in db.marks {
      assert AddMark(db, x.tx.id, ContractDeal).marks == db.marks;
    }
  }

  // ---- gas ----------------------------------------------------------------------------------------------------------

  /** The gas a call leaves pays for what it returns. */
  predicate PaysOutput(r: VmResult) { r.err == NoError && A.DataCost(r.ret) <= r.gas }

  /** The gas a call and its output consume of the gas it was given. */
  function Consumed(gas: nat, r: VmResult): (n: nat)
    requires r.gas <= gas
  {
    gas - r.gas + if PaysOutput(r) then A.DataCost(r.ret) else 0
  }

  /** What is charged for it: half of it is given back, or what the storage refund counter shows if that is less. */
  function Charged(gas: nat, r: VmResult): (n: nat)
    requires r.gas <= gas
  {
    var n := Consumed(gas, r);
    n - if r.w.refund < n / 2 then r.w.refund else n / 2
  }

  /** What a run of `gas` gas leaves of the pool and shows in its receipt: it charges what its call consumed less the
      storage refund; a failed deployment is also charged what its rehearsal used. */
  predicate GasCharged(o: Outcome, pool: nat, used: nat, gas: nat, remaining: nat, rehearsal: nat, r: VmResult)
    requires o.Ok?
  {
    && r.gas <= gas && o.pool == pool - Charged(gas, r)
    && o.receipt.gasUsed == Charged(gas, r) + (if o.receipt.failed then rehearsal else 0)
    && o.receipt.cumulative == used + o.receipt.gasUsed && o.receipt.action == ContractDeal
    && o.receipt.gasRemaining == if o.receipt.gasUsed <= remaining then remaining - o.receipt.gasUsed else 0
  }

  lemma FinishIs(ran: Ran, r: VmResult, pool: nat, tx: Tx, bought: u64, free: u64)
    requires WellFormed(ran.db) && ran.gas <= bought && Finish(true, ran, pool, tx, bought, free).Fine?
    requires ran.db.w == r.w && ran.gas == r.gas && ran.ret == r.ret && ran.err == r.err
    ensures Finish(true, ran, pool, tx, bought, free).value.gasUsed == Charged(bought, r)
  {
    hide RefundValue, DataGas, A.DataCost;
    A.DataCostIs(ran.ret);
    NothingCosts();
  }

  lemma NothingCosts()
    ensures A.DataCost([]) == 0
  {
    A.DataCostIs([]);
  }

  lemma RunGasIs(env: Env, db: Db, pool: nat, used: nat, tx: Tx, gas: u64, remaining: u64, refund: u64, first: bool,
                 header: Header)
    requires WellFormed(db) && VmOk(env.vm) && tx.to.Contract? && gas + FreeAt(true, tx, header) < TWO64
    requires RunDeal(env, db, pool, used, tx, gas, remaining, refund, first, header).Ok?
    ensures var c := RunCall(env, db, pool, tx, gas, remaining, header);
            && c.Some?
            && GasCharged(RunDeal(env, db, pool, used, tx, gas, remaining, refund, first, header), pool, used,
                          gas + FreeAt(true, tx, header), remaining, refund, c.value.answer)
  {
    hide RunDeal, ApplyMessage, RunCall, PreApply, FundedFor, FreeAt, RunMoves, Finish, Run, Charged, PayOutput, Closed,
      Flows, SenderFlow, Unpaid, RunOf;
    RunDealShape(env, db, pool, used, tx, gas, remaining, refund, first, header);
    EndByCall(env, db, pool, tx, gas, remaining, header);
    RunIsItsCall(env, db, pool, tx, gas, remaining, header);
    var d, free := FundedFor(db, tx, remaining), FreeAt(true, tx, header);
    MessageShape(env, true, d, pool, tx, gas, ContractDeal, header);
    MessageGas(env, true, d, pool, tx, gas, ContractDeal, header);
    PreApplyPool(d, pool, tx, gas, free, ContractDeal);
    assert (gas + free) % TWO64 == gas + free;
    FinishIs(DealRan(env, db, pool, tx, gas, remaining, header),
             RunCall(env, db, pool, tx, gas, remaining, header).value.answer,
             PreApply(d, pool, tx, gas, free, ContractDeal).pool, tx, gas + free, free);
  }

  /** A deal other than the first stage of a deployment is charged for its call. */
  lemma DealGasIs(env: Env, db: Db, pool: nat, used: nat, x: TxExec, header: Header)
    requires EnvOk(env) && Callable(db, pool, x, header) && ProcessTransaction(env, db, pool, used, x, header).Ok?
    ensures var c := DealCall(env, db, pool, x, header);
            && c.Some?
            && GasCharged(ProcessTransaction(env, db, pool, used, x, header), pool, used,
                          Remaining(x) + FreeAt(true, x.tx, header), Remaining(x), 0, c.value.answer)
  {
    hide ProcessTransaction, RunDeal, RunCall, VmOk, FreeAt, Charged, Callable, Fee;
    CallableParts(db, pool, x, header);
    GasIsPaidFor(db, pool, x, header);
    CallableRuns(env, db, pool, used, x, header);
    RunGasIs(env, AddMark(db, x.tx.id, ContractDeal), pool, used, x.tx, Remaining(x), Remaining(x), 0, x.pre.None?,
             header);
  }

  /** Output is unpaid exactly if the gas left is less than 68 for each byte that is not zero and 4 for each that is. */
  lemma UnpaidIs(r: VmResult)
    ensures Unpaid(r) <==> r.err == NoError && r.gas < A.DataCost(r.ret)
  {
    A.DataCostIs(r.ret);
    NothingCosts();
  }

  /** The machine is called once, by the sender, with all the gas, the data and the value of the transaction. */
  lemma CallIs(env: Env, db: Db, pool: nat, x: TxExec, header: Header)
    requires EnvOk(env) && Callable(db, pool, x, header)
    ensures WellFormed(db) && Remaining(x) + FreeAt(true, x.tx, header) < TWO64
    ensures var c := DealCall(env, db, pool, x, header);
            && c.Some?
            && c.value.answer == env.vm(c.value.before,
                                        VmCall(x.tx.create, x.tx.from, x.tx.to, x.tx.data,
                                               Remaining(x) + FreeAt(true, x.tx, header), x.tx.value, header))
  {
    hide DealCall, VmOk, FreeAt, Called;
    MakesCall(env, db, pool, x, header);
  }

  // ---- nonces -------------------------------------------------------------------------------------------------------

  /** Does the deal leave the chain's nonce alone? The first call on a new contract's chain does. */
  predicate FirstCreation(tx: Tx, header: Header) { tx.create && header.mc != SC && header.number == 1 }

  lemma ReadyNonces(env: Env, db: Db, pool: nat, tx: Tx, gas: u64, remaining: u64, header: Header)
    requires WellFormed(db) && VmOk(env.vm)
    requires PreApply(FundedFor(db, tx, remaining), pool, tx, gas, FreeAt(true, tx, header), ContractDeal).Fine?
    ensures DealReady(env, db, pool, tx, gas, remaining, header).w.nonce == db.w.nonce
  {
    hide Fee, FreeAt, VmOk;
  }

  lemma CallNonces(db: Db, tx: Tx, header: Header)
    requires WellFormed(db)
    ensures var v := AtCall(db, tx, ContractDeal, header).w;
            if FirstCreation(tx, header) then v.nonce == db.w.nonce else A.NonceMoved(db.w, v, header.mc)
  {
  }

  lemma FinishNonces(ran: Ran, pool: nat, tx: Tx, bought: u64, free: u64)
    requires WellFormed(ran.db) && ran.gas <= bought && Finish(true, ran, pool, tx, bought, free).Fine?
    ensures Finish(true, ran, pool, tx, bought, free).db.w.nonce == ran.db.w.nonce
  {
    hide RefundValue, PayOutput, StorageRefund;
  }

  /** A deal moves the nonce of its chain by one before the machine is called, except for the first call on a new
      contract's chain; afterwards the nonces are those of the machine's answer. */
  lemma RunNonces(env: Env, db: Db, pool: nat, used: nat, tx: Tx, gas: u64, remaining: u64, refund: u64, first: bool,
                  header: Header)
    requires WellFormed(db) && VmOk(env.vm) && tx.to.Contract? && gas + FreeAt(true, tx, header) < TWO64
    requires RunDeal(env, db, pool, used, tx, gas, remaining, refund, first, header).Ok?
    ensures var c := RunCall(env, db, pool, tx, gas, remaining, header);
            && c.Some?
            && (if FirstCreation(tx, header) then c.value.before.nonce == db.w.nonce
                else A.NonceMoved(db.w, c.value.before, header.mc))
            && RunDeal(env, db, pool, used, tx, gas, remaining, refund, first, header).db.w.nonce
               == c.value.answer.w.nonce
  {
    hide RunDeal, ApplyMessage, PreApply, FundedFor, FreeAt, RunMoves, Finish, Run, PayOutput, Flows, SenderFlow, Unpaid,
      RunOf, AtCall, A.NonceMoved;
    RunDealShape(env, db, pool, used, tx, gas, remaining, refund, first, header);
    EndByCall(env, db, pool, tx, gas, remaining, header);
    RunIsItsCall(env, db, pool, tx, gas, remaining, header);
    ReadyNonces(env, db, pool, tx, gas, remaining, header);
    var ready := DealReady(env, db, pool, tx, gas, remaining, header);
    CallNonces(ready, tx, header);
    MovedFromSame(db.w, ready.w, AtCall(ready, tx, ContractDeal, header).w, header.mc);
    var d, free := FundedFor(db, tx, remaining), FreeAt(true, tx, header);
    MessageShape(env, true, d, pool, tx, gas, ContractDeal, header);
    var p := PreApply(d, pool, tx, gas, free, ContractDeal);
    FinishNonces(DealRan(env, db, pool, tx, gas, remaining, header), p.pool, tx, p.value.1, free);
    ClosedNonces(DealEnd(env, db, pool, tx, gas, remaining, header).db, tx.from);
  }

  lemma MovedFromSame(w: World, v: World, u: World, a: Address)
    requires v.nonce == w.nonce
    ensures A.NonceMoved(v, u, a) ==> A.NonceMoved(w, u, a)
  {
    A.SameNonces(w, v);
  }

  lemma ClosedNonces(t: Db, from: Address)
    requires WellFormed(t)
    ensures Closed(t, from).w.nonce == t.w.nonce
  {
  }

  lemma DealNonces(env: Env, db: Db, pool: nat, used: nat, x: TxExec, header: Header)
    requires EnvOk(env) && Callable(db, pool, x, header) && ProcessTransaction(env, db, pool, used, x, header).Ok?
    ensures var c := DealCall(env, db, pool, x, header);
            && c.Some?
            && (if FirstCreation(x.tx, header) then c.value.before.nonce == db.w.nonce
                else A.NonceMoved(db.w, c.value.before, header.mc))
            && ProcessTransaction(env, db, pool, used, x, header).db.w.nonce == c.value.answer.w.nonce
  {
    hide ProcessTransaction, RunDeal, RunCall, VmOk, FreeAt, Callable, Fee, A.NonceMoved;
    CallableParts(db, pool, x, header);
    GasIsPaidFor(db, pool, x, header);
    CallableRuns(env, db, pool, used, x, header);
    RunNonces(env, AddMark(db, x.tx.id, ContractDeal), pool, used, x.tx, Remaining(x), Remaining(x), 0, x.pre.None?,
              header);
  }

  // ---- flows --------------------------------------------------------------------------------------------------------

  /** What a call that is paid for leaves a user with: the sender all it has now, others what they gained over their
      base. */
  function Due(db: Db, from: Address, w: World, a: Address): (n: int) {
    if a == from then Bal(w, a) else Bal(w, a) - Base(db, a)
  }

  lemma FlowsAreDue(db: Db, t: Db, tx: Tx, gas: u64, w: World)
    requires WellFormed(t) && tx.from.User? && t.w.bal.Keys == w.bal.Keys && tx.from in t.w.bal
    requires forall a :: a != tx.from ==> Bal(t.w, a) == Bal(w, a) && Base(t, a) == Base(db, a)
    requires Diff(t, tx.from) == Bal(w, tx.from) - tx.value - Fee(gas, tx.price)
    ensures var fs := SenderFlow(Flows(t, Some(tx.from)), tx, gas);
            forall a: Address :: (a in fs <==> a.User? && Due(db, tx.from, w, a) > 0)
                                 && (a in fs ==> fs[a] == Due(db, tx.from, w, a))
  {
    hide Flows, Fee;
    FlowsAre(t, Some(tx.from));
  }

  lemma Fits(n: nat)
    requires n < TWO64
    ensures n % TWO64 == n
  {
  }

  lemma EndBase(env: Env, db: Db, pool: nat, tx: Tx, gas: u64, header: Header)
    requires WellFormed(db) && VmOk(env.vm) && tx.to.Contract? && gas + FreeAt(true, tx, header) < TWO64
    requires DealEnd(env, db, pool, tx, gas, gas, header).Fine?
    ensures DealEnd(env, db, pool, tx, gas, gas, header).value.gasUsed <= gas + FreeAt(true, tx, header)
    ensures Base(DealEnd(env, db, pool, tx, gas, gas, header).db, tx.from) == Fee(gas, tx.price) + tx.value
  {
    hide DealEnd, PreApply, FreeAt, RunMoves, Fee, Bal, Base, PayOutput, DealReady, DealRan;
    DealRun(env, db, pool, tx, gas, gas, header);
    Fits(gas + FreeAt(true, tx, header));
  }

  /** What the end of a run has in the sender's account. */
  lemma SenderDiff(env: Env, db: Db, pool: nat, tx: Tx, gas: u64, header: Header)
    requires WellFormed(db) && VmOk(env.vm) && tx.to.Contract? && tx.from.User?
    requires GasCovered(tx, gas, gas, 0, header) && gas + FreeAt(true, tx, header) < TWO64
    requires DealEnd(env, db, pool, tx, gas, gas, header).Fine?
    requires RunCall(env, db, pool, tx, gas, gas, header).Some?
    requires Bal(RunCall(env, db, pool, tx, gas, gas, header).value.before, tx.from) == tx.value
    ensures var t := DealEnd(env, db, pool, tx, gas, gas, header);
            Diff(t.db, tx.from)
            == Bal(RunCall(env, db, pool, tx, gas, gas, header).value.answer.w, tx.from) - tx.value
               - Fee(t.value.gasUsed, tx.price)
  {
    hide DealEnd, RunCall, PreApply, FundedFor, FreeAt, RunMoves, Fee, GasCovered, NetFee, Bal, Base, DealReady, DealRan;
    RunIsItsCall(env, db, pool, tx, gas, gas, header);
    DealBalance(env, db, pool, tx, gas, gas, header, tx.from);
    EndBase(env, db, pool, tx, gas, header);
    NetFeeOfDeal(tx, gas, gas, 0, header, DealEnd(env, db, pool, tx, gas, gas, header).value.gasUsed);
  }

  /** The flows of a deal that does not fail: to each user exactly what is due to it. */
  lemma DealFlows(env: Env, db: Db, pool: nat, used: nat, x: TxExec, header: Header)
    requires EnvOk(env) && Callable(db, pool, x, header) && ProcessTransaction(env, db, pool, used, x, header).Ok?
    requires !ProcessTransaction(env, db, pool, used, x, header).receipt.failed
    ensures var c := DealCall(env, db, pool, x, header);
            var fs := ProcessTransaction(env, db, pool, used, x, header).receipt.flows;
            && c.Some?
            && forall a: Address :: (a in fs <==> a.User? && Due(db, x.tx.from, c.value.answer.w, a) > 0)
                                    && (a in fs ==> fs[a] == Due(db, x.tx.from, c.value.answer.w, a))
  {
    hide ProcessTransaction, RunDeal, RunCall, DealEnd, VmOk, FreeAt, Callable, Fee, Flows, SenderFlow, Closed, Bal, Base,
      Due, GasCovered, Unpaid, Diff, PreApply, RunMoves;
    CallableParts(db, pool, x, header);
    GasIsPaidFor(db, pool, x, header);
    MakesCall(env, db, pool, x, header);
    CallableRuns(env, db, pool, used, x, header);
    var db1, gas := AddMark(db, x.tx.id, ContractDeal), Remaining(x);
    DealCovered(db, pool, x, header);
    RunDealShape(env, db1, pool, used, x.tx, gas, gas, 0, x.pre.None?, header);
    EndByCall(env, db1, pool, x.tx, gas, gas, header);
    DealRun(env, db1, pool, x.tx, gas, gas, header);
    var t, c := DealEnd(env, db1, pool, x.tx, gas, gas, header), RunCall(env, db1, pool, x.tx, gas, gas, header).value;
    SenderHas(db, x.tx, c.before, header);
    SenderDiff(env, db1, pool, x.tx, gas, header);
    A.MarksOnly(db, db1);
    FlowsAreDue(db, t.db, x.tx, t.value.gasUsed, c.answer.w);
  }

  lemma DealCovered(db: Db, pool: nat, x: TxExec, header: Header)
    requires Callable(db, pool, x, header)
    ensures GasCovered(x.tx, Remaining(x), Remaining(x), 0, header)
  {
    DealIsCovered(x, header);
  }

  lemma SenderHas(db: Db, tx: Tx, w: World, header: Header)
    requires w.bal == Called(db, tx, header)
    ensures Bal(w, tx.from) == tx.value && tx.from in w.bal
  {
  }
}
