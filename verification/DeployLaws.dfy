/** The first stage of a deployment, call by call: a rehearsal on a chain of its own, then a call on the system chain. */
module DeployLaws {
  import opened Options
  import opened Ledger
  import opened Transition
  import opened Processor
  import opened GasLaws
  import opened Conservation
  import opened DealCalls
  import opened DealLaws
  import A = ActionLaws

  /** A deployment that has come to the system chain and has not been dealt with. */
  predicate Deployable(db: Db, pool: nat, x: TxExec, header: Header) {
    && WellFormed(db) && DealReadyToRun(x) && header.number >= 1 && x.tx.create && header.mc == SC
    && x.action != SCIdleContractDeal && x.pre.Some? && !x.pre.value.failed
    && (x.tx.id, ContractDeal) !in db.marks && pool < TWO64
  }

  // ---- the rehearsal ------------------------------------------------------------------------------------------------

  /** It runs in the first unit of the contract that the system chain's nonce names. */
  function Stage(env: Env, db: Db): (h: Header) { Header(env.newContract(Nonce(db.w, SC)), 1, 0, 0) }

  /** On the genesis accounts, with just the value in the sender's. */
  function StageWorld(env: Env, tx: Tx): (w: World) { env.genesis.(bal := env.genesis.bal[tx.from := tx.value]) }

  /** What the machine answers there to a creation with all the remaining gas. */
  function FirstAnswer(env: Env, db: Db, x: TxExec): (r: VmResult) {
    env.vm(StageWorld(env, x.tx),
           VmCall(true, x.tx.from, x.tx.to, x.tx.data, Remaining(x), x.tx.value, Stage(env, db)))
  }

  ghost predicate StageOk(env: Env, tx: Tx, gas: u64, pool: nat, h: Header) {
    && VmOk(env.vm) && tx.create && tx.to.Contract? && tx.from.User? && !tx.IsFree()
    && h.mc != SC && h.number == 1 && gas <= pool < TWO64 && Fee(gas, tx.price) < TWO64
  }

  ghost function StageDb(env: Env, tx: Tx, gas: u64): (r: Db)
    ensures WellFormed(r)
  {
    RehearsalDb(env, tx.from, Fee(gas, tx.price) + tx.value)
  }

  /** Whatever the sender's balance is, it is funded anew. */
  lemma StageDbIs(env: Env, tx: Tx, gas: u64)
    ensures var d := StageDb(env, tx, gas);
            && d.w.nonce == env.genesis.nonce && d.w.store == env.genesis.store && d.w.refund == env.genesis.refund
            && d.w.bal[tx.from := tx.value] == env.genesis.bal[tx.from := tx.value]
  {
    hide Fee;
  }

  lemma ReadyKeeps(db: Db, pool: nat, tx: Tx, gas: u64, remaining: u64, header: Header)
    requires WellFormed(db)
    ensures var p := PreApply(FundedFor(db, tx, remaining), pool, tx, gas, 0, ContractDeal);
            p.db.w.nonce == db.w.nonce && p.db.w.store == db.w.store && p.db.w.refund == db.w.refund
  {
    hide Fee, BuyCost, IntrinsicGas, Low64;
  }

  lemma AtCallKeeps(ready: Db, tx: Tx, header: Header)
    requires WellFormed(ready) && tx.create && header.mc != SC && header.number == 1
    ensures AtCall(ready, tx, ContractDeal, header).w == ready.w
  {
  }

  lemma StageCall(env: Env, pool: nat, tx: Tx, gas: u64, h: Header)
    requires StageOk(env, tx, gas, pool, h)
    ensures var w := StageWorld(env, tx);
            RunCall(env, StageDb(env, tx, gas), pool, tx, gas, gas, h)
            == Some(Call(w, env.vm(w, VmCall(true, tx.from, tx.to, tx.data, gas, tx.value, h))))
  {
    hide PreApply, FundedFor, StageDb, Fee, VmOk, AtCall;
    var d := StageDb(env, tx, gas);
    StageDbIs(env, tx, gas);
    ReadyKeeps(d, pool, tx, gas, gas, h);
    RehearsedIsReady(d, pool, tx, gas, gas, h);
    NoFee(tx.price);
    CallAfterPurchase(env, d, pool, tx, gas, gas, h);
    AtCallKeeps(DealReady(env, d, pool, tx, gas, gas, h), tx, h);
  }

  lemma NoFee(price: u64)
    ensures Fee(0, price) == 0
  {
  }

  /** The rehearsal is charged for its call, and fails if that fails or its gas does not pay for what it returns. */
  lemma StageRun(env: Env, pool: nat, tx: Tx, gas: u64, h: Header, r: VmResult)
    requires StageOk(env, tx, gas, pool, h)
    requires r == env.vm(StageWorld(env, tx), VmCall(true, tx.from, tx.to, tx.data, gas, tx.value, h))
    ensures r.gas <= gas && Charged(gas, r) <= gas
    ensures var n := RunDeal(env, StageDb(env, tx, gas), pool, 0, tx, gas, gas, 0, false, h);
            && n.Ok? && n.pool == pool - Charged(gas, r) && n.receipt.gasUsed == Charged(gas, r)
            && (n.receipt.failed <==> !PaysOutput(r))
  {
    hide RunDeal, StageDb, Fee, VmOk, RunCall, Charged, RunEffect, Unpaid, PaysOutput;
    var d := StageDb(env, tx, gas);
    StageCall(env, pool, tx, gas, h);
    RunDealErrIff(env, d, pool, 0, tx, gas, gas, 0, false, h);
    RunGasIs(env, d, pool, 0, tx, gas, gas, 0, false, h);
    StageCovered(tx, gas, h);
    RunDealByCall(env, d, pool, 0, tx, gas, gas, 0, false, h);
    PaidOr(r);
    ChargedAtMost(gas, r);
  }

  lemma StageCovered(tx: Tx, gas: u64, h: Header)
    requires h.mc != SC && Fee(gas, tx.price) < TWO64
    ensures GasCovered(tx, gas, gas, 0, h)
  {
  }

  lemma PaidOr(r: VmResult)
    ensures PaysOutput(r) <==> r.err == NoError && !Unpaid(r)
  {
    UnpaidIs(r);
  }

  lemma ChargedAtMost(gas: nat, r: VmResult)
    requires r.gas <= gas
    ensures Charged(gas, r) <= gas
  {
    hide A.DataCost;
  }

  // ---- the first stage ----------------------------------------------------------------------------------------------

  ghost function StageOutcome(env: Env, db: Db, pool: nat, x: TxExec): (n: Outcome)
    requires VmOk(env.vm)
  {
    RunDeal(env, StageDb(env, x.tx, Remaining(x)), pool, 0, x.tx, Remaining(x), Remaining(x), 0, false, Stage(env, db))
  }

  lemma DeployUnfolds(env: Env, db: Db, pool: nat, used: nat, x: TxExec, header: Header)
    requires EnvOk(env) && Deployable(db, pool, x, header)
    ensures var db1, n := AddMark(db, x.tx.id, ContractDeal), StageOutcome(env, db, pool, x);
            && Rehearsal(env, db1, pool, x.tx, Remaining(x), false, false, header) == n
            && ProcessTransaction(env, db, pool, used, x, header)
               == if n.Err? && n.error == GasLimitReached then Err(db1, n.pool, GasLimitReached)
                  else if n.Err? || n.receipt.failed then FailedRehearsal(db1, pool, used, Remaining(x), n)
                  else RunDeal(env, db1, n.pool, used, x.tx, ForceSafeSub(Remaining(x), n.receipt.gasUsed),
                               Remaining(x), n.receipt.gasUsed, false, header)
  {
    hide RunDeal, Fee, RehearsalDb, FailedRehearsal, Nonce;
    DeployFacts(x, header);
  }

  lemma DeployStage(env: Env, db: Db, pool: nat, x: TxExec, header: Header)
    requires EnvOk(env) && Deployable(db, pool, x, header) && Remaining(x) <= pool
    ensures StageOk(env, x.tx, Remaining(x), pool, Stage(env, db))
  {
    hide Fee, VmOk, Nonce;
    DeployFacts(x, header);
  }

  /** If the pool does not cover the gas, nothing is run; the deal is marked and the pool is as it was. */
  lemma DeployIsShort(env: Env, db: Db, pool: nat, used: nat, x: TxExec, header: Header)
    requires EnvOk(env) && Deployable(db, pool, x, header) && pool < Remaining(x)
    ensures ProcessTransaction(env, db, pool, used, x, header)
         == Err(AddMark(db, x.tx.id, ContractDeal), pool, GasLimitReached)
  {
    hide ProcessTransaction, PreApply, Fee, StageDb, VmOk, FailedRehearsal, CloseDeal, Nonce, Rehearsal, Run, Finish;
    DeployUnfolds(env, db, pool, used, x, header);
    DeployFacts(x, header);
    var d := FundedFor(StageDb(env, x.tx, Remaining(x)), x.tx, Remaining(x));
    A.StagePays(d, pool, x.tx, Remaining(x), 0, ContractDeal);
  }

  /** If the rehearsal's call fails or cannot pay for what it returns, the deal fails at its price: a mark is all that
      happens to the chain. */
  lemma DeployFails(env: Env, db: Db, pool: nat, used: nat, x: TxExec, header: Header)
    requires EnvOk(env) && Deployable(db, pool, x, header) && Remaining(x) <= pool
    requires !PaysOutput(FirstAnswer(env, db, x))
    ensures var r := FirstAnswer(env, db, x);
            && r.gas <= Remaining(x) && Charged(Remaining(x), r) <= Remaining(x)
            && var n := Charged(Remaining(x), r);
               ProcessTransaction(env, db, pool, used, x, header)
               == Ok(Rebase(AddMark(db, x.tx.id, ContractDeal)), pool - n,
                     Receipt(ContractDeal, true, n, Remaining(x) - n, used + n, map[], []))
  {
    hide ProcessTransaction, RunDeal, Fee, StageDb, VmOk, Nonce, Rehearsal, Charged, PaysOutput;
    DeployUnfolds(env, db, pool, used, x, header);
    DeployStage(env, db, pool, x, header);
    StageRun(env, pool, x.tx, Remaining(x), Stage(env, db), FirstAnswer(env, db, x));
  }

  /** A rehearsal that ends in any other error, which no valid transaction brings about, costs what it drained from the
      pool, and the pool pays it once more. */
  lemma ErrorDrainsTwice(db: Db, pool: nat, used: nat, remaining: u64, n: Outcome)
    requires WellFormed(db) && n.Err? && n.pool <= pool < TWO64
    ensures var drained := pool - n.pool;
            FailedRehearsal(db, pool, used, remaining, n)
            == if n.pool < drained then Err(db, n.pool, GasLimitReached)
               else Ok(Rebase(db), n.pool - drained,
                       Receipt(ContractDeal, true, drained, if drained <= remaining then remaining - drained else 0,
                               used + drained, map[], []))
  {
    hide Rebase, Flows;
    assert Low64(pool) == pool && Low64(n.pool) == n.pool;
  }

  /** What the call on the system chain owes to the machine's answer, after a rehearsal that used `n` gas. */
  ghost predicate Answered(db: Db, o: Outcome, pool: nat, used: nat, gas: u64, n: nat, c: Option<Call>) {
    && o.Ok? && c.Some? && n <= gas && n <= pool
    && A.NonceMoved(db.w, c.value.before, SC) && GasCharged(o, pool - n, used, gas - n, gas, n, c.value.answer)
    && (o.receipt.failed <==> !PaysOutput(c.value.answer))
    && o.receipt.output == (if o.receipt.failed then [] else c.value.answer.ret) && o.receipt.flows == map[]
  }

  lemma SecondRun(env: Env, db: Db, pool: nat, used: nat, tx: Tx, gas: u64, n: u64, header: Header)
    requires WellFormed(db) && VmOk(env.vm) && tx.create && tx.to.Contract? && tx.from.User? && header.mc == SC
    requires FreeAt(true, tx, header) == 0 && Fee(gas, tx.price) < TWO64 && n <= gas <= pool < TWO64
    ensures Answered(db, RunDeal(env, db, pool - n, used, tx, gas - n, gas, n, false, header), pool, used, gas, n,
                     RunCall(env, db, pool - n, tx, gas - n, gas, header))
  {
    hide RunDeal, Fee, VmOk, Charged, PaysOutput, RunCall, Unpaid, RunEffect, A.NonceMoved, Flows, SenderFlow, DealEnd,
      Closed, FreeAt, CallEffect, RunMoves, NoStaleGain, GasCharged;
    RunDealErrIff(env, db, pool - n, used, tx, gas - n, gas, n, false, header);
    RunDealShape(env, db, pool - n, used, tx, gas - n, gas, n, false, header);
    RunGasIs(env, db, pool - n, used, tx, gas - n, gas, n, false, header);
    RunDealByCall(env, db, pool - n, used, tx, gas - n, gas, n, false, header);
    RunNonces(env, db, pool - n, used, tx, gas - n, gas, n, false, header);
    PaidOr(RunCall(env, db, pool - n, tx, gas - n, gas, header).value.answer);
  }

  /** Otherwise the system contract is called with the gas the rehearsal left and no value. The pool pays for both calls,
      the receipt for the second one, and for the first only if the second fails. */
  lemma DeployRuns(env: Env, db: Db, pool: nat, used: nat, x: TxExec, header: Header)
    requires EnvOk(env) && Deployable(db, pool, x, header) && Remaining(x) <= pool
    requires PaysOutput(FirstAnswer(env, db, x))
    ensures FirstAnswer(env, db, x).gas <= Remaining(x) && Charged(Remaining(x), FirstAnswer(env, db, x)) <= Remaining(x)
    ensures var n := Charged(Remaining(x), FirstAnswer(env, db, x));
            var c := DealCall(env, db, pool, x, header);
            && Answered(db, ProcessTransaction(env, db, pool, used, x, header), pool, used, Remaining(x), n, c)
            && c.value.before.bal == CalledWith(db, x.tx, x.tx.value + Fee(n, x.tx.price), header)
            && c.value.answer == env.vm(c.value.before, VmCall(false, x.tx.from, x.tx.to, x.tx.data, Remaining(x) - n, 0,
                                                               header))
  {
    hide ProcessTransaction, RunDeal, Fee, StageDb, VmOk, Nonce, Rehearsal, Charged, PaysOutput, RunCall, GasCharged,
      A.NonceMoved;
    var db1, gas, r := AddMark(db, x.tx.id, ContractDeal), Remaining(x), FirstAnswer(env, db, x);
    DeployUnfolds(env, db, pool, used, x, header);
    DeployStage(env, db, pool, x, header);
    StageRun(env, pool, x.tx, gas, Stage(env, db), r);
    DeployFacts(x, header);
    DeployMakesCall(env, db, pool, x, header);
    SecondRun(env, db1, pool, used, x.tx, gas, Charged(gas, r), header);
  }
}
