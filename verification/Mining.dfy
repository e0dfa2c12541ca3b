/** Building a unit from a queue of messages, and replaying it: the miner's and the validator's view of execution. */
module Mining {
  import opened Options
  import opened Ledger
  import opened Transition
  import opened Processor
  import opened GasLaws
  import opened Conservation
  import opened DealCalls

  // ---- more gas in the pool changes nothing else ---------------------------------------------------------------

  /** The same outcome with `d` more gas in the pool. */
  function More(o: Outcome, d: nat): (r: Outcome) {
    match o
    case Ok(db, pool, receipt) => Ok(db, pool + d, receipt)
    case Err(db, pool, error) => Err(db, pool + d, error)
  }

  /** Did the action end for a reason other than the pool? */
  predicate Decided(o: Outcome) { o.Ok? || o.error != GasLimitReached }

  lemma PreApplyMore(db: Db, pool: nat, d: nat, tx: Tx, gas: u64, free: u64, action: TxAction)
    requires WellFormed(db) && pool + d < TWO64
    ensures var p := PreApply(db, pool, tx, gas, free, action);
            var q := PreApply(db, pool + d, tx, gas, free, action);
            && (p.Fine? ==> q == Fine(p.db, p.pool + d, p.value))
            && (p.Fail? && p.error != GasLimitReached ==> q == Fail(p.db, p.pool + d, p.error))
  {
    hide BuyCost, Fee, Touch, SubBalance, IntrinsicGas;
  }

  lemma FinishMore(vm: bool, ran: Ran, pool: nat, d: nat, tx: Tx, bought: u64, free: u64)
    requires WellFormed(ran.db) && ran.gas <= bought
    ensures var t := Finish(vm, ran, pool, tx, bought, free);
            Finish(vm, ran, pool + d, tx, bought, free)
            == if t.Fine? then Fine(t.db, t.pool + d, t.value) else Fail(t.db, t.pool + d, t.error)
  {
    hide RefundValue, StorageRefund, PayOutput, AddBalance;
  }

  lemma MessageMore(env: Env, vm: bool, db: Db, pool: nat, d: nat, tx: Tx, gas: u64, action: TxAction, header: Header)
    requires WellFormed(db) && VmOk(env.vm) && pool + d < TWO64
    ensures var t := ApplyMessage(env, vm, db, pool, tx, gas, action, header);
            var u := ApplyMessage(env, vm, db, pool + d, tx, gas, action, header);
            && (t.Fine? ==> u == Fine(t.db, t.pool + d, t.value))
            && (t.Fail? && t.error != GasLimitReached ==> u == Fail(t.db, t.pool + d, t.error))
  {
    hide PreApply, Run, Finish, FreeGas, VmOk;
    var free := FreeAt(vm, tx, header);
    PreApplyMore(db, pool, d, tx, gas, free, action);
    var p := PreApply(db, pool, tx, gas, free, action);
    if p.Fine? {
      var db1 := Touch(p.db, tx.from);
      RunGas(env, db1, tx, p.value.0, action, header);
      FinishMore(vm, Run(env, db1, tx, p.value.0, action, header), p.pool, d, tx, p.value.1, free);
    }
  }

  lemma CloseMore(db: Db, pool: nat, d: nat, used: nat, tx: Tx, a: Applied, remaining: u64, refund: u64, header: Header)
    requires WellFormed(db)
    ensures CloseDeal(db, pool + d, used, tx, a, remaining, refund, header)
         == More(CloseDeal(db, pool, used, tx, a, remaining, refund, header), d)
  {
    hide CreateReceipt, SenderFlow, SetBalance, Rebase;
  }

  lemma RunDealMore(env: Env, db: Db, pool: nat, d: nat, used: nat, tx: Tx, gas: u64, remaining: u64, refund: u64,
                    first: bool, header: Header)
    requires WellFormed(db) && VmOk(env.vm) && pool + d < TWO64
    ensures var o := RunDeal(env, db, pool, used, tx, gas, remaining, refund, first, header);
            Decided(o) ==> RunDeal(env, db, pool + d, used, tx, gas, remaining, refund, first, header) == More(o, d)
  {
    hide ApplyMessage, CloseDeal, Funded, Fee;
    var f := Funded(db, tx.from, Fee(remaining, tx.price) + tx.value);
    MessageMore(env, true, f, pool, d, tx, gas, ContractDeal, header);
    var t := ApplyMessage(env, true, f, pool, tx, gas, ContractDeal, header);
    if t.Fine? {
      CloseMore(t.db, t.pool, d, used, tx, t.value, remaining, refund, header);
    }
  }

  lemma FailedRehearsalMore(db: Db, pool: nat, d: nat, used: nat, remaining: u64, n: Outcome)
    requires WellFormed(db) && pool + d < TWO64 && n.pool <= pool && (n.Ok? ==> n.receipt.failed)
    ensures var o := FailedRehearsal(db, pool, used, remaining, n);
            Decided(o) ==> FailedRehearsal(db, pool + d, used, remaining, More(n, d)) == More(o, d)
  {
    hide CreateReceipt;
  }

  lemma {:induction false} ApplyDealMore(env: Env, db: Db, pool: nat, d: nat, used: nat, tx: Tx, gas: u64,
                                         remaining: u64, idle: bool, first: bool, header: Header)
    requires WellFormed(db) && EnvOk(env) && pool + d < TWO64
    ensures var o := ApplyDeal(env, db, pool, used, tx, gas, remaining, idle, first, header);
            Decided(o) ==> ApplyDeal(env, db, pool + d, used, tx, gas, remaining, idle, first, header) == More(o, d)
    decreases if header.mc == SC then 1 else 0
  {
    hide RunDeal, FailedRehearsal, Fee, RehearsalDb, Nonce;
    if !(tx.create && header.mc == SC) {
      RunDealMore(env, db, pool, d, used, tx, gas, remaining, 0, first, header);
    } else {
      var h := Header(env.newContract(Nonce(db.w, header.mc)), 1, 0, 0);
      var r := RehearsalDb(env, tx.from, Fee(remaining, tx.price) + tx.value);
      var n := ApplyDeal(env, r, pool, 0, tx, gas, remaining, idle, first, h);
      ApplyDealMore(env, r, pool, d, 0, tx, gas, remaining, idle, first, h);
      ApplyDealPool(env, r, pool, 0, tx, gas, remaining, idle, first, h);
      if n.Err? || n.receipt.failed {
        FailedRehearsalMore(db, pool, d, used, remaining, n);
      } else {
        RunDealMore(env, db, n.pool, d, used, tx, ForceSafeSub(gas, n.receipt.gasUsed), remaining, n.receipt.gasUsed,
                    first, header);
      }
    }
  }

  /** An action that does not fail for want of gas in the pool leaves, with more gas in the pool, the same state, the
      same receipt or error, and as much more gas in the pool. */
  lemma ProcessMore(env: Env, db: Db, pool: nat, d: nat, used: nat, x: TxExec, header: Header)
    requires WellFormed(db) && EnvOk(env) && pool + d < TWO64
    ensures var o := ProcessTransaction(env, db, pool, used, x, header);
            Decided(o) ==> ProcessTransaction(env, db, pool + d, used, x, header) == More(o, d)
  {
    hide ApplyMessage, PreApply, ApplyDeal, CreateReceipt, Fee, Rebase, Revert, Touch, AddBalance, SubBalance,
      BumpNonce, ApplyToContract;
    match x.action {
      case TransferPayment =>
        MessageMore(env, false, db, pool, d, x.tx, x.tx.gas, TransferPayment, header);
      case ContractFreeze =>
        PreApplyMore(AddMark(db, x.tx.id, ContractFreeze), pool, d, x.tx, x.tx.gas, FreeAt(true, x.tx, header),
                     ContractFreeze);
      case ContractDeal => ToContractMore(env, db, pool, d, used, x, header);
      case PowTxContractDeal => ToContractMore(env, db, pool, d, used, x, header);
      case SCIdleContractDeal => ToContractMore(env, db, pool, d, used, x, header);
      case _ =>
    }
  }

  lemma ToContractMore(env: Env, db: Db, pool: nat, d: nat, used: nat, x: TxExec, header: Header)
    requires WellFormed(db) && EnvOk(env) && pool + d < TWO64
    ensures var o := ApplyToContract(env, db, pool, used, x, header);
            Decided(o) ==> ApplyToContract(env, db, pool + d, used, x, header) == More(o, d)
  {
    hide ApplyDeal;
    ApplyDealMore(env, AddMark(db, x.tx.id, ContractDeal), pool, d, used, x.tx, Remaining(x), Remaining(x),
                  x.action == SCIdleContractDeal, x.pre.None?, header);
  }

  // ---- what an error leaves behind ------------------------------------------------------------------------------

  /** No account of `db` is measured from another base in `e`, and accounts new in `e` are measured from nothing. */
  predicate KeepsBase(db: Db, e: Db) {
    && (forall a :: a in db.base ==> a in e.base && e.base[a] == db.base[a])
    && (forall a :: a in e.base && a !in db.base ==> e.base[a] == 0)
  }

  /** Going back to a snapshot restores everything but the measuring bases. */
  lemma RevertIff(e: Db, snap: Db)
    requires WellFormed(snap)
    ensures Revert(e, snap) == snap <==> forall a :: a in snap.base && a in e.base ==> e.base[a] == snap.base[a]
  {
    var r := Revert(e, snap);
    if forall a :: a in snap.base && a in e.base ==> e.base[a] == snap.base[a] {
      assert r.base == snap.base;
    } else {
      var a :| a in snap.base && a in e.base && e.base[a] != snap.base[a];
      assert r.base[a] == e.base[a];
    }
  }

  lemma PreApplyBase(db: Db, pool: nat, tx: Tx, gas: u64, free: u64, action: TxAction)
    requires WellFormed(db)
    ensures KeepsBase(db, PreApply(db, pool, tx, gas, free, action).db)
  {
    hide BuyCost, Fee, IntrinsicGas;
  }

  lemma RunBase(env: Env, db: Db, tx: Tx, gas: u64, action: TxAction, header: Header)
    requires WellFormed(db) && VmOk(env.vm) && tx.from in db.w.bal
    ensures KeepsBase(db, Run(env, db, tx, gas, action, header).db)
  {
    hide Run, VmOk, KeepsBase;
    if tx.to.Contract? {
      CallRunBase(env, db, tx, gas, action, header);
    } else {
      TransferRunBase(env, db, tx, gas, action, header);
    }
  }

  lemma TransferRunBase(env: Env, db: Db, tx: Tx, gas: u64, action: TxAction, header: Header)
    requires WellFormed(db) && tx.from in db.w.bal && tx.to.User?
    ensures KeepsBase(db, Run(env, db, tx, gas, action, header).db)
  {
    hide AddBalance, SubBalance, Touch, BumpNonce, Bal, Run;
    var db1 := AddMark(db, tx.id, action);
    NonceBase(db1, header.mc);
    var db2 := if tx.create && header.mc != SC && header.number == 1 then db1 else BumpNonce(db1, header.mc);
    PlainRun(env, db, db2, tx, gas, action, header);
    if Bal(db2.w, tx.from) >= tx.value {
      TransferBase(db2, tx.from, tx.to, tx.value);
    }
  }

  lemma PlainRun(env: Env, db: Db, db2: Db, tx: Tx, gas: u64, action: TxAction, header: Header)
    requires WellFormed(db) && tx.from in db.w.bal && tx.to.User? && WellFormed(db2)
    requires var db1 := AddMark(db, tx.id, action);
             db2 == if tx.create && header.mc != SC && header.number == 1 then db1 else BumpNonce(db1, header.mc)
    ensures Run(env, db, tx, gas, action, header).db
         == if Bal(db2.w, tx.from) < tx.value then db2
            else AddBalance(SubBalance(Touch(db2, tx.to), tx.from, tx.value), tx.to, tx.value)
  {
    hide AddBalance, SubBalance, Touch, BumpNonce, Bal, WithWorld;
  }

  lemma NonceBase(db: Db, a: Address)
    requires WellFormed(db)
    ensures WellFormed(BumpNonce(db, a)) && KeepsBase(db, BumpNonce(db, a))
  {
  }

  lemma SetBase(db: Db, a: Address, v: nat)
    requires WellFormed(db)
    ensures KeepsBase(db, SetBalance(db, a, v)) && KeepsBase(db, Touch(db, a))
  {
  }

  lemma AddBase(db: Db, a: Address, v: nat)
    requires WellFormed(db)
    ensures KeepsBase(db, AddBalance(db, a, v))
  {
    hide SetBalance, KeepsBase;
    SetBase(db, a, Bal(db.w, a) + v);
  }

  lemma SubBase(db: Db, a: Address, v: nat)
    requires WellFormed(db) && v <= Bal(db.w, a)
    ensures KeepsBase(db, SubBalance(db, a, v))
  {
    hide SetBalance, KeepsBase;
    SetBase(db, a, Bal(db.w, a) - v);
  }

  lemma KeepsTwice(d: Db, e: Db, f: Db)
    requires KeepsBase(d, e) && KeepsBase(e, f)
    ensures KeepsBase(d, f)
  {
  }

  lemma TransferBase(db: Db, from: Address, to: Address, v: nat)
    requires WellFormed(db) && v <= Bal(db.w, from)
    ensures KeepsBase(db, AddBalance(SubBalance(Touch(db, to), from, v), to, v))
  {
    hide KeepsBase, AddBalance, SubBalance, Touch, Bal, WellFormed;
    var d := Touch(db, to);
    SetBase(db, to, 0);
    var e := SubBalance(d, from, v);
    SubBase(d, from, v);
    AddBase(e, to, v);
    KeepsTwice(db, d, e);
    KeepsTwice(db, e, AddBalance(e, to, v));
  }

  lemma CallRunBase(env: Env, db: Db, tx: Tx, gas: u64, action: TxAction, header: Header)
    requires WellFormed(db) && VmOk(env.vm) && tx.from in db.w.bal && tx.to.Contract?
    ensures KeepsBase(db, Run(env, db, tx, gas, action, header).db)
  {
    hide Run, AtCall, CallOf, WithWorld, KeepsBase, TotalBalance;
    RunIsCall(env, db, tx, gas, action, header);
    var at := AtCall(db, tx, action, header);
    var out := env.vm(at.w, CallOf(tx, gas, header));
    assert VmStepOk(at.w, CallOf(tx, gas, header), out);
    CallBase(db, tx, action, header, out.w);
  }

  lemma CallBase(db: Db, tx: Tx, action: TxAction, header: Header, w: World)
    requires WellFormed(db) && AtCall(db, tx, action, header).w.bal.Keys <= w.bal.Keys
    ensures KeepsBase(db, WithWorld(AtCall(db, tx, action, header), w))
  {
  }

  lemma KeepsItself(db: Db)
    ensures KeepsBase(db, db)
  {
  }

  lemma FinishBase(vm: bool, ran: Ran, pool: nat, tx: Tx, bought: u64, free: u64)
    requires WellFormed(ran.db) && ran.gas <= bought
    ensures KeepsBase(ran.db, Finish(vm, ran, pool, tx, bought, free).db)
  {
    hide AddBalance, PayOutput, StorageRefund, RefundValue, KeepsBase, Bal;
    var (rest, short) := PayOutput(ran);
    var used: u64 := bought - rest - StorageRefund(ran.db.w, bought - rest, vm);
    AddBase(ran.db, tx.from, RefundValue(bought, free, used, tx.price));
    KeepsItself(ran.db);
  }

  lemma MessageBase(env: Env, vm: bool, db: Db, pool: nat, tx: Tx, gas: u64, action: TxAction, header: Header)
    requires WellFormed(db) && VmOk(env.vm)
    ensures KeepsBase(db, ApplyMessage(env, vm, db, pool, tx, gas, action, header).db)
  {
    hide PreApply, Run, FreeGas, VmOk, Finish, KeepsBase, Touch;
    var free := FreeAt(vm, tx, header);
    PreApplyBase(db, pool, tx, gas, free, action);
    var p := PreApply(db, pool, tx, gas, free, action);
    if p.Fine? {
      var db1 := Touch(p.db, tx.from);
      SetBase(p.db, tx.from, 0);
      RunGas(env, db1, tx, p.value.0, action, header);
      RunBase(env, db1, tx, p.value.0, action, header);
      var ran := Run(env, db1, tx, p.value.0, action, header);
      FinishBase(vm, ran, p.pool, tx, p.value.1, free);
      KeepsTwice(db, p.db, db1);
      KeepsTwice(db, db1, ran.db);
      KeepsTwice(db, ran.db, Finish(vm, ran, p.pool, tx, p.value.1, free).db);
    }
  }

  /** What a deal is funded with. */
  function Frozen(x: TxExec): (r: nat) { Fee(Remaining(x), x.tx.price) + x.tx.value }

  /** Does the deal get as far as putting the frozen amount at the sender's disposal? */
  ghost predicate ReachesFunding(env: Env, db: Db, pool: nat, x: TxExec, header: Header)
    requires WellFormed(db) && EnvOk(env)
  {
    && IsDeal(x.action)
    && x.tx.to.Contract? && (x.tx.id, ContractDeal) !in db.marks && (x.pre.Some? ==> !x.pre.value.failed)
    && !(x.action == SCIdleContractDeal
         && (x.tx.value > 0 || x.tx.price != 0 || Remaining(x) != 0 || header.mc != SC))
    && (x.tx.create && header.mc == SC ==>
          && Fee(Remaining(x), x.tx.price) < TWO64
          && var n := Rehearsal(env, AddMark(db, x.tx.id, ContractDeal), pool, x.tx, Remaining(x),
                                x.action == SCIdleContractDeal, x.pre.None?, header);
             n.Ok? && !n.receipt.failed)
  }

  /** A deal whose sender is measured, on this chain, from something other than the frozen amount. */
  ghost predicate Dirties(env: Env, db: Db, pool: nat, x: TxExec, header: Header)
    requires WellFormed(db) && EnvOk(env)
  {
    ReachesFunding(env, db, pool, x, header) && x.tx.from in db.base && db.base[x.tx.from] != Frozen(x)
  }

  /** Once the sender's base is reset, a deal is an error if the pool is too low for its gas, or if it is free and its
      call fails or is not paid for. A deployment, which has by then been rehearsed with the same gas, is never one. */
  ghost predicate FailsLate(env: Env, db: Db, pool: nat, x: TxExec, header: Header)
    requires WellFormed(db) && EnvOk(env)
  {
    && !(x.tx.create && header.mc == SC)
    && FailsFunded(env, AddMark(db, x.tx.id, ContractDeal), pool, x.tx, Remaining(x), Remaining(x), x.pre.None?, header)
  }

  lemma FailsLateIff(env: Env, db: Db, pool: nat, used: nat, x: TxExec, header: Header)
    requires WellFormed(db) && EnvOk(env) && Fit(x, header) && ReachesFunding(env, db, pool, x, header)
    ensures ProcessTransaction(env, db, pool, used, x, header).Err? <==> FailsLate(env, db, pool, x, header)
  {
    hide RunDeal, Fee, VmOk, FreeAt, Rehearsal, RunCall, Low64;
    var db1 := AddMark(db, x.tx.id, ContractDeal);
    LateRun(env, db, pool, used, x, header);
    LateGas(env, db1, pool, x, header);
    if !(x.tx.create && header.mc == SC) {
      RunDealErrIff(env, db1, pool, used, x.tx, Remaining(x), Remaining(x), 0, x.pre.None?, header);
    } else {
      var n := Rehearsal(env, db1, pool, x.tx, Remaining(x), x.action == SCIdleContractDeal, x.pre.None?, header);
      RunDealErrIff(env, db1, n.pool, used, x.tx, ForceSafeSub(Remaining(x), n.receipt.gasUsed), Remaining(x),
                    n.receipt.gasUsed, x.pre.None?, header);
      SubtractsLow(pool, Remaining(x), n.receipt.gasUsed);
    }
  }

  lemma SubtractsLow(pool: nat, gas: u64, used: u64)
    requires used <= gas <= Low64(pool)
    ensures gas - used <= Low64(pool - used)
  {
    var q := pool / TWO64;
    assert pool - used == q * TWO64 + (Low64(pool) - used);
  }

  /** A deal that reaches funding is run. */
  lemma LateRun(env: Env, db: Db, pool: nat, used: nat, x: TxExec, header: Header)
    requires WellFormed(db) && EnvOk(env) && ReachesFunding(env, db, pool, x, header)
    ensures var db1 := AddMark(db, x.tx.id, ContractDeal);
            var n := Rehearsal(env, db1, pool, x.tx, Remaining(x), x.action == SCIdleContractDeal, x.pre.None?, header);
            ProcessTransaction(env, db, pool, used, x, header)
            == if !(x.tx.create && header.mc == SC)
               then RunDeal(env, db1, pool, used, x.tx, Remaining(x), Remaining(x), 0, x.pre.None?, header)
               else RunDeal(env, db1, n.pool, used, x.tx, ForceSafeSub(Remaining(x), n.receipt.gasUsed), Remaining(x),
                            n.receipt.gasUsed, x.pre.None?, header)
  {
    hide RunDeal, Fee, VmOk, RehearsalDb, Nonce;
  }

  lemma LateGas(env: Env, db: Db, pool: nat, x: TxExec, header: Header)
    requires WellFormed(db) && EnvOk(env) && Fit(x, header) && DealReadyToRun(x)
    ensures Fee(Remaining(x), x.tx.price) < TWO64 && Remaining(x) + FreeAt(true, x.tx, header) < TWO64
    ensures x.tx.to.Contract? && x.tx.from.User?
    ensures var n := Rehearsal(env, db, pool, x.tx, Remaining(x), x.action == SCIdleContractDeal, x.pre.None?, header);
            x.tx.create && header.mc == SC && n.Ok? ==>
              && n.receipt.gasUsed <= Remaining(x) && FreeAt(true, x.tx, header) == 0 && !x.tx.IsFree()
              && (!n.receipt.failed ==> n.pool + n.receipt.gasUsed == pool && Remaining(x) <= Low64(pool))
  {
    hide ApplyDeal, RehearsalDb, Nonce, Low64;
    DealIsCovered(x, header);
    FeeOrder(Remaining(x), x.tx.gas, x.tx.price);
    if x.tx.create && header.mc == SC {
      var d := RehearsalDb(env, x.tx.from, Fee(Remaining(x), x.tx.price) + x.tx.value);
      var h := Header(env.newContract(Nonce(db.w, header.mc)), 1, 0, 0);
      RehearsalGas(env, d, pool, x.tx, Remaining(x), x.action == SCIdleContractDeal, x.pre.None?, h);
      RehearsalPool(env, d, pool, x.tx, Remaining(x), x.action == SCIdleContractDeal, x.pre.None?, h);
    }
  }

  lemma RunDealErr(env: Env, db: Db, pool: nat, used: nat, tx: Tx, gas: u64, remaining: u64, refund: u64, first: bool,
                   header: Header)
    requires WellFormed(db) && VmOk(env.vm)
    requires refund == 0 || (FreeAt(true, tx, header) == 0 && gas + refund <= remaining)
    ensures var o := RunDeal(env, db, pool, used, tx, gas, remaining, refund, first, header);
            o.Err? ==> KeepsBase(Funded(db, tx.from, Fee(remaining, tx.price) + tx.value), o.db)
  {
    hide ApplyMessage, Funded, Fee, RunOf, PayOutput, PreApply, CreateReceipt, SenderFlow, Rebase, SetBalance;
    var f := Funded(db, tx.from, Fee(remaining, tx.price) + tx.value);
    MessageBase(env, true, f, pool, tx, gas, ContractDeal, header);
    if ApplyMessage(env, true, f, pool, tx, gas, ContractDeal, header).Fine? {
      MessageGas(env, true, f, pool, tx, gas, ContractDeal, header);
    }
  }

  lemma DealErr(env: Env, db: Db, pool: nat, used: nat, tx: Tx, remaining: u64, idle: bool, first: bool, header: Header)
    requires WellFormed(db) && EnvOk(env) && header.number >= 1
    requires tx.to.Contract? && tx.from.User? && (tx.create ==> tx.to == SC && !tx.IsFree())
    requires ApplyDeal(env, db, pool, used, tx, remaining, remaining, idle, first, header).Err?
    ensures var o := ApplyDeal(env, db, pool, used, tx, remaining, remaining, idle, first, header);
            var n := Rehearsal(env, db, pool, tx, remaining, idle, first, header);
            if !(idle && (tx.value > 0 || tx.price != 0 || remaining != 0 || header.mc != SC))
               && (tx.create && header.mc == SC ==> Fee(remaining, tx.price) < TWO64 && n.Ok? && !n.receipt.failed)
            then KeepsBase(Funded(db, tx.from, Fee(remaining, tx.price) + tx.value), o.db)
            else o.db == db
  {
    hide RunDeal, Fee, RehearsalDb, Nonce, KeepsBase, Funded;
    if tx.create && header.mc == SC {
      var h := Header(env.newContract(Nonce(db.w, header.mc)), 1, 0, 0);
      var d := RehearsalDb(env, tx.from, Fee(remaining, tx.price) + tx.value);
      var n := Rehearsal(env, db, pool, tx, remaining, idle, first, header);
      RehearsalGas(env, d, pool, tx, remaining, idle, first, h);
      if n.Ok? {
        RunDealErr(env, db, n.pool, used, tx, ForceSafeSub(remaining, n.receipt.gasUsed), remaining,
                   n.receipt.gasUsed, first, header);
      }
    } else {
      RunDealErr(env, db, pool, used, tx, remaining, remaining, 0, first, header);
    }
  }

  lemma FundingDirties(db: Db, from: Address, amount: nat, e: Db, marked: Db)
    requires WellFormed(db) && WellFormed(marked) && marked.base == db.base
    requires KeepsBase(Funded(marked, from, amount), e)
    ensures Revert(e, db) == db <==> from !in db.base || db.base[from] == amount
  {
    RevertIff(e, db);
    var f := Funded(marked, from, amount);
    hide Funded, Revert;
    assert from in f.base && e.base[from] == f.base[from] == amount;
  }

  /** What the queue and the life cycle promise of a message. */
  predicate Fit(x: TxExec, header: Header) {
    && header.number >= 1 && x.tx.Valid()
    && (IsDeal(x.action) ==> DealReadyToRun(x))
  }

  /** After a failed action, going back to the snapshot restores the whole state if and only if the action is not a
      deal that reached funding with a sender measured from another amount: the measuring base is not journalled. */
  lemma CleanRevertIff(env: Env, db: Db, pool: nat, used: nat, x: TxExec, header: Header)
    requires WellFormed(db) && EnvOk(env) && Fit(x, header)
    requires ProcessTransaction(env, db, pool, used, x, header).Err?
    ensures Revert(ProcessTransaction(env, db, pool, used, x, header).db, db) == db
       <==> !Dirties(env, db, pool, x, header)
  {
    hide ApplyMessage, PreApply, ApplyDeal, Fee, Revert;
    var o := ProcessTransaction(env, db, pool, used, x, header);
    RevertIff(o.db, db);
    if DealReadyToRun(x) {
      DealRevertIff(env, db, pool, used, x, header);
    } else if x.action == TransferPayment {
      MessageBase(env, false, db, pool, x.tx, x.tx.gas, TransferPayment, header);
    } else if x.action == ContractFreeze {
      FreezeErrBase(env, db, pool, used, x.tx, header);
    }
  }

  lemma FreezeErrBase(env: Env, db: Db, pool: nat, used: nat, tx: Tx, header: Header)
    requires WellFormed(db) && EnvOk(env)
    ensures ApplyFreeze(env, db, pool, used, tx, header).Err? ==>
              KeepsBase(db, ApplyFreeze(env, db, pool, used, tx, header).db)
  {
    hide PreApply, Fee;
    var db1 := AddMark(db, tx.id, ContractFreeze);
    PreApplyBase(db1, pool, tx, tx.gas, FreeAt(true, tx, header), ContractFreeze);
  }

  lemma DealRevertIff(env: Env, db: Db, pool: nat, used: nat, x: TxExec, header: Header)
    requires WellFormed(db) && EnvOk(env) && Fit(x, header) && DealReadyToRun(x)
    requires ProcessTransaction(env, db, pool, used, x, header).Err?
    ensures Revert(ProcessTransaction(env, db, pool, used, x, header).db, db) == db
       <==> !Dirties(env, db, pool, x, header)
  {
    hide ApplyDeal, Fee, Revert, KeepsBase, Funded, Rehearsal;
    var o := ProcessTransaction(env, db, pool, used, x, header);
    var db1 := AddMark(db, x.tx.id, ContractDeal);
    var idle := x.action == SCIdleContractDeal;
    RevertIff(o.db, db);
    if (x.tx.id, ContractDeal) !in db.marks && (x.pre.Some? ==> !x.pre.value.failed) {
      assert o == ApplyDeal(env, db1, pool, used, x.tx, Remaining(x), Remaining(x), idle, x.pre.None?, header);
      DealErr(env, db1, pool, used, x.tx, Remaining(x), idle, x.pre.None?, header);
      if ReachesFunding(env, db, pool, x, header) {
        FundingDirties(db, x.tx.from, Frozen(x), o.db, db1);
      }
    }
  }

  // ---- the validator --------------------------------------------------------------------------------------------

  /** Replays a unit: every action must succeed. */
  ghost function Process(env: Env, db: Db, limit: u64, xs: seq<TxExec>, header: Header): (r: Option<Batch>)
    requires WellFormed(db) && EnvOk(env)
    ensures r.Some? ==> WellFormed(r.value.db) && |r.value.receipts| == |xs|
  {
    if xs == [] then Some(Batch(db, limit, []))
    else
      var b := Process(env, db, limit, xs[..|xs| - 1], header);
      if b.None? then None
      else
        var o := ProcessTransaction(env, b.value.db, b.value.pool, GasOf(b.value.receipts), xs[|xs| - 1], header);
        if o.Err? then None else Some(Batch(o.db, o.pool, b.value.receipts + [o.receipt]))
  }

  // ---- the miner ------------------------------------------------------------------------------------------------

  const ZERO_GAS_MAX: nat := 200
  const MAX_INDEX: nat := 65535

  /** What the checks before execution say: run it, drop it as invalid, or put it back for later. */
  datatype Verdict = Pass | Invalid | Future

  datatype Msg = Msg(x: TxExec, verdict: Verdict)

  /** What the miner has so far. `zero` counts the messages that use no gas. */
  datatype Mine = Mine(db: Db, pool: nat, packed: seq<Msg>, receipts: seq<Receipt>, zero: nat, rollback: seq<Msg>,
                       errs: seq<Msg>, ignored: seq<Msg>)

  predicate UsesNoGas(action: TxAction) {
    action == TransferReceipt || action == ContractRefund || action == SCIdleContractDeal
  }

  /** Is the message refused before it is looked at: the pool is too low, or enough free messages are in? */
  predicate Refused(m: Mine, msg: Msg) {
    Low64(m.pool) < TX_GAS || (UsesNoGas(msg.x.action) && m.zero + 1 >= ZERO_GAS_MAX)
  }

  /** Runs one message on a snapshot: packed if it succeeds; put back, or dropped, with the state restored if not. */
  ghost function Attempt(env: Env, m: Mine, msg: Msg, header: Header): (r: (Mine, bool))
    requires WellFormed(m.db) && EnvOk(env)
    ensures WellFormed(r.0.db)
  {
    var o := ProcessTransaction(env, m.db, m.pool, GasOf(m.receipts), msg.x, header);
    if o.Ok? then
      (m.(db := o.db, pool := o.pool, packed := m.packed + [msg], receipts := m.receipts + [o.receipt]),
       |m.packed| + 1 <= MAX_INDEX)
    else
      var back := m.(db := Revert(o.db, m.db), pool := o.pool);
      if o.error == GasLimitReached then (back.(rollback := m.rollback + [msg]), m.packed == [])
      else (back.(errs := m.errs + [msg]), true)
  }

  /** Takes one message; the second result is false when the unit is full. */
  ghost function Take(env: Env, m: Mine, msg: Msg, header: Header): (r: (Mine, bool))
    requires WellFormed(m.db) && EnvOk(env)
    ensures WellFormed(r.0.db)
  {
    if Low64(m.pool) < TX_GAS then (m.(rollback := m.rollback + [msg]), false)
    else
      var c := m.(zero := m.zero + if UsesNoGas(msg.x.action) then 1 else 0);
      if Refused(m, msg) then (c.(rollback := m.rollback + [msg]), false)
      else if msg.verdict == Future then (c.(rollback := m.rollback + [msg]), true)
      else if msg.verdict == Invalid then (c.(ignored := m.ignored + [msg]), true)
      else Attempt(env, c, msg, header)
  }

  datatype Turn = Popped(msg: Msg) | Waited | TimedOut | Interrupted

  /** The main loop over what the queue and the clock do; an interruption puts every packed message back. */
  ghost function Loop(env: Env, m: Mine, turns: seq<Turn>, header: Header): (r: Mine)
    requires WellFormed(m.db) && EnvOk(env)
    ensures WellFormed(r.db)
    decreases |turns|
  {
    if turns == [] then m
    else
      match turns[0]
      case TimedOut => m
      case Interrupted => m.(rollback := m.rollback + m.packed)
      case Waited => Loop(env, m, turns[1..], header)
      case Popped(msg) =>
        var (n, go) := Take(env, m, msg, header);
        if go then Loop(env, n, turns[1..], header) else n
  }

  /** The messages the miner makes up itself come first, whether or not the unit is full. */
  ghost function TakeAll(env: Env, m: Mine, own: seq<Msg>, header: Header): (r: Mine)
    requires WellFormed(m.db) && EnvOk(env)
    ensures WellFormed(r.db)
    decreases |own|
  {
    if own == [] then m else TakeAll(env, Take(env, m, own[0], header).0, own[1..], header)
  }

  ghost function Pack(env: Env, db: Db, own: seq<Msg>, turns: seq<Turn>, header: Header): (r: Mine)
    requires WellFormed(db) && EnvOk(env)
    ensures WellFormed(r.db)
  {
    Loop(env, TakeAll(env, Mine(db, header.gasLimit, [], [], 0, [], [], []), own, header), turns, header)
  }

  function Actions(msgs: seq<Msg>): (xs: seq<TxExec>)
    ensures |xs| == |msgs| && forall i :: 0 <= i < |xs| ==> xs[i] == msgs[i].x
  {
    seq(|msgs|, i requires 0 <= i < |msgs| => msgs[i].x)
  }

  // ---- agreement ------------------------------------------------------------------------------------------------

  /** Replaying what is packed so far gives the miner's state and receipts, with no less gas left in the pool. */
  ghost predicate Agrees(env: Env, db: Db, m: Mine, header: Header)
    requires WellFormed(db) && EnvOk(env)
  {
    var b := Process(env, db, header.gasLimit, Actions(m.packed), header);
    && b.Some? && b.value.db == m.db && b.value.receipts == m.receipts
    && m.pool <= b.value.pool && b.value.pool + GasOf(m.receipts) <= header.gasLimit
  }

  /** The message is not a deal that resets a measuring base and then fails. */
  ghost predicate CleanTake(env: Env, m: Mine, msg: Msg, header: Header)
    requires WellFormed(m.db) && EnvOk(env)
  {
    !Refused(m, msg) && msg.verdict == Pass && Dirties(env, m.db, m.pool, msg.x, header) ==>
      !FailsLate(env, m.db, m.pool, msg.x, header)
  }

  lemma ProcessSnoc(env: Env, db: Db, limit: u64, msgs: seq<Msg>, msg: Msg, header: Header)
    requires WellFormed(db) && EnvOk(env)
    requires Process(env, db, limit, Actions(msgs), header).Some?
    ensures var b := Process(env, db, limit, Actions(msgs), header).value;
            var o := ProcessTransaction(env, b.db, b.pool, GasOf(b.receipts), msg.x, header);
            Process(env, db, limit, Actions(msgs + [msg]), header)
            == if o.Err? then None else Some(Batch(o.db, o.pool, b.receipts + [o.receipt]))
  {
    hide ProcessTransaction;
    var xs := Actions(msgs + [msg]);
    assert xs[..|xs| - 1] == Actions(msgs);
  }

  lemma GasSnoc(rs: seq<Receipt>, r: Receipt)
    ensures GasOf(rs + [r]) == GasOf(rs) + r.gasUsed
  {
    assert (rs + [r])[..|rs|] == rs;
  }

  /** A message that was packed: more gas in the validator's pool does not change what it does. */
  lemma PackedAgrees(env: Env, db: Db, m: Mine, msg: Msg, header: Header)
    requires WellFormed(db) && EnvOk(env) && WellFormed(m.db) && Agrees(env, db, m, header)
    requires ProcessTransaction(env, m.db, m.pool, GasOf(m.receipts), msg.x, header).Ok?
    ensures var o := ProcessTransaction(env, m.db, m.pool, GasOf(m.receipts), msg.x, header);
            var b := Process(env, db, header.gasLimit, Actions(m.packed + [msg]), header);
            && b.Some? && b.value.db == o.db && b.value.receipts == m.receipts + [o.receipt]
            && o.pool <= b.value.pool && b.value.pool + GasOf(m.receipts + [o.receipt]) <= header.gasLimit
  {
    hide ProcessTransaction, Process, Actions;
    var used := GasOf(m.receipts);
    var o := ProcessTransaction(env, m.db, m.pool, used, msg.x, header);
    var b := Process(env, db, header.gasLimit, Actions(m.packed), header).value;
    ProcessMore(env, m.db, m.pool, b.pool - m.pool, used, msg.x, header);
    ProcessPool(env, m.db, b.pool, used, msg.x, header);
    ProcessSnoc(env, db, header.gasLimit, m.packed, msg, header);
    GasSnoc(m.receipts, o.receipt);
  }

  lemma TakeAgrees(env: Env, db: Db, m: Mine, msg: Msg, header: Header)
    requires WellFormed(db) && EnvOk(env) && WellFormed(m.db)
    requires Agrees(env, db, m, header) && Fit(msg.x, header) && CleanTake(env, m, msg, header)
    ensures Agrees(env, db, Take(env, m, msg, header).0, header)
  {
    hide ProcessTransaction, Process, ReachesFunding, Revert, Fit, EnvOk, Actions, GasOf, FailsLate;
    if !Refused(m, msg) && msg.verdict == Pass {
      var o := ProcessTransaction(env, m.db, m.pool, GasOf(m.receipts), msg.x, header);
      if o.Err? {
        ProcessPool(env, m.db, m.pool, GasOf(m.receipts), msg.x, header);
        CleanRevertIff(env, m.db, m.pool, GasOf(m.receipts), msg.x, header);
        if Dirties(env, m.db, m.pool, msg.x, header) {
          FailsLateIff(env, m.db, m.pool, GasOf(m.receipts), msg.x, header);
        }
      } else {
        PackedAgrees(env, db, m, msg, header);
      }
    }
  }

  ghost predicate CleanOwn(env: Env, m: Mine, own: seq<Msg>, header: Header)
    requires WellFormed(m.db) && EnvOk(env)
    decreases |own|
  {
    own == [] || (CleanTake(env, m, own[0], header)
                  && CleanOwn(env, Take(env, m, own[0], header).0, own[1..], header))
  }

  ghost predicate CleanLoop(env: Env, m: Mine, turns: seq<Turn>, header: Header)
    requires WellFormed(m.db) && EnvOk(env)
    decreases |turns|
  {
    if turns == [] then true
    else
      match turns[0]
      case TimedOut => true
      case Interrupted => true
      case Waited => CleanLoop(env, m, turns[1..], header)
      case Popped(msg) =>
        && CleanTake(env, m, msg, header)
        && var (n, go) := Take(env, m, msg, header); (go ==> CleanLoop(env, n, turns[1..], header))
  }

  lemma {:induction false} OwnAgrees(env: Env, db: Db, m: Mine, own: seq<Msg>, header: Header)
    requires WellFormed(db) && EnvOk(env) && WellFormed(m.db) && Agrees(env, db, m, header)
    requires (forall msg :: msg in own ==> Fit(msg.x, header)) && CleanOwn(env, m, own, header)
    ensures Agrees(env, db, TakeAll(env, m, own, header), header)
    decreases |own|
  {
    if own != [] {
      hide Agrees, Take, CleanTake, Fit;
      TakeAgrees(env, db, m, own[0], header);
      OwnAgrees(env, db, Take(env, m, own[0], header).0, own[1..], header);
    }
  }

  predicate FitTurns(turns: seq<Turn>, header: Header) {
    forall t :: t in turns && t.Popped? ==> Fit(t.msg.x, header)
  }

  lemma {:induction false} LoopAgrees(env: Env, db: Db, m: Mine, turns: seq<Turn>, header: Header)
    requires WellFormed(db) && EnvOk(env) && WellFormed(m.db) && Agrees(env, db, m, header)
    requires FitTurns(turns, header) && CleanLoop(env, m, turns, header)
    ensures Agrees(env, db, Loop(env, m, turns, header), header)
    decreases |turns|
  {
    if turns != [] {
      hide Take, CleanTake, Fit, Process, ProcessTransaction;
      match turns[0] {
        case Waited => LoopAgrees(env, db, m, turns[1..], header);
        case Popped(msg) =>
          assert turns[0] in turns;
          TakeAgrees(env, db, m, msg, header);
          if Take(env, m, msg, header).1 {
            LoopAgrees(env, db, Take(env, m, msg, header).0, turns[1..], header);
          }
        case _ =>
      }
    }
  }

  predicate FitPack(own: seq<Msg>, turns: seq<Turn>, header: Header) {
    (forall msg :: msg in own ==> Fit(msg.x, header)) && FitTurns(turns, header)
  }

  /** No message of the unit resets a measuring base and then fails. */
  ghost predicate CleanPack(env: Env, db: Db, own: seq<Msg>, turns: seq<Turn>, header: Header)
    requires WellFormed(db) && EnvOk(env)
  {
    var start := Mine(db, header.gasLimit, [], [], 0, [], [], []);
    CleanOwn(env, start, own, header) && CleanLoop(env, TakeAll(env, start, own, header), turns, header)
  }

  /** The miner and the validator agree: for every queue content, every clock and every interruption, replaying just
      the packed actions on the same state succeeds, with the same receipts in the same order, the same total gas, and
      the same final state, although the miner's pool was also drained by the messages it dropped. */
  lemma MinerAndValidatorAgree(env: Env, db: Db, own: seq<Msg>, turns: seq<Turn>, header: Header)
    requires WellFormed(db) && EnvOk(env)
    requires FitPack(own, turns, header) && CleanPack(env, db, own, turns, header)
    ensures var m := Pack(env, db, own, turns, header);
            var b := Process(env, db, header.gasLimit, Actions(m.packed), header);
            b.Some? && b.value.db == m.db && b.value.receipts == m.receipts && GasOf(m.receipts) <= header.gasLimit
  {
    var start := Mine(db, header.gasLimit, [], [], 0, [], [], []);
    assert Actions([]) == [];
    assert Agrees(env, db, start, header);
    hide TakeAll, Loop, CleanOwn, CleanLoop, Fit;
    OwnAgrees(env, db, start, own, header);
    LoopAgrees(env, db, TakeAll(env, start, own, header), turns, header);
  }

  // ---- nothing is lost ------------------------------------------------------------------------------------------

  ghost function Kinds(m: Mine): (r: multiset<Msg>) {
    multiset(m.packed) + multiset(m.rollback) + multiset(m.errs) + multiset(m.ignored)
  }

  /** The message went into one of the four lists. */
  ghost predicate Filed(m: Mine, n: Mine, msg: Msg) {
    var o := n.(db := m.db, pool := m.pool, receipts := m.receipts, zero := m.zero);
    || o == m.(packed := m.packed + [msg])
    || o == m.(rollback := m.rollback + [msg])
    || o == m.(errs := m.errs + [msg])
    || o == m.(ignored := m.ignored + [msg])
  }

  lemma TakeFiles(env: Env, m: Mine, msg: Msg, header: Header)
    requires WellFormed(m.db) && EnvOk(env)
    ensures Filed(m, Take(env, m, msg, header).0, msg)
  {
    hide ProcessTransaction, Revert, Low64, EnvOk;
  }

  lemma FiledOnce(m: Mine, n: Mine, msg: Msg)
    requires Filed(m, n, msg)
    ensures Kinds(n) == Kinds(m) + multiset{msg}
  {
  }

  lemma TakeKeeps(env: Env, m: Mine, msg: Msg, header: Header)
    requires WellFormed(m.db) && EnvOk(env)
    ensures Kinds(Take(env, m, msg, header).0) == Kinds(m) + multiset{msg}
  {
    hide Kinds;
    TakeFiles(env, m, msg, header);
    FiledOnce(m, Take(env, m, msg, header).0, msg);
  }

  /** The messages the loop took off the queue. */
  ghost function Handled(env: Env, m: Mine, turns: seq<Turn>, header: Header): (r: seq<Msg>)
    requires WellFormed(m.db) && EnvOk(env)
    decreases |turns|
  {
    if turns == [] then []
    else
      match turns[0]
      case TimedOut => []
      case Interrupted => []
      case Waited => Handled(env, m, turns[1..], header)
      case Popped(msg) =>
        var (n, go) := Take(env, m, msg, header);
        [msg] + if go then Handled(env, n, turns[1..], header) else []
  }

  ghost predicate EndsInterrupted(env: Env, m: Mine, turns: seq<Turn>, header: Header)
    requires WellFormed(m.db) && EnvOk(env)
    decreases |turns|
  {
    if turns == [] then false
    else
      match turns[0]
      case TimedOut => false
      case Interrupted => true
      case Waited => EndsInterrupted(env, m, turns[1..], header)
      case Popped(msg) =>
        var (n, go) := Take(env, m, msg, header);
        go && EndsInterrupted(env, n, turns[1..], header)
  }

  lemma Regroup(a: multiset<Msg>, b: multiset<Msg>, c: multiset<Msg>, d: multiset<Msg>)
    ensures (a + b) + c + d == a + (b + c) + d
  {
  }

  /** Every message taken off the queue is in the unit, put back, failed or dropped, exactly once; an interruption
      also puts back everything packed. */
  lemma {:induction false} NothingLost(env: Env, m: Mine, turns: seq<Turn>, header: Header)
    requires WellFormed(m.db) && EnvOk(env)
    ensures var r := Loop(env, m, turns, header);
            Kinds(r) == Kinds(m) + multiset(Handled(env, m, turns, header))
                        + if EndsInterrupted(env, m, turns, header) then multiset(r.packed) else multiset{}
    decreases |turns|
  {
    if turns != [] {
      match turns[0] {
        case Waited =>
          hide Kinds;
          NothingLost(env, m, turns[1..], header);
        case Popped(msg) =>
          hide Take, Kinds;
          var (n, go) := Take(env, m, msg, header);
          TakeKeeps(env, m, msg, header);
          if go {
            NothingLost(env, n, turns[1..], header);
            var rest := Handled(env, n, turns[1..], header);
            assert multiset([msg] + rest) == multiset{msg} + multiset(rest);
            Regroup(Kinds(m), multiset{msg}, multiset(rest),
                    if EndsInterrupted(env, m, turns, header) then multiset(Loop(env, m, turns, header).packed)
                    else multiset{});
          }
        case _ =>
      }
    }
  }
}
