/** Fees, gas bounds and the gas pool. */
module GasLaws {
  import opened Ledger
  import opened Transition
  import opened Processor

  // ---- fees --------------------------------------------------------------------------------------------------

  lemma FeeSplit(a: nat, b: nat, price: nat)
    ensures Fee(a + b, price) == Fee(a, price) + Fee(b, price)
  {
  }

  lemma FeeAtNoPrice(gas: nat)
    ensures Fee(gas, 0) == 0
  {
  }

  lemma FeeOrder(a: nat, b: nat, price: nat)
    requires a <= b
    ensures Fee(a, price) <= Fee(b, price)
    ensures a < b && price > 0 ==> Fee(a, price) < Fee(b, price)
  {
    FeeSplit(a, b - a, price);
    if a < b && price > 0 {
      assert Fee(b - a, price) > 0;
    }
  }

  /** The fee actually kept after buying `gas` with `free` extra and using `used`. */
  function NetFee(gas: u64, price: u64, free: u64, used: u64): (r: int) {
    BuyCost(gas, price, free) - RefundValue((gas + free) % TWO64, free, used, price)
  }

  /** Without a free allowance the sender pays the price of exactly the gas used. */
  lemma NetFeeWithoutFree(gas: u64, price: u64, used: u64)
    requires used <= gas
    ensures NetFee(gas, price, 0, used) == Fee(used, price)
  {
    hide Fee;
    assert (gas + 0) % TWO64 == gas && (gas - 0) % TWO64 == gas;
    if used > 0 {
      assert (gas - (used - 0)) % TWO64 == gas - used;
    }
    FeeSplit(gas - used, used, price);
  }

  lemma NetFeeAtNoPrice(gas: u64, free: u64, used: u64)
    ensures NetFee(gas, 0, free, used) == 0
  {
  }

  lemma NetFeeWithFree(gas: u64, price: u64, free: u64, used: u64)
    requires gas + free < TWO64 && Fee(free, price) < TWO64 && used <= gas + free
    ensures NetFee(gas, price, free, used)
         == Fee(if used <= free then 0 else used - free, price) - Fee(if gas <= free then gas else free, price)
  {
    hide Fee;
    FeeSplit(0, 0, price);
    if free == 0 {
      NetFeeWithoutFree(gas, price, used);
    } else {
      assert (gas + free) % TWO64 == gas + free;
      assert (gas + free - free) % TWO64 == gas;
      assert Fee(free, price) % TWO64 == Fee(free, price);
      if used > free {
        assert (gas - (used - free)) % TWO64 == gas - (used - free);
        FeeSplit(gas - (used - free), used - free, price);
      }
      if gas <= free {
        FeeOrder(gas, free, price);
      } else {
        FeeSplit(gas - free, free, price);
      }
    }
  }

  /** The price of exactly the gas beyond the free allowance is kept if and only if the price, the allowance or the
      message's own gas is zero: otherwise the purchase leaves the allowance out and the refund gives it back. */
  lemma FreeGasFeeExactIff(gas: u64, price: u64, free: u64, used: u64)
    requires gas + free < TWO64 && Fee(free, price) < TWO64 && used <= gas + free
    ensures NetFee(gas, price, free, used) == Fee(if used <= free then 0 else used - free, price)
       <==> price == 0 || free == 0 || gas == 0
  {
    NetFeeWithFree(gas, price, free, used);
    var low := if gas <= free then gas else free;
    FeeOrder(0, low, price);
  }

  /** A message of 10 gas at price 1 with an allowance of 5 that uses 5 gas ends up being paid 5. */
  lemma FreeGasCanPayTheSender()
    ensures NetFee(10, 1, 5, 5) == -5
  {
    NetFeeWithFree(10, 1, 5, 5);
  }

  // ---- one message -------------------------------------------------------------------------------------------

  function FreeAt(vm: bool, tx: Tx, header: Header): (r: u64) {
    if vm && header.mc == SC then FreeGas(tx, header.number) else 0
  }

  /** The state in which the message body runs. */
  function Ready(db: Db, pool: nat, tx: Tx, gas: u64, free: u64, action: TxAction): (r: Db)
    requires WellFormed(db)
    ensures WellFormed(r) && tx.from in r.w.bal
  {
    Touch(PreApply(db, pool, tx, gas, free, action).db, tx.from)
  }

  lemma PreApplyPool(db: Db, pool: nat, tx: Tx, gas: u64, free: u64, action: TxAction)
    requires WellFormed(db)
    ensures var p := PreApply(db, pool, tx, gas, free, action);
            && p.pool <= pool
            && (p.Fine? ==> p.value.1 == (gas + free) % TWO64 && p.pool + p.value.1 == pool)
            && (p.Fail? ==> pool <= p.pool + (gas + free) % TWO64)
  {
  }

  lemma PreApplyAccount(db: Db, pool: nat, tx: Tx, gas: u64, free: u64, action: TxAction, a: Address)
    requires WellFormed(db)
    requires PreApply(db, pool, tx, gas, free, action).Fine?
    ensures Bal(PreApply(db, pool, tx, gas, free, action).db.w, a)
         == Bal(db.w, a) - (if a == tx.from then BuyCost(gas, tx.price, free) else 0)
  {
    var b := BuyGas(db, pool, tx, gas, free);
    assert b.Fine? && PreApply(db, pool, tx, gas, free, action).db == b.db;
  }

  lemma FinishExact(vm: bool, ran: Ran, pool: nat, tx: Tx, bought: u64, free: u64)
    requires WellFormed(ran.db) && ran.gas <= bought
    requires Finish(vm, ran, pool, tx, bought, free).Fine?
    ensures var t := Finish(vm, ran, pool, tx, bought, free);
            && t.value.gasUsed <= bought - PayOutput(ran).0 <= bought
            && 2 * t.value.gasUsed >= bought - PayOutput(ran).0
            && t.pool + t.value.gasUsed == pool + bought
            && Bal(t.db.w, tx.from) == Bal(ran.db.w, tx.from) + RefundValue(bought, free, t.value.gasUsed, tx.price)
            && (forall a :: a != tx.from ==> Bal(t.db.w, a) == Bal(ran.db.w, a))
            && t.value.failed == (ran.err != NoError || PayOutput(ran).1)
            && t.value.output == ran.ret && ran.err != NotEnoughBalance
  {
  }

  /** The run inside a message whose gas could be bought. */
  function RunOf(env: Env, vm: bool, db: Db, pool: nat, tx: Tx, gas: u64, action: TxAction, header: Header): (r: Ran)
    requires WellFormed(db) && VmOk(env.vm)
    requires PreApply(db, pool, tx, gas, FreeAt(vm, tx, header), action).Fine?
    ensures WellFormed(r.db)
    ensures r.gas <= PreApply(db, pool, tx, gas, FreeAt(vm, tx, header), action).value.1
  {
    var free := FreeAt(vm, tx, header);
    var p := PreApply(db, pool, tx, gas, free, action);
    RunGas(env, Ready(db, pool, tx, gas, free, action), tx, p.value.0, action, header);
    Run(env, Ready(db, pool, tx, gas, free, action), tx, p.value.0, action, header)
  }

  lemma MessageShape(env: Env, vm: bool, db: Db, pool: nat, tx: Tx, gas: u64, action: TxAction, header: Header)
    requires WellFormed(db) && VmOk(env.vm)
    requires ApplyMessage(env, vm, db, pool, tx, gas, action, header).Fine?
    ensures var p := PreApply(db, pool, tx, gas, FreeAt(vm, tx, header), action);
            && p.Fine?
            && ApplyMessage(env, vm, db, pool, tx, gas, action, header)
               == Finish(vm, RunOf(env, vm, db, pool, tx, gas, action, header), p.pool, tx, p.value.1,
                         FreeAt(vm, tx, header))
  {
  }

  /** A completed message uses no more than the gas bought, the pool gets back all the rest, and the storage refund
      leaves at least half of the gas consumed. */
  lemma MessageGas(env: Env, vm: bool, db: Db, pool: nat, tx: Tx, gas: u64, action: TxAction, header: Header)
    requires WellFormed(db) && VmOk(env.vm)
    requires ApplyMessage(env, vm, db, pool, tx, gas, action, header).Fine?
    ensures PreApply(db, pool, tx, gas, FreeAt(vm, tx, header), action).Fine?
    ensures var t := ApplyMessage(env, vm, db, pool, tx, gas, action, header);
            var bought := (gas + FreeAt(vm, tx, header)) % TWO64;
            var ran := RunOf(env, vm, db, pool, tx, gas, action, header);
            && t.value.gasUsed <= bought - PayOutput(ran).0 <= bought
            && 2 * t.value.gasUsed >= bought - PayOutput(ran).0
            && t.pool + t.value.gasUsed == pool
            && t.value.failed == (ran.err != NoError || PayOutput(ran).1)
            && t.value.output == ran.ret && ran.err != NotEnoughBalance
  {
    hide ApplyMessage, RunOf, PreApply, Finish, Run, RefundValue, BuyCost;
    MessageShape(env, vm, db, pool, tx, gas, action, header);
    var free := FreeAt(vm, tx, header);
    PreApplyPool(db, pool, tx, gas, free, action);
    var p := PreApply(db, pool, tx, gas, free, action);
    FinishExact(vm, RunOf(env, vm, db, pool, tx, gas, action, header), p.pool, tx, p.value.1, free);
  }

  /** A completed message costs an account what buying the gas cost the sender, then moves what its body moves, then
      gives the sender the refund. */
  lemma MessageBalance(env: Env, vm: bool, db: Db, pool: nat, tx: Tx, gas: u64, action: TxAction, header: Header,
                       a: Address)
    requires WellFormed(db) && VmOk(env.vm)
    requires gas + FreeAt(vm, tx, header) < TWO64
    requires ApplyMessage(env, vm, db, pool, tx, gas, action, header).Fine?
    ensures var free := FreeAt(vm, tx, header);
            var t := ApplyMessage(env, vm, db, pool, tx, gas, action, header);
            && PreApply(db, pool, tx, gas, free, action).Fine?
            && Bal(t.db.w, a) == Bal(RunOf(env, vm, db, pool, tx, gas, action, header).db.w, a)
                 + (if a == tx.from then RefundValue(gas + free, free, t.value.gasUsed, tx.price) else 0)
            && Bal(Ready(db, pool, tx, gas, free, action).w, a)
               == Bal(db.w, a) - (if a == tx.from then BuyCost(gas, tx.price, free) else 0)
  {
    hide ApplyMessage, RunOf, PreApply, Finish, Run, RefundValue, BuyCost;
    MessageShape(env, vm, db, pool, tx, gas, action, header);
    var free := FreeAt(vm, tx, header);
    PreApplyPool(db, pool, tx, gas, free, action);
    assert (gas + free) % TWO64 == gas + free;
    PreApplyAccount(db, pool, tx, gas, free, action, a);
    FinishExact(vm, RunOf(env, vm, db, pool, tx, gas, action, header),
                PreApply(db, pool, tx, gas, free, action).pool, tx, gas + free, free);
  }

  /** A failed message adds nothing to the pool and drains at most the gas it bought. */
  lemma MessageFailPool(env: Env, vm: bool, db: Db, pool: nat, tx: Tx, gas: u64, action: TxAction, header: Header)
    requires WellFormed(db) && VmOk(env.vm)
    ensures var t := ApplyMessage(env, vm, db, pool, tx, gas, action, header);
            t.Fail? ==> t.pool <= pool <= t.pool + (gas + FreeAt(vm, tx, header)) % TWO64
  {
    hide Run, Touch, SubBalance, AddBalance, PreApply, RefundValue, PayOutput, StorageRefund, FreeGas;
    PreApplyPool(db, pool, tx, gas, FreeAt(vm, tx, header), action);
  }

  // ---- the gas pool ------------------------------------------------------------------------------------------

  /** An action takes at least the gas its receipt shows out of the pool, and never adds to the pool. */
  predicate Spends(pool: nat, o: Outcome) {
    o.pool <= pool && (o.Ok? ==> o.pool + o.receipt.gasUsed <= pool)
  }

  lemma RunDealPool(env: Env, db: Db, pool: nat, used: nat, tx: Tx, gas: u64, remaining: u64, refund: u64,
                    first: bool, header: Header)
    requires WellFormed(db) && VmOk(env.vm)
    ensures var o := RunDeal(env, db, pool, used, tx, gas, remaining, refund, first, header);
            o.pool <= pool && (o.Ok? ==> o.pool + o.receipt.gasUsed <= pool + refund)
  {
    hide ApplyMessage, RunOf, PreApply, PayOutput, Funded, Fee, Flows, SenderFlow, FreeAt;
    var d := Funded(db, tx.from, Fee(remaining, tx.price) + tx.value);
    MessageFailPool(env, true, d, pool, tx, gas, ContractDeal, header);
    var t := ApplyMessage(env, true, d, pool, tx, gas, ContractDeal, header);
    if t.Fine? {
      MessageGas(env, true, d, pool, tx, gas, ContractDeal, header);
    }
  }

  lemma {:induction false} ApplyDealPool(env: Env, db: Db, pool: nat, used: nat, tx: Tx, gas: u64, remaining: u64,
                                         idle: bool, first: bool, header: Header)
    requires WellFormed(db) && EnvOk(env)
    ensures Spends(pool, ApplyDeal(env, db, pool, used, tx, gas, remaining, idle, first, header))
    decreases if header.mc == SC then 1 else 0
  {
    hide RunDeal, Fee, RehearsalDb, Flows, Nonce;
    RunDealPool(env, db, pool, used, tx, gas, remaining, 0, first, header);
    if tx.create && header.mc == SC && Fee(remaining, tx.price) < TWO64 {
      var h := Header(env.newContract(Nonce(db.w, header.mc)), 1, 0, 0);
      var d := RehearsalDb(env, tx.from, Fee(remaining, tx.price) + tx.value);
      var n := ApplyDeal(env, d, pool, 0, tx, gas, remaining, idle, first, h);
      ApplyDealPool(env, d, pool, 0, tx, gas, remaining, idle, first, h);
      if n.Ok? {
        RunDealPool(env, db, n.pool, used, tx, ForceSafeSub(gas, n.receipt.gasUsed), remaining, n.receipt.gasUsed,
                    first, header);
      }
    }
  }

  /** Every action, with every outcome, keeps the pool bound: freezing, which gives nothing back to the pool, the
      rehearsal of a deployment, and all error exits included. */
  lemma ProcessPool(env: Env, db: Db, pool: nat, used: nat, x: TxExec, header: Header)
    requires WellFormed(db) && EnvOk(env)
    ensures Spends(pool, ProcessTransaction(env, db, pool, used, x, header))
  {
    hide ApplyMessage, PreApply, ApplyDeal;
    match x.action {
      case TransferPayment =>
        MessageFailPool(env, false, db, pool, x.tx, x.tx.gas, TransferPayment, header);
        if ApplyMessage(env, false, db, pool, x.tx, x.tx.gas, TransferPayment, header).Fine? {
          MessageGas(env, false, db, pool, x.tx, x.tx.gas, TransferPayment, header);
        }
      case ContractFreeze =>
        PreApplyPool(AddMark(db, x.tx.id, ContractFreeze), pool, x.tx, x.tx.gas, FreeAt(true, x.tx, header),
                     ContractFreeze);
      case ContractDeal => ToContractPool(env, db, pool, used, x, header);
      case PowTxContractDeal => ToContractPool(env, db, pool, used, x, header);
      case SCIdleContractDeal => ToContractPool(env, db, pool, used, x, header);
      case _ =>
    }
  }

  lemma ToContractPool(env: Env, db: Db, pool: nat, used: nat, x: TxExec, header: Header)
    requires WellFormed(db) && EnvOk(env)
    ensures Spends(pool, ApplyToContract(env, db, pool, used, x, header))
  {
    hide ApplyDeal;
    var remaining := if x.pre.Some? then x.pre.value.gasRemaining else x.tx.gas;
    ApplyDealPool(env, AddMark(db, x.tx.id, ContractDeal), pool, used, x.tx, remaining, remaining,
                  x.action == SCIdleContractDeal, x.pre.None?, header);
  }

  function GasOf(rs: seq<Receipt>): (r: nat) {
    if rs == [] then 0 else GasOf(rs[..|rs| - 1]) + rs[|rs| - 1].gasUsed
  }

  /** What a batch leaves: the state, the pool, the receipts of the actions that succeeded. */
  datatype Batch = Batch(db: Db, pool: nat, receipts: seq<Receipt>)

  /** Actions one after the other, failed ones skipped. */
  ghost function ProcessMulti(env: Env, db: Db, limit: u64, xs: seq<TxExec>, header: Header): (r: Batch)
    requires WellFormed(db) && EnvOk(env)
    ensures WellFormed(r.db)
  {
    if xs == [] then Batch(db, limit, [])
    else
      var b := ProcessMulti(env, db, limit, xs[..|xs| - 1], header);
      var o := ProcessTransaction(env, b.db, b.pool, GasOf(b.receipts), xs[|xs| - 1], header);
      Batch(o.db, o.pool, if o.Ok? then b.receipts + [o.receipt] else b.receipts)
  }

  /** Over any sequence of successful and failed actions, the pool and the gas of the receipts stay within the limit
      of the unit, so their sum fits its 64-bit field. */
  lemma {:induction false} BatchWithinLimit(env: Env, db: Db, limit: u64, xs: seq<TxExec>, header: Header)
    requires WellFormed(db) && EnvOk(env)
    ensures var b := ProcessMulti(env, db, limit, xs, header); b.pool + GasOf(b.receipts) <= limit
  {
    if xs != [] {
      hide ProcessTransaction;
      BatchWithinLimit(env, db, limit, xs[..|xs| - 1], header);
      var b := ProcessMulti(env, db, limit, xs[..|xs| - 1], header);
      ProcessPool(env, b.db, b.pool, GasOf(b.receipts), xs[|xs| - 1], header);
      var o := ProcessTransaction(env, b.db, b.pool, GasOf(b.receipts), xs[|xs| - 1], header);
      if o.Ok? {
        assert (b.receipts + [o.receipt])[..|b.receipts|] == b.receipts;
      }
    }
  }
}
