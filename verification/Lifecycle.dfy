/** Transactions on many chains: which action follows which, and what any interleaving of them keeps. */
module Lifecycle {
  import opened Ledger
  import opened Transition
  import opened Processor
  import opened GasLaws
  import opened Conservation

  // ---- the action graph --------------------------------------------------------------------------------------

  /** The chain and the action a transaction starts with. */
  function FirstAction(tx: Tx): (r: (Address, TxAction)) {
    if tx.to.Contract? then
      if tx.create then (tx.from, ContractFreeze)
      else if tx.to == SC && tx.idle then (SC, SCIdleContractDeal)
      else if tx.to == SC && tx.seed > 0 then (SC, PowTxContractDeal)
      else (tx.from, ContractFreeze)
    else (tx.from, TransferPayment)
  }

  function Receivers(mc: Address, r: Receipt): (s: set<(Address, TxAction)>) {
    set a | a in r.flows && a != mc :: (a, ContractReceipt)
  }

  /** The actions that follow an action which left receipt `r` on chain `mc`. */
  function NextActions(env: Env, mc: Address, action: TxAction, r: Receipt, tx: Tx): (s: set<(Address, TxAction)>) {
    match action
    case TransferPayment => if r.failed || tx.to == tx.from then {} else {(tx.to, TransferReceipt)}
    case TransferReceipt => {}
    case ContractReceipt => {}
    case ContractRefund => {}
    case PowTxContractDeal => {}
    case ContractFreeze => if r.failed then {} else {(tx.to, ContractDeal)}
    case SCIdleContractDeal => Receivers(mc, r)
    case ContractDeal =>
      if mc == SC && tx.create && !r.failed then {(env.contractOf(r.output), ContractDeal)}
      else (if tx.gas > 0 then {(tx.from, ContractRefund)} else {}) + Receivers(mc, r)
  }

  /** The three kinds of deal share one mark. */
  function MarkOf(action: TxAction): (r: TxAction) {
    if action == PowTxContractDeal || action == SCIdleContractDeal then ContractDeal else action
  }

  /** An action that succeeds was not marked before, is marked afterwards, and leaves all other marks alone. */
  lemma MarkedOnce(env: Env, db: Db, pool: nat, used: nat, x: TxExec, header: Header)
    requires WellFormed(db) && EnvOk(env)
    requires ProcessTransaction(env, db, pool, used, x, header).Ok?
    ensures (x.tx.id, MarkOf(x.action)) !in db.marks
    ensures ProcessTransaction(env, db, pool, used, x, header).db.marks == db.marks + {(x.tx.id, MarkOf(x.action))}
  {
    hide ApplyDeal, ApplyMessage, PreApply;
    match x.action
    case TransferPayment => MessageMarks(env, false, db, pool, x.tx, x.tx.gas, TransferPayment, header);
    case ContractDeal => DealMarks(env, db, pool, used, x, header);
    case PowTxContractDeal => DealMarks(env, db, pool, used, x, header);
    case SCIdleContractDeal => DealMarks(env, db, pool, used, x, header);
    case _ =>
  }

  lemma MessageMarks(env: Env, vm: bool, db: Db, pool: nat, tx: Tx, gas: u64, action: TxAction, header: Header)
    requires WellFormed(db) && VmOk(env.vm)
    requires ApplyMessage(env, vm, db, pool, tx, gas, action, header).Fine?
    ensures ApplyMessage(env, vm, db, pool, tx, gas, action, header).db.marks == db.marks + {(tx.id, action)}
  {
    MessageShape(env, vm, db, pool, tx, gas, action, header);
    hide ApplyMessage, PreApply, Run, Finish;
    var free := FreeAt(vm, tx, header);
    var p := PreApply(db, pool, tx, gas, free, action);
    RunMarks(env, Ready(db, pool, tx, gas, free, action), tx, p.value.0, action, header);
    FinishMarks(vm, RunOf(env, vm, db, pool, tx, gas, action, header), p.pool, tx, p.value.1, free);
  }

  lemma RunMarks(env: Env, db: Db, tx: Tx, gas: u64, action: TxAction, header: Header)
    requires WellFormed(db) && tx.from in db.w.bal
    ensures Run(env, db, tx, gas, action, header).db.marks == db.marks + {(tx.id, action)}
  {
  }

  lemma FinishMarks(vm: bool, ran: Ran, pool: nat, tx: Tx, bought: u64, free: u64)
    requires WellFormed(ran.db) && ran.gas <= bought
    ensures Finish(vm, ran, pool, tx, bought, free).db.marks == ran.db.marks
  {
  }

  lemma {:induction false} ApplyDealMarks(env: Env, db: Db, pool: nat, used: nat, tx: Tx, gas: u64, remaining: u64,
                                          idle: bool, first: bool, header: Header)
    requires WellFormed(db) && EnvOk(env) && (tx.id, ContractDeal) in db.marks
    requires ApplyDeal(env, db, pool, used, tx, gas, remaining, idle, first, header).Ok?
    ensures ApplyDeal(env, db, pool, used, tx, gas, remaining, idle, first, header).db.marks == db.marks
  {
    hide RunDeal, Fee, RehearsalDb, Nonce;
    forall p: nat, g: u64, refund: u64 | RunDeal(env, db, p, used, tx, g, remaining, refund, first, header).Ok?
      ensures RunDeal(env, db, p, used, tx, g, remaining, refund, first, header).db.marks == db.marks
    {
      RunDealMarks(env, db, p, used, tx, g, remaining, refund, first, header);
    }
  }

  lemma RunDealMarks(env: Env, db: Db, pool: nat, used: nat, tx: Tx, gas: u64, remaining: u64, refund: u64,
                     first: bool, header: Header)
    requires WellFormed(db) && VmOk(env.vm) && (tx.id, ContractDeal) in db.marks
    requires RunDeal(env, db, pool, used, tx, gas, remaining, refund, first, header).Ok?
    ensures RunDeal(env, db, pool, used, tx, gas, remaining, refund, first, header).db.marks == db.marks
  {
    hide ApplyMessage, Flows, SenderFlow, Fee;
    MessageMarks(env, true, Funded(db, tx.from, Fee(remaining, tx.price) + tx.value), pool, tx, gas, ContractDeal,
                 header);
  }

  lemma DealMarks(env: Env, db: Db, pool: nat, used: nat, x: TxExec, header: Header)
    requires WellFormed(db) && EnvOk(env)
    requires ApplyToContract(env, db, pool, used, x, header).Ok?
    ensures (x.tx.id, ContractDeal) !in db.marks
    ensures ApplyToContract(env, db, pool, used, x, header).db.marks == db.marks + {(x.tx.id, ContractDeal)}
  {
    hide ApplyDeal;
    ApplyDealMarks(env, AddMark(db, x.tx.id, ContractDeal), pool, used, x.tx, Remaining(x), Remaining(x),
                   x.action == SCIdleContractDeal, x.pre.None?, header);
  }
}
