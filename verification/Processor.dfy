/** The actions of a transaction's life cycle, each applied to the state of the chain it runs on. */
module Processor {
  import opened Options
  import opened Sums
  import opened Ledger
  import opened Transition

  /** The result of one action: a receipt, or an error with the state and the pool it leaves behind. */
  datatype Outcome = Ok(db: Db, pool: nat, receipt: Receipt) | Err(db: Db, pool: nat, error: Error)

  /** One action to run; `pre` is the receipt of the action that caused it, if any. */
  datatype TxExec = TxExec(tx: Tx, action: TxAction, pre: Option<Receipt>)

  function ForceSafeSub(x: u64, y: u64): (r: u64) { if x <= y then 0 else x - y }

  /** Accounts that enter the coin-flow list: external accounts that gained, and `keep` whatever it gained. */
  predicate InFlows(db: Db, a: Address, keep: Option<Address>)
    requires WellFormed(db)
  {
    a in db.w.bal && !a.Contract? && (Diff(db, a) > 0 || keep == Some(a))
  }

  ghost function Flows(db: Db, keep: Option<Address>): (r: map<Address, int>)
    requires WellFormed(db)
  {
    Tabulate((a: Address) => Diff(db, a), set a | a in db.w.bal && InFlows(db, a, keep))
  }

  lemma FlowsAre(db: Db, keep: Option<Address>)
    requires WellFormed(db)
    ensures forall a :: a in Flows(db, keep) <==> InFlows(db, a, keep)
    ensures forall a :: a in Flows(db, keep) ==> Flows(db, keep)[a] == Diff(db, a)
  {
  }

  /** Measures the flows, closes the measurement, and adds up the gas. */
  ghost function CreateReceipt(db: Db, action: TxAction, failed: bool, remaining: u64, used: nat, gas: u64,
                         output: seq<nat>, keep: Option<Address>): (r: Receipt)
    requires WellFormed(db)
  {
    Receipt(action, failed, gas, ForceSafeSub(remaining, gas), used + gas,
            if failed then map[] else Flows(db, keep), if failed then [] else output)
  }

  ghost function ApplyPayment(env: Env, db: Db, pool: nat, used: nat, tx: Tx, header: Header): (r: Outcome)
    requires WellFormed(db) && VmOk(env.vm)
    ensures WellFormed(r.db)
  {
    if tx.to.Contract? then Err(db, pool, InvalidMessage)
    else if (tx.id, TransferPayment) in db.marks then Err(db, pool, RepeatedAction)
    else
      var t := Transition.ApplyMessage(env, false, db, pool, tx, tx.gas, TransferPayment, header);
      if t.Fail? then Err(t.db, t.pool, t.error)
      else
        var a := t.value;
        Ok(Rebase(t.db), t.pool,
           CreateReceipt(t.db, TransferPayment, a.failed, tx.gas, used, a.gasUsed, a.output, None))
  }

  ghost function ApplyFreeze(env: Env, db: Db, pool: nat, used: nat, tx: Tx, header: Header): (r: Outcome)
    requires WellFormed(db) && VmOk(env.vm)
    ensures WellFormed(r.db)
  {
    if !tx.to.Contract? then Err(db, pool, InvalidMessage)
    else if (tx.id, ContractFreeze) in db.marks then Err(db, pool, RepeatedAction)
    else
      var db1 := AddMark(db, tx.id, ContractFreeze);
      var free := if header.mc == SC then FreeGas(tx, header.number) else 0;
      var p := PreApply(db1, pool, tx, tx.gas, free, ContractFreeze);
      var db2 := Revert(p.db, db1);
      if p.Fail? then Err(db2, p.pool, p.error)
      else
        var (left, bought) := p.value;
        var freeze := Fee(tx.gas, tx.price) + tx.value;
        if Bal(db2.w, tx.from) < freeze then Err(db2, p.pool, InsufficientBalance)
        else
          var db3 := BumpNonce(SubBalance(db2, tx.from, freeze), tx.from);
          Ok(Rebase(db3), p.pool,
             CreateReceipt(db3, ContractFreeze, false, tx.gas, used, bought - left, [], None))
  }

  /** The sender's entry of a deal's flows: its gain, plus the value and the fee it paid. */
  function SenderFlow(flows: map<Address, int>, tx: Tx, gas: u64): (r: map<Address, int>) {
    if tx.from !in flows then flows
    else
      var more := flows[tx.from] + tx.value + Fee(gas, tx.price);
      if more == 0 then flows - {tx.from} else flows[tx.from := more]
  }

  /** The frozen amount put at the sender's disposal on the contract's chain. */
  function Funded(db: Db, from: Address, amount: nat): (r: Db)
    requires WellFormed(db)
    ensures WellFormed(r) && r.marks == db.marks
    ensures r.w.bal == db.w.bal[from := amount]
    ensures r.base == db.base[from := amount]
  {
    var d := AddBalance(SetBalance(db, from, 0), from, amount);
    d.(base := d.base[from := amount])
  }

  /** Writes a deal's receipt and takes the sender's remaining balance off the contract's chain. */
  ghost function CloseDeal(db: Db, pool: nat, used: nat, tx: Tx, a: Applied, remaining: u64, refund: u64, header: Header)
    : (r: Outcome)
    requires WellFormed(db)
    ensures WellFormed(r.db)
  {
    var charged: u64 := if a.failed then (a.gasUsed + refund) % TWO64 else a.gasUsed;
    var rec := CreateReceipt(db, ContractDeal, a.failed, remaining, used, charged, a.output, Some(tx.from));
    var db1 := SetBalance(Rebase(db), tx.from, 0);
    if a.failed && a.gasUsed + refund >= TWO64 then Err(db1, pool, OutOfGas)
    else
      var flows := if !a.failed && tx.create && header.mc == SC then map[] else rec.flows;
      Ok(db1, pool, rec.(flows := SenderFlow(flows, tx, charged)))
  }

  /** Runs the contract with `gas` of the `remaining` gas; `refund` is what a deployment's rehearsal used. */
  ghost function RunDeal(env: Env, db: Db, pool: nat, used: nat, tx: Tx, gas: u64, remaining: u64, refund: u64,
                   first: bool, header: Header): (r: Outcome)
    requires WellFormed(db) && VmOk(env.vm)
    ensures WellFormed(r.db)
  {
    var t := Transition.ApplyMessage(env, true, Funded(db, tx.from, Fee(remaining, tx.price) + tx.value), pool, tx,
                                     gas, ContractDeal, header);
    if t.Fail? then Err(t.db, t.pool, t.error)
    else if t.value.failed && first && tx.IsFree() then Err(t.db, t.pool, ExecutionReverted)
    else CloseDeal(t.db, t.pool, used, tx, t.value, remaining, refund, header)
  }

  /** The state a deployment is rehearsed on: genesis, with the frozen amount at the sender's disposal. */
  function RehearsalDb(env: Env, from: Address, amount: nat): (r: Db)
    ensures WellFormed(r)
  {
    SetBalance(Db(env.genesis, env.genesis.bal, {}), from, amount)
  }

  /** The receipt of a deployment whose rehearsal failed. */
  ghost function FailedRehearsal(db: Db, pool: nat, used: nat, remaining: u64, n: Outcome): (r: Outcome)
    requires WellFormed(db) && (n.Ok? ==> n.receipt.failed)
    ensures WellFormed(r.db)
  {
    var gasUsed: u64 := if n.Ok? then n.receipt.gasUsed else ForceSafeSub(Low64(pool), Low64(n.pool));
    var rest := if n.Ok? then Some(n.pool) else SubGas(n.pool, gasUsed);
    if rest.None? then Err(db, n.pool, GasLimitReached)
    else
      Ok(Rebase(db), rest.value, CreateReceipt(db, ContractDeal, true, remaining, used, gasUsed, [], None))
  }

  /** Deploys or calls a contract. On the system chain a deployment is rehearsed first on a chain of its own. */
  ghost function ApplyDeal(env: Env, db: Db, pool: nat, used: nat, tx: Tx, gas: u64, remaining: u64, idle: bool,
                     first: bool, header: Header): (r: Outcome)
    requires WellFormed(db) && EnvOk(env)
    ensures WellFormed(r.db)
    decreases if header.mc == SC then 1 else 0
  {
    if idle && (tx.value > 0 || tx.price != 0 || gas != 0 || header.mc != SC) then Err(db, pool, InvalidMessage)
    else if !(tx.create && header.mc == SC) then RunDeal(env, db, pool, used, tx, gas, remaining, 0, first, header)
    else if Fee(remaining, tx.price) >= TWO64 then Err(db, pool, OutOfGas)
    else
      var h := Header(env.newContract(Nonce(db.w, header.mc)), 1, 0, 0);
      var n := ApplyDeal(env, RehearsalDb(env, tx.from, Fee(remaining, tx.price) + tx.value), pool, 0, tx, gas,
                         remaining, idle, first, h);
      if n.Err? && n.error == GasLimitReached then Err(db, n.pool, GasLimitReached)
      else if n.Err? || n.receipt.failed then FailedRehearsal(db, pool, used, remaining, n)
      else
        RunDeal(env, db, n.pool, used, tx, ForceSafeSub(gas, n.receipt.gasUsed), remaining, n.receipt.gasUsed,
                first, header)
  }

  ghost function ApplyToContract(env: Env, db: Db, pool: nat, used: nat, x: TxExec, header: Header): (r: Outcome)
    requires WellFormed(db) && EnvOk(env)
    ensures WellFormed(r.db)
  {
    if !x.tx.to.Contract? then Err(db, pool, InvalidMessage)
    else if (x.tx.id, ContractDeal) in db.marks then Err(db, pool, RepeatedAction)
    else
      var db1 := AddMark(db, x.tx.id, ContractDeal);
      if x.pre.Some? && x.pre.value.failed then Err(db1, pool, PreviousFailed)
      else
        var remaining := if x.pre.Some? then x.pre.value.gasRemaining else x.tx.gas;
        ApplyDeal(env, db1, pool, used, x.tx, remaining, remaining, x.action == SCIdleContractDeal, x.pre.None?,
                  header)
  }

  ghost function ApplyReceive(db: Db, pool: nat, used: nat, x: TxExec, header: Header): (r: Outcome)
    requires WellFormed(db)
    ensures WellFormed(r.db)
  {
    if x.tx.to.Contract? || x.tx.to != header.mc || x.tx.to == x.tx.from then Err(db, pool, InvalidMessage)
    else if (x.tx.id, TransferReceipt) in db.marks then Err(db, pool, RepeatedAction)
    else
      var db1 := AddMark(db, x.tx.id, TransferReceipt);
      if x.pre.None? then Err(db1, pool, InvalidMessage)
      else if x.pre.value.failed then Err(db1, pool, PreviousFailed)
      else
        var db2 := BumpNonce(AddBalance(db1, x.tx.to, x.tx.value), x.tx.to);
        Ok(Rebase(db2), pool,
           CreateReceipt(db2, TransferReceipt, false, x.pre.value.gasRemaining, used, 0, [], None))
  }

  /** What a refund returns: the remaining gas at its price, and the value too when the deal failed. */
  function RefundOf(tx: Tx, pre: Receipt): (r: nat) {
    Fee(pre.gasRemaining, tx.price) + (if pre.failed then tx.value else 0)
  }

  ghost function ApplyRefund(db: Db, pool: nat, used: nat, x: TxExec, header: Header): (r: Outcome)
    requires WellFormed(db)
    ensures WellFormed(r.db)
  {
    if header.mc != x.tx.from then Err(db, pool, InvalidMessage)
    else if (x.tx.id, ContractRefund) in db.marks then Err(db, pool, RepeatedAction)
    else
      var db1 := AddMark(db, x.tx.id, ContractRefund);
      if x.pre.None? then Err(db1, pool, InvalidMessage)
      else
        var db2 := AddBalance(BumpNonce(db1, x.tx.from), x.tx.from, RefundOf(x.tx, x.pre.value));
        Ok(Rebase(db2), pool,
           CreateReceipt(db2, ContractRefund, false, x.pre.value.gasRemaining, used, 0, [], None))
  }

  ghost function ApplyContractReceipt(db: Db, pool: nat, used: nat, x: TxExec, header: Header): (r: Outcome)
    requires WellFormed(db)
    ensures WellFormed(r.db)
  {
    if x.pre.None? then Err(db, pool, InvalidMessage)
    else if x.pre.value.failed then Err(db, pool, PreviousFailed)
    else if x.pre.value.flows == map[] then Err(db, pool, InvalidMessage)
    else if (x.tx.id, ContractReceipt) in db.marks then Err(db, pool, RepeatedAction)
    else
      var db1 := AddMark(db, x.tx.id, ContractReceipt);
      var amount := if header.mc in x.pre.value.flows then x.pre.value.flows[header.mc] else 0;
      if amount <= 0 then Err(db1, pool, InvalidMessage)
      else
        var db2 := AddBalance(BumpNonce(db1, header.mc), header.mc, amount);
        Ok(Rebase(db2), pool,
           CreateReceipt(db2, ContractReceipt, false, x.pre.value.gasRemaining, used, 0, [], None))
  }

  ghost function ProcessTransaction(env: Env, db: Db, pool: nat, used: nat, x: TxExec, header: Header): (r: Outcome)
    requires WellFormed(db) && EnvOk(env)
    ensures WellFormed(r.db)
  {
    match x.action
    case TransferPayment => ApplyPayment(env, db, pool, used, x.tx, header)
    case ContractFreeze => ApplyFreeze(env, db, pool, used, x.tx, header)
    case ContractDeal => ApplyToContract(env, db, pool, used, x, header)
    case PowTxContractDeal => ApplyToContract(env, db, pool, used, x, header)
    case SCIdleContractDeal => ApplyToContract(env, db, pool, used, x, header)
    case TransferReceipt => ApplyReceive(db, pool, used, x, header)
    case ContractReceipt => ApplyContractReceipt(db, pool, used, x, header)
    case ContractRefund => ApplyRefund(db, pool, used, x, header)
  }
}
