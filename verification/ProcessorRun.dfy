/** The actions run step by step on a chain's state and a gas pool, each proved against what it amounts to. */
module ProcessorRun {
  import opened Options
  import opened Ledger
  import opened T = Transition
  import P = Processor
  import M = Mining
  import opened StateObjects
  import opened TransitionRun

  datatype Result = Done(receipt: Receipt) | Failed(error: Error)

  /** A run that did to the state and the pool, and returned, what the outcome says. */
  ghost predicate Matches(o: P.Outcome, state: StateDB, gp: GasPool, r: Result)
    reads state, gp
  {
    && state.Valid() && state.Value() == o.db && gp.gas == o.pool
    && r == if o.Ok? then Done(o.receipt) else Failed(o.error)
  }

  /** Collects the flows from the list of changes and starts measuring afresh. */
  method CreateReceipt(state: StateDB, action: TxAction, failed: bool, remaining: u64, used: nat, gas: u64,
                       output: seq<nat>, keep: Option<Address>) returns (r: Receipt)
    requires state.Valid()
    modifies state
    ensures state.Valid() && state.Value() == Rebase(old(state.Value()))
    ensures r == P.CreateReceipt(old(state.Value()), action, failed, remaining, used, gas, output, keep)
  {
    ghost var db := state.Value();
    var logs := state.GetBalanceChanged();
    var flows: map<Address, int> := map[];
    if !failed {
      flows := CollectFlows(db, logs, keep);
    }
    r := Receipt(action, failed, gas, P.ForceSafeSub(remaining, gas), used + gas, flows, if failed then [] else output);
  }

  /** Keeps the accounts that gained and the one to keep anyway, and no contracts. */
  method CollectFlows(ghost db: Db, logs: seq<(Address, int)>, keep: Option<Address>) returns (flows: map<Address, int>)
    requires WellFormed(db) && Names(logs) == db.w.bal.Keys
    requires forall i :: 0 <= i < |logs| ==> logs[i].1 == Diff(db, logs[i].0)
    ensures flows == P.Flows(db, keep)
  {
    hide P.Flows, Diff;
    flows := map[];
    for n := 0 to |logs|
      invariant forall a :: a in flows <==>
                  a in Names(logs[..n]) && !a.Contract? && (Diff(db, a) > 0 || keep == Some(a))
      invariant forall a :: a in flows ==> flows[a] == Diff(db, a)
    {
      var (a, diff) := logs[n];
      assert logs[..n + 1] == logs[..n] + [logs[n]];
      NamesSnoc(logs[..n], logs[n]);
      if (diff > 0 || keep == Some(a)) && !a.Contract? {
        flows := flows[a := diff];
      }
    }
    assert logs[..|logs|] == logs;
    P.FlowsAre(db, keep);
    assert flows.Keys == P.Flows(db, keep).Keys;
  }

  method ApplyPayment(env: Env, state: StateDB, gp: GasPool, used: nat, tx: Tx, header: Header) returns (r: Result)
    requires state.Valid() && VmOk(env.vm)
    modifies state, gp
    ensures Matches(P.ApplyPayment(env, old(state.Value()), old(gp.gas), used, tx, header), state, gp, r)
  {
    hide ApplyMessage, P.CreateReceipt, Rebase;
    if tx.to.Contract? {
      return Failed(InvalidMessage);
    }
    if (tx.id, TransferPayment) in state.marks {
      return Failed(RepeatedAction);
    }
    var st := new StateTransition(env, false, state, TransferPayment, tx, tx.gas, gp, header);
    var a, err := st.TransitionDb();
    if err.Some? {
      return Failed(err.value);
    }
    var receipt := CreateReceipt(state, TransferPayment, a.failed, tx.gas, used, a.gasUsed, a.output, None);
    r := Done(receipt);
  }

  method ApplyFreeze(env: Env, state: StateDB, gp: GasPool, used: nat, tx: Tx, header: Header) returns (r: Result)
    requires state.Valid() && VmOk(env.vm)
    modifies state, gp
    ensures Matches(P.ApplyFreeze(env, old(state.Value()), old(gp.gas), used, tx, header), state, gp, r)
  {
    hide T.PreApply, P.CreateReceipt, Rebase, Revert, Fee, FreeGas, BumpNonce, SubBalance;
    if !tx.to.Contract? {
      return Failed(InvalidMessage);
    }
    if (tx.id, ContractFreeze) in state.marks {
      return Failed(RepeatedAction);
    }
    state.SetMark(tx.id, ContractFreeze);
    var st := new StateTransition(env, true, state, ContractFreeze, tx, tx.gas, gp, header);
    var err := st.PreApply(true);
    if err.Some? {
      return Failed(err.value);
    }
    var freeze := Fee(tx.gas, tx.price) + tx.value;
    if Bal(state.w, tx.from) < freeze {
      return Failed(InsufficientBalance);
    }
    r := Freeze(state, used, tx, freeze, st.initialGas - st.gas);
  }

  method Freeze(state: StateDB, used: nat, tx: Tx, freeze: nat, gas: u64) returns (r: Result)
    requires state.Valid() && freeze <= Bal(state.w, tx.from)
    modifies state
    ensures state.Valid()
    ensures var db := BumpNonce(SubBalance(old(state.Value()), tx.from, freeze), tx.from);
            && WellFormed(db) && state.Value() == Rebase(db)
            && r == Done(P.CreateReceipt(db, ContractFreeze, false, tx.gas, used, gas, [], None))
  {
    hide P.CreateReceipt, Rebase;
    state.SubBalance(tx.from, freeze);
    state.BumpNonce(tx.from);
    var receipt := CreateReceipt(state, ContractFreeze, false, tx.gas, used, gas, [], None);
    r := Done(receipt);
  }

  /** Puts the frozen amount at the sender's disposal; setting it to zero first makes the whole of it a change. */
  method Fund(state: StateDB, from: Address, amount: nat)
    requires state.Valid()
    modifies state
    ensures state.Valid() && state.Value() == P.Funded(old(state.Value()), from, amount)
  {
    state.SetBalance(from, 0);
    state.AddBalance(from, amount);
    state.ResetInitBalance(from, amount);
  }

  /** Writes the receipt, takes the sender's rest off the chain, and corrects the sender's entry among the flows. */
  method CloseDeal(state: StateDB, gp: GasPool, used: nat, tx: Tx, a: Applied, remaining: u64, refund: u64,
                   header: Header) returns (r: Result)
    requires state.Valid()
    modifies state
    ensures Matches(P.CloseDeal(old(state.Value()), gp.gas, used, tx, a, remaining, refund, header), state, gp, r)
  {
    hide P.Flows, Rebase, SetBalance, Fee, P.ForceSafeSub;
    var gas := a.gasUsed;
    var overflow := false;
    if a.failed && refund != 0 {
      overflow := gas + refund >= TWO64;
      gas := (gas + refund) % TWO64;
    }
    var receipt := CreateReceipt(state, ContractDeal, a.failed, remaining, used, gas, a.output, Some(tx.from));
    state.SetBalance(tx.from, 0);
    if overflow {
      return Failed(OutOfGas);
    }
    if !a.failed && tx.create && header.mc == SC {
      receipt := receipt.(flows := map[]);
    }
    if tx.from in receipt.flows {
      var more := receipt.flows[tx.from] + tx.value + Fee(gas, tx.price);
      receipt := receipt.(flows := if more == 0 then receipt.flows - {tx.from} else receipt.flows[tx.from := more]);
    }
    r := Done(receipt);
  }

  method RunDeal(env: Env, state: StateDB, gp: GasPool, used: nat, tx: Tx, gas: u64, remaining: u64, refund: u64,
                 first: bool, header: Header) returns (r: Result)
    requires state.Valid() && VmOk(env.vm)
    modifies state, gp
    ensures Matches(P.RunDeal(env, old(state.Value()), old(gp.gas), used, tx, gas, remaining, refund, first, header),
                    state, gp, r)
  {
    hide ApplyMessage, P.CloseDeal, P.Funded, Fee;
    Fund(state, tx.from, Fee(remaining, tx.price) + tx.value);
    var st := new StateTransition(env, true, state, ContractDeal, tx, gas, gp, header);
    var a, err := st.TransitionDb();
    if err.Some? {
      return Failed(err.value);
    }
    if a.failed && first && tx.IsFree() {
      return Failed(ExecutionReverted);
    }
    r := CloseDeal(state, gp, used, tx, a, remaining, refund, header);
  }

  /** The receipt of a deployment whose rehearsal failed; what an error drained is taken from the pool once more. */
  method FailRehearsal(state: StateDB, gp: GasPool, before: u64, ghost pool: nat, used: nat, remaining: u64, n: Result,
                       ghost o: P.Outcome) returns (r: Result)
    requires state.Valid() && before == Low64(pool) && gp.gas == o.pool
    requires n == (if o.Ok? then Done(o.receipt) else Failed(o.error)) && (o.Ok? ==> o.receipt.failed)
    modifies state, gp
    ensures Matches(P.FailedRehearsal(old(state.Value()), pool, used, remaining, o), state, gp, r)
  {
    hide P.CreateReceipt;
    var gasUsed: u64;
    if n.Done? {
      gasUsed := n.receipt.gasUsed;
    } else {
      gasUsed := P.ForceSafeSub(before, gp.Gas());
      var ok := gp.SubGas(gasUsed);
      if !ok {
        return Failed(GasLimitReached);
      }
    }
    var receipt := CreateReceipt(state, ContractDeal, true, remaining, used, gasUsed, [], None);
    r := Done(receipt);
  }

  method ApplyDeal(env: Env, state: StateDB, gp: GasPool, used: nat, tx: Tx, gas: u64, remaining: u64, idle: bool,
                   first: bool, header: Header) returns (r: Result)
    requires state.Valid() && EnvOk(env)
    modifies state, gp
    ensures Matches(P.ApplyDeal(env, old(state.Value()), old(gp.gas), used, tx, gas, remaining, idle, first, header),
                    state, gp, r)
    decreases if header.mc == SC then 1 else 0
  {
    hide P.RunDeal, P.FailedRehearsal, Fee, EnvOk, P.RehearsalDb, Nonce;
    if idle && (tx.value > 0 || tx.price != 0 || gas != 0 || header.mc != SC) {
      return Failed(InvalidMessage);
    }
    RehearsalIsElsewhere(env, state.w);
    var refund: u64 := 0;
    var rest := gas;
    if tx.create && header.mc == SC {
      if Fee(remaining, tx.price) >= TWO64 {
        return Failed(OutOfGas);
      }
      var h := Header(env.newContract(Nonce(state.w, header.mc)), 1, 0, 0);
      var newdb := Genesis(env, tx.from, Fee(remaining, tx.price) + tx.value);
      var before := gp.Gas();
      ghost var pool := gp.gas;
      ghost var o := P.ApplyDeal(env, newdb.Value(), gp.gas, 0, tx, gas, remaining, idle, first, h);
      var n := ApplyDeal(env, newdb, gp, 0, tx, gas, remaining, idle, first, h);
      if n.Failed? && n.error == GasLimitReached {
        return Failed(GasLimitReached);
      }
      if n.Failed? || n.receipt.failed {
        r := FailRehearsal(state, gp, before, pool, used, remaining, n, o);
        return;
      }
      refund := n.receipt.gasUsed;
      rest := P.ForceSafeSub(gas, refund);
    }
    r := RunDeal(env, state, gp, used, tx, rest, remaining, refund, first, header);
  }

  lemma RehearsalIsElsewhere(env: Env, w: World)
    requires EnvOk(env)
    ensures VmOk(env.vm) && env.newContract(Nonce(w, SC)) != SC
  {
  }

  /** The state a deployment is rehearsed on. */
  method Genesis(env: Env, from: Address, amount: nat) returns (state: StateDB)
    ensures fresh(state) && state.Valid() && state.Value() == P.RehearsalDb(env, from, amount)
  {
    state := new StateDB(Db(env.genesis, env.genesis.bal, {}));
    state.SetBalance(from, amount);
  }

  method ApplyToContract(env: Env, state: StateDB, gp: GasPool, used: nat, x: P.TxExec, header: Header)
    returns (r: Result)
    requires state.Valid() && EnvOk(env)
    modifies state, gp
    ensures Matches(P.ApplyToContract(env, old(state.Value()), old(gp.gas), used, x, header), state, gp, r)
  {
    hide P.ApplyDeal, EnvOk;
    if !x.tx.to.Contract? {
      return Failed(InvalidMessage);
    }
    if (x.tx.id, ContractDeal) in state.marks {
      return Failed(RepeatedAction);
    }
    state.SetMark(x.tx.id, ContractDeal);
    var remaining := x.tx.gas;
    if x.pre.Some? {
      if x.pre.value.failed {
        return Failed(PreviousFailed);
      }
      remaining := x.pre.value.gasRemaining;
    }
    r := ApplyDeal(env, state, gp, used, x.tx, remaining, remaining, x.action == SCIdleContractDeal, x.pre.None?,
                   header);
  }

  method ApplyReceive(state: StateDB, gp: GasPool, used: nat, x: P.TxExec, header: Header) returns (r: Result)
    requires state.Valid()
    modifies state
    ensures Matches(P.ApplyReceive(old(state.Value()), gp.gas, used, x, header), state, gp, r)
  {
    hide P.CreateReceipt;
    if x.tx.to.Contract? || x.tx.to != header.mc || x.tx.to == x.tx.from {
      return Failed(InvalidMessage);
    }
    if (x.tx.id, TransferReceipt) in state.marks {
      return Failed(RepeatedAction);
    }
    state.SetMark(x.tx.id, TransferReceipt);
    if x.pre.None? {
      return Failed(InvalidMessage);
    }
    if x.pre.value.failed {
      return Failed(PreviousFailed);
    }
    state.AddBalance(x.tx.to, x.tx.value);
    state.BumpNonce(x.tx.to);
    var receipt := CreateReceipt(state, TransferReceipt, false, x.pre.value.gasRemaining, used, 0, [], None);
    r := Done(receipt);
  }

  method ApplyRefund(state: StateDB, gp: GasPool, used: nat, x: P.TxExec, header: Header) returns (r: Result)
    requires state.Valid()
    modifies state
    ensures Matches(P.ApplyRefund(old(state.Value()), gp.gas, used, x, header), state, gp, r)
  {
    hide P.CreateReceipt;
    if header.mc != x.tx.from {
      return Failed(InvalidMessage);
    }
    if (x.tx.id, ContractRefund) in state.marks {
      return Failed(RepeatedAction);
    }
    state.SetMark(x.tx.id, ContractRefund);
    if x.pre.None? {
      return Failed(InvalidMessage);
    }
    var refund := Fee(x.pre.value.gasRemaining, x.tx.price);
    if x.pre.value.failed {
      refund := refund + x.tx.value;
    }
    state.BumpNonce(x.tx.from);
    state.AddBalance(x.tx.from, refund);
    var receipt := CreateReceipt(state, ContractRefund, false, x.pre.value.gasRemaining, used, 0, [], None);
    r := Done(receipt);
  }

  method ActionContractReceipt(state: StateDB, gp: GasPool, used: nat, x: P.TxExec, header: Header)
    returns (r: Result)
    requires state.Valid()
    modifies state
    ensures Matches(P.ApplyContractReceipt(old(state.Value()), gp.gas, used, x, header), state, gp, r)
  {
    hide P.CreateReceipt;
    if x.pre.None? {
      return Failed(InvalidMessage);
    }
    if x.pre.value.failed {
      return Failed(PreviousFailed);
    }
    var flows := x.pre.value.flows;
    if flows == map[] {
      return Failed(InvalidMessage);
    }
    if (x.tx.id, ContractReceipt) in state.marks {
      return Failed(RepeatedAction);
    }
    state.SetMark(x.tx.id, ContractReceipt);
    var amount := if header.mc in flows then flows[header.mc] else 0;
    if amount <= 0 {
      return Failed(InvalidMessage);
    }
    state.BumpNonce(header.mc);
    state.AddBalance(header.mc, amount);
    var receipt := CreateReceipt(state, ContractReceipt, false, x.pre.value.gasRemaining, used, 0, [], None);
    r := Done(receipt);
  }

  method ProcessTransaction(env: Env, state: StateDB, gp: GasPool, used: nat, x: P.TxExec, header: Header)
    returns (r: Result)
    requires state.Valid() && EnvOk(env)
    modifies state, gp
    ensures Matches(P.ProcessTransaction(env, old(state.Value()), old(gp.gas), used, x, header), state, gp, r)
  {
    hide P.ApplyPayment, P.ApplyFreeze, P.ApplyToContract, P.ApplyReceive, P.ApplyContractReceipt, P.ApplyRefund;
    match x.action {
      case TransferPayment => r := ApplyPayment(env, state, gp, used, x.tx, header);
      case ContractFreeze => r := ApplyFreeze(env, state, gp, used, x.tx, header);
      case ContractDeal => r := ApplyToContract(env, state, gp, used, x, header);
      case PowTxContractDeal => r := ApplyToContract(env, state, gp, used, x, header);
      case SCIdleContractDeal => r := ApplyToContract(env, state, gp, used, x, header);
      case TransferReceipt => r := ApplyReceive(state, gp, used, x, header);
      case ContractReceipt => r := ActionContractReceipt(state, gp, used, x, header);
      case ContractRefund => r := ApplyRefund(state, gp, used, x, header);
    }
  }

  /** Replays a unit; the first error ends it. */
  method Process(env: Env, state: StateDB, xs: seq<P.TxExec>, header: Header)
    returns (r: Option<(seq<Receipt>, nat)>)
    requires state.Valid() && EnvOk(env)
    modifies state
    ensures state.Valid()
    ensures var b := M.Process(env, old(state.Value()), header.gasLimit, xs, header);
            && (r.None? <==> b.None?)
            && (b.Some? ==> r.value == (b.value.receipts, G.GasOf(b.value.receipts)) && state.Value() == b.value.db)
  {
    hide P.ProcessTransaction, EnvOk, M.Process, G.GasOf;
    var gp := new GasPool(header.gasLimit);
    var receipts, total := [], 0;
    ghost var db := state.Value();
    NothingProcessed(env, db, header);
    for i := 0 to |xs|
      invariant state.Valid() && total == G.GasOf(receipts)
      invariant M.Process(env, db, header.gasLimit, xs[..i], header)
             == Some(G.Batch(state.Value(), gp.gas, receipts))
    {
      ProcessNext(env, db, xs, i, G.Batch(state.Value(), gp.gas, receipts), header);
      var res := ProcessTransaction(env, state, gp, total, xs[i], header);
      if res.Failed? {
        StaysFailed(env, db, header.gasLimit, xs, i + 1, header);
        return None;
      }
      M.GasSnoc(receipts, res.receipt);
      receipts, total := receipts + [res.receipt], total + res.receipt.gasUsed;
    }
    assert xs[..|xs|] == xs;
    r := Some((receipts, total));
  }

  lemma NothingProcessed(env: Env, db: Db, header: Header)
    requires WellFormed(db) && EnvOk(env)
    ensures M.Process(env, db, header.gasLimit, [], header) == Some(G.Batch(db, header.gasLimit, []))
    ensures G.GasOf([]) == 0
  {
  }

  lemma ProcessNext(env: Env, db: Db, xs: seq<P.TxExec>, i: nat, b: G.Batch, header: Header)
    requires WellFormed(db) && EnvOk(env) && i < |xs|
    requires M.Process(env, db, header.gasLimit, xs[..i], header) == Some(b) && WellFormed(b.db)
    ensures var o := P.ProcessTransaction(env, b.db, b.pool, G.GasOf(b.receipts), xs[i], header);
            M.Process(env, db, header.gasLimit, xs[..i + 1], header)
            == if o.Err? then None else Some(G.Batch(o.db, o.pool, b.receipts + [o.receipt]))
  {
    hide P.ProcessTransaction, EnvOk, G.GasOf;
    assert xs[..i + 1][..i] == xs[..i];
  }

  lemma {:induction false} StaysFailed(env: Env, db: Db, limit: u64, xs: seq<P.TxExec>, n: nat, header: Header)
    requires WellFormed(db) && EnvOk(env) && n <= |xs|
    requires M.Process(env, db, limit, xs[..n], header).None?
    ensures M.Process(env, db, limit, xs, header).None?
    decreases |xs| - n
  {
    hide P.ProcessTransaction, EnvOk;
    if n == |xs| {
      assert xs[..n] == xs;
    } else {
      assert xs[..n + 1][..n] == xs[..n];
      StaysFailed(env, db, limit, xs, n + 1, header);
    }
  }

  /** Runs a batch, skipping what fails. */
  method ProcessMultiTransaction(env: Env, state: StateDB, xs: seq<P.TxExec>, limit: u64, header: Header)
    returns (receipts: seq<Receipt>, total: nat)
    requires state.Valid() && EnvOk(env)
    modifies state
    ensures state.Valid()
    ensures var b := G.ProcessMulti(env, old(state.Value()), limit, xs, header);
            state.Value() == b.db && receipts == b.receipts && total == G.GasOf(b.receipts) <= limit
  {
    hide P.ProcessTransaction, EnvOk;
    var gp := new GasPool(limit);
    receipts, total := [], 0;
    ghost var db := state.Value();
    for i := 0 to |xs|
      invariant state.Valid() && total == G.GasOf(receipts)
      invariant G.ProcessMulti(env, db, limit, xs[..i], header) == G.Batch(state.Value(), gp.gas, receipts)
    {
      assert xs[..i + 1][..i] == xs[..i];
      var res := ProcessTransaction(env, state, gp, total, xs[i], header);
      if res.Done? {
        M.GasSnoc(receipts, res.receipt);
        receipts, total := receipts + [res.receipt], total + res.receipt.gasUsed;
      }
    }
    assert xs[..|xs|] == xs;
    G.BatchWithinLimit(env, db, limit, xs, header);
  }
}
