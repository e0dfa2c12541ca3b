/** A message run step by step on a state and a pool, proved against the transition it amounts to. */
module TransitionRun {
  import opened Options
  import opened Ledger
  import opened T = Transition
  import opened StateObjects
  import G = GasLaws

  /** Counts the bytes that are not zero. */
  method GetGasByData(data: seq<nat>) returns (gas: nat)
    ensures gas == DataGas(data)
  {
    var nz := 0;
    for i := 0 to |data|
      invariant nz == NonZeroCount(data[..i])
    {
      assert data[..i + 1][..i] == data[..i];
      if data[i] != 0 {
        nz := nz + 1;
      }
    }
    assert data[..|data|] == data;
    gas := nz * TX_DATA_NON_ZERO_GAS + (|data| - nz) * TX_DATA_ZERO_GAS;
  }

  class StateTransition {
    const env: Env
    const vm: bool
    const state: StateDB
    const gp: GasPool
    const action: TxAction
    const tx: Tx
    const msgGas: u64
    const header: Header
    const freeGas: u64
    var gas: u64
    var initialGas: u64

    constructor (env: Env, vm: bool, state: StateDB, action: TxAction, tx: Tx, msgGas: u64, gp: GasPool,
                 header: Header)
      ensures this.env == env && this.vm == vm && this.state == state && this.action == action && this.tx == tx
      ensures this.msgGas == msgGas && this.gp == gp && this.header == header && gas == 0 && initialGas == 0
      ensures freeGas == G.FreeAt(vm, tx, header)
    {
      this.env, this.vm, this.state, this.action, this.tx := env, vm, state, action, tx;
      this.msgGas, this.gp, this.header := msgGas, gp, header;
      freeGas := if vm && header.mc == SC then FreeGas(tx, header.number) else 0;
      gas, initialGas := 0, 0;
    }

    method UseGas(amount: nat) returns (ok: bool)
      modifies this
      ensures ok <==> amount <= old(gas)
      ensures gas == (if ok then old(gas) - amount else old(gas)) && initialGas == old(initialGas)
    {
      ok := amount <= gas;
      if ok {
        gas := gas - amount;
      }
    }

    /** Buys the gas from the sender and out of the pool; what was bought is then all there is to use. */
    method BuyGas() returns (err: Option<Error>)
      requires state.Valid() && gas == 0
      modifies this, state, gp
      ensures state.Valid()
      ensures var b := T.BuyGas(old(state.Value()), old(gp.gas), tx, msgGas, freeGas);
              && state.Value() == b.db && gp.gas == b.pool
              && err == (if b.Fine? then None else Some(b.error))
              && (b.Fine? ==> gas == initialGas == b.value)
    {
      hide Fee, Touch, SubBalance;
      if Fee(msgGas, tx.price) >= TWO64 {
        return Some(GasOverflow);
      }
      var cost := Fee(msgGas, tx.price);
      var amount := msgGas;
      if freeGas > 0 {
        var free := Fee(freeGas, tx.price) % TWO64;
        cost := if cost < free then 0 else cost - free;
        amount := (msgGas + freeGas) % TWO64;
      }
      state.GetOrNew(tx.from);
      if Bal(state.w, tx.from) < cost {
        return Some(InsufficientBalanceForGas);
      }
      var ok := gp.SubGas(amount);
      if !ok {
        return Some(GasLimitReached);
      }
      gas, initialGas := amount, amount;
      state.SubBalance(tx.from, cost);
      err := None;
    }

    /** Buys gas and pays the intrinsic part, which only the first stage of a transaction does; a mere check puts the
        state back as it was. */
    method PreApply(justCheck: bool) returns (err: Option<Error>)
      requires state.Valid() && gas == 0
      modifies this, state, gp
      ensures state.Valid()
      ensures var p := T.PreApply(old(state.Value()), old(gp.gas), tx, msgGas, freeGas, action);
              && state.Value() == (if justCheck then Revert(p.db, old(state.Value())) else p.db)
              && gp.gas == p.pool
              && err == (if p.Fine? then None else Some(p.error))
              && (p.Fine? ==> (gas, initialGas) == p.value)
    {
      var snap := state.Snapshot();
      err := BuyGas();
      if err.None? && (action == SCIdleContractDeal || action == ContractFreeze || action == TransferPayment) {
        var data := GetGasByData(tx.data);
        var creation := action != SCIdleContractDeal && tx.create;
        var ok := UseGas((if creation then TX_GAS_CONTRACT_CREATION else TX_GAS) + data);
        if !ok {
          err := Some(OutOfGas);
        }
      }
      if justCheck {
        state.RevertToSnapshot(snap);
      }
    }

    /** Runs the body of the message: a call, a deployment, or a plain transfer. */
    method Execute() returns (ret: seq<nat>, err: VmError)
      requires state.Valid() && tx.from in state.w.bal && VmOk(env.vm)
      modifies this, state
      ensures state.Valid() && initialGas == old(initialGas)
      ensures var ran := T.Run(env, old(state.Value()), tx, old(gas), action, header);
              state.Value() == ran.db && gas == ran.gas && ret == ran.ret && err == ran.err
    {
      state.SetMark(tx.id, action);
      if !(tx.create && header.mc != SC && header.number == 1) {
        state.BumpNonce(header.mc);
      }
      if tx.to.Contract? {
        if !(tx.create && header.mc != SC) {
          state.GetOrNew(tx.to);
        }
        var o := env.vm(state.w, CallOf(tx, gas, header));
        state.Adopt(o.w);
        gas, ret, err := o.gas, o.ret, o.err;
      } else if Bal(state.w, tx.from) < tx.value {
        ret, err := [], NotEnoughBalance;
      } else {
        state.GetOrNew(tx.to);
        state.SubBalance(tx.from, tx.value);
        state.AddBalance(tx.to, tx.value);
        ret, err := [], NoError;
      }
    }

    /** Adds the storage refund to the gas left and prices what goes back to the sender. */
    method CalcRefundValue() returns (value: nat)
      requires gas <= initialGas
      modifies this
      ensures initialGas == old(initialGas)
      ensures gas == old(gas) + StorageRefund(state.w, initialGas - old(gas), vm) <= initialGas
      ensures value == RefundValue(initialGas, freeGas, initialGas - gas, tx.price)
    {
      if vm {
        var half := (initialGas - gas) / 2;
        if half > state.w.refund {
          half := state.w.refund;
        }
        gas := gas + half;
      }
      var userPay := (initialGas - freeGas) % TWO64;
      var used := initialGas - gas;
      value := Fee(if used <= freeGas then userPay else (userPay - (used - freeGas)) % TWO64, tx.price);
    }

    method RefundGas()
      requires state.Valid() && gas <= initialGas
      modifies this, state, gp
      ensures state.Valid() && initialGas == old(initialGas)
      ensures gas == old(gas) + StorageRefund(old(state.w), initialGas - old(gas), vm) <= initialGas
      ensures state.Value() == AddBalance(old(state.Value()), tx.from,
                                          RefundValue(initialGas, freeGas, initialGas - gas, tx.price))
      ensures gp.gas == old(gp.gas) + gas
    {
      var value := CalcRefundValue();
      state.AddBalance(tx.from, value);
      gp.AddGas(gas);
    }

    /** Pays for the returned data and gives the rest of the gas back. */
    method Settle(ret: seq<nat>, vmErr: VmError) returns (r: Applied, err: Option<Error>)
      requires state.Valid() && gas <= initialGas
      modifies this, state, gp
      ensures state.Valid()
      ensures var ran := Ran(old(state.Value()), old(gas), ret, vmErr);
              var t := Finish(vm, ran, old(gp.gas), tx, old(initialGas), freeGas);
              && state.Value() == t.db && gp.gas == t.pool
              && err == (if t.Fine? then None else Some(t.error))
              && (t.Fine? ==> r == t.value)
    {
      hide StorageRefund, RefundValue, AddBalance, DataGas;
      r, err := Applied(0, false, []), None;
      if vmErr == NotEnoughBalance {
        err := Some(InsufficientBalance);
        return;
      }
      var failed := vmErr != NoError;
      if vmErr == NoError && |ret| > 0 {
        var more := GetGasByData(ret);
        var ok := UseGas(more);
        failed := !ok;
      }
      RefundGas();
      r := Applied(initialGas - gas, failed, ret);
    }

    /** The whole message. */
    method TransitionDb() returns (r: Applied, err: Option<Error>)
      requires state.Valid() && VmOk(env.vm) && gas == 0 && freeGas == G.FreeAt(vm, tx, header)
      modifies this, state, gp
      ensures state.Valid()
      ensures var t := ApplyMessage(env, vm, old(state.Value()), old(gp.gas), tx, msgGas, action, header);
              && state.Value() == t.db && gp.gas == t.pool
              && err == (if t.Fine? then None else Some(t.error))
              && (t.Fine? ==> r == t.value)
    {
      hide T.PreApply, T.Run, Finish, VmOk, Touch, FreeGas;
      r := Applied(0, false, []);
      err := PreApply(false);
      if err.Some? {
        return;
      }
      state.GetOrNew(tx.from);
      RunGas(env, state.Value(), tx, gas, action, header);
      var ret, vmErr := Execute();
      r, err := Settle(ret, vmErr);
    }
  }
}
