/** One message applied to one chain: buying gas, running, giving back what is left. */
module Transition {
  import opened Options
  import opened Ledger

  const TX_GAS: nat := 21000
  const TX_GAS_CONTRACT_CREATION: nat := 53000
  const TX_DATA_ZERO_GAS: nat := 4
  const TX_DATA_NON_ZERO_GAS: nat := 68

  datatype Error =
    | RepeatedAction
    | GasOverflow
    | InsufficientBalanceForGas
    | GasLimitReached
    | OutOfGas
    | InsufficientBalance
    | ExecutionReverted
    | PreviousFailed
    | InvalidMessage

  // ---- the virtual machine, by contract ----------------------------------------------------------------------

  datatype VmError = NoError | NotEnoughBalance | OtherError

  datatype VmCall = VmCall(create: bool, caller: Address, to: Address, data: seq<nat>, gas: u64, value: nat,
                           header: Header)

  datatype VmResult = VmResult(w: World, gas: u64, ret: seq<nat>, err: VmError)

  type Vm = (World, VmCall) -> VmResult

  /** What one call promises: leftover gas no larger than supplied; on error the balances are as before, and a lack of
      balance is reported only to a caller who has less than the value; on success nothing is added to the chain's total
      (contracts can destroy what they have), the caller loses at most the value, and no other external account loses
      anything. */
  ghost predicate VmStepOk(w: World, c: VmCall, r: VmResult) {
    && r.gas <= c.gas
    && w.bal.Keys <= r.w.bal.Keys
    && (r.err != NoError ==> forall a :: Bal(r.w, a) == Bal(w, a))
    && (r.err == NotEnoughBalance ==> Bal(w, c.caller) < c.value)
    && (r.err == NoError ==>
          && TotalBalance(r.w) <= TotalBalance(w)
          && Bal(w, c.caller) <= Bal(r.w, c.caller) + c.value
          && forall a: Address :: a.User? && a != c.caller ==> Bal(w, a) <= Bal(r.w, a))
  }

  ghost predicate VmOk(vm: Vm) {
    forall w: World, c: VmCall :: VmStepOk(w, c, vm(w, c))
  }

  /** What execution reads besides the chain's own state: the virtual machine, the genesis accounts a deployment
      starts from, the address a deployment gets, and the address a deployment's output names. */
  datatype Env = Env(vm: Vm, genesis: World, newContract: nat -> Address, contractOf: seq<nat> -> Address)

  ghost predicate EnvOk(env: Env) {
    && VmOk(env.vm)
    && (forall n: nat :: env.newContract(n).Contract? && env.newContract(n) != SC)
    && (forall out: seq<nat> :: env.contractOf(out).Contract? && env.contractOf(out) != SC)
  }

  // ---- gas ---------------------------------------------------------------------------------------------------

  function NonZeroCount(data: seq<nat>): (r: nat)
    ensures r <= |data|
  {
    if data == [] then 0 else NonZeroCount(data[..|data| - 1]) + (if data[|data| - 1] != 0 then 1 else 0)
  }

  function DataGas(data: seq<nat>): (r: nat) {
    NonZeroCount(data) * TX_DATA_NON_ZERO_GAS + (|data| - NonZeroCount(data)) * TX_DATA_ZERO_GAS
  }

  function IntrinsicGas(data: seq<nat>, creation: bool): (r: nat) {
    (if creation then TX_GAS_CONTRACT_CREATION else TX_GAS) + DataGas(data)
  }

  function FreeGas(tx: Tx, number: nat): (r: u64) {
    if tx.to != SC then 0 else if number == 0 then TWO64 - 1 else tx.free
  }

  /** The low 64 bits of the pool are what a withdrawal is checked against. */
  function Low64(pool: nat): (r: u64)
    ensures r <= pool
    ensures pool < TWO64 ==> r == pool
  {
    pool % TWO64
  }

  /** Withdraws from the pool, if its low word covers the amount. */
  function SubGas(pool: nat, amount: u64): (r: Option<nat>)
    ensures r.Some? <==> amount <= Low64(pool)
  {
    if Low64(pool) < amount then None else Some(pool - amount)
  }

  // ---- the transition ----------------------------------------------------------------------------------------

  /** A step of a transition: the state and the pool it leaves, and a value or an error. */
  datatype Step<+T> = Fine(db: Db, pool: nat, value: T) | Fail(db: Db, pool: nat, error: Error)

  function BuyCost(gas: u64, price: u64, free: u64): (r: nat)
  {
    var v := Fee(gas, price);
    if free == 0 then v
    else
      var g := Fee(free, price) % TWO64;
      if v < g then 0 else v - g
  }

  /** Buys the message's gas; the value is the gas now available. */
  function BuyGas(db: Db, pool: nat, tx: Tx, gas: u64, free: u64): (r: Step<u64>)
    requires WellFormed(db)
    ensures WellFormed(r.db) && r.db.marks == db.marks
  {
    if Fee(gas, tx.price) >= TWO64 then Fail(db, pool, GasOverflow)
    else
      var cost := BuyCost(gas, tx.price, free);
      var amount: u64 := (gas + free) % TWO64;
      var db1 := Touch(db, tx.from);
      if Bal(db1.w, tx.from) < cost then Fail(db1, pool, InsufficientBalanceForGas)
      else
        var rest := SubGas(pool, amount);
        if rest.None? then Fail(db1, pool, GasLimitReached)
        else Fine(SubBalance(db1, tx.from, cost), rest.value, amount)
  }

  /** Buys gas and pays the intrinsic part; the value is (gas left, gas bought). */
  function PreApply(db: Db, pool: nat, tx: Tx, gas: u64, free: u64, action: TxAction): (r: Step<(u64, u64)>)
    requires WellFormed(db)
    ensures WellFormed(r.db) && r.db.marks == db.marks
    ensures r.Fine? ==> r.value.0 <= r.value.1
  {
    var b := BuyGas(db, pool, tx, gas, free);
    if b.Fail? then Fail(b.db, b.pool, b.error)
    else
      var need := if action == SCIdleContractDeal then IntrinsicGas(tx.data, false)
                  else if action == ContractFreeze || action == TransferPayment
                  then IntrinsicGas(tx.data, tx.create)
                  else 0;
      if b.value < need then Fail(b.db, b.pool, OutOfGas)
      else Fine(b.db, b.pool, (b.value - need, b.value))
  }

  /** What running the message body leaves: state, gas, returned data, failure. */
  datatype Ran = Ran(db: Db, gas: u64, ret: seq<nat>, err: VmError)

  function CallOf(tx: Tx, gas: u64, header: Header): (r: VmCall) {
    if tx.create && header.mc != SC
    then VmCall(true, tx.from, tx.to, tx.data, gas, tx.value, header)
    else VmCall(false, tx.from, tx.to, tx.data, gas, if tx.create then 0 else tx.value, header)
  }

  /** Marks the action, counts it on the chain, and runs the message. */
  function Run(env: Env, db: Db, tx: Tx, gas: u64, action: TxAction, header: Header): (r: Ran)
    requires WellFormed(db)
    requires tx.from in db.w.bal
    ensures WellFormed(r.db)
  {
    var db1 := AddMark(db, tx.id, action);
    var db2 := if tx.create && header.mc != SC && header.number == 1 then db1 else BumpNonce(db1, header.mc);
    if tx.to.Contract? then
      var db3 := if tx.create && header.mc != SC then db2 else Touch(db2, tx.to);
      var o := env.vm(db3.w, CallOf(tx, gas, header));
      Ran(WithWorld(db3, o.w), o.gas, o.ret, o.err)
    else if Bal(db2.w, tx.from) < tx.value then Ran(db2, gas, [], NotEnoughBalance)
    else Ran(AddBalance(SubBalance(Touch(db2, tx.to), tx.from, tx.value), tx.to, tx.value), gas, [], NoError)
  }

  /** The storage refund: at most half of the gas used. */
  function StorageRefund(w: World, used: u64, vm: bool): (r: u64)
    ensures r <= used / 2
  {
    if !vm then 0 else if used / 2 > w.refund then w.refund else used / 2
  }

  /** What goes back to the sender for `used` gas out of `bought`; the subtractions are on unsigned 64-bit words. */
  function RefundValue(bought: u64, free: u64, used: u64, price: u64): (r: nat) {
    var userPay := (bought - free) % TWO64;
    if used <= free then Fee(userPay, price) else Fee((userPay - (used - free)) % TWO64, price)
  }

  /** Gas used and whether the message failed. */
  datatype Applied = Applied(gasUsed: u64, failed: bool, output: seq<nat>)

  /** Gas left after paying for the returned data, and whether that payment failed. */
  function PayOutput(ran: Ran): (r: (u64, bool))
    ensures r.0 <= ran.gas
  {
    if ran.err == NoError && |ran.ret| > 0 then
      if ran.gas < DataGas(ran.ret) then (ran.gas, true) else (ran.gas - DataGas(ran.ret), false)
    else (ran.gas, false)
  }

  /** Gives the rest of the gas back to the sender and to the pool. */
  function Finish(vm: bool, ran: Ran, pool: nat, tx: Tx, bought: u64, free: u64): (r: Step<Applied>)
    requires WellFormed(ran.db) && ran.gas <= bought
    ensures WellFormed(r.db)
  {
    if ran.err == NotEnoughBalance then Fail(ran.db, pool, InsufficientBalance)
    else
      var (rest, short) := PayOutput(ran);
      var back := StorageRefund(ran.db.w, bought - rest, vm);
      var left: u64 := rest + back;
      var used: u64 := bought - left;
      Fine(AddBalance(ran.db, tx.from, RefundValue(bought, free, used, tx.price)), pool + left,
           Applied(used, ran.err != NoError || short, ran.ret))
  }

  /** `vm` is false when no virtual machine is attached, as for a plain payment. */
  function ApplyMessage(env: Env, vm: bool, db: Db, pool: nat, tx: Tx, gas: u64, action: TxAction, header: Header)
    : (r: Step<Applied>)
    requires WellFormed(db) && VmOk(env.vm)
    ensures WellFormed(r.db)
  {
    var free := if vm && header.mc == SC then FreeGas(tx, header.number) else 0;
    var p := PreApply(db, pool, tx, gas, free, action);
    if p.Fail? then Fail(p.db, p.pool, p.error)
    else
      var db1 := Touch(p.db, tx.from);
      var ran := Run(env, db1, tx, p.value.0, action, header);
      RunGas(env, db1, tx, p.value.0, action, header);
      Finish(vm, ran, p.pool, tx, p.value.1, free)
  }

  lemma RunGas(env: Env, db: Db, tx: Tx, gas: u64, action: TxAction, header: Header)
    requires WellFormed(db) && tx.from in db.w.bal && VmOk(env.vm)
    ensures Run(env, db, tx, gas, action, header).gas <= gas
  {
    var db1 := AddMark(db, tx.id, action);
    var db2 := if tx.create && header.mc != SC && header.number == 1 then db1 else BumpNonce(db1, header.mc);
    if tx.to.Contract? {
      var db3 := if tx.create && header.mc != SC then db2 else Touch(db2, tx.to);
      assert VmStepOk(db3.w, CallOf(tx, gas, header), env.vm(db3.w, CallOf(tx, gas, header)));
    }
  }
}
