/** What each action on a user's chain costs and changes, and exactly when it succeeds, in numbers. */
module ActionLaws {
  import opened Options
  import opened Ledger
  import opened Transition
  import opened Processor
  import opened GasLaws

  // ---- the price of data --------------------------------------------------------------------------------------------

  /** The places of the bytes that are not zero, and of those that are. */
  function Nonzeros(data: seq<nat>): (s: set<nat>) { set i: nat | i < |data| && data[i] != 0 }

  function Zeros(data: seq<nat>): (s: set<nat>) { set i: nat | i < |data| && data[i] == 0 }

  lemma {:induction false} NonzerosCount(data: seq<nat>)
    ensures NonZeroCount(data) == |Nonzeros(data)| && |data| - NonZeroCount(data) == |Zeros(data)|
    decreases |data|
  {
    if data != [] {
      var n := |data| - 1;
      NonzerosCount(data[..n]);
      assert Nonzeros(data) == Nonzeros(data[..n]) + if data[n] != 0 then {n} else {};
      assert Zeros(data) == Zeros(data[..n]) + if data[n] == 0 then {n} else {};
    }
  }

  /** What data costs: 68 for each byte that is not zero, 4 for each that is. */
  function DataCost(data: seq<nat>): (n: nat) { 68 * |Nonzeros(data)| + 4 * |Zeros(data)| }

  /** What the first stage of a transaction costs: 53000 for a deployment, otherwise 21000, and its data. */
  function FirstCost(tx: Tx): (n: nat) { (if tx.create then 53000 else 21000) + DataCost(tx.data) }

  lemma DataCostIs(data: seq<nat>)
    ensures DataGas(data) == DataCost(data)
  {
    NonzerosCount(data);
  }

  // ---- payments -----------------------------------------------------------------------------------------------------

  /** What a stage costs before anything runs: the first one its first cost, an idle deal on the system chain 21000 and
      its data, all others nothing. */
  function StageCost(tx: Tx, action: TxAction): (n: nat) {
    match action
    case TransferPayment => FirstCost(tx)
    case ContractFreeze => FirstCost(tx)
    case SCIdleContractDeal => 21000 + DataCost(tx.data)
    case _ => 0
  }

  /** The gas a message gets: its own and the allowance, in a word. */
  function Bought(gas: u64, free: u64): (n: u64) { if gas + free < TWO64 then gas + free else gas + free - TWO64 }

  /** Gas is bought and the cost of the stage paid, or this is why not. */
  lemma StagePays(db: Db, pool: nat, tx: Tx, gas: u64, free: u64, action: TxAction)
    requires WellFormed(db)
    ensures var p := PreApply(db, pool, tx, gas, free, action);
            var cost := BuyCost(gas, tx.price, free);
            if Fee(gas, tx.price) >= TWO64 then p == Fail(db, pool, GasOverflow)
            else if Bal(db.w, tx.from) < cost then p == Fail(Touch(db, tx.from), pool, InsufficientBalanceForGas)
            else if Low64(pool) < Bought(gas, free) then p == Fail(Touch(db, tx.from), pool, GasLimitReached)
            else
              && p.pool == pool - Bought(gas, free) && p.db == SubBalance(Touch(db, tx.from), tx.from, cost)
              && if Bought(gas, free) < StageCost(tx, action) then p.Fail? && p.error == OutOfGas
                 else p.Fine? && p.value == (Bought(gas, free) - StageCost(tx, action), Bought(gas, free))
  {
    hide DataGas, DataCost, Low64, Fee, BuyCost;
    DataCostIs(tx.data);
    assert (gas + free) % TWO64 == Bought(gas, free);
  }

  /** On the first unit of the system chain the allowance is the largest word: a message gets one unit of gas less than
      it asks for, and one that asks for none gets the whole word. */
  lemma GenesisGas(db: Db, pool: nat, tx: Tx, gas: u64, action: TxAction, header: Header)
    requires WellFormed(db) && header.mc == SC && header.number == 0 && tx.to == SC
    ensures var p := PreApply(db, pool, tx, gas, FreeAt(true, tx, header), action);
            p.Fine? ==> p.value.1 == if gas == 0 then TWO64 - 1 else gas - 1
  {
    hide PreApply, BuyCost, Fee, StageCost;
    StagePays(db, pool, tx, gas, FreeAt(true, tx, header), action);
  }

  /** The first stage without an allowance. */
  lemma FirstStage(db: Db, pool: nat, tx: Tx, action: TxAction)
    requires WellFormed(db) && Fee(tx.gas, tx.price) < TWO64 && (action == TransferPayment || action == ContractFreeze)
    ensures var p := PreApply(db, pool, tx, tx.gas, 0, action);
            if Bal(db.w, tx.from) < Fee(tx.gas, tx.price)
            then p.Fail? && p.error == InsufficientBalanceForGas && p.pool == pool
            else if Low64(pool) < tx.gas then p.Fail? && p.error == GasLimitReached && p.pool == pool
            else if tx.gas < FirstCost(tx) then p.Fail? && p.error == OutOfGas && p.pool == pool - tx.gas
            else
              && p.Fine? && p.value == (tx.gas - FirstCost(tx), tx.gas) && p.pool == pool - tx.gas
              && p.db == SubBalance(Touch(db, tx.from), tx.from, Fee(tx.gas, tx.price))
  {
    hide PreApply, FirstCost, Low64, Fee, Touch, SubBalance;
    StagePays(db, pool, tx, tx.gas, 0, action);
  }

  /** Only the nonce of one account moves, by one. */
  ghost predicate NonceMoved(w: World, v: World, a: Address) {
    forall b :: Nonce(v, b) == Nonce(w, b) + if b == a then 1 else 0
  }

  lemma RefundOfRest(gas: u64, cost: u64, price: u64)
    requires 0 < cost <= gas
    ensures RefundValue(gas, 0, cost, price) == Fee(gas - cost, price)
  {
    assert (gas - 0) % TWO64 == gas && (gas - (cost - 0)) % TWO64 == gas - cost;
  }

  /** The value has moved, the action is marked and a nonce moved on. */
  ghost predicate ValueMoved(db: Db, tx: Tx, action: TxAction, e: Db, mc: Address) {
    && e.marks == db.marks + {(tx.id, action)} && NonceMoved(db.w, e.w, mc)
    && (forall a :: Base(e, a) == Base(db, a)) && e.w.bal.Keys == db.w.bal.Keys + {tx.to}
    && forall a :: Bal(e.w, a) == Bal(db.w, a) - (if a == tx.from then tx.value else 0)
                                  + (if a == tx.to then tx.value else 0)
  }

  lemma MoveIs(db: Db, from: Address, to: Address, v: nat)
    requires WellFormed(db) && from in db.w.bal && v <= Bal(db.w, from)
    ensures var e := AddBalance(SubBalance(Touch(db, to), from, v), to, v);
            && e.marks == db.marks && e.w.nonce == db.w.nonce && e.w.bal.Keys == db.w.bal.Keys + {to}
            && (forall a :: Base(e, a) == Base(db, a))
            && (forall a :: Bal(e.w, a) == Bal(db.w, a) - (if a == from then v else 0) + (if a == to then v else 0))
  {
  }

  lemma BumpIs(db: Db, a: Address)
    ensures var e := BumpNonce(db, a); e == db.(w := e.w) && e.w.bal == db.w.bal && NonceMoved(db.w, e.w, a)
  {
  }

  /** A plain transfer moves the value if the sender has it. */
  lemma PlainRun(env: Env, db: Db, tx: Tx, gas: u64, action: TxAction, header: Header)
    requires WellFormed(db) && tx.from in db.w.bal && tx.to.User? && !tx.create
    ensures var r := Run(env, db, tx, gas, action, header);
            && r.err == (if Bal(db.w, tx.from) < tx.value then NotEnoughBalance else NoError)
            && r.gas == gas && r.ret == [] && (r.err == NoError ==> ValueMoved(db, tx, action, r.db, header.mc))
  {
    hide Touch, SubBalance, AddBalance, BumpNonce, Nonce;
    var db1 := AddMark(db, tx.id, action);
    BumpIs(db1, header.mc);
    var db2 := BumpNonce(db1, header.mc);
    if tx.value <= Bal(db.w, tx.from) {
      MoveIs(db2, tx.from, tx.to, tx.value);
      SameNonces(db2.w, Run(env, db, tx, gas, action, header).db.w);
    }
  }

  /** Without a virtual machine there is no storage refund: all that is left goes back. */
  lemma PlainFinish(ran: Ran, pool: nat, tx: Tx, bought: u64)
    requires WellFormed(ran.db) && ran.gas < bought && ran.ret == []
    ensures var t := Finish(false, ran, pool, tx, bought, 0);
            if ran.err == NotEnoughBalance then t == Fail(ran.db, pool, InsufficientBalance)
            else
              && t.Fine? && t.pool == pool + ran.gas && t.value == Applied(bought - ran.gas, ran.err != NoError, [])
              && t.db == AddBalance(ran.db, tx.from, Fee(ran.gas, tx.price))
  {
    RefundOfRest(bought, bought - ran.gas, tx.price);
  }

  /** What a payment's message leaves: the sender pays the value and a fee. */
  ghost predicate Transferred(db: Db, tx: Tx, fee: nat, e: Db, mc: Address) {
    && WellFormed(e) && e.marks == db.marks + {(tx.id, TransferPayment)} && NonceMoved(db.w, e.w, mc)
    && e.w.bal.Keys == db.w.bal.Keys + {tx.from, tx.to}
    && (forall a :: Bal(e.w, a) == Bal(db.w, a) - (if a == tx.from then fee + tx.value else 0)
                                   + (if a == tx.to then tx.value else 0))
  }

  /** `e` is `db` but for one account, whose balance has `more` added. */
  ghost predicate Changed(db: Db, e: Db, who: Address, more: int) {
    && WellFormed(e) && e.marks == db.marks && e.w.nonce == db.w.nonce && e.w.bal.Keys == db.w.bal.Keys + {who}
    && (forall a :: Base(e, a) == Base(db, a))
    && (forall a :: Bal(e.w, a) == Bal(db.w, a) + if a == who then more else 0)
  }

  lemma ChangedHas(db: Db, e: Db, who: Address, more: int)
    requires Changed(db, e, who, more)
    ensures Bal(e.w, who) == Bal(db.w, who) + more
  {
  }

  lemma BoughtIs(db: Db, from: Address, cost: nat)
    requires WellFormed(db) && cost <= Bal(db.w, from)
    ensures Changed(db, Touch(SubBalance(Touch(db, from), from, cost), from), from, 0 - cost)
  {
  }

  lemma AddedIs(db: Db, who: Address, v: nat)
    requires WellFormed(db)
    ensures Changed(db, AddBalance(db, who, v), who, v)
  {
  }

  lemma PaidIsTransferred(db: Db, tx: Tx, fee: nat, rest: nat, mc: Address, d: Db, r: Db, e: Db)
    requires WellFormed(db) && WellFormed(d) && WellFormed(r)
    requires Changed(db, d, tx.from, 0 - (fee + rest)) && Changed(r, e, tx.from, rest)
    requires ValueMoved(d, tx, TransferPayment, r, mc)
    ensures Transferred(db, tx, fee, e, mc) && forall a :: Base(e, a) == Base(db, a)
  {
    SameNonces(db.w, d.w);
    SameNonces(r.w, e.w);
    hide Bal, Base, Nonce;
  }

  lemma SameNonces(w: World, v: World)
    requires v.nonce == w.nonce
    ensures forall a :: Nonce(v, a) == Nonce(w, a)
  {
  }

  /** What a message comes to whose gas was bought in `db`, leaving `d`. */
  ghost predicate PaymentEnds(db: Db, pool: nat, tx: Tx, cost: u64, t: Step<Applied>, mc: Address) {
    if Bal(db.w, tx.from) < Fee(tx.gas, tx.price) + tx.value
    then t.Fail? && t.error == InsufficientBalance && t.pool == pool - tx.gas
    else
      && t.Fine? && t.pool == pool - cost && t.value == Applied(cost, false, [])
      && Transferred(db, tx, Fee(cost, tx.price), t.db, mc) && forall a :: Base(t.db, a) == Base(db, a)
  }

  lemma PaymentFinish(env: Env, db: Db, d: Db, pool: nat, tx: Tx, cost: u64, header: Header)
    requires WellFormed(db) && WellFormed(d) && tx.from in d.w.bal && tx.to.User? && !tx.create && tx.gas <= pool
    requires Changed(db, d, tx.from, 0 - Fee(tx.gas, tx.price)) && 0 < cost <= tx.gas
    ensures var ran := Run(env, d, tx, tx.gas - cost, TransferPayment, header);
            ran.gas == tx.gas - cost
            && PaymentEnds(db, pool, tx, cost, Finish(false, ran, pool - tx.gas, tx, tx.gas, 0), header.mc)
  {
    hide Run, Finish, AddBalance, Transferred, ValueMoved, Base, Fee, Bal, Changed;
    ChangedHas(db, d, tx.from, 0 - Fee(tx.gas, tx.price));
    PlainRun(env, d, tx, tx.gas - cost, TransferPayment, header);
    var ran := Run(env, d, tx, tx.gas - cost, TransferPayment, header);
    PlainFinish(ran, pool - tx.gas, tx, tx.gas);
    FeeSplit(cost, tx.gas - cost, tx.price);
    if ran.err == NoError {
      AddedIs(ran.db, tx.from, Fee(tx.gas - cost, tx.price));
      PaidIsTransferred(db, tx, Fee(cost, tx.price), Fee(tx.gas - cost, tx.price), header.mc, d, ran.db,
                        AddBalance(ran.db, tx.from, Fee(tx.gas - cost, tx.price)));
    }
  }

  /** A payment whose gas can be bought. */
  lemma PaymentMessage(env: Env, db: Db, pool: nat, tx: Tx, cost: u64, header: Header)
    requires WellFormed(db) && VmOk(env.vm) && tx.to.User? && !tx.create && Fee(tx.gas, tx.price) < TWO64
    requires Fee(tx.gas, tx.price) <= Bal(db.w, tx.from) && tx.gas <= Low64(pool) && cost == FirstCost(tx) <= tx.gas
    ensures PaymentEnds(db, pool, tx, cost, ApplyMessage(env, false, db, pool, tx, tx.gas, TransferPayment, header),
                        header.mc)
  {
    hide PreApply, FirstCost, Low64, VmOk, Run, Finish, Touch, SubBalance, Fee, Changed, PaymentEnds, Bal;
    FirstStage(db, pool, tx, TransferPayment);
    CostIsPositive(tx);
    BoughtIs(db, tx.from, Fee(tx.gas, tx.price));
    PaymentFinish(env, db, Touch(PreApply(db, pool, tx, tx.gas, 0, TransferPayment).db, tx.from), pool, tx, cost, header);
  }

  lemma CostIsPositive(tx: Tx)
    ensures FirstCost(tx) > 0
  {
  }

  /** The flows of a receipt: what each user gained over its base. */
  ghost predicate Gains(flows: map<Address, int>, db: Db, w: World) {
    && (forall a :: a in flows <==> a.User? && Bal(w, a) > Base(db, a))
    && (forall a :: a in flows ==> flows[a] == Bal(w, a) - Base(db, a))
  }

  lemma FlowsAreGains(db: Db, t: Db)
    requires WellFormed(t) && forall a :: Base(t, a) == Base(db, a)
    ensures Gains(Flows(t, None), db, t.w)
  {
    hide Flows;
    FlowsAre(t, None);
  }

  /** A payment succeeds exactly if it is new, the balance covers the price of all its gas and the value, the pool covers
      its gas, and its gas covers its cost; the first of these that is missing is the error. */
  lemma PaymentIff(env: Env, db: Db, pool: nat, used: nat, tx: Tx, header: Header)
    requires WellFormed(db) && VmOk(env.vm) && tx.Valid() && tx.to.User?
    ensures var o := ApplyPayment(env, db, pool, used, tx, header);
            && (o.Ok? <==>
                  && (tx.id, TransferPayment) !in db.marks && Fee(tx.gas, tx.price) + tx.value <= Bal(db.w, tx.from)
                  && tx.gas <= Low64(pool) && FirstCost(tx) <= tx.gas)
            && (o.Err? ==>
                  && o.error == (if (tx.id, TransferPayment) in db.marks then RepeatedAction
                                 else if Bal(db.w, tx.from) < Fee(tx.gas, tx.price) then InsufficientBalanceForGas
                                 else if Low64(pool) < tx.gas then GasLimitReached
                                 else if tx.gas < FirstCost(tx) then OutOfGas
                                 else InsufficientBalance)
                  && o.pool == if o.error == OutOfGas || o.error == InsufficientBalance then pool - tx.gas else pool)
  {
    hide PreApply, FirstCost, Low64, VmOk, Run, Finish, Fee, Transferred, Flows, Bal, Rebase;
    FirstStage(db, pool, tx, TransferPayment);
    if Fee(tx.gas, tx.price) <= Bal(db.w, tx.from) && tx.gas <= Low64(pool) && FirstCost(tx) <= tx.gas {
      PaymentMessage(env, db, pool, tx, FirstCost(tx), header);
    }
  }

  /** A payment uses exactly its cost: the sender pays the price of that and the value, the pool gives that up, and one
      nonce moves. */
  lemma PaymentIs(env: Env, db: Db, pool: nat, used: nat, tx: Tx, header: Header)
    requires WellFormed(db) && VmOk(env.vm) && tx.Valid() && tx.to.User?
    requires ApplyPayment(env, db, pool, used, tx, header).Ok?
    ensures FirstCost(tx) <= tx.gas
    ensures var o := ApplyPayment(env, db, pool, used, tx, header);
            var r := o.receipt;
            && o.pool == pool - FirstCost(tx) && o.db.base == o.db.w.bal
            && Transferred(db, tx, Fee(FirstCost(tx), tx.price), o.db, header.mc)
            && r.action == TransferPayment && !r.failed && r.output == [] && r.cumulative == used + FirstCost(tx)
            && r.gasUsed == FirstCost(tx) && r.gasRemaining == tx.gas - FirstCost(tx) && Gains(r.flows, db, o.db.w)
  {
    hide PreApply, FirstCost, Low64, VmOk, Run, Finish, Fee, Flows, Bal, Base, NonceMoved, ApplyMessage, Gains;
    PaymentIff(env, db, pool, used, tx, header);
    PaymentMessage(env, db, pool, tx, FirstCost(tx), header);
    FlowsAreGains(db, ApplyMessage(env, false, db, pool, tx, tx.gas, TransferPayment, header).db);
  }

  // ---- freezes ------------------------------------------------------------------------------------------------------

  /** What a freeze leaves: the sender gives up the price of all its gas and the value. */
  ghost predicate Withdrawn(db: Db, tx: Tx, e: Db) {
    && WellFormed(e) && e.base == e.w.bal && e.marks == db.marks + {(tx.id, ContractFreeze)}
    && NonceMoved(db.w, e.w, tx.from)
    && forall a :: Bal(e.w, a) == Bal(db.w, a) - if a == tx.from then Fee(tx.gas, tx.price) + tx.value else 0
  }

  /** Going back after the check leaves the marked state. */
  lemma CheckUndone(db: Db, tx: Tx, cost: nat)
    requires WellFormed(db) && cost <= Bal(db.w, tx.from)
    ensures Revert(SubBalance(Touch(db, tx.from), tx.from, cost), db) == db
  {
    var r := Revert(SubBalance(Touch(db, tx.from), tx.from, cost), db);
    assert r.base == db.base;
  }

  lemma TakenIs(db: Db, tx: Tx, v: nat)
    requires WellFormed(db) && v <= Bal(db.w, tx.from)
    ensures var e := BumpNonce(SubBalance(db, tx.from, v), tx.from);
            && WellFormed(e) && e.marks == db.marks && NonceMoved(db.w, e.w, tx.from)
            && (forall a :: Base(e, a) == Base(db, a))
            && (forall a :: Bal(e.w, a) == Bal(db.w, a) - if a == tx.from then v else 0)
  {
  }

  /** A freeze succeeds exactly if it is new, the balance covers the price of its gas and the value, the pool covers its
      gas, and its gas covers its cost; the first of these that is missing is the error. */
  lemma FreezeIff(env: Env, db: Db, pool: nat, used: nat, tx: Tx, header: Header)
    requires WellFormed(db) && VmOk(env.vm) && tx.Valid() && tx.to.Contract? && header.mc != SC
    ensures var o := ApplyFreeze(env, db, pool, used, tx, header);
            && (o.Ok? <==>
                  && (tx.id, ContractFreeze) !in db.marks && Fee(tx.gas, tx.price) + tx.value <= Bal(db.w, tx.from)
                  && tx.gas <= Low64(pool) && FirstCost(tx) <= tx.gas)
            && (o.Err? ==>
                  && o.error == (if (tx.id, ContractFreeze) in db.marks then RepeatedAction
                                 else if Bal(db.w, tx.from) < Fee(tx.gas, tx.price) then InsufficientBalanceForGas
                                 else if Low64(pool) < tx.gas then GasLimitReached
                                 else if tx.gas < FirstCost(tx) then OutOfGas
                                 else InsufficientBalance)
                  && o.pool == if o.error == OutOfGas || o.error == InsufficientBalance then pool - tx.gas else pool)
  {
    hide PreApply, FirstCost, Low64, VmOk, Flows, Bal, Rebase, Revert, SubBalance, Touch, BumpNonce;
    var db1 := AddMark(db, tx.id, ContractFreeze);
    NoFreeGas(tx);
    hide Fee;
    MarksOnly(db, db1);
    FirstStage(db1, pool, tx, ContractFreeze);
    if Fee(tx.gas, tx.price) <= Bal(db1.w, tx.from) {
      CheckUndone(db1, tx, Fee(tx.gas, tx.price));
    }
  }

  lemma NoFreeGas(tx: Tx)
    requires tx.Valid()
    ensures Fee(tx.gas, tx.price) < TWO64
  {
  }

  lemma MarksOnly(db: Db, e: Db)
    requires e == db.(marks := e.marks)
    ensures forall a :: Bal(e.w, a) == Bal(db.w, a) && Base(e, a) == Base(db, a)
  {
  }

  lemma FreezeShape(env: Env, db: Db, pool: nat, used: nat, tx: Tx, cost: u64, header: Header)
    requires WellFormed(db) && VmOk(env.vm) && tx.Valid() && tx.to.Contract? && header.mc != SC && cost == FirstCost(tx)
    requires ApplyFreeze(env, db, pool, used, tx, header).Ok?
    ensures cost <= tx.gas <= pool && Fee(tx.gas, tx.price) + tx.value <= Bal(db.w, tx.from)
    ensures var e := BumpNonce(SubBalance(AddMark(db, tx.id, ContractFreeze), tx.from, Fee(tx.gas, tx.price) + tx.value),
                               tx.from);
            ApplyFreeze(env, db, pool, used, tx, header)
            == Ok(Rebase(e), pool - tx.gas, CreateReceipt(e, ContractFreeze, false, tx.gas, used, cost, [], None))
  {
    hide PreApply, FirstCost, Low64, VmOk, CreateReceipt, Bal, Rebase, Revert, SubBalance, Touch, BumpNonce, Fee;
    FreezeIff(env, db, pool, used, tx, header);
    NoFreeGas(tx);
    var db1 := AddMark(db, tx.id, ContractFreeze);
    MarksOnly(db, db1);
    FirstStage(db1, pool, tx, ContractFreeze);
    CheckUndone(db1, tx, Fee(tx.gas, tx.price));
  }

  /** A freeze uses exactly its cost, takes all its gas out of the pool, and keeps the rest of it for the deal. */
  lemma FreezeIs(env: Env, db: Db, pool: nat, used: nat, tx: Tx, header: Header)
    requires WellFormed(db) && VmOk(env.vm) && tx.Valid() && tx.to.Contract? && header.mc != SC
    requires ApplyFreeze(env, db, pool, used, tx, header).Ok?
    ensures FirstCost(tx) <= tx.gas
    ensures var o := ApplyFreeze(env, db, pool, used, tx, header);
            var r := o.receipt;
            && o.pool == pool - tx.gas && Withdrawn(db, tx, o.db)
            && r.action == ContractFreeze && !r.failed && r.output == [] && r.cumulative == used + FirstCost(tx)
            && r.gasUsed == FirstCost(tx) && r.gasRemaining == tx.gas - FirstCost(tx) && Gains(r.flows, db, o.db.w)
  {
    hide FirstCost, VmOk, Flows, Bal, Base, SubBalance, BumpNonce, Gains, NonceMoved, Fee, ApplyFreeze;
    FreezeIff(env, db, pool, used, tx, header);
    FreezeShape(env, db, pool, used, tx, FirstCost(tx), header);
    var db1 := AddMark(db, tx.id, ContractFreeze);
    MarksOnly(db, db1);
    TakenIs(db1, tx, Fee(tx.gas, tx.price) + tx.value);
    FlowsAreGains(db, BumpNonce(SubBalance(db1, tx.from, Fee(tx.gas, tx.price) + tx.value), tx.from));
  }

  // ---- credits ------------------------------------------------------------------------------------------------------

  /** What a credit leaves: the account has the amount more. */
  ghost predicate Credited(db: Db, x: TxExec, who: Address, amount: nat, e: Db) {
    && WellFormed(e) && e.base == e.w.bal && e.marks == db.marks + {(x.tx.id, x.action)} && NonceMoved(db.w, e.w, who)
    && forall a :: Bal(e.w, a) == Bal(db.w, a) + if a == who then amount else 0
  }

  /** A credit costs no gas, and hands on the gas that remained before. */
  ghost predicate CreditReceipt(r: Receipt, x: TxExec, used: nat, db: Db, e: Db)
    requires x.pre.Some?
  {
    && r.action == x.action && !r.failed && r.gasUsed == 0 && r.gasRemaining == x.pre.value.gasRemaining
    && r.cumulative == used && r.output == [] && Gains(r.flows, db, e.w)
  }

  /** The action is an error and leaves this state. */
  predicate RefusedAs(o: Outcome, db: Db, error: Error) { o.Err? && o.error == error && o.db == db }

  lemma GivenIs(db: Db, who: Address, v: nat)
    requires WellFormed(db)
    ensures var e := BumpNonce(AddBalance(db, who, v), who);
            && WellFormed(e) && e.marks == db.marks && NonceMoved(db.w, e.w, who)
            && (forall a :: Base(e, a) == Base(db, a))
            && (forall a :: Bal(e.w, a) == Bal(db.w, a) + if a == who then v else 0)
            && AddBalance(BumpNonce(db, who), who, v) == e
  {
    hide AddBalance, BumpNonce, Bal, Base, Nonce;
    var d := AddBalance(db, who, v);
    AddedIs(db, who, v);
    BumpIs(d, who);
    SameNonces(db.w, d.w);
    SameMoney(d, BumpNonce(d, who));
    EitherOrder(db, who, v);
  }

  lemma SameMoney(d: Db, e: Db)
    requires e.w.bal == d.w.bal && e.base == d.base
    ensures WellFormed(d) <==> WellFormed(e)
    ensures forall a :: Bal(e.w, a) == Bal(d.w, a) && Base(e, a) == Base(d, a)
  {
  }

  lemma EitherOrder(db: Db, who: Address, v: nat)
    requires WellFormed(db)
    ensures AddBalance(BumpNonce(db, who), who, v) == BumpNonce(AddBalance(db, who, v), who)
  {
  }

  /** A transfer is received exactly if it is for this account, from another, new, and did not fail before; the account
      gets the value. */
  lemma ReceiveIff(db: Db, pool: nat, used: nat, x: TxExec, header: Header)
    requires WellFormed(db) && x.action == TransferReceipt
    ensures var o := ApplyReceive(db, pool, used, x, header);
            && o.pool == pool
            && (o.Ok? <==>
                  && x.tx.to.User? && x.tx.to == header.mc && x.tx.to != x.tx.from
                  && (x.tx.id, TransferReceipt) !in db.marks && x.pre.Some? && !x.pre.value.failed)
            && (o.Ok? ==> Credited(db, x, x.tx.to, x.tx.value, o.db) && CreditReceipt(o.receipt, x, used, db, o.db))
            && (o.Err? ==>
                  if x.tx.to.Contract? || x.tx.to != header.mc || x.tx.to == x.tx.from
                  then RefusedAs(o, db, InvalidMessage)
                  else if (x.tx.id, TransferReceipt) in db.marks then RefusedAs(o, db, RepeatedAction)
                  else RefusedAs(o, AddMark(db, x.tx.id, TransferReceipt),
                                 if x.pre.None? then InvalidMessage else PreviousFailed))
  {
    hide Flows, Bal, Base, AddBalance, BumpNonce, Gains, NonceMoved;
    var db1 := AddMark(db, x.tx.id, TransferReceipt);
    MarksOnly(db, db1);
    GivenIs(db1, x.tx.to, x.tx.value);
    FlowsAreGains(db, BumpNonce(AddBalance(db1, x.tx.to, x.tx.value), x.tx.to));
  }

  /** A refund is paid out once, on the sender's chain: the gas that remained at its price, and the value if the deal
      failed. */
  lemma RefundIff(db: Db, pool: nat, used: nat, x: TxExec, header: Header)
    requires WellFormed(db) && x.action == ContractRefund
    ensures var o := ApplyRefund(db, pool, used, x, header);
            && o.pool == pool
            && (o.Ok? <==> header.mc == x.tx.from && (x.tx.id, ContractRefund) !in db.marks && x.pre.Some?)
            && (o.Ok? ==>
                  && Credited(db, x, x.tx.from, Fee(x.pre.value.gasRemaining, x.tx.price)
                              + (if x.pre.value.failed then x.tx.value else 0), o.db)
                  && CreditReceipt(o.receipt, x, used, db, o.db))
            && (o.Err? ==>
                  if header.mc != x.tx.from then RefusedAs(o, db, InvalidMessage)
                  else if (x.tx.id, ContractRefund) in db.marks then RefusedAs(o, db, RepeatedAction)
                  else RefusedAs(o, AddMark(db, x.tx.id, ContractRefund), InvalidMessage))
  {
    hide Flows, Bal, Base, AddBalance, BumpNonce, Gains, NonceMoved, Fee;
    if x.pre.Some? {
      var db1 := AddMark(db, x.tx.id, ContractRefund);
      MarksOnly(db, db1);
      GivenIs(db1, x.tx.from, RefundOf(x.tx, x.pre.value));
      FlowsAreGains(db, BumpNonce(AddBalance(db1, x.tx.from, RefundOf(x.tx, x.pre.value)), x.tx.from));
    }
  }

  /** A flow is received exactly if the deal before did not fail and its receipt has something for this account. */
  lemma FlowIff(db: Db, pool: nat, used: nat, x: TxExec, header: Header)
    requires WellFormed(db) && x.action == ContractReceipt
    ensures var o := ApplyContractReceipt(db, pool, used, x, header);
            && o.pool == pool
            && (o.Ok? <==>
                  && x.pre.Some? && !x.pre.value.failed && (x.tx.id, ContractReceipt) !in db.marks
                  && header.mc in x.pre.value.flows && x.pre.value.flows[header.mc] > 0)
            && (o.Ok? ==>
                  && Credited(db, x, header.mc, x.pre.value.flows[header.mc], o.db)
                  && CreditReceipt(o.receipt, x, used, db, o.db))
            && (o.Err? ==>
                  if x.pre.None? then RefusedAs(o, db, InvalidMessage)
                  else if x.pre.value.failed then RefusedAs(o, db, PreviousFailed)
                  else if x.pre.value.flows == map[] then RefusedAs(o, db, InvalidMessage)
                  else if (x.tx.id, ContractReceipt) in db.marks then RefusedAs(o, db, RepeatedAction)
                  else RefusedAs(o, AddMark(db, x.tx.id, ContractReceipt), InvalidMessage))
  {
    hide Flows, Bal, Base, AddBalance, BumpNonce, Gains, NonceMoved;
    if x.pre.Some? && header.mc in x.pre.value.flows && x.pre.value.flows[header.mc] > 0 {
      var db1 := AddMark(db, x.tx.id, ContractReceipt);
      MarksOnly(db, db1);
      GivenIs(db1, header.mc, x.pre.value.flows[header.mc]);
      FlowsAreGains(db, BumpNonce(AddBalance(db1, header.mc, x.pre.value.flows[header.mc]), header.mc));
    }
  }
}
