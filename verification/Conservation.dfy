/** What each action moves: on its chain, into receipts, and into fees. */
module Conservation {
  import opened Options
  import opened Sums
  import opened Ledger
  import opened Transition
  import opened Processor
  import opened GasLaws
  import A = ActionLaws

  // ---- sums of balances --------------------------------------------------------------------------------------

  lemma SumBalAgree(w: World, v: World, s: set<Address>)
    requires forall a :: a in s ==> Bal(w, a) == Bal(v, a)
    ensures SumBal(w, s) == SumBal(v, s)
  {
    Agree(BalOf(w), BalOf(v), s);
  }

  lemma SumBalPick(w: World, s: set<Address>, a: Address)
    requires a in s
    ensures SumBal(w, s) == Bal(w, a) + SumBal(w, s - {a})
  {
    Pick(BalOf(w), s, a);
  }

  lemma SumBalSplit(w: World, s: set<Address>, t: set<Address>)
    requires s !! t
    ensures SumBal(w, s + t) == SumBal(w, s) + SumBal(w, t)
  {
    Split(BalOf(w), s, t);
  }

  /** Accounts without a balance can be added to the set. */
  lemma SumBalWiden(w: World, s: set<Address>, t: set<Address>)
    requires s <= t
    requires forall a :: a in t - s ==> Bal(w, a) == 0
    ensures SumBal(w, t) == SumBal(w, s)
  {
    Widen(BalOf(w), s, t);
  }

  function ContractsIn(k: set<Address>): (s: set<Address>) { set a | a in k && a.Contract? }

  function UsersIn(k: set<Address>, except: Address): (s: set<Address>) { set a | a in k && a.User? && a != except }

  /** A user's chain holds that user's balance. */
  lemma OwnOfUser(db: Db, c: Address)
    requires c.User?
    ensures OwnBalance(db, c) == Bal(db.w, c)
  {
    if c in db.w.bal {
      assert Owned(db.w, c) == {c};
      SumBalPick(db.w, {c}, c);
      assert {c} - {c} == {};
    } else {
      assert Owned(db.w, c) == {};
    }
  }

  /** A contract's chain holds the balances of contracts. */
  lemma OwnOfContract(db: Db, c: Address, k: set<Address>)
    requires c.Contract? && db.w.bal.Keys <= k
    ensures OwnBalance(db, c) == SumBal(db.w, ContractsIn(k))
  {
    SumBalWiden(db.w, Owned(db.w, c), ContractsIn(k));
  }

  lemma TotalSplit(w: World, k: set<Address>, from: Address)
    requires w.bal.Keys <= k && from in k && from.User?
    ensures TotalBalance(w) == SumBal(w, ContractsIn(k)) + Bal(w, from) + SumBal(w, UsersIn(k, from))
  {
    SumBalWiden(w, w.bal.Keys, k);
    SumBalPick(w, k, from);
    assert k - {from} == ContractsIn(k) + UsersIn(k, from);
    SumBalSplit(w, ContractsIn(k), UsersIn(k, from));
  }

  // ---- actions on a user's chain -----------------------------------------------------------------------------

  /** A payment takes the value, unless it is to oneself, and the price of exactly the gas its receipt shows, which is
      its cost. */
  lemma PaymentAccount(env: Env, db: Db, pool: nat, used: nat, tx: Tx, header: Header)
    requires WellFormed(db) && VmOk(env.vm) && header.mc == tx.from && tx.from.User?
    requires ApplyPayment(env, db, pool, used, tx, header).Ok?
    ensures var o := ApplyPayment(env, db, pool, used, tx, header);
            && OwnBalance(o.db, header.mc)
               == OwnBalance(db, header.mc) - Fee(o.receipt.gasUsed, tx.price)
                  - (if tx.to == tx.from then 0 else tx.value)
            && !o.receipt.failed
            && o.receipt.gasUsed + o.receipt.gasRemaining == tx.gas
            && (tx.Valid() ==> o.receipt.gasUsed == A.FirstCost(tx))
  {
    hide ApplyMessage, RunOf, PreApply, RefundValue, BuyCost, Fee, FreeAt, A.FirstCost, A.Transferred, A.Gains;
    var o := ApplyPayment(env, db, pool, used, tx, header);
    OwnOfUser(db, header.mc);
    OwnOfUser(o.db, header.mc);
    assert FreeAt(false, tx, header) == 0 by { PaymentIsNotFree(tx, header); }
    MessageGas(env, false, db, pool, tx, tx.gas, TransferPayment, header);
    MessageBalance(env, false, db, pool, tx, tx.gas, TransferPayment, header, tx.from);
    PaymentRun(env, db, pool, tx, header);
    var t := ApplyMessage(env, false, db, pool, tx, tx.gas, TransferPayment, header);
    NetFeeWithoutFree(tx.gas, tx.price, t.value.gasUsed);
    assert NetFee(tx.gas, tx.price, 0, t.value.gasUsed)
        == BuyCost(tx.gas, tx.price, 0) - RefundValue(tx.gas, 0, t.value.gasUsed, tx.price);
    if tx.Valid() {
      A.PaymentIs(env, db, pool, used, tx, header);
    }
  }

  lemma PaymentIsNotFree(tx: Tx, header: Header)
    ensures FreeAt(false, tx, header) == 0
  {
  }

  lemma PaymentRun(env: Env, db: Db, pool: nat, tx: Tx, header: Header)
    requires WellFormed(db) && VmOk(env.vm) && tx.to.User?
    requires PreApply(db, pool, tx, tx.gas, 0, TransferPayment).Fine?
    ensures var ran := RunOf(env, false, db, pool, tx, tx.gas, TransferPayment, header);
            ran.err != NotEnoughBalance ==>
              && ran.err == NoError && !PayOutput(ran).1
              && Bal(ran.db.w, tx.from)
                 == Bal(Ready(db, pool, tx, tx.gas, 0, TransferPayment).w, tx.from)
                    - (if tx.to == tx.from then 0 else tx.value)
  {
    hide PreApply;
  }

  /** Freezing takes the whole gas and the value; the receipt splits the gas into its cost and what remains. */
  lemma FreezeAccount(env: Env, db: Db, pool: nat, used: nat, tx: Tx, header: Header)
    requires WellFormed(db) && VmOk(env.vm) && header.mc == tx.from && tx.from.User?
    requires ApplyFreeze(env, db, pool, used, tx, header).Ok?
    ensures var o := ApplyFreeze(env, db, pool, used, tx, header);
            && OwnBalance(o.db, header.mc) == OwnBalance(db, header.mc) - Fee(tx.gas, tx.price) - tx.value
            && !o.receipt.failed
            && o.receipt.gasUsed + o.receipt.gasRemaining == tx.gas
            && (tx.Valid() ==> o.receipt.gasUsed == A.FirstCost(tx))
  {
    hide PreApply, Fee, A.FirstCost, A.Withdrawn, A.Gains;
    var o := ApplyFreeze(env, db, pool, used, tx, header);
    OwnOfUser(db, header.mc);
    OwnOfUser(o.db, header.mc);
    PreApplyPool(AddMark(db, tx.id, ContractFreeze), pool, tx, tx.gas, 0, ContractFreeze);
    if tx.Valid() {
      A.FreezeIs(env, db, pool, used, tx, header);
    }
  }

  lemma CreditOwn(db: Db, e: Db, c: Address, v: nat)
    requires db.w.bal.Keys <= e.w.bal.Keys && c in e.w.bal
    requires forall a :: Bal(e.w, a) == Bal(db.w, a) + (if a == c then v else 0)
    ensures OwnBalance(e, c) == OwnBalance(db, c) + v
  {
    var s := Owned(e.w, c);
    SumBalWiden(db.w, Owned(db.w, c), s);
    SumBalPick(db.w, s, c);
    SumBalPick(e.w, s, c);
    SumBalAgree(db.w, e.w, s - {c});
  }

  /** What a crediting action adds: a transfer's receipt its value, a refund what the deal left, a contract receipt
      its flow. */
  function Credit(x: TxExec, chain: Address): (r: int)
    requires x.pre.Some?
  {
    match x.action
    case TransferReceipt => x.tx.value
    case ContractRefund => RefundOf(x.tx, x.pre.value)
    case _ => if chain in x.pre.value.flows then x.pre.value.flows[chain] else 0
  }

  predicate IsCredit(action: TxAction) {
    action == TransferReceipt || action == ContractRefund || action == ContractReceipt
  }

  lemma CreditAccount(env: Env, db: Db, pool: nat, used: nat, x: TxExec, header: Header)
    requires WellFormed(db) && EnvOk(env) && IsCredit(x.action)
    requires ProcessTransaction(env, db, pool, used, x, header).Ok?
    ensures var o := ProcessTransaction(env, db, pool, used, x, header);
            && x.pre.Some? && o.receipt.gasUsed == 0 && Credit(x, header.mc) >= 0
            && (x.action == ContractReceipt ==> header.mc in x.pre.value.flows && x.pre.value.flows[header.mc] > 0)
            && OwnBalance(o.db, header.mc) == OwnBalance(db, header.mc) + Credit(x, header.mc)
  {
    hide OwnBalance, Fee, Flows, ApplyPayment, ApplyFreeze, ApplyToContract;
    var o := ProcessTransaction(env, db, pool, used, x, header);
    assert x.pre.Some?;
    CreditOwn(db, o.db, header.mc, Credit(x, header.mc));
  }

  // ---- contract deals ----------------------------------------------------------------------------------------

  /** Between receipts no external account on a contract chain is above its measuring base. */
  predicate BaseAbove(db: Db)
    requires WellFormed(db)
  {
    forall a :: a in db.w.bal && a.User? ==> db.w.bal[a] <= db.base[a]
  }

  function CallValue(tx: Tx, header: Header): (r: nat) { if tx.create && header.mc == SC then 0 else tx.value }

  /** What a run does to balances. */
  ghost predicate RunMoves(before: World, after: World, ok: bool, from: Address, value: nat) {
    && before.bal.Keys <= after.bal.Keys
    && (!ok ==> forall a :: Bal(after, a) == Bal(before, a))
    && (ok ==>
          && TotalBalance(after) <= TotalBalance(before)
          && Bal(before, from) <= Bal(after, from) + value
          && forall a: Address :: a.User? && a != from ==> Bal(before, a) <= Bal(after, a))
  }

  /** The state in which the virtual machine is called. */
  function AtCall(db: Db, tx: Tx, action: TxAction, header: Header): (r: Db)
    requires WellFormed(db)
    ensures WellFormed(r) && db.w.bal.Keys <= r.w.bal.Keys
    ensures forall a :: Bal(r.w, a) == Bal(db.w, a) && Base(r, a) == Base(db, a)
  {
    var db1 := AddMark(db, tx.id, action);
    var db2 := if tx.create && header.mc != SC && header.number == 1 then db1 else BumpNonce(db1, header.mc);
    if tx.create && header.mc != SC then db2 else Touch(db2, tx.to)
  }

  lemma RunIsCall(env: Env, db: Db, tx: Tx, gas: u64, action: TxAction, header: Header)
    requires WellFormed(db) && tx.from in db.w.bal && tx.to.Contract?
    ensures var at := AtCall(db, tx, action, header);
            var out := env.vm(at.w, CallOf(tx, gas, header));
            Run(env, db, tx, gas, action, header) == Ran(WithWorld(at, out.w), out.gas, out.ret, out.err)
  {
  }

  lemma ContractRun(env: Env, db: Db, tx: Tx, gas: u64, action: TxAction, header: Header)
    requires WellFormed(db) && VmOk(env.vm) && tx.from in db.w.bal && tx.to.Contract?
    ensures var ran := Run(env, db, tx, gas, action, header);
            && RunMoves(db.w, ran.db.w, ran.err == NoError, tx.from, CallValue(tx, header))
            && (forall a :: Base(ran.db, a) == Base(db, a))
  {
    hide Run, AtCall, TotalBalance, RunMoves, VmStepOk, WithWorld, CallOf;
    RunIsCall(env, db, tx, gas, action, header);
    var at := AtCall(db, tx, action, header);
    var c := CallOf(tx, gas, header);
    var out := env.vm(at.w, c);
    assert VmStepOk(at.w, c, out);
    TotalAgree(db.w, at.w);
    CallMoves(db.w, at.w, c, out);
    CallIsBySender(tx, gas, header);
    BaseOfCall(db, at, c, out);
  }

  lemma CallIsBySender(tx: Tx, gas: u64, header: Header)
    ensures CallOf(tx, gas, header).caller == tx.from && CallOf(tx, gas, header).value == CallValue(tx, header)
  {
  }

  lemma BaseOfCall(db: Db, at: Db, c: VmCall, out: VmResult)
    requires WellFormed(at) && VmStepOk(at.w, c, out) && forall a :: Base(at, a) == Base(db, a)
    ensures forall a :: Base(WithWorld(at, out.w), a) == Base(db, a)
  {
    hide TotalBalance;
  }

  /** A call's promise, from a state that differs only in having more accounts. */
  lemma CallMoves(before: World, at: World, c: VmCall, out: VmResult)
    requires VmStepOk(at, c, out) && before.bal.Keys <= at.bal.Keys
    requires TotalBalance(before) == TotalBalance(at) && forall a :: Bal(before, a) == Bal(at, a)
    ensures RunMoves(before, out.w, out.err == NoError, c.caller, c.value)
  {
    hide TotalBalance;
  }

  lemma TotalAgree(w: World, v: World)
    requires w.bal.Keys <= v.bal.Keys
    requires forall a :: Bal(w, a) == Bal(v, a)
    ensures TotalBalance(w) == TotalBalance(v)
  {
    SumBalWiden(w, w.bal.Keys, v.bal.Keys);
    SumBalAgree(w, v, v.bal.Keys);
  }

  /** The balance a chain owns changes by what its users lost to it, less what was destroyed. */
  lemma OwnDelta(before: World, after: World, from: Address, value: nat, k: set<Address>)
    requires RunMoves(before, after, true, from, value)
    requires from in before.bal && from.User? && after.bal.Keys <= k
    ensures SumBal(after, ContractsIn(k)) - SumBal(before, ContractsIn(k))
         == (Bal(before, from) - Bal(after, from)) - (TotalBalance(before) - TotalBalance(after))
            - (SumBal(after, UsersIn(k, from)) - SumBal(before, UsersIn(k, from)))
  {
    TotalSplit(before, k, from);
    TotalSplit(after, k, from);
  }

  // A deal is followed through four states: `Funded`, `Ready` (gas bought), the run, and the closed deal.

  function FundedFor(db: Db, tx: Tx, remaining: u64): (r: Db)
    requires WellFormed(db)
    ensures WellFormed(r) && tx.from in r.w.bal && r.w.bal.Keys == db.w.bal.Keys + {tx.from}
    ensures Bal(r.w, tx.from) == Base(r, tx.from) == Fee(remaining, tx.price) + tx.value
    ensures forall a :: a != tx.from ==> Bal(r.w, a) == Bal(db.w, a) && Base(r, a) == Base(db, a)
  {
    Funded(db, tx.from, Fee(remaining, tx.price) + tx.value)
  }

  lemma ReadyKeys(db: Db, pool: nat, tx: Tx, gas: u64, free: u64)
    requires WellFormed(db) && tx.from in db.w.bal
    requires PreApply(db, pool, tx, gas, free, ContractDeal).Fine?
    ensures var r := Ready(db, pool, tx, gas, free, ContractDeal);
            r.w.bal.Keys == db.w.bal.Keys && r.base == db.base
  {
  }

  lemma FinishKeys(vm: bool, ran: Ran, pool: nat, tx: Tx, bought: u64, free: u64)
    requires WellFormed(ran.db) && ran.gas <= bought && tx.from in ran.db.w.bal
    requires Finish(vm, ran, pool, tx, bought, free).Fine?
    ensures var t := Finish(vm, ran, pool, tx, bought, free);
            t.db.w.bal.Keys == ran.db.w.bal.Keys && t.db.base == ran.db.base
  {
  }

  function DealEnd(env: Env, db: Db, pool: nat, tx: Tx, gas: u64, remaining: u64, header: Header): (r: Step<Applied>)
    requires WellFormed(db) && VmOk(env.vm)
    ensures WellFormed(r.db)
  {
    ApplyMessage(env, true, FundedFor(db, tx, remaining), pool, tx, gas, ContractDeal, header)
  }

  function DealReady(env: Env, db: Db, pool: nat, tx: Tx, gas: u64, remaining: u64, header: Header): (r: Db)
    requires WellFormed(db) && VmOk(env.vm)
    ensures WellFormed(r) && tx.from in r.w.bal
  {
    Ready(FundedFor(db, tx, remaining), pool, tx, gas, FreeAt(true, tx, header), ContractDeal)
  }

  function DealRan(env: Env, db: Db, pool: nat, tx: Tx, gas: u64, remaining: u64, header: Header): (r: Ran)
    requires WellFormed(db) && VmOk(env.vm)
    requires PreApply(FundedFor(db, tx, remaining), pool, tx, gas, FreeAt(true, tx, header), ContractDeal).Fine?
    ensures WellFormed(r.db)
  {
    RunOf(env, true, FundedFor(db, tx, remaining), pool, tx, gas, ContractDeal, header)
  }

  /** What the run of a completed deal moved, and on which accounts. */
  lemma DealRun(env: Env, db: Db, pool: nat, tx: Tx, gas: u64, remaining: u64, header: Header)
    requires WellFormed(db) && VmOk(env.vm) && tx.to.Contract?
    requires DealEnd(env, db, pool, tx, gas, remaining, header).Fine?
    ensures PreApply(FundedFor(db, tx, remaining), pool, tx, gas, FreeAt(true, tx, header), ContractDeal).Fine?
    ensures var ready := DealReady(env, db, pool, tx, gas, remaining, header);
            var ran := DealRan(env, db, pool, tx, gas, remaining, header);
            var t := DealEnd(env, db, pool, tx, gas, remaining, header);
            && RunMoves(ready.w, ran.db.w, ran.err == NoError, tx.from, CallValue(tx, header))
            && db.w.bal.Keys <= ready.w.bal.Keys <= ran.db.w.bal.Keys == t.db.w.bal.Keys
            && (forall a :: Base(t.db, a) == Base(FundedFor(db, tx, remaining), a))
            && t.value.gasUsed <= (gas + FreeAt(true, tx, header)) % TWO64
            && t.value.failed == (ran.err != NoError || PayOutput(ran).1)
  {
    hide ApplyMessage, PreApply, Run, Finish, Fee, FundedFor, PayOutput, FreeGas, TotalBalance;
    var d := FundedFor(db, tx, remaining);
    var free := FreeAt(true, tx, header);
    MessageShape(env, true, d, pool, tx, gas, ContractDeal, header);
    MessageGas(env, true, d, pool, tx, gas, ContractDeal, header);
    var p := PreApply(d, pool, tx, gas, free, ContractDeal);
    ReadyKeys(d, pool, tx, gas, free);
    var ready := Ready(d, pool, tx, gas, free, ContractDeal);
    ContractRun(env, ready, tx, p.value.0, ContractDeal, header);
    FinishKeys(true, RunOf(env, true, d, pool, tx, gas, ContractDeal, header), p.pool, tx, p.value.1, free);
    assert forall a :: Base(d, a) == Base(ready, a);
  }

  /** What a completed deal did to each balance. */
  lemma DealBalance(env: Env, db: Db, pool: nat, tx: Tx, gas: u64, remaining: u64, header: Header, a: Address)
    requires WellFormed(db) && VmOk(env.vm) && tx.to.Contract?
    requires gas + FreeAt(true, tx, header) < TWO64
    requires DealEnd(env, db, pool, tx, gas, remaining, header).Fine?
    ensures PreApply(FundedFor(db, tx, remaining), pool, tx, gas, FreeAt(true, tx, header), ContractDeal).Fine?
    ensures var ready := DealReady(env, db, pool, tx, gas, remaining, header).w;
            var ran := DealRan(env, db, pool, tx, gas, remaining, header).db.w;
            var t := DealEnd(env, db, pool, tx, gas, remaining, header);
            if a != tx.from then Bal(ready, a) == Bal(db.w, a) && Bal(t.db.w, a) == Bal(ran, a)
            else Bal(t.db.w, a) - (Fee(remaining, tx.price) + tx.value)
                 == Bal(ran, a) - Bal(ready, a) - NetFee(gas, tx.price, FreeAt(true, tx, header), t.value.gasUsed)
  {
    hide ApplyMessage, PreApply, Run, Finish, RefundValue, BuyCost, Fee, FundedFor, FreeGas;
    MessageBalance(env, true, FundedFor(db, tx, remaining), pool, tx, gas, ContractDeal, header, a);
    var free := FreeAt(true, tx, header);
    assert (gas + free) % TWO64 == gas + free;
  }

  /** What is known of a completed deal: `t` is the state it left, `ready` and `ran` the worlds around its run. */
  ghost predicate DealFacts(db: Db, t: Db, ready: World, ran: World, ok: bool, from: Address, value: nat) {
    && WellFormed(db) && WellFormed(t) && from.User?
    && RunMoves(ready, ran, ok, from, value)
    && from in ready.bal
    && db.w.bal.Keys <= ready.bal.Keys <= ran.bal.Keys == t.w.bal.Keys
    && (forall a :: a != from ==> Bal(ready, a) == Bal(db.w, a) && Bal(t.w, a) == Bal(ran, a))
    && (forall a :: a != from ==> Base(t, a) == Base(db, a))
  }

  /** A closed deal: the receipt is written, the sender's balance is gone. */
  function Closed(t: Db, from: Address): (r: Db)
    requires WellFormed(t)
    ensures WellFormed(r) && r.w.bal.Keys == t.w.bal.Keys + {from}
    ensures forall a :: Bal(r.w, a) == if a == from then 0 else Bal(t.w, a)
    ensures forall a :: Base(r, a) == Bal(t.w, a)
  {
    SetBalance(Rebase(t), from, 0)
  }

  lemma ClosedDeal(db: Db, t: Db, ready: World, ran: World, ok: bool, from: Address, value: nat)
    requires DealFacts(db, t, ready, ran, ok, from, value)
    ensures BaseAbove(Closed(t, from))
  {
    var e := Closed(t, from);
    forall a | a in e.w.bal && a.User?
      ensures e.w.bal[a] <= e.base[a]
    {
      assert e.w.bal[a] == Bal(e.w, a) && e.base[a] == Base(e, a);
    }
  }

  /** What the users other than the sender gained. */
  ghost function Gained(db: Db, ran: World, from: Address): (r: int) {
    SumBal(ran, UsersIn(ran.bal.Keys, from)) - SumBal(db.w, UsersIn(ran.bal.Keys, from))
  }

  /** The chain's own balance after a deal: what the sender put in, less what the users took out and what was
      destroyed. */
  lemma OwnAfterDeal(db: Db, t: Db, ready: World, ran: World, ok: bool, from: Address, value: nat, c: Address)
    requires DealFacts(db, t, ready, ran, ok, from, value) && c.Contract?
    ensures OwnBalance(Closed(t, from), c) - OwnBalance(db, c)
         == if !ok then 0
            else Bal(ready, from) - Bal(ran, from) - Gained(db, ran, from) - (TotalBalance(ready) - TotalBalance(ran))
  {
    var k := ran.bal.Keys;
    var e := Closed(t, from);
    OwnOfContract(e, c, k);
    OwnOfContract(db, c, k);
    SumBalAgree(e.w, ran, ContractsIn(k));
    SumBalAgree(db.w, ready, ContractsIn(k));
    SumBalAgree(db.w, ready, UsersIn(k, from));
    if ok {
      OwnDelta(ready, ran, from, value, k);
    } else {
      SumBalAgree(ready, ran, ContractsIn(k));
    }
  }

  function Pos(n: int): (r: nat) { if n > 0 then n else 0 }

  ghost function FlowOf(flows: map<Address, int>): (f: Address -> int) {
    (a: Address) => if a in flows then flows[a] else 0
  }

  ghost function SumFlow(flows: map<Address, int>): (r: int) { Sum(FlowOf(flows), flows.Keys) }

  /** The flows a receipt reports for the accounts of `s`. */
  ghost function Reported(db: Db, w: World, s: set<Address>): (r: int) {
    Sum(ReportOf(db, w), s)
  }

  /** No account measured from a stale base gained anything. */
  predicate NoStaleGain(db: Db, after: World, from: Address) {
    forall a :: a in after.bal && a.User? && a != from && Bal(after, a) > Bal(db.w, a) ==> Base(db, a) == Bal(db.w, a)
  }

  ghost function GainOf(db: Db, w: World): (f: Address -> int) {
    (a: Address) => Bal(w, a) as int - Bal(db.w, a) as int
  }

  ghost function ReportOf(db: Db, w: World): (f: Address -> int) {
    (a: Address) => Pos(Bal(w, a) - Base(db, a)) as int
  }

  lemma GainedIsSum(db: Db, ran: World, from: Address)
    ensures var u := UsersIn(ran.bal.Keys, from); Gained(db, ran, from) == Sum(GainOf(db, ran), u)
  {
    Subtract(BalOf(ran), BalOf(db.w), GainOf(db, ran), UsersIn(ran.bal.Keys, from));
  }

  lemma ReportPointwise(db: Db, ran: World, from: Address, a: Address)
    requires WellFormed(db) && BaseAbove(db)
    requires a.User? && Bal(db.w, a) <= Bal(ran, a)
    ensures Pos(Bal(ran, a) - Base(db, a)) <= Bal(ran, a) - Bal(db.w, a)
    ensures Pos(Bal(ran, a) - Base(db, a)) == Bal(ran, a) - Bal(db.w, a)
       <==> (Bal(ran, a) > Bal(db.w, a) ==> Base(db, a) == Bal(db.w, a))
  {
    assert Bal(db.w, a) <= Base(db, a);
  }

  /** A receipt never reports more than was gained, and reports all of it exactly when no stale account gained. */
  lemma ReportedAgainstGained(db: Db, ran: World, from: Address)
    requires WellFormed(db) && BaseAbove(db)
    requires forall a: Address :: a.User? && a != from ==> Bal(db.w, a) <= Bal(ran, a)
    ensures var u := UsersIn(ran.bal.Keys, from);
            && Reported(db, ran, u) <= Gained(db, ran, from)
            && (Reported(db, ran, u) == Gained(db, ran, from) <==> NoStaleGain(db, ran, from))
  {
    hide Gained, BaseAbove, Base, Pos, Bal;
    var u := UsersIn(ran.bal.Keys, from);
    var rep, gain := ReportOf(db, ran), GainOf(db, ran);
    GainedIsSum(db, ran, from);
    forall a | a in u
      ensures rep(a) <= gain(a)
      ensures rep(a) == gain(a) <==> (Bal(ran, a) > Bal(db.w, a) ==> Base(db, a) == Bal(db.w, a))
    {
      ReportPointwise(db, ran, from, a);
    }
    Monotone(rep, gain, u);
    if NoStaleGain(db, ran, from) {
      Agree(rep, gain, u);
    } else {
      var a :| a in ran.bal && a.User? && a != from && Bal(ran, a) > Bal(db.w, a) && Base(db, a) != Bal(db.w, a);
      assert a in u && rep(a) != gain(a);
    }
  }

  /** The measured flows: the sender's difference, and the reported part of every other user's gain. */
  lemma RawFlows(db: Db, t: Db, ready: World, ran: World, from: Address, value: nat)
    requires DealFacts(db, t, ready, ran, true, from, value)
    ensures var raw := Flows(t, Some(from));
            var u := UsersIn(ran.bal.Keys, from);
            && from in raw && raw[from] == Bal(t.w, from) - Base(t, from)
            && raw.Keys - {from} <= u
            && (forall a :: a in raw.Keys - {from} ==> raw[a] == ReportOf(db, ran)(a) > 0)
            && (forall a :: a in u - raw.Keys ==> ReportOf(db, ran)(a) == 0)
  {
    hide RunMoves, Flows, Bal, Base;
    FlowsAre(t, Some(from));
  }

  /** The flows of a closed deal, added up: the sender's own gain and what is reported of the others. */
  lemma FlowsOfDeal(db: Db, t: Db, ready: World, ran: World, from: Address, value: nat, tx: Tx, gas: u64)
    requires DealFacts(db, t, ready, ran, true, from, value) && tx.from == from
    requires Bal(t.w, from) - Base(t, from) + tx.value + Fee(gas, tx.price) == Bal(ran, from) - Bal(ready, from) + value
    ensures var fs := SenderFlow(Flows(t, Some(from)), tx, gas);
            && SumFlow(fs) == (Bal(ran, from) - Bal(ready, from) + value)
                              + Reported(db, ran, UsersIn(ran.bal.Keys, from))
            && (forall a :: a in fs ==> a.User? && fs[a] > 0)
  {
    assert Bal(ready, from) <= Bal(ran, from) + value && from.User?;
    hide Fee, Flows, Bal, Base, Pos, DealFacts, RunMoves, Sum, ReportOf, SenderFlow, SumFlow;
    RawFlows(db, t, ready, ran, from, value);
    SenderFlowSum(Flows(t, Some(from)), tx, gas, ReportOf(db, ran), UsersIn(ran.bal.Keys, from));
  }

  lemma SenderFlowSum(raw: map<Address, int>, tx: Tx, gas: u64, f: Address -> int, u: set<Address>)
    requires tx.from in raw && raw[tx.from] + tx.value + Fee(gas, tx.price) >= 0
    requires raw.Keys - {tx.from} <= u && tx.from !in u
    requires forall a :: a in raw.Keys - {tx.from} ==> raw[a] == f(a) > 0
    requires forall a :: a in u - raw.Keys ==> f(a) == 0
    requires tx.from.User? && forall a :: a in u ==> a.User?
    ensures var fs := SenderFlow(raw, tx, gas);
            && SumFlow(fs) == raw[tx.from] + tx.value + Fee(gas, tx.price) + Sum(f, u)
            && forall a :: a in fs ==> a.User? && fs[a] > 0
  {
    hide Fee, Sum, SumFlow;
    var fs := SenderFlow(raw, tx, gas);
    Widen(f, raw.Keys - {tx.from}, u);
    assert fs.Keys - {tx.from} == raw.Keys - {tx.from};
    FlowSum(fs, tx.from, f);
  }

  lemma FlowSum(fs: map<Address, int>, from: Address, f: Address -> int)
    requires forall a :: a in fs && a != from ==> fs[a] == f(a)
    ensures SumFlow(fs) == (if from in fs then fs[from] else 0) + Sum(f, fs.Keys - {from})
  {
    if from in fs {
      Pick(FlowOf(fs), fs.Keys, from);
    } else {
      assert fs.Keys - {from} == fs.Keys;
    }
    Agree(FlowOf(fs), f, fs.Keys - {from});
  }

  /** The deal's gas is covered by the remaining gas, and no free allowance disturbs its fee. */
  predicate GasCovered(tx: Tx, gas: u64, remaining: u64, refund: u64, header: Header) {
    var free := FreeAt(true, tx, header);
    gas + free < TWO64 && (tx.price == 0 || (free == 0 && gas + refund <= remaining))
  }

  lemma NetFeeOfDeal(tx: Tx, gas: u64, remaining: u64, refund: u64, header: Header, used: u64)
    requires GasCovered(tx, gas, remaining, refund, header) && used <= gas + FreeAt(true, tx, header)
    ensures NetFee(gas, tx.price, FreeAt(true, tx, header), used) == Fee(used, tx.price)
  {
    if tx.price == 0 {
      NetFeeAtNoPrice(gas, FreeAt(true, tx, header), used);
    } else {
      NetFeeWithoutFree(gas, tx.price, used);
    }
  }

  /** What a deal's run did to the value of its chain: `kept` is what users lost to contracts, `lost` what of it, or of
      what contracts had, was destroyed. */
  datatype Effect = Effect(kept: int, lost: int)

  const NO_EFFECT: Effect := Effect(0, 0)

  /** The effect of one run: none when the virtual machine reports an error. */
  ghost function RunEffect(env: Env, db: Db, pool: nat, tx: Tx, gas: u64, remaining: u64, header: Header): (r: Effect)
    requires WellFormed(db) && VmOk(env.vm)
  {
    if PreApply(FundedFor(db, tx, remaining), pool, tx, gas, FreeAt(true, tx, header), ContractDeal).Fail? then NO_EFFECT
    else
      var ready := DealReady(env, db, pool, tx, gas, remaining, header).w;
      var ran := DealRan(env, db, pool, tx, gas, remaining, header);
      if ran.err != NoError then NO_EFFECT
      else Effect(Bal(ready, tx.from) - Bal(ran.db.w, tx.from) - Gained(db, ran.db.w, tx.from),
                  TotalBalance(ready) - TotalBalance(ran.db.w))
  }

  lemma FactsOfDeal(env: Env, db: Db, pool: nat, tx: Tx, gas: u64, remaining: u64, refund: u64, header: Header)
    returns (ready: World, ran: World, ok: bool)
    requires WellFormed(db) && VmOk(env.vm) && tx.to.Contract? && tx.from.User?
    requires GasCovered(tx, gas, remaining, refund, header)
    requires DealEnd(env, db, pool, tx, gas, remaining, header).Fine?
    ensures var t := DealEnd(env, db, pool, tx, gas, remaining, header);
            && DealFacts(db, t.db, ready, ran, ok, tx.from, CallValue(tx, header))
            && t.value.gasUsed <= gas + FreeAt(true, tx, header)
            && Base(t.db, tx.from) == Fee(remaining, tx.price) + tx.value
            && Bal(t.db.w, tx.from) - Base(t.db, tx.from) + Fee(t.value.gasUsed, tx.price)
               == Bal(ran, tx.from) - Bal(ready, tx.from)
            && (!t.value.failed ==> ok)
            && RunEffect(env, db, pool, tx, gas, remaining, header)
               == if ok then Effect(Bal(ready, tx.from) - Bal(ran, tx.from) - Gained(db, ran, tx.from),
                                    TotalBalance(ready) - TotalBalance(ran))
                  else NO_EFFECT
  {
    hide DealEnd, Gained, DealReady, DealRan, PreApply, NetFee, Fee, FundedFor, RunMoves, PayOutput, FreeGas,
      TotalBalance;
    DealRun(env, db, pool, tx, gas, remaining, header);
    var free := FreeAt(true, tx, header);
    assert (gas + free) % TWO64 == gas + free;
    var t := DealEnd(env, db, pool, tx, gas, remaining, header);
    ready := DealReady(env, db, pool, tx, gas, remaining, header).w;
    ran := DealRan(env, db, pool, tx, gas, remaining, header).db.w;
    ok := DealRan(env, db, pool, tx, gas, remaining, header).err == NoError;
    forall a | a != tx.from
      ensures Bal(ready, a) == Bal(db.w, a) && Bal(t.db.w, a) == Bal(ran, a)
    {
      DealBalance(env, db, pool, tx, gas, remaining, header, a);
    }
    DealBalance(env, db, pool, tx, gas, remaining, header, tx.from);
    NetFeeOfDeal(tx, gas, remaining, refund, header, t.value.gasUsed);
    assert forall a :: a != tx.from ==> Base(t.db, a) == Base(db, a);
  }

  /** The flows of a deal are delivered unless it failed or was the first stage of a deployment. */
  predicate Delivers(tx: Tx, r: Receipt, header: Header) { !r.failed && !(tx.create && header.mc == SC) }

  lemma CloseDealShape(db: Db, pool: nat, used: nat, tx: Tx, a: Applied, remaining: u64, refund: u64, header: Header)
    requires WellFormed(db)
    requires CloseDeal(db, pool, used, tx, a, remaining, refund, header).Ok?
    ensures var o := CloseDeal(db, pool, used, tx, a, remaining, refund, header);
            && o.db == Closed(db, tx.from) && o.pool == pool
            && o.receipt.failed == a.failed && o.receipt.action == ContractDeal
            && o.receipt.cumulative == used + o.receipt.gasUsed
            && o.receipt.output == (if a.failed then [] else a.output)
            && (a.failed ==> a.gasUsed + refund < TWO64)
            && o.receipt.gasUsed == a.gasUsed + (if a.failed then refund else 0)
            && o.receipt.gasRemaining == ForceSafeSub(remaining, o.receipt.gasUsed)
            && o.receipt.flows == (if Delivers(tx, o.receipt, header)
                                   then SenderFlow(Flows(db, Some(tx.from)), tx, o.receipt.gasUsed) else map[])
  {
    hide Flows, Fee, SetBalance, Rebase, ForceSafeSub;
  }

  lemma RunDealShape(env: Env, db: Db, pool: nat, used: nat, tx: Tx, gas: u64, remaining: u64, refund: u64,
                     first: bool, header: Header)
    requires WellFormed(db) && VmOk(env.vm)
    requires RunDeal(env, db, pool, used, tx, gas, remaining, refund, first, header).Ok?
    ensures var o := RunDeal(env, db, pool, used, tx, gas, remaining, refund, first, header);
            var t := DealEnd(env, db, pool, tx, gas, remaining, header);
            && t.Fine?
            && o.db == Closed(t.db, tx.from) && o.pool == t.pool
            && o.receipt.failed == t.value.failed && o.receipt.action == ContractDeal
            && o.receipt.cumulative == used + o.receipt.gasUsed
            && o.receipt.output == (if o.receipt.failed then [] else t.value.output)
            && (o.receipt.failed ==> t.value.gasUsed + refund < TWO64)
            && o.receipt.gasUsed == t.value.gasUsed + (if o.receipt.failed then refund else 0)
            && o.receipt.gasRemaining == ForceSafeSub(remaining, o.receipt.gasUsed)
            && o.receipt.flows == (if Delivers(tx, o.receipt, header)
                                   then SenderFlow(Flows(t.db, Some(tx.from)), tx, o.receipt.gasUsed) else map[])
  {
    hide ApplyMessage, CloseDeal, Closed, Flows, Fee, Funded, ForceSafeSub, SenderFlow;
    var t := DealEnd(env, db, pool, tx, gas, remaining, header);
    CloseDealShape(t.db, t.pool, used, tx, t.value, remaining, refund, header);
  }

  /** The remaining gas is split between what the receipt shows used and remaining. */
  lemma RunDealFee(env: Env, db: Db, pool: nat, used: nat, tx: Tx, gas: u64, remaining: u64, refund: u64,
                   first: bool, header: Header)
    requires WellFormed(db) && VmOk(env.vm) && tx.to.Contract? && tx.from.User?
    requires GasCovered(tx, gas, remaining, refund, header)
    requires RunDeal(env, db, pool, used, tx, gas, remaining, refund, first, header).Ok?
    ensures var o := RunDeal(env, db, pool, used, tx, gas, remaining, refund, first, header);
            && Fee(o.receipt.gasUsed, tx.price) + Fee(o.receipt.gasRemaining, tx.price) == Fee(remaining, tx.price)
            && (FreeAt(true, tx, header) == 0 ==> o.receipt.gasUsed <= gas + refund)
  {
    hide RunDeal, DealEnd, Flows, DealFacts, RunEffect, Gained;
    RunDealShape(env, db, pool, used, tx, gas, remaining, refund, first, header);
    var ready, ran, ok := FactsOfDeal(env, db, pool, tx, gas, remaining, refund, header);
    var o := RunDeal(env, db, pool, used, tx, gas, remaining, refund, first, header);
    FeeSplit(o.receipt.gasUsed, o.receipt.gasRemaining, tx.price);
  }

  /** A delivering deal keeps the value exactly when no account with a stale base gained; all its flows go to users
      and are positive. */
  lemma DeliveredIff(env: Env, db: Db, pool: nat, used: nat, tx: Tx, gas: u64, remaining: u64, refund: u64,
                     first: bool, header: Header)
    requires WellFormed(db) && BaseAbove(db) && VmOk(env.vm)
    requires tx.to.Contract? && tx.from.User? && header.mc.Contract?
    requires GasCovered(tx, gas, remaining, refund, header)
    requires RunDeal(env, db, pool, used, tx, gas, remaining, refund, first, header).Ok?
    ensures var o := RunDeal(env, db, pool, used, tx, gas, remaining, refund, first, header);
            var out := SumFlow(o.receipt.flows) + RunEffect(env, db, pool, tx, gas, remaining, header).lost;
            Delivers(tx, o.receipt, header) ==>
              && (OwnBalance(o.db, header.mc) + out == OwnBalance(db, header.mc) + tx.value
                  <==> NoStaleGain(db, o.db.w, tx.from))
              && OwnBalance(o.db, header.mc) + out <= OwnBalance(db, header.mc) + tx.value
              && (forall a :: a in o.receipt.flows ==> a.User? && o.receipt.flows[a] > 0)
  {
    hide RunDeal, DealEnd, Flows, Fee, OwnBalance, Gained, Reported, SumFlow, SenderFlow, GasCovered, Bal, RunEffect;
    RunDealShape(env, db, pool, used, tx, gas, remaining, refund, first, header);
    var ready, ran, ok := FactsOfDeal(env, db, pool, tx, gas, remaining, refund, header);
    var o := RunDeal(env, db, pool, used, tx, gas, remaining, refund, first, header);
    var t := DealEnd(env, db, pool, tx, gas, remaining, header);
    if Delivers(tx, o.receipt, header) {
      OwnAfterDeal(db, t.db, ready, ran, ok, tx.from, tx.value, header.mc);
      FlowsOfDeal(db, t.db, ready, ran, tx.from, tx.value, tx, o.receipt.gasUsed);
      ReportedAgainstGained(db, ran, tx.from);
      assert NoStaleGain(db, o.db.w, tx.from) <==> NoStaleGain(db, ran, tx.from);
    }
  }

  /** A closed deal leaves its sender measured from what it had left: the price of the remaining gas plus what the
      contract paid it. Until the next receipt on this state that base is stale. */
  lemma SenderBaseAfterDeal(env: Env, db: Db, pool: nat, used: nat, tx: Tx, gas: u64, remaining: u64, refund: u64,
                            first: bool, header: Header)
    requires WellFormed(db) && VmOk(env.vm) && tx.to.Contract? && tx.from.User?
    requires GasCovered(tx, gas, remaining, refund, header)
    requires RunDeal(env, db, pool, used, tx, gas, remaining, refund, first, header).Ok?
    ensures var o := RunDeal(env, db, pool, used, tx, gas, remaining, refund, first, header);
            && Bal(o.db.w, tx.from) == 0
            && (Delivers(tx, o.receipt, header) ==>
                  Base(o.db, tx.from) == Fee(o.receipt.gasRemaining, tx.price)
                    + (if tx.from in o.receipt.flows then o.receipt.flows[tx.from] else 0))
  {
    hide RunDeal, DealEnd, Fee, GasCovered, RunEffect, Gained;
    RunDealShape(env, db, pool, used, tx, gas, remaining, refund, first, header);
    var ready, ran, ok := FactsOfDeal(env, db, pool, tx, gas, remaining, refund, header);
    var t := DealEnd(env, db, pool, tx, gas, remaining, header);
    RunDealFee(env, db, pool, used, tx, gas, remaining, refund, first, header);
    if t.Fine? && !t.value.failed {
      RawFlows(db, t.db, ready, ran, tx.from, CallValue(tx, header));
    }
  }

  // ---- deals, rehearsal included -----------------------------------------------------------------------------

  predicate IsDeal(a: TxAction) { a == ContractDeal || a == PowTxContractDeal || a == SCIdleContractDeal }

  /** What a deal is run with: a free transaction starts with it, any other comes from a freeze. */
  predicate DealReadyToRun(x: TxExec) {
    && x.tx.Valid() && x.tx.to.Contract? && IsDeal(x.action)
    && (x.pre.None? ==> x.tx.IsFree())
    && (x.pre.Some? ==> !x.tx.IsFree() && x.pre.value.gasRemaining <= x.tx.gas)
  }

  function Remaining(x: TxExec): (r: u64) { if x.pre.Some? then x.pre.value.gasRemaining else x.tx.gas }

  /** What a deal leaves: its chain owns what its run kept and did not destroy, the gas is split between used and
      remaining, and there are either flows to users that account for the value exactly when no stale account gained, or
      no flows at all. */
  ghost predicate DealAccounted(db: Db, tx: Tx, remaining: u64, header: Header, e: Effect, o: Outcome)
    requires WellFormed(db) && WellFormed(o.db) && o.Ok?
  {
    && BaseAbove(o.db)
    && OwnBalance(o.db, header.mc) == OwnBalance(db, header.mc) + e.kept - e.lost
    && Fee(o.receipt.gasUsed, tx.price) + Fee(o.receipt.gasRemaining, tx.price) == Fee(remaining, tx.price)
    && o.receipt.gasRemaining <= remaining
    && (!Delivers(tx, o.receipt, header) ==> o.receipt.flows == map[])
    && (forall a :: a in o.receipt.flows ==> a.User? && o.receipt.flows[a] > 0)
    && (Delivers(tx, o.receipt, header) ==>
          && OwnBalance(o.db, header.mc) + SumFlow(o.receipt.flows) + e.lost <= OwnBalance(db, header.mc) + tx.value
          && (OwnBalance(o.db, header.mc) + SumFlow(o.receipt.flows) + e.lost == OwnBalance(db, header.mc) + tx.value
              <==> NoStaleGain(db, o.db.w, tx.from)))
  }

  lemma RunDealAccounted(env: Env, db: Db, pool: nat, used: nat, tx: Tx, gas: u64, remaining: u64, refund: u64,
                         first: bool, header: Header)
    requires WellFormed(db) && BaseAbove(db) && VmOk(env.vm)
    requires tx.to.Contract? && tx.from.User? && header.mc.Contract?
    requires GasCovered(tx, gas, remaining, refund, header)
    requires RunDeal(env, db, pool, used, tx, gas, remaining, refund, first, header).Ok?
    ensures DealAccounted(db, tx, remaining, header, RunEffect(env, db, pool, tx, gas, remaining, header),
                          RunDeal(env, db, pool, used, tx, gas, remaining, refund, first, header))
  {
    hide RunDeal, DealEnd, Flows, Fee, OwnBalance, SumFlow, SenderFlow, NoStaleGain, DealFacts, BaseAbove, RunEffect,
      Gained, Bal;
    RunDealShape(env, db, pool, used, tx, gas, remaining, refund, first, header);
    var ready, ran, ok := FactsOfDeal(env, db, pool, tx, gas, remaining, refund, header);
    var t := DealEnd(env, db, pool, tx, gas, remaining, header).db;
    ClosedDeal(db, t, ready, ran, ok, tx.from, CallValue(tx, header));
    OwnAfterDeal(db, t, ready, ran, ok, tx.from, CallValue(tx, header), header.mc);
    RunDealFee(env, db, pool, used, tx, gas, remaining, refund, first, header);
    DeliveredIff(env, db, pool, used, tx, gas, remaining, refund, first, header);
  }

  lemma DealIsCovered(x: TxExec, header: Header)
    requires DealReadyToRun(x) && header.number >= 1
    ensures GasCovered(x.tx, Remaining(x), Remaining(x), 0, header)
  {
  }

  /** A rehearsal uses, or on an error drains, no more than the gas it is given. */
  lemma RehearsalGas(env: Env, db: Db, pool: nat, tx: Tx, gas: u64, idle: bool, first: bool, header: Header)
    requires WellFormed(db) && EnvOk(env) && header.mc != SC
    requires tx.to.Contract? && tx.from.User? && !tx.IsFree()
    ensures var n := ApplyDeal(env, db, pool, 0, tx, gas, gas, idle, first, header);
            && n.pool <= pool <= n.pool + gas
            && (n.Ok? ==> n.receipt.gasUsed <= gas)
  {
    hide RunDeal;
    var n := RunDeal(env, db, pool, 0, tx, gas, gas, 0, first, header);
    RehearsalRun(env, db, pool, tx, gas, first, header);
  }

  lemma RehearsalRun(env: Env, db: Db, pool: nat, tx: Tx, gas: u64, first: bool, header: Header)
    requires WellFormed(db) && VmOk(env.vm) && header.mc != SC
    requires tx.to.Contract? && tx.from.User? && !tx.IsFree()
    ensures var n := RunDeal(env, db, pool, 0, tx, gas, gas, 0, first, header);
            && n.pool <= pool <= n.pool + gas
            && (n.Ok? ==> n.receipt.gasUsed <= gas)
  {
    hide ApplyMessage, RunOf, PreApply, PayOutput, Funded, Fee, Flows, SenderFlow;
    var d := Funded(db, tx.from, Fee(gas, tx.price) + tx.value);
    MessageFailPool(env, true, d, pool, tx, gas, ContractDeal, header);
    if ApplyMessage(env, true, d, pool, tx, gas, ContractDeal, header).Fine? {
      MessageGas(env, true, d, pool, tx, gas, ContractDeal, header);
    }
  }

  lemma FailedRehearsalAccounted(db: Db, pool: nat, used: nat, tx: Tx, remaining: u64, n: Outcome, header: Header)
    requires WellFormed(db) && BaseAbove(db) && pool < TWO64
    requires n.pool <= pool <= n.pool + remaining
    requires n.Ok? ==> n.receipt.failed && n.receipt.gasUsed <= remaining
    requires FailedRehearsal(db, pool, used, remaining, n).Ok?
    ensures var o := FailedRehearsal(db, pool, used, remaining, n);
            DealAccounted(db, tx, remaining, header, NO_EFFECT, o) && o.receipt.failed && o.db == Rebase(db)
  {
    var o := FailedRehearsal(db, pool, used, remaining, n);
    assert OwnBalance(o.db, header.mc) == OwnBalance(db, header.mc);
    hide Fee, OwnBalance;
    FeeSplit(o.receipt.gasUsed, o.receipt.gasRemaining, tx.price);
  }

  /** The rehearsal of a deployment. */
  ghost function Rehearsal(env: Env, db: Db, pool: nat, tx: Tx, remaining: u64, idle: bool, first: bool, header: Header)
    : (r: Outcome)
    requires WellFormed(db) && EnvOk(env)
  {
    var h := Header(env.newContract(Nonce(db.w, header.mc)), 1, 0, 0);
    ApplyDeal(env, RehearsalDb(env, tx.from, Fee(remaining, tx.price) + tx.value), pool, 0, tx, remaining, remaining,
              idle, first, h)
  }

  /** The effect of a deal, rehearsal included. */
  ghost function DealEffect(env: Env, db: Db, pool: nat, tx: Tx, remaining: u64, idle: bool, first: bool,
                            header: Header): (r: Effect)
    requires WellFormed(db) && EnvOk(env)
  {
    if !(tx.create && header.mc == SC) then RunEffect(env, db, pool, tx, remaining, remaining, header)
    else
      var n := Rehearsal(env, db, pool, tx, remaining, idle, first, header);
      if n.Err? || n.receipt.failed then NO_EFFECT
      else RunEffect(env, db, n.pool, tx, ForceSafeSub(remaining, n.receipt.gasUsed), remaining, header)
  }

  ghost function EffectBy(env: Env, db: Db, pool: nat, x: TxExec, header: Header): (r: Effect)
    requires WellFormed(db) && EnvOk(env)
  {
    DealEffect(env, AddMark(db, x.tx.id, ContractDeal), pool, x.tx, Remaining(x), x.action == SCIdleContractDeal,
             x.pre.None?, header)
  }

  lemma ApplyDealAccounted(env: Env, db: Db, pool: nat, used: nat, tx: Tx, remaining: u64, idle: bool, first: bool,
                           header: Header)
    requires WellFormed(db) && BaseAbove(db) && EnvOk(env) && pool < TWO64
    requires tx.to.Contract? && tx.from.User? && header.mc.Contract?
    requires tx.create ==> !tx.IsFree()
    requires GasCovered(tx, remaining, remaining, 0, header)
    requires ApplyDeal(env, db, pool, used, tx, remaining, remaining, idle, first, header).Ok?
    ensures DealAccounted(db, tx, remaining, header,
                          DealEffect(env, db, pool, tx, remaining, idle, first, header),
                          ApplyDeal(env, db, pool, used, tx, remaining, remaining, idle, first, header))
  {
    hide RunDeal, FailedRehearsal, DealAccounted, BaseAbove, Fee, RehearsalDb, Nonce, RunEffect;
    if !(tx.create && header.mc == SC) {
      RunDealAccounted(env, db, pool, used, tx, remaining, remaining, 0, first, header);
    } else {
      var h := Header(env.newContract(Nonce(db.w, header.mc)), 1, 0, 0);
      var d := RehearsalDb(env, tx.from, Fee(remaining, tx.price) + tx.value);
      var n := ApplyDeal(env, d, pool, 0, tx, remaining, remaining, idle, first, h);
      RehearsalGas(env, d, pool, tx, remaining, idle, first, h);
      if n.Err? || n.receipt.failed {
        FailedRehearsalAccounted(db, pool, used, tx, remaining, n, header);
      } else {
        RunDealAccounted(env, db, n.pool, used, tx, ForceSafeSub(remaining, n.receipt.gasUsed), remaining,
                         n.receipt.gasUsed, first, header);
      }
    }
  }

  /** A contract deal as the life cycle runs it. */
  lemma DealAccount(env: Env, db: Db, pool: nat, used: nat, x: TxExec, header: Header)
    requires WellFormed(db) && BaseAbove(db) && EnvOk(env) && pool < TWO64
    requires DealReadyToRun(x) && header.mc.Contract? && header.number >= 1
    requires ProcessTransaction(env, db, pool, used, x, header).Ok?
    ensures DealAccounted(db, x.tx, Remaining(x), header, EffectBy(env, db, pool, x, header),
                          ProcessTransaction(env, db, pool, used, x, header))
    ensures x.pre.Some? ==> !x.pre.value.failed
  {
    hide ApplyDeal, Fee, SumFlow, GasCovered, DealEffect, NoStaleGain, BaseAbove, OwnBalance;
    var db1 := AddMark(db, x.tx.id, ContractDeal);
    DealIsCovered(x, header);
    var o := ProcessTransaction(env, db, pool, used, x, header);
    assert o == ApplyDeal(env, db1, pool, used, x.tx, Remaining(x), Remaining(x), x.action == SCIdleContractDeal,
                          x.pre.None?, header);
    hide ProcessTransaction;
    MarkIsNoMoney(db, x.tx.id, header.mc);
    ApplyDealAccounted(env, db1, pool, used, x.tx, Remaining(x), x.action == SCIdleContractDeal, x.pre.None?, header);
    assert NoStaleGain(db, o.db.w, x.tx.from) <==> NoStaleGain(db1, o.db.w, x.tx.from) by {
      MarkIsNotStale(db, x.tx.id, o.db.w, x.tx.from);
    }
  }

  lemma MarkIsNoMoney(db: Db, id: nat, c: Address)
    requires WellFormed(db)
    ensures WellFormed(AddMark(db, id, ContractDeal))
    ensures OwnBalance(AddMark(db, id, ContractDeal), c) == OwnBalance(db, c)
    ensures BaseAbove(AddMark(db, id, ContractDeal)) <==> BaseAbove(db)
  {
  }

  lemma MarkIsNotStale(db: Db, id: nat, w: World, from: Address)
    ensures NoStaleGain(AddMark(db, id, ContractDeal), w, from) <==> NoStaleGain(db, w, from)
  {
  }
}
