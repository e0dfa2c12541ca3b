/** A queue for which the miner's receipts are not the validator's. */
module Disagreement {
  import opened Options
  import opened Ledger
  import opened Transition
  import opened Processor
  import opened GasLaws
  import opened Conservation
  import opened DealCalls
  import opened Mining
  import opened Agreement
  import D = DealFailures
  import C = MultiChain
  import L = Lifecycle
  import W = DealLaws

  // ---- deals that meet the machine ----------------------------------------------------------------------------------

  /** A deal takes no more out of the pool than the gas it brings. */
  lemma TakesItsGas(env: Env, db: Db, pool: nat, used: nat, x: TxExec, header: Header)
    requires EnvOk(env) && Callable(db, pool, x, header) && WellFormed(db)
    ensures var o := ProcessTransaction(env, db, pool, used, x, header);
            o.pool <= pool <= o.pool + Remaining(x) + FreeAt(true, x.tx, header)
  {
    hide ProcessTransaction, RunDeal, Callable, VmOk, FreeAt;
    CallableRuns(env, db, pool, used, x, header);
    ProcessPool(env, db, pool, used, x, header);
    CallableGas(db, pool, x, header);
    RunTakesItsGas(env, AddMark(db, x.tx.id, ContractDeal), pool, used, x.tx, Remaining(x), x.pre.None?, header);
  }

  lemma RunTakesItsGas(env: Env, db: Db, pool: nat, used: nat, tx: Tx, gas: u64, first: bool, header: Header)
    requires WellFormed(db) && VmOk(env.vm) && gas + FreeAt(true, tx, header) < TWO64
    ensures pool <= RunDeal(env, db, pool, used, tx, gas, gas, 0, first, header).pool + gas + FreeAt(true, tx, header)
  {
    hide ApplyMessage, Funded, Fee, RunOf, PayOutput, PreApply, CreateReceipt, SenderFlow, Rebase, SetBalance, FreeAt,
      VmOk;
    var f := Funded(db, tx.from, Fee(gas, tx.price) + tx.value);
    MessageFailPool(env, true, f, pool, tx, gas, ContractDeal, header);
    if ApplyMessage(env, true, f, pool, tx, gas, ContractDeal, header).Fine? {
      MessageGas(env, true, f, pool, tx, gas, ContractDeal, header);
    }
  }

  lemma CallableGas(db: Db, pool: nat, x: TxExec, header: Header)
    requires Callable(db, pool, x, header)
    ensures WellFormed(db) && Remaining(x) + FreeAt(true, x.tx, header) <= pool < TWO64
    ensures x.tx.to.Contract? && x.tx.from.User? && (x.pre.None? ==> x.tx.IsFree()) && x.tx.Valid()
    ensures Fit(x, header) && !(x.tx.create && header.mc == SC) && Fee(Remaining(x), x.tx.price) < TWO64
  {
    GasIsPaidFor(db, pool, x, header);
  }

  /** A deal ends with its call's balances, measured afresh, for everyone but the sender. */
  lemma EndsMeasured(env: Env, db: Db, pool: nat, used: nat, x: TxExec, header: Header)
    requires EnvOk(env) && Callable(db, pool, x, header)
    requires WellFormed(db) && ProcessTransaction(env, db, pool, used, x, header).Ok?
    ensures DealCall(env, db, pool, x, header).Some?
    ensures var o := ProcessTransaction(env, db, pool, used, x, header);
            var c := DealCall(env, db, pool, x, header).value;
            && (o.receipt.failed <==> c.answer.err != NoError || Unpaid(c.answer))
            && (forall a :: a != x.tx.from ==>
                  Bal(o.db.w, a) == Bal(c.answer.w, a) == Base(o.db, a) && (a in c.answer.w.bal ==> a in o.db.base))
  {
    hide ProcessTransaction, RunDeal, Callable, RunCall, DealEnd, Closed, VmOk, Unpaid, Bal, Base, Flows, SenderFlow,
      FreeAt, Fee;
    CallableGas(db, pool, x, header);
    CallableErrIff(env, db, pool, used, x, header);
    CallableRuns(env, db, pool, used, x, header);
    var db1, gas := AddMark(db, x.tx.id, ContractDeal), Remaining(x);
    RunDealShape(env, db1, pool, used, x.tx, gas, gas, 0, x.pre.None?, header);
    EndByCall(env, db1, pool, x.tx, gas, gas, header);
    assert DealCall(env, db, pool, x, header) == RunCall(env, db1, pool, x.tx, gas, gas, header);
    ClosedBases(DealEnd(env, db1, pool, x.tx, gas, gas, header).db, x.tx.from);
  }

  lemma ClosedBases(t: Db, from: Address)
    requires WellFormed(t)
    ensures var r := Closed(t, from);
            forall a :: a != from ==> Bal(r.w, a) == Bal(t.w, a) == Base(r, a) && (a in t.w.bal ==> a in r.base)
  {
  }

  /** A free transaction whose call fails is reverted; the pool is not what stops it. */
  lemma FreeReverts(env: Env, db: Db, pool: nat, used: nat, x: TxExec, header: Header)
    requires EnvOk(env) && Callable(db, pool, x, header) && WellFormed(db) && x.pre.None?
    requires DealCall(env, db, pool, x, header).Some?
    requires DealCall(env, db, pool, x, header).value.answer.err != NoError
    ensures var o := ProcessTransaction(env, db, pool, used, x, header); o.Err? && o.error == ExecutionReverted
  {
    hide ProcessTransaction, RunDeal, Callable, RunCall, DealEnd, VmOk, Unpaid, FreeAt, Fee;
    CallableGas(db, pool, x, header);
    CallableRuns(env, db, pool, used, x, header);
    var db1, gas := AddMark(db, x.tx.id, ContractDeal), Remaining(x);
    assert RunCall(env, db1, pool, x.tx, gas, gas, header) == DealCall(env, db, pool, x, header);
    EndIff(env, db1, pool, x.tx, gas, gas, header);
    NeverMisses(env, db1, pool, x.tx, gas, gas, header);
    EndByCall(env, db1, pool, x.tx, gas, gas, header);
    RunReverts(env, db1, pool, used, x.tx, gas, header);
  }

  lemma RunReverts(env: Env, db: Db, pool: nat, used: nat, tx: Tx, gas: u64, header: Header)
    requires WellFormed(db) && VmOk(env.vm) && tx.IsFree()
    requires var t := DealEnd(env, db, pool, tx, gas, gas, header); t.Fine? && t.value.failed
    ensures var o := RunDeal(env, db, pool, used, tx, gas, gas, 0, true, header); o.Err? && o.error == ExecutionReverted
  {
    hide ApplyMessage, CloseDeal, Fee, Funded;
  }

  // ---- the queue ----------------------------------------------------------------------------------------------------

  /** A call of the system contract that its sender's chain has frozen. */
  function Paid(tx: Tx): (m: Msg)
    requires IntrinsicGas(tx.data, false) <= tx.gas
  {
    var left := tx.gas - IntrinsicGas(tx.data, false);
    Msg(TxExec(tx, ContractDeal, Some(Receipt(ContractFreeze, false, tx.gas - left, left, 0, map[], []))), Pass)
  }

  /** A free transaction starts on the system chain. */
  function Free(tx: Tx): (m: Msg) { Msg(TxExec(tx, PowTxContractDeal, None), Pass) }

  /** A call of the system contract. */
  predicate Plain(tx: Tx) { tx.Valid() && tx.to == SC && !tx.create && !tx.idle }

  /** A call with gas enough to pass its value on to Bob. */
  predicate Gives(tx: Tx) {
    && Plain(tx) && !tx.IsFree() && tx.from != D.BOB && |tx.data| == 1 && tx.value > 0
    && IntrinsicGas(tx.data, false) + D.TRANSFER_GAS <= tx.gas
  }

  /** A miner with this much gas in its pool and room in its unit. */
  predicate Roomy(m: Mine, gas: nat) {
    WellFormed(m.db) && TX_GAS <= m.pool < TWO64 && gas <= m.pool && |m.packed| < MAX_INDEX
  }

  lemma PaidIsCallable(db: Db, pool: nat, tx: Tx)
    requires WellFormed(db) && Gives(tx) && (tx.id, ContractDeal) !in db.marks && tx.gas <= pool < TWO64
    ensures var x := Paid(tx).x;
            && Callable(db, pool, x, D.Head(SC)) && FreeAt(true, tx, D.Head(SC)) == 0
            && D.TRANSFER_GAS <= Remaining(x) <= tx.gas
  {
  }

  lemma FreeIsCallable(db: Db, pool: nat, tx: Tx)
    requires WellFormed(db) && Plain(tx) && tx.IsFree() && (tx.id, ContractDeal) !in db.marks && tx.free <= pool < TWO64
    ensures var x := Free(tx).x;
            && Callable(db, pool, x, D.Head(SC)) && FreeAt(true, tx, D.Head(SC)) == tx.free
            && Remaining(x) == 0 == Frozen(x)
  {
  }

  /** A call that passes its value on succeeds, and its receipt shows Bob above the base. */
  lemma PassPays(env: Env, db: Db, pool: nat, used: nat, tx: Tx)
    requires EnvOk(env) && env == D.DEMO && Gives(tx) && WellFormed(db) && (tx.id, ContractDeal) !in db.marks
    requires tx.gas <= pool < TWO64 && Base(db, D.BOB) <= Bal(db.w, D.BOB)
    ensures var o := ProcessTransaction(env, db, pool, used, Paid(tx).x, D.Head(SC));
            && o.Ok? && D.BOB in o.receipt.flows
            && o.receipt.flows[D.BOB] == Bal(db.w, D.BOB) + tx.value - Base(db, D.BOB)
  {
    hide ProcessTransaction, Callable, DealCall, EnvOk, Unpaid, Called, CallOf, D.Machine, FreeAt, Fee, DataGas, Bal,
      Base;
    var x, h := Paid(tx).x, D.Head(SC);
    PaidIsCallable(db, pool, tx);
    MakesCall(env, db, pool, x, h);
    CallableErrIff(env, db, pool, used, x, h);
    D.PassesOn(db, DealCall(env, db, pool, x, h).value, tx, Remaining(x));
    EndsMeasured(env, db, pool, used, x, h);
    W.DealFlows(env, db, pool, used, x, h);
  }

  /** What a packed call that passes its value on to Bob leaves. */
  ghost predicate Passed(m: Mine, n: Mine, tx: Tx)
    requires IntrinsicGas(tx.data, false) <= tx.gas
  {
    && WellFormed(n.db) && n.pool <= m.pool <= n.pool + tx.gas
    && n.packed == m.packed + [Paid(tx)] && |n.receipts| == |m.receipts| + 1 && n.errs == m.errs
    && n.db.marks == m.db.marks + {(tx.id, ContractDeal)}
    && D.BOB in n.db.base && Base(n.db, D.BOB) == Bal(n.db.w, D.BOB) == Bal(m.db.w, D.BOB) + tx.value
  }

  lemma PassTaken(env: Env, m: Mine, tx: Tx)
    requires EnvOk(env) && env == D.DEMO && Gives(tx) && Roomy(m, tx.gas) && (tx.id, ContractDeal) !in m.db.marks
    ensures WellFormed(m.db) && Packs(env, m, Paid(tx), D.Head(SC))
    ensures Delivered(env, m, Paid(tx), D.Head(SC))
    ensures var r := Take(env, m, Paid(tx), D.Head(SC)); r.1 && Passed(m, r.0, tx)
  {
    hide ProcessTransaction, Callable, DealCall, EnvOk, Unpaid, GasOf, Called, CallOf, D.Machine, FreeAt, Fee, DataGas;
    var x, h := Paid(tx).x, D.Head(SC);
    var used := GasOf(m.receipts);
    PaidIsCallable(m.db, m.pool, tx);
    MakesCall(env, m.db, m.pool, x, h);
    CallableErrIff(env, m.db, m.pool, used, x, h);
    D.PassesOn(m.db, DealCall(env, m.db, m.pool, x, h).value, tx, Remaining(x));
    EndsMeasured(env, m.db, m.pool, used, x, h);
    TakesItsGas(env, m.db, m.pool, used, x, h);
    L.MarkedOnce(env, m.db, m.pool, used, x, h);
  }

  /** A free transaction of Bob's that fails resets Bob's base. */
  lemma FreeTaken(env: Env, m: Mine, tx: Tx)
    requires EnvOk(env) && env == D.DEMO && Plain(tx) && tx.IsFree() && Roomy(m, tx.free)
    requires (tx.id, ContractDeal) !in m.db.marks && |tx.data| > 2
    requires tx.from in m.db.base && m.db.base[tx.from] != 0
    ensures var bad, h := Free(tx), D.Head(SC);
            && Fit(bad.x, h) && !Refused(m, bad) && Frozen(bad.x) == 0
            && Dirties(env, m.db, m.pool, bad.x, h) && FailsLate(env, m.db, m.pool, bad.x, h)
            && var r := Take(env, m, bad, h);
               r.1 && r.0.pool <= m.pool <= r.0.pool + tx.free && r.0.errs == m.errs + [bad]
  {
    hide ProcessTransaction, Callable, DealCall, VmOk, Unpaid, GasOf, Called, CallOf, D.Machine, FreeAt, FailsLate,
      Revert, Rehearsal, Fee, Frozen;
    var x, h := Free(tx).x, D.Head(SC);
    var used := GasOf(m.receipts);
    FreeIsCallable(m.db, m.pool, tx);
    MakesCall(env, m.db, m.pool, x, h);
    CallableGas(m.db, m.pool, x, h);
    Fails(DealCall(env, m.db, m.pool, x, h).value.before, CallOf(tx, tx.free, h), tx, h);
    FreeReverts(env, m.db, m.pool, used, x, h);
    TakesItsGas(env, m.db, m.pool, used, x, h);
    FailsLateIff(env, m.db, m.pool, used, x, h);
  }

  lemma Fails(w: World, c: VmCall, tx: Tx, h: Header)
    requires c == CallOf(tx, tx.free, h) && |tx.data| > 2
    ensures D.Machine(w, c).err != NoError
  {
  }

  /** On the system chain, Alice passes 1 coin on to Bob; a free transaction of Bob's fails; Alice passes on 5 coins. */
  const CALM: Tx := Tx(0, D.ALICE, SC, 1, 60000, D.PRICE, 0, [1], false, false, 0)
  const BAD: Tx := Tx(1, D.BOB, SC, 0, 0, 0, 1, [1, 1, 1], false, false, 40000)
  const GIFT: Tx := Tx(2, D.ALICE, SC, 5, 60000, D.PRICE, 0, [1], false, false, 0)

  function Queue(a: Msg, b: Msg, c: Msg): (turns: seq<Turn>) { [Popped(a), Popped(b), Popped(c), TimedOut] }

  lemma LoopPops(env: Env, m: Mine, msg: Msg, rest: seq<Turn>, header: Header)
    requires WellFormed(m.db) && EnvOk(env)
    ensures var r := Take(env, m, msg, header);
            Loop(env, m, [Popped(msg)] + rest, header) == if r.1 then Loop(env, r.0, rest, header) else r.0
  {
    hide Take, EnvOk;
    assert ([Popped(msg)] + rest)[1..] == rest;
  }

  lemma QueueRuns(env: Env, db: Db, a: Msg, b: Msg, c: Msg, header: Header)
    requires WellFormed(db) && EnvOk(env)
    requires var start := Mine(db, header.gasLimit, [], [], 0, [], [], []);
             var r := Take(env, start, a, header);
             r.1 && Take(env, r.0, b, header).1
    ensures var start := Mine(db, header.gasLimit, [], [], 0, [], [], []);
            var n := Take(env, Take(env, start, a, header).0, b, header).0;
            Pack(env, db, [], Queue(a, b, c), header) == Take(env, n, c, header).0
  {
    hide Take, EnvOk;
    var start := Mine(db, header.gasLimit, [], [], 0, [], [], []);
    var r := Take(env, start, a, header);
    var s := Take(env, r.0, b, header);
    var rest := [Popped(b), Popped(c), TimedOut];
    assert Queue(a, b, c) == [Popped(a)] + rest;
    LoopPops(env, start, a, rest, header);
    assert rest == [Popped(b)] + [Popped(c), TimedOut];
    LoopPops(env, r.0, b, [Popped(c), TimedOut], header);
    assert [Popped(c), TimedOut] == [Popped(c)] + [TimedOut];
    LoopPops(env, s.0, c, [TimedOut], header);
  }

  /** The miner packs both of Alice's calls and drops Bob's transaction. Replaying the two succeeds, with another
      receipt for the second: it shows 5 coins for Bob, and the miner's shows 6. */
  lemma ReceiptsDiffer()
    ensures EnvOk(D.DEMO) && WellFormed(C.EMPTY_DB)
    ensures IntrinsicGas(CALM.data, false) <= CALM.gas && IntrinsicGas(GIFT.data, false) <= GIFT.gas
    ensures var m := Pack(D.DEMO, C.EMPTY_DB, [], Queue(Paid(CALM), Free(BAD), Paid(GIFT)), D.Head(SC));
            var b := Process(D.DEMO, C.EMPTY_DB, D.POOL, Actions(m.packed), D.Head(SC));
            && m.packed == [Paid(CALM), Paid(GIFT)] && m.errs == [Free(BAD)]
            && b.Some? && Shows(m.receipts, 6) && Shows(b.value.receipts, 5) && b.value.receipts != m.receipts
  {
    D.DemoOk();
    D.IntrinsicOf([1]);
    DifferFrom(D.DEMO, C.EMPTY_DB, CALM, BAD, GIFT, D.Head(SC));
  }

  /** The second receipt shows this much for Bob. */
  predicate Shows(rs: seq<Receipt>, v: int) { |rs| == 2 && D.BOB in rs[1].flows && rs[1].flows[D.BOB] == v }

  lemma DifferFrom(env: Env, db: Db, calm: Tx, bad: Tx, gift: Tx, h: Header)
    requires EnvOk(env) && env == D.DEMO && WellFormed(db) && db.marks == {} && db.base == map[] && h == D.Head(SC)
    requires Gives(calm) && Plain(bad) && Gives(gift)
    requires calm.id != bad.id && bad.id != gift.id && gift.id != calm.id
    requires bad.IsFree() && bad.from == D.BOB && |bad.data| > 2
    requires TX_GAS + calm.gas + bad.free + gift.gas <= h.gasLimit
    ensures var m := Pack(env, db, [], Queue(Paid(calm), Free(bad), Paid(gift)), h);
            var b := Process(env, db, h.gasLimit, Actions(m.packed), h);
            && m.packed == [Paid(calm), Paid(gift)] && m.errs == [Free(bad)]
            && b.Some? && Shows(m.receipts, Bal(db.w, D.BOB) + calm.value + gift.value)
            && Shows(b.value.receipts, gift.value)
  {
    hide Take, EnvOk, Process, Actions, Packs, Delivered, Agrees, Fit, Dirties, FailsLate, Refused, Plain, Frozen,
      IntrinsicGas, Shows;
    var start := Mine(db, h.gasLimit, [], [], 0, [], [], []);
    PassTaken(env, start, calm);
    var a := Take(env, start, Paid(calm), h).0;
    FirstAgrees(env, db, start, calm, h);
    FreeTaken(env, a, bad);
    var n := Take(env, a, Free(bad), h).0;
    DirtyTakeIs(env, a, Free(bad), h);
    PassTaken(env, n, gift);
    QueueRuns(env, db, Paid(calm), Free(bad), Paid(gift), h);
    ReplayShows(env, db, a, gift, h);
    MinerShows(env, n, gift, h);
  }

  /** The validator, who has only seen the first call. */
  lemma ReplayShows(env: Env, db: Db, a: Mine, tx: Tx, h: Header)
    requires EnvOk(env) && env == D.DEMO && h == D.Head(SC) && WellFormed(db) && WellFormed(a.db)
    requires Agrees(env, db, a, h) && |a.packed| == 1 && Gives(tx) && tx.gas <= a.pool
    requires (tx.id, ContractDeal) !in a.db.marks && Base(a.db, D.BOB) == Bal(a.db.w, D.BOB)
    ensures var b := Process(env, db, h.gasLimit, Actions(a.packed + [Paid(tx)]), h);
            b.Some? && Shows(b.value.receipts, tx.value)
  {
    hide ProcessTransaction, EnvOk, IntrinsicGas, Bal, Base, GasOf;
    ReplayedAll(env, db, a, h);
    var b := Process(env, db, h.gasLimit, Actions(a.packed), h).value;
    ProcessSnoc(env, db, h.gasLimit, a.packed, Paid(tx), h);
    PassPays(env, a.db, b.pool, GasOf(b.receipts), tx);
  }

  lemma ReplayedAll(env: Env, db: Db, a: Mine, h: Header)
    requires EnvOk(env) && WellFormed(db) && Agrees(env, db, a, h) && |a.packed| == 1
    ensures var b := Process(env, db, h.gasLimit, Actions(a.packed), h); b.Some? && |b.value.receipts| == 1
  {
    hide ProcessTransaction, EnvOk;
    var xs := Actions(a.packed);
    assert xs[..0] == [];
  }

  /** The miner, who measures Bob from nothing. */
  lemma MinerShows(env: Env, n: Mine, tx: Tx, h: Header)
    requires EnvOk(env) && env == D.DEMO && h == D.Head(SC) && WellFormed(n.db) && |n.receipts| == 1
    requires Gives(tx) && Roomy(n, tx.gas) && (tx.id, ContractDeal) !in n.db.marks && Base(n.db, D.BOB) == 0
    ensures Shows(Take(env, n, Paid(tx), h).0.receipts, Bal(n.db.w, D.BOB) + tx.value)
  {
    hide ProcessTransaction, EnvOk, IntrinsicGas, GasOf;
    PassPays(env, n.db, n.pool, GasOf(n.receipts), tx);
  }

  lemma FirstAgrees(env: Env, db: Db, start: Mine, tx: Tx, h: Header)
    requires EnvOk(env) && WellFormed(db) && db.base == map[] && start == Mine(db, h.gasLimit, [], [], 0, [], [], [])
    requires Gives(tx) && h == D.Head(SC)
    ensures Agrees(env, db, Take(env, start, Paid(tx), h).0, h)
  {
    hide Take, EnvOk, ProcessTransaction, FailsLate, ReachesFunding, IntrinsicGas;
    assert Actions([]) == [];
    TakeAgrees(env, db, start, Paid(tx), h);
  }
}
