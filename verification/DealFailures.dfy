/** Concrete runs that do not keep the total value, one for each way a deal can be unsound. */
module DealFailures {
  import opened Options
  import opened Ledger
  import opened Transition
  import opened Processor
  import opened GasLaws
  import opened Conservation
  import opened Lifecycle
  import opened DealCalls
  import opened MultiChain
  import opened Guards
  import opened Runs

  const ALICE: Address := User(1)
  const BOB: Address := User(2)
  const SHOP: Address := Contract(1)

  /** What a contract uses to give value to an account new to its chain, and to do no more than answer. */
  const TRANSFER_GAS: nat := 34000
  const ANSWER_GAS: nat := 20

  /** A machine whose contracts keep the value they are sent and return one byte; sent one byte, they pass the value on
      to Bob; sent two bytes and no value, they give Bob all they have; anything else, or too little gas, fails. */
  function Machine(w: World, c: VmCall): (r: VmResult) {
    var need := if c.data == [] then ANSWER_GAS else TRANSFER_GAS;
    if Bal(w, c.caller) < c.value then VmResult(w, c.gas, [], NotEnoughBalance)
    else if |c.data| > 2 || c.gas < need then VmResult(w, 0, [], OtherError)
    else
      var (from, to, v) := match |c.data| {
        case 0 => (c.caller, c.to, c.value)
        case 1 => (c.caller, BOB, c.value)
        case _ => (c.to, BOB, Bal(w, c.to))
      };
      if from == to || (|c.data| == 2 && (c.to.User? || c.to == c.caller || c.value > 0)) then
        VmResult(w, 0, [], OtherError)
      else VmResult(Move(w, from, to, v), c.gas - need, if c.data == [] then [1] else [], NoError)
  }

  const DEMO: Env := Env(Machine, World(map[], map[], 0, 0), (n: nat) => Contract(n + 1), out => SHOP)

  lemma MachineOk(w: World, c: VmCall)
    ensures VmStepOk(w, c, Machine(w, c))
  {
    hide TotalBalance;
    if Machine(w, c).err == NoError {
      if c.data == [] {
        MoveKeepsTotal(w, c.caller, c.to, c.value);
      } else if |c.data| == 1 {
        MoveKeepsTotal(w, c.caller, BOB, c.value);
      } else {
        MoveKeepsTotal(w, c.to, BOB, Bal(w, c.to));
      }
    }
  }

  lemma DemoOk()
    ensures EnvOk(DEMO)
  {
    hide VmStepOk, Machine;
    forall w: World, c: VmCall
      ensures VmStepOk(w, c, Machine(w, c))
    {
      MachineOk(w, c);
    }
  }

  // ---- submitting and freezing --------------------------------------------------------------------------------------

  const POOL: nat := 1_000_000

  function Head(c: Address): (h: Header) { Header(c, 1, 0, POOL) }

  /** A call that its sender can afford. */
  predicate Affordable(db: Db, tx: Tx) {
    && tx.Valid() && !tx.IsFree() && !tx.create && tx.to.Contract? && tx.to != SC
    && WellFormed(db) && Fee(tx.gas, tx.price) + tx.value <= Bal(db.w, tx.from)
    && IntrinsicGas(tx.data, false) <= tx.gas <= POOL
  }

  lemma FreezeOk(env: Env, db: Db, used: nat, tx: Tx)
    requires VmOk(env.vm) && Affordable(db, tx) && (tx.id, ContractFreeze) !in db.marks
    ensures var o := ApplyFreeze(env, db, POOL, used, tx, Head(tx.from));
            && o.Ok? && !o.receipt.failed && o.receipt.gasRemaining == tx.gas - IntrinsicGas(tx.data, false)
  {
    hide Fee, DataGas, Flows, Rebase, BumpNonce;
  }

  function FreezeKey(tx: Tx): (k: Key) { Key(tx.from, tx.id, ContractFreeze) }

  function DealKey(tx: Tx): (k: Key) { Key(tx.to, tx.id, ContractDeal) }

  function Freezing(tx: Tx): (steps: seq<Event>) {
    [SubmitStep(tx), ExecStep(FreezeKey(tx), POOL, 0, Head(tx.from))]
  }

  /** The call is in flight, with this much gas; other chains are as they were, and so is the total. */
  ghost predicate Launched(s: Sys, t: Sys, tx: Tx) {
    && Inv(t) && Total(t) == Total(s)
    && t.chains.Keys == s.chains.Keys && (forall c :: c in s.chains && c != tx.from ==> t.chains[c] == s.chains[c])
    && t.txs == s.txs[tx.id := tx]
    && DealKey(tx) in t.pending
    && var e := t.pending[DealKey(tx)];
       && e.tx == tx && e.action == ContractDeal && e.pre.Some? && !e.pre.value.failed
       && e.pre.value.gasRemaining == tx.gas - IntrinsicGas(tx.data, false)
  }

  lemma FreezeRuns(env: Env, s: Sys, tx: Tx)
    requires EnvOk(env) && Inv(s) && tx.id !in s.txs && tx.from in s.chains && Affordable(s.chains[tx.from], tx)
    ensures Feasible(env, s, Freezing(tx)) && Launched(s, After(env, s, Freezing(tx)), tx)
  {
    hide Inv, Affordable, Submit, Exec, CanExec, Launched, EnvOk, CanSubmit, Feasible, After, Enabled, Do, FirstAction,
      Total;
    NewIsUnmarked(s, tx);
    var a, x := Submit(s, tx), ExecStep(FreezeKey(tx), POOL, 0, Head(tx.from));
    SubmitKeepsInv(s, tx);
    SubmitConserves(s, tx);
    FreezeExec(env, s, a, tx);
    SubmitIs(env, s, tx);
    ExecIs(env, a, FreezeKey(tx), POOL, 0, Head(tx.from));
    OneStep(env, s, SubmitStep(tx));
    OneStep(env, a, x);
    RunThen(env, s, [SubmitStep(tx)], [x]);
    assert [SubmitStep(tx)] + [x] == Freezing(tx);
  }

  lemma SubmitIs(env: Env, s: Sys, tx: Tx)
    requires EnvOk(env) && CanSubmit(s, tx)
    ensures Enabled(env, s, SubmitStep(tx)) && Do(env, s, SubmitStep(tx)) == Submit(s, tx)
  {
  }

  lemma ExecIs(env: Env, s: Sys, k: Key, pool: nat, used: nat, header: Header)
    requires EnvOk(env) && CanExec(env, s, k, pool, used, header)
    ensures Enabled(env, s, ExecStep(k, pool, used, header))
    ensures Do(env, s, ExecStep(k, pool, used, header)) == Exec(env, s, k, pool, used, header)
  {
    hide CanExec, Exec;
  }

  lemma NewIsUnmarked(s: Sys, tx: Tx)
    requires Inv(s) && tx.id !in s.txs && tx.from in s.chains && Affordable(s.chains[tx.from], tx)
    ensures FirstAction(tx) == (tx.from, ContractFreeze) && CanSubmit(s, tx)
    ensures (tx.id, ContractFreeze) !in s.chains[tx.from].marks
  {
    hide PendingOk, MarksOk, FrontAlone, Fee, DataGas;
    assert ChainOk(tx.from, s.chains[tx.from], s.txs);
  }

  lemma OneStep(env: Env, s: Sys, x: Event)
    requires EnvOk(env) && Enabled(env, s, x)
    ensures Feasible(env, s, [x]) && After(env, s, [x]) == Do(env, s, x)
  {
    hide Enabled, Do;
    assert [x][1..] == [];
    assert Feasible(env, Do(env, s, x), []);
  }

  lemma FreezeExec(env: Env, s: Sys, a: Sys, tx: Tx)
    requires EnvOk(env) && Inv(a) && a == Submit(s, tx) && Total(a) == Total(s)
    requires FirstAction(tx) == (tx.from, ContractFreeze)
    requires tx.from in s.chains && Affordable(s.chains[tx.from], tx)
    requires (tx.id, ContractFreeze) !in s.chains[tx.from].marks
    ensures CanExec(env, a, FreezeKey(tx), POOL, 0, Head(tx.from))
    ensures Launched(s, Exec(env, a, FreezeKey(tx), POOL, 0, Head(tx.from)), tx)
  {
    hide Inv, Total, ApplyFreeze, Affordable, EnvOk, IntrinsicGas, CanExec, Exec, ProcessTransaction, Submit, OutcomeOf;
    var k, h := FreezeKey(tx), Head(tx.from);
    FreezeCan(env, s, a, tx);
    ExecKeepsInv(env, a, k, POOL, 0, h);
    OtherActionsConserve(env, a, k, POOL, 0, h);
    FreezeEmits(env, a, tx);
  }

  /** The freeze succeeds. */
  lemma FreezeCan(env: Env, s: Sys, a: Sys, tx: Tx)
    requires EnvOk(env) && a == Submit(s, tx) && FirstAction(tx) == (tx.from, ContractFreeze)
    requires tx.from in s.chains && Affordable(s.chains[tx.from], tx)
    requires (tx.id, ContractFreeze) !in s.chains[tx.from].marks
    ensures FreezeKey(tx) in a.pending && a.pending[FreezeKey(tx)] == TxExec(tx, ContractFreeze, None)
    ensures a.chains == s.chains && a.txs == s.txs[tx.id := tx]
    ensures CanExec(env, a, FreezeKey(tx), POOL, 0, Head(tx.from))
    ensures var r := OutcomeOf(env, a, FreezeKey(tx), POOL, 0, Head(tx.from)).receipt;
            !r.failed && r.gasRemaining == tx.gas - IntrinsicGas(tx.data, false)
  {
    assert WellFormed(s.chains[tx.from]);
    hide ApplyFreeze, Affordable, VmOk, IntrinsicGas;
    FreezeOk(env, s.chains[tx.from], 0, tx);
  }

  /** It puts the deal in flight. */
  lemma FreezeEmits(env: Env, a: Sys, tx: Tx)
    requires EnvOk(env) && FreezeKey(tx) in a.pending && a.pending[FreezeKey(tx)] == TxExec(tx, ContractFreeze, None)
    requires tx.from in a.chains && CanExec(env, a, FreezeKey(tx), POOL, 0, Head(tx.from))
    requires !OutcomeOf(env, a, FreezeKey(tx), POOL, 0, Head(tx.from)).receipt.failed
    ensures var t := Exec(env, a, FreezeKey(tx), POOL, 0, Head(tx.from));
            var r := OutcomeOf(env, a, FreezeKey(tx), POOL, 0, Head(tx.from)).receipt;
            && t.chains.Keys == a.chains.Keys && (forall c :: c in a.chains && c != tx.from ==> t.chains[c] == a.chains[c])
            && t.txs == a.txs
            && DealKey(tx) in t.pending && t.pending[DealKey(tx)] == TxExec(tx, ContractDeal, Some(r))
  {
    hide ProcessTransaction, Emitted, EnvOk;
    var k := FreezeKey(tx);
    var r := OutcomeOf(env, a, k, POOL, 0, Head(tx.from)).receipt;
    var p := Emitted(env, k, a.pending[k], r);
    assert DealKey(tx) in p;
  }

  // ---- the deal -----------------------------------------------------------------------------------------------------

  function Dealing(tx: Tx): (step: Event) { ExecStep(DealKey(tx), POOL, 0, Head(tx.to)) }

  /** A frozen call meets the machine. */
  lemma LaunchedIsCallable(s: Sys, t: Sys, tx: Tx)
    requires Launched(s, t, tx) && tx.to != SC && tx.gas <= POOL && IntrinsicGas(tx.data, false) <= tx.gas
    ensures Callable(ChainDb(t, tx.to), POOL, t.pending[DealKey(tx)], Head(tx.to))
    ensures Remaining(t.pending[DealKey(tx)]) == tx.gas - IntrinsicGas(tx.data, false)
  {
    var k := DealKey(tx);
    assert GoodKey(t.txs, k, t.pending[k]);
    DealOfKey(t.txs, k, t.pending[k]);
    if tx.to in t.chains {
      assert ChainOk(tx.to, t.chains[tx.to], t.txs);
      assert MarksFit(k, tx, tx.to, t.chains[tx.to].marks);
    }
  }

  /** The deal makes this call. */
  ghost predicate Calls(env: Env, t: Sys, tx: Tx)
    requires EnvOk(env)
  {
    var k, h := DealKey(tx), Head(tx.to);
    && k in t.pending && WellFormed(ChainDb(t, tx.to)) && IntrinsicGas(tx.data, false) <= tx.gas
    && var c := CallFor(env, t, k, POOL, h);
       && c.Some? && c.value.before.bal == Called(ChainDb(t, tx.to), tx, h)
       && c.value.answer == env.vm(c.value.before, CallOf(tx, tx.gas - IntrinsicGas(tx.data, false), h))
  }

  /** The deal can be executed, with that call. */
  ghost predicate Goes(env: Env, t: Sys, tx: Tx)
    requires EnvOk(env)
  {
    CanExec(env, t, DealKey(tx), POOL, 0, Head(tx.to)) && Calls(env, t, tx)
  }

  /** A call in flight goes through. */
  lemma DealGoes(env: Env, s: Sys, t: Sys, tx: Tx)
    requires EnvOk(env)
    requires Launched(s, t, tx) && tx.to != SC && tx.gas <= POOL && IntrinsicGas(tx.data, false) <= tx.gas
    requires tx.to.Contract? && tx.from.User? && !tx.create
    ensures Goes(env, t, tx) && Feasible(env, t, [Dealing(tx)])
    ensures After(env, t, [Dealing(tx)]) == Exec(env, t, DealKey(tx), POOL, 0, Head(tx.to))
  {
    hide EnvOk, Callable, ProcessTransaction, DealCall, Called, CallOf, IntrinsicGas, Feasible, After, Exec, Unpaid,
      Inv, Total, Machine, Enabled, Do;
    var k, h := DealKey(tx), Head(tx.to);
    var x, db := t.pending[k], ChainDb(t, tx.to);
    LaunchedIsCallable(s, t, tx);
    MakesCall(env, db, POOL, x, h);
    CallableErrIff(env, db, POOL, 0, x, h);
    ExecIs(env, t, k, POOL, 0, h);
    OneStep(env, t, Dealing(tx));
  }

  /** What a move from a user into a contract, or the other way, does to the users. */
  lemma MovedByMove(c: Call, a: Address, b: Address, v: nat)
    requires a != b && v <= Bal(c.before, a) && c.answer.w == Move(c.before, a, b, v)
    ensures a.User? && b.Contract? ==> Moved(c) == v
    ensures a.Contract? && b.User? ==> Moved(c) == 0 - v
  {
    var k := Users(c.answer.w.bal.Keys);
    var x := if b.User? then b else a;
    if a.User? != b.User? {
      SumBalPick(c.before, k, x);
      SumBalPick(c.answer.w, k, x);
      SumBalAgree(c.before, c.answer.w, k - {x});
    }
  }

  // ---- a run that makes value ---------------------------------------------------------------------------------------

  /** A chain that holds one account. */
  function Holding(a: Address, v: nat): (db: Db) { Db(World(map[a := v], map[], 0, 0), map[a := v], {}) }

  function Started(chains: map<Address, Db>): (s: Sys) { Sys(chains, map[], map[], 0, [], map[], map[]) }

  /** The lowest price the validator accepts, unless configured otherwise. */
  const PRICE: nat := 100000

  /** Enough for any call below. */
  const FUNDS: nat := 10_000_000_000

  /** Alice sends the shop 5 coins with so little gas that 40 are left after the call: its output costs 68. */
  const MINT: Tx := Tx(0, ALICE, SHOP, 5, 21060, PRICE, 0, [], false, false, 0)

  const BEFORE_MINT: Sys := Started(map[ALICE := Holding(ALICE, FUNDS)])

  lemma IntrinsicOf(data: seq<nat>)
    ensures data == [] ==> IntrinsicGas(data, false) == 21000
    ensures |data| == 1 && data[0] != 0 ==> IntrinsicGas(data, false) == 21068
  {
  }

  lemma StartIsFine(a: Address, v: nat)
    ensures var s := Started(map[a := Holding(a, v)]); Initial(s) && Inv(s)
  {
  }

  /** The shop keeps the coins and returns a byte nobody pays for. The deal counts as failed, so the value is refunded,
      but the state is not rolled back: 5 coins exist twice. */
  lemma UnpaidOutputMints()
    ensures EnvOk(DEMO) && Initial(BEFORE_MINT) && Feasible(DEMO, BEFORE_MINT, Freezing(MINT) + [Dealing(MINT)])
    ensures Total(After(DEMO, BEFORE_MINT, Freezing(MINT) + [Dealing(MINT)])) == Total(BEFORE_MINT) + 5
  {
    DemoOk();
    StartIsFine(ALICE, FUNDS);
    IntrinsicOf([]);
    MintFrom(DEMO, BEFORE_MINT, MINT);
  }

  lemma MintFrom(env: Env, s: Sys, tx: Tx)
    requires EnvOk(env) && env == DEMO && Inv(s) && tx.id !in s.txs && tx.from in s.chains && tx.to !in s.chains
    requires Affordable(s.chains[tx.from], tx)
    requires tx.data == [] && ANSWER_GAS <= tx.gas - IntrinsicGas(tx.data, false) < ANSWER_GAS + 68
    ensures Feasible(env, s, Freezing(tx) + [Dealing(tx)])
    ensures Total(After(env, s, Freezing(tx) + [Dealing(tx)])) == Total(s) + tx.value
  {
    hide Inv, EnvOk, Affordable, Feasible, After, CanExec, Exec, Total, CallFor, Machine, Called, CallOf, IntrinsicGas,
      Moved, Goes;
    AffordableFacts(s.chains[tx.from], tx);
    FreezeRuns(env, s, tx);
    var t := After(env, s, Freezing(tx));
    DealGoes(env, s, t, tx);
    RunThen(env, s, Freezing(tx), [Dealing(tx)]);
    MintDeal(env, s, t, tx);
  }

  lemma MintDeal(env: Env, s: Sys, t: Sys, tx: Tx)
    requires EnvOk(env) && env == DEMO && Launched(s, t, tx) && Goes(env, t, tx)
    requires tx.to.Contract? && tx.from.User? && !tx.create
    requires tx.data == [] && ANSWER_GAS <= tx.gas - IntrinsicGas(tx.data, false) < ANSWER_GAS + 68
    ensures Total(Exec(env, t, DealKey(tx), POOL, 0, Head(tx.to))) == Total(s) + tx.value
  {
    hide Inv, EnvOk, Total, Machine, Called, CallOf, IntrinsicGas, CanExec, Exec, Moved, CallFor, Goes, Launched;
    GoesFacts(env, s, t, tx);
    var c := CallFor(env, t, DealKey(tx), POOL, Head(tx.to)).value;
    ShopKeeps(ChainDb(t, tx.to), c, tx, tx.gas - IntrinsicGas(tx.data, false));
    UnpaidAdds(env, t, DealKey(tx), POOL, 0, Head(tx.to));
  }

  lemma ShopKeeps(db: Db, c: Call, tx: Tx, gas: u64)
    requires c.before.bal == Called(db, tx, Head(tx.to)) && c.answer == Machine(c.before, CallOf(tx, gas, Head(tx.to)))
    requires tx.data == [] && tx.from.User? && tx.to.Contract? && !tx.create && ANSWER_GAS <= gas
    ensures c.answer.err == NoError && c.answer.ret == [1] && c.answer.gas == gas - ANSWER_GAS && Moved(c) == tx.value
    ensures DataGas([1]) == 68
  {
    hide Moved;
    assert c.answer.w == Move(c.before, tx.from, tx.to, tx.value);
    MovedByMove(c, tx.from, tx.to, tx.value);
  }

  // ---- a run that loses value to proof of work ----------------------------------------------------------------------

  const WORK: Tx := Tx(0, ALICE, SC, 0, 0, 0, 1, [1, 1], false, false, 40000)

  const BEFORE_WORK: Sys := Started(map[SC := Holding(SC, 7)])

  function Working(tx: Tx): (steps: seq<Event>) {
    [SubmitStep(tx), ExecStep(Key(SC, tx.id, PowTxContractDeal), POOL, 0, Head(SC))]
  }

  /** The system contract pays Bob all it has in a proof-of-work deal: no receipt ever delivers the flow. */
  lemma ProofOfWorkLoses()
    ensures EnvOk(DEMO) && Initial(BEFORE_WORK) && Feasible(DEMO, BEFORE_WORK, Working(WORK))
    ensures Total(After(DEMO, BEFORE_WORK, Working(WORK))) == Total(BEFORE_WORK) - 7
  {
    DemoOk();
    StartIsFine(SC, 7);
    WorkFrom(DEMO, BEFORE_WORK, WORK);
  }

  lemma WorkFrom(env: Env, s: Sys, tx: Tx)
    requires EnvOk(env) && env == DEMO && Inv(s) && tx.id !in s.txs && SC in s.chains
    requires tx.Valid() && tx.to == SC && tx.seed > 0 && !tx.create && !tx.idle && TRANSFER_GAS <= tx.free <= POOL
    requires |tx.data| == 2 && tx.from != BOB
    ensures Feasible(env, s, Working(tx))
    ensures Total(After(env, s, Working(tx))) == Total(s) - Bal(s.chains[SC].w, SC)
  {
    hide Inv, EnvOk, Feasible, After, Exec, CanExec, Total, Submit, Enabled, Do, CanSubmit, Callable, Bal;
    var a, k, h := Submit(s, tx), Key(SC, tx.id, PowTxContractDeal), Head(SC);
    WorkIsCallable(s, a, tx);
    SubmitKeepsInv(s, tx);
    SubmitConserves(s, tx);
    WorkDeal(env, a, k, tx);
    SubmitIs(env, s, tx);
    ExecIs(env, a, k, POOL, 0, h);
    OneStep(env, s, SubmitStep(tx));
    OneStep(env, a, ExecStep(k, POOL, 0, h));
    RunThen(env, s, [SubmitStep(tx)], [ExecStep(k, POOL, 0, h)]);
    assert [SubmitStep(tx)] + [ExecStep(k, POOL, 0, h)] == Working(tx);
  }

  lemma WorkDeal(env: Env, a: Sys, k: Key, tx: Tx)
    requires EnvOk(env) && env == DEMO && Inv(a) && k in a.pending && k == Key(SC, tx.id, PowTxContractDeal)
    requires a.pending[k] == TxExec(tx, PowTxContractDeal, None) && SC in a.chains && WellFormed(a.chains[SC])
    requires Callable(a.chains[SC], POOL, a.pending[k], Head(SC))
    requires |tx.data| == 2 && tx.from != BOB && tx.Valid() && tx.to == SC && !tx.create && TRANSFER_GAS <= tx.free
    ensures CanExec(env, a, k, POOL, 0, Head(SC))
    ensures Total(Exec(env, a, k, POOL, 0, Head(SC))) == Total(a) - Bal(a.chains[SC].w, SC)
  {
    hide Inv, EnvOk, Exec, Total, DealCall, Machine, Called, CallOf, Moved, Callable, ProcessTransaction, Unpaid,
      FreeAt, Bal;
    var h, x, db := Head(SC), a.pending[k], a.chains[SC];
    CallableFacts(db, POOL, x, h);
    MakesCall(env, db, POOL, x, h);
    CallableErrIff(env, db, POOL, 0, x, h);
    WorkGas(tx);
    GivesAll(db, DealCall(env, db, POOL, x, h).value, tx, Remaining(x) + FreeAt(true, tx, h));
    DealChanges(env, a, k, POOL, 0, h);
  }

  lemma WorkGas(tx: Tx)
    requires tx.to == SC
    ensures FreeAt(true, tx, Head(SC)) == tx.free
  {
  }

  lemma WorkIsCallable(s: Sys, a: Sys, tx: Tx)
    requires Inv(s) && tx.id !in s.txs && SC in s.chains && a == Submit(s, tx)
    requires tx.Valid() && tx.to == SC && tx.seed > 0 && !tx.create && !tx.idle && tx.free <= POOL
    ensures var k := Key(SC, tx.id, PowTxContractDeal);
            && CanSubmit(s, tx) && k in a.pending && a.pending[k] == TxExec(tx, PowTxContractDeal, None)
            && a.chains == s.chains && WellFormed(s.chains[SC])
            && Callable(a.chains[SC], POOL, a.pending[k], Head(SC))
  {
    assert ChainOk(SC, s.chains[SC], s.txs);
  }

  lemma GivesAll(db: Db, c: Call, tx: Tx, gas: u64)
    requires c.before.bal == Called(db, tx, Head(SC)) && c.answer == Machine(c.before, CallOf(tx, gas, Head(SC)))
    requires |tx.data| == 2 && tx.from.User? && tx.to == SC && !tx.create && tx.value == 0 && tx.from != BOB
    requires TRANSFER_GAS <= gas
    ensures c.answer.err == NoError && !Unpaid(c.answer) && Moved(c) == 0 - Bal(db.w, SC)
  {
    hide Moved;
    assert c.answer.w == Move(c.before, SC, BOB, Bal(c.before, SC));
    MovedByMove(c, SC, BOB, Bal(c.before, SC));
  }

  // ---- a run that loses value to a stale base -----------------------------------------------------------------------

  /** Bob calls the shop; then Alice makes it pass 5 coins on to Bob. */
  const VISIT: Tx := Tx(0, BOB, SHOP, 5, 22000, PRICE, 0, [], false, false, 0)
  const PASS: Tx := Tx(1, ALICE, SHOP, 5, 60000, PRICE, 0, [1], false, false, 0)

  const BEFORE_VISIT: Sys := Started(map[ALICE := Holding(ALICE, FUNDS), BOB := Holding(BOB, FUNDS)])

  lemma GasIsLeft(env: Env, db: Db, pool: nat, tx: Tx, gas: u64, header: Header)
    requires WellFormed(db) && VmOk(env.vm) && tx.to.Contract? && FreeAt(true, tx, header) == 0
    requires RunCall(env, db, pool, tx, gas, gas, header).Some?
    requires var a := RunCall(env, db, pool, tx, gas, gas, header).value.answer; a.err == NoError && a.gas > DataGas(a.ret)
    requires DealEnd(env, db, pool, tx, gas, gas, header).Fine?
    ensures DealEnd(env, db, pool, tx, gas, gas, header).value.gasUsed < gas
  {
    hide ApplyMessage, RunCall, FundedFor, PreApply, DataGas, VmOk, RunMoves, FreeAt;
    assert (gas + FreeAt(true, tx, header)) % TWO64 == gas;
    RunIsItsCall(env, db, pool, tx, gas, gas, header);
    MessageGas(env, true, FundedFor(db, tx, gas), pool, tx, gas, ContractDeal, header);
  }

  lemma PricedGas(gas: nat, price: nat)
    requires gas > 0 && price > 0
    ensures Fee(gas, price) > 0
  {
  }

  /** A deal that leaves gas leaves its sender measured from more than it has on the chain. */
  lemma RunLeavesStaleBase(env: Env, db: Db, pool: nat, used: nat, tx: Tx, gas: u64, first: bool, header: Header)
    requires WellFormed(db) && BaseAbove(db) && VmOk(env.vm) && tx.to.Contract? && tx.from.User?
    requires header.mc.Contract? && header.mc != SC && FreeAt(true, tx, header) == 0
    requires tx.price > 0 && GasCovered(tx, gas, gas, 0, header)
    requires RunDeal(env, db, pool, used, tx, gas, gas, 0, first, header).Ok?
    requires RunCall(env, db, pool, tx, gas, gas, header).Some?
    requires var a := RunCall(env, db, pool, tx, gas, gas, header).value.answer; a.err == NoError && a.gas > DataGas(a.ret)
    ensures var o := RunDeal(env, db, pool, used, tx, gas, gas, 0, first, header);
            Bal(o.db.w, tx.from) == 0 && Base(o.db, tx.from) > 0
  {
    hide RunDeal, DealEnd, RunCall, GasCovered, Fee, DataGas, VmOk, Flows, SenderFlow, OwnBalance, SumFlow, BaseAbove,
      RunMoves, Bal, Base, FreeAt, RunEffect;
    RunDealByCall(env, db, pool, used, tx, gas, gas, 0, first, header);
    RunDealShape(env, db, pool, used, tx, gas, gas, 0, first, header);
    GasIsLeft(env, db, pool, tx, gas, header);
    SenderBaseAfterDeal(env, db, pool, used, tx, gas, gas, 0, first, header);
    DeliveredIff(env, db, pool, used, tx, gas, gas, 0, first, header);
    PricedGas(RunDeal(env, db, pool, used, tx, gas, gas, 0, first, header).receipt.gasRemaining, tx.price);
  }

  lemma DealLeavesStaleBase(env: Env, db: Db, pool: nat, used: nat, x: TxExec, header: Header)
    requires EnvOk(env) && Callable(db, pool, x, header) && BaseAbove(db)
    requires x.tx.price > 0 && header.mc.Contract? && header.mc != SC
    requires DealCall(env, db, pool, x, header).Some?
    requires var a := DealCall(env, db, pool, x, header).value.answer; a.err == NoError && a.gas > DataGas(a.ret)
    ensures var o := ProcessTransaction(env, db, pool, used, x, header);
            o.Ok? && Bal(o.db.w, x.tx.from) == 0 && Base(o.db, x.tx.from) > 0
  {
    hide VmOk, Callable, ProcessTransaction, RunDeal, RunCall, GasCovered, DataGas, Bal, Base, BaseAbove, FreeAt;
    StaleFacts(db, pool, x, header);
    CallableErrIff(env, db, pool, used, x, header);
    CallableRuns(env, db, pool, used, x, header);
    RunLeavesStaleBase(env, AddMark(db, x.tx.id, ContractDeal), pool, used, x.tx, Remaining(x), x.pre.None?, header);
  }

  lemma StaleFacts(db: Db, pool: nat, x: TxExec, header: Header)
    requires Callable(db, pool, x, header) && BaseAbove(db)
    ensures WellFormed(AddMark(db, x.tx.id, ContractDeal)) && BaseAbove(AddMark(db, x.tx.id, ContractDeal))
    ensures x.tx.to.Contract? && x.tx.from.User? && !(x.tx.create && header.mc == SC)
    ensures GasCovered(x.tx, Remaining(x), Remaining(x), 0, header) && (header.mc != SC ==> FreeAt(true, x.tx, header) == 0)
  {
    DealIsCovered(x, header);
  }

  /** After the visit: Bob is measured from what was left over of the gas, and has nothing on the shop's chain. */
  ghost predicate Visited(s: Sys, t: Sys, tx: Tx) {
    && Inv(t) && Total(t) == Total(s) && t.txs == s.txs[tx.id := tx]
    && (forall c :: c in s.chains && c != tx.from && c != tx.to ==> c in t.chains && t.chains[c] == s.chains[c])
    && tx.to in t.chains && Bal(t.chains[tx.to].w, tx.from) == 0 && Base(t.chains[tx.to], tx.from) > 0
  }

  function Visiting(tx: Tx): (steps: seq<Event>) { Freezing(tx) + [Dealing(tx)] }

  lemma VisitRuns(env: Env, s: Sys, tx: Tx)
    requires EnvOk(env) && env == DEMO && Inv(s) && tx.id !in s.txs && tx.from in s.chains && tx.to !in s.chains
    requires Affordable(s.chains[tx.from], tx) && tx.price > 0 && tx.data == []
    requires tx.gas - IntrinsicGas(tx.data, false) > ANSWER_GAS + 68
    ensures Feasible(env, s, Visiting(tx)) && Visited(s, After(env, s, Visiting(tx)), tx)
  {
    hide Inv, EnvOk, Affordable, Feasible, After, CanExec, Exec, Total, Machine, Called, CallOf, IntrinsicGas, Goes,
      Visited;
    AffordableFacts(s.chains[tx.from], tx);
    FreezeRuns(env, s, tx);
    var t := After(env, s, Freezing(tx));
    DealGoes(env, s, t, tx);
    RunThen(env, s, Freezing(tx), [Dealing(tx)]);
    VisitDeal(env, s, t, tx);
  }

  lemma AffordableFacts(db: Db, tx: Tx)
    requires Affordable(db, tx)
    ensures tx.to.Contract? && tx.from.User? && !tx.create && tx.to != SC && tx.gas <= POOL
    ensures IntrinsicGas(tx.data, false) <= tx.gas && tx.Valid()
  {
  }

  lemma VisitDeal(env: Env, s: Sys, t: Sys, tx: Tx)
    requires EnvOk(env) && env == DEMO && Launched(s, t, tx) && Goes(env, t, tx) && tx.to !in s.chains
    requires tx.to.Contract? && tx.from.User? && !tx.create && tx.to != SC && tx.gas <= POOL
    requires tx.price > 0 && tx.data == [] && tx.gas - IntrinsicGas(tx.data, false) > ANSWER_GAS + 68
    ensures Visited(s, Exec(env, t, DealKey(tx), POOL, 0, Head(tx.to)), tx)
  {
    hide Inv, EnvOk, Total, Machine, Called, CallOf, IntrinsicGas, Callable, OutcomeOf, CanExec, Exec, Bal, Base,
      DataGas, Moved, CallFor, Goes, Launched, WellFormed;
    var k, h := DealKey(tx), Head(tx.to);
    GoesFacts(env, s, t, tx);
    LaunchedIsCallable(s, t, tx);
    ShopKeeps(ChainDb(t, tx.to), CallFor(env, t, k, POOL, h).value, tx, tx.gas - IntrinsicGas(tx.data, false));
    VisitLeavesBase(env, t, k, h);
    VisitConserves(env, t, k, h);
    ExecKeepsInv(env, t, k, POOL, 0, h);
    ExecChains(env, t, k, POOL, 0, h);
  }

  /** What an executable deal is known to be. */
  lemma GoesFacts(env: Env, s: Sys, t: Sys, tx: Tx)
    requires EnvOk(env) && Launched(s, t, tx) && Goes(env, t, tx)
    ensures Inv(t) && Total(t) == Total(s) && t.chains.Keys == s.chains.Keys && t.txs == s.txs[tx.id := tx]
    ensures forall c :: c in s.chains && c != tx.from ==> t.chains[c] == s.chains[c]
    ensures Calls(env, t, tx) && CanExec(env, t, DealKey(tx), POOL, 0, Head(tx.to))
    ensures DealKey(tx) in t.pending && t.pending[DealKey(tx)].tx == tx
  {
    hide Inv, EnvOk, Total, Calls, CanExec;
  }

  /** Executing an action replaces the state of its chain. */
  lemma ExecChains(env: Env, s: Sys, k: Key, pool: nat, used: nat, header: Header)
    requires EnvOk(env) && CanExec(env, s, k, pool, used, header)
    ensures var t := Exec(env, s, k, pool, used, header);
            t.txs == s.txs && t.chains == s.chains[k.chain := OutcomeOf(env, s, k, pool, used, header).db]
  {
    hide ProcessTransaction, EnvOk, Emitted, Fee;
  }

  lemma VisitLeavesBase(env: Env, t: Sys, k: Key, h: Header)
    requires EnvOk(env) && CanExec(env, t, k, POOL, 0, h) && k.chain !in t.chains
    requires Callable(EMPTY_DB, POOL, t.pending[k], h) && t.pending[k].tx.price > 0 && h.mc.Contract? && h.mc != SC
    requires CallFor(env, t, k, POOL, h).Some?
    requires var a := CallFor(env, t, k, POOL, h).value.answer; a.err == NoError && a.gas > DataGas(a.ret)
    ensures var o := OutcomeOf(env, t, k, POOL, 0, h);
            Bal(o.db.w, t.pending[k].tx.from) == 0 && Base(o.db, t.pending[k].tx.from) > 0
  {
    hide EnvOk, Callable, ProcessTransaction, DealCall, DataGas, Bal, Base, BaseAbove, OwnBalance;
    EmptyIsFine();
    DealLeavesStaleBase(env, EMPTY_DB, POOL, 0, t.pending[k], h);
  }

  lemma VisitConserves(env: Env, t: Sys, k: Key, h: Header)
    requires EnvOk(env) && Inv(t) && CanExec(env, t, k, POOL, 0, h) && k.chain !in t.chains
    requires k in t.pending && WellFormed(ChainDb(t, k.chain)) && k.action == ContractDeal && !t.pending[k].tx.create
    requires CallFor(env, t, k, POOL, h).Some?
    requires var a := CallFor(env, t, k, POOL, h).value.answer; a.err == NoError && a.gas > DataGas(a.ret)
    ensures Total(Exec(env, t, k, POOL, 0, h)) == Total(t)
  {
    hide EnvOk, Inv, Exec, Total, DataGas, CanExec, CallFor, MeasuredFor, NoMoney, WellFormed;
    NobodyOnEmpty(t.pending[k].tx.from);
    MeasuredIsSound(env, t, k, POOL, 0, h);
  }

  lemma NobodyOnEmpty(from: Address)
    ensures MeasuredFor(EMPTY_DB, from)
  {
  }

  /** Alice's deal passes value on to Bob, of whom the receipt then shows less. */
  lemma PassLoses(env: Env, s: Sys, t: Sys, tx: Tx)
    requires EnvOk(env) && env == DEMO && Launched(s, t, tx) && Goes(env, t, tx) && tx.to in t.chains
    requires tx.to.Contract? && tx.from.User? && tx.from != BOB && !tx.create && tx.to != SC
    requires |tx.data| == 1 && tx.value > 0 && TRANSFER_GAS <= tx.gas - IntrinsicGas(tx.data, false)
    requires Base(t.chains[tx.to], BOB) != Bal(t.chains[tx.to].w, BOB)
    ensures Total(Exec(env, t, DealKey(tx), POOL, 0, Head(tx.to))) < Total(s)
  {
    hide Inv, EnvOk, Total, Machine, Called, CallOf, IntrinsicGas, CanExec, Exec, Bal, Base, NoStaleGain, Unpaid,
      CallFor, Goes, Launched, WellFormed;
    var k, h, db := DealKey(tx), Head(tx.to), t.chains[tx.to];
    GoesFacts(env, s, t, tx);
    var c := CallFor(env, t, k, POOL, h).value;
    PassesOn(db, c, tx, tx.gas - IntrinsicGas(tx.data, false));
    StaleGains(db, c.answer.w, tx.from, BOB);
    DealChanges(env, t, k, POOL, 0, h);
  }

  lemma PassesOn(db: Db, c: Call, tx: Tx, gas: u64)
    requires c.before.bal == Called(db, tx, Head(tx.to)) && c.answer == Machine(c.before, CallOf(tx, gas, Head(tx.to)))
    requires |tx.data| == 1 && tx.from.User? && tx.from != BOB && tx.to.Contract? && !tx.create && tx.value > 0
    requires TRANSFER_GAS <= gas
    ensures c.answer.err == NoError && !Unpaid(c.answer) && Bal(c.answer.w, BOB) == Bal(db.w, BOB) + tx.value
    ensures BOB in c.answer.w.bal
  {
  }

  lemma PassRuns(env: Env, s: Sys, tx: Tx)
    requires EnvOk(env) && env == DEMO && Inv(s) && tx.id !in s.txs && tx.from in s.chains && tx.to in s.chains
    requires Affordable(s.chains[tx.from], tx) && |tx.data| == 1 && tx.value > 0 && tx.from != BOB
    requires TRANSFER_GAS <= tx.gas - IntrinsicGas(tx.data, false)
    requires Base(s.chains[tx.to], BOB) != Bal(s.chains[tx.to].w, BOB)
    ensures Feasible(env, s, Visiting(tx)) && Total(After(env, s, Visiting(tx))) < Total(s)
  {
    hide Inv, EnvOk, Affordable, Feasible, After, CanExec, Exec, Total, Machine, Called, CallOf, IntrinsicGas, Goes,
      Bal, Base;
    AffordableFacts(s.chains[tx.from], tx);
    FreezeRuns(env, s, tx);
    var t := After(env, s, Freezing(tx));
    DealGoes(env, s, t, tx);
    RunThen(env, s, Freezing(tx), [Dealing(tx)]);
    PassLoses(env, s, t, tx);
  }

  lemma StartOfTwo()
    ensures Initial(BEFORE_VISIT) && Inv(BEFORE_VISIT)
    ensures Affordable(BEFORE_VISIT.chains[BOB], VISIT) && Affordable(BEFORE_VISIT.chains[ALICE], PASS)
    ensures TRANSFER_GAS <= PASS.gas - IntrinsicGas([1], false)
    ensures VISIT.gas - IntrinsicGas([], false) > ANSWER_GAS + 68
  {
    IntrinsicOf([]);
    IntrinsicOf([1]);
  }

  /** Bob's call leaves Bob measured from the refund of the gas, with nothing on the chain; when Alice's call then pays
      Bob 5 coins, the receipt shows none of them and nothing delivers them. */
  lemma StaleBaseLoses()
    ensures EnvOk(DEMO) && Initial(BEFORE_VISIT) && Feasible(DEMO, BEFORE_VISIT, Visiting(VISIT) + Visiting(PASS))
    ensures Total(After(DEMO, BEFORE_VISIT, Visiting(VISIT) + Visiting(PASS))) < Total(BEFORE_VISIT)
  {
    DemoOk();
    StartOfTwo();
    LossFrom(DEMO, BEFORE_VISIT, VISIT, PASS);
  }

  lemma LossFrom(env: Env, s: Sys, visit: Tx, pass: Tx)
    requires EnvOk(env) && env == DEMO && Inv(s) && visit.id !in s.txs && pass.id !in s.txs && visit.id != pass.id
    requires visit.from == BOB && BOB in s.chains && visit.to !in s.chains && pass.from in s.chains
    requires pass.to == visit.to && pass.from != BOB
    requires Affordable(s.chains[BOB], visit) && Affordable(s.chains[pass.from], pass)
    requires visit.price > 0 && visit.data == [] && visit.gas - IntrinsicGas(visit.data, false) > ANSWER_GAS + 68
    requires |pass.data| == 1 && pass.value > 0 && TRANSFER_GAS <= pass.gas - IntrinsicGas(pass.data, false)
    ensures Feasible(env, s, Visiting(visit) + Visiting(pass))
    ensures Total(After(env, s, Visiting(visit) + Visiting(pass))) < Total(s)
  {
    hide Inv, EnvOk, Affordable, Feasible, After, Total, IntrinsicGas, Visiting, Bal, Base;
    VisitRuns(env, s, visit);
    PassRuns(env, After(env, s, Visiting(visit)), pass);
    RunThen(env, s, Visiting(visit), Visiting(pass));
  }
}
