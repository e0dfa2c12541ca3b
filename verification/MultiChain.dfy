/** The whole system: every chain's state, the actions in flight between chains, and the fees taken. */
module MultiChain {
  import opened Options
  import opened Sums
  import opened Ledger
  import opened Transition
  import opened Processor
  import opened GasLaws
  import opened Conservation
  import opened DealCalls
  import opened Lifecycle

  /** An action waiting to run on a chain. */
  datatype Key = Key(chain: Address, id: nat, action: TxAction)

  /** `burned` is the fees taken and what contracts destroyed, `pending` holds the emitted actions that have not run,
      `executed` the (chain, transaction, mark) of those that have, `steps` how many ran per transaction and `fan` how
      many coin flows its deals emitted. */
  datatype Sys = Sys(chains: map<Address, Db>, txs: map<nat, Tx>, pending: map<Key, TxExec>, burned: int,
                     executed: seq<Key>, steps: map<nat, nat>, fan: map<nat, nat>)

  const EMPTY_DB: Db := Db(World(map[], map[], 0, 0), map[], {})

  function ChainDb(s: Sys, c: Address): (r: Db) { if c in s.chains then s.chains[c] else EMPTY_DB }

  // ---- value -------------------------------------------------------------------------------------------------

  /** The value an emitted action carries. */
  function InFlight(k: Key, e: TxExec): (r: int) {
    match k.action
    case TransferReceipt => e.tx.value
    case ContractDeal => if e.pre.Some? then Fee(e.pre.value.gasRemaining, e.tx.price) + e.tx.value else 0
    case ContractRefund => if e.pre.Some? then RefundOf(e.tx, e.pre.value) else 0
    case ContractReceipt => if e.pre.Some? && k.chain in e.pre.value.flows then e.pre.value.flows[k.chain] else 0
    case _ => 0
  }

  ghost function FlightOf(p: map<Key, TxExec>): (f: Key -> int) {
    (k: Key) => if k in p then InFlight(k, p[k]) else 0
  }

  ghost function Flying(p: map<Key, TxExec>): (r: int) { Sum(FlightOf(p), p.Keys) }

  ghost function OwnOf(s: Sys): (f: Address -> int) { (c: Address) => OwnBalance(ChainDb(s, c), c) }

  ghost function Owning(s: Sys): (r: int) { Sum(OwnOf(s), s.chains.Keys) }

  /** Everything: what the chains own, what is in flight, what was taken as fees or destroyed by contracts. */
  ghost function Total(s: Sys): (r: int) { Owning(s) + Flying(s.pending) + s.burned }

  // ---- steps -------------------------------------------------------------------------------------------------

  predicate CanSubmit(s: Sys, tx: Tx) { tx.Valid() && tx.id !in s.txs }

  function Submit(s: Sys, tx: Tx): (r: Sys) {
    var (c, a) := FirstAction(tx);
    s.(txs := s.txs[tx.id := tx], pending := s.pending[Key(c, tx.id, a) := TxExec(tx, a, None)],
       steps := s.steps[tx.id := 0], fan := s.fan[tx.id := 0])
  }

  /** The actions an executed action puts in flight. */
  ghost function Emitted(env: Env, k: Key, e: TxExec, r: Receipt): (p: map<Key, TxExec>)
    ensures forall j :: j in p <==>
              j.id == k.id && (j.chain, j.action) in NextActions(env, k.chain, k.action, r, e.tx)
    ensures forall j :: j in p ==> p[j] == TxExec(e.tx, j.action, Some(r))
  {
    var keys := set q | q in NextActions(env, k.chain, k.action, r, e.tx) :: Key(q.0, k.id, q.1);
    assert forall j: Key :: j.id == k.id && (j.chain, j.action) in NextActions(env, k.chain, k.action, r, e.tx) ==>
                         j == Key((j.chain, j.action).0, k.id, (j.chain, j.action).1);
    Tabulate((j: Key) => TxExec(e.tx, j.action, Some(r)), keys)
  }

  ghost predicate CanExec(env: Env, s: Sys, k: Key, pool: nat, used: nat, header: Header)
    requires EnvOk(env)
  {
    && k in s.pending && header.mc == k.chain && header.number >= 1 && pool < TWO64
    && WellFormed(ChainDb(s, k.chain))
    && ProcessTransaction(env, ChainDb(s, k.chain), pool, used, s.pending[k], header).Ok?
  }

  function FlowsEmitted(k: Key, r: Receipt): (n: nat) {
    if k.action == ContractDeal || k.action == SCIdleContractDeal then |r.flows| else 0
  }

  ghost function Exec(env: Env, s: Sys, k: Key, pool: nat, used: nat, header: Header): (r: Sys)
    requires EnvOk(env) && CanExec(env, s, k, pool, used, header)
  {
    var e := s.pending[k];
    var o := ProcessTransaction(env, ChainDb(s, k.chain), pool, used, e, header);
    s.(chains := s.chains[k.chain := o.db],
       pending := (s.pending - {k}) + Emitted(env, k, e, o.receipt),
       burned := s.burned + Fee(o.receipt.gasUsed, e.tx.price) + DestroyedBy(env, s, k, pool, header),
       executed := s.executed + [Key(k.chain, k.id, MarkOf(k.action))],
       steps := s.steps[k.id := (if k.id in s.steps then s.steps[k.id] else 0) + 1],
       fan := s.fan[k.id := (if k.id in s.fan then s.fan[k.id] else 0) + FlowsEmitted(k, o.receipt)])
  }

  /** The call of a deal in flight. */
  ghost function CallFor(env: Env, s: Sys, k: Key, pool: nat, header: Header): (c: Option<Call>)
    requires EnvOk(env) && k in s.pending && WellFormed(ChainDb(s, k.chain))
  {
    DealCall(env, ChainDb(s, k.chain), pool, s.pending[k], header)
  }

  /** The value contracts destroy in an action. */
  ghost function DestroyedBy(env: Env, s: Sys, k: Key, pool: nat, header: Header): (r: int)
    requires EnvOk(env) && k in s.pending && WellFormed(ChainDb(s, k.chain))
  {
    if IsDeal(k.action) then CallEffect(CallFor(env, s, k, pool, header)).lost else 0
  }

  /** A chain's state is read back for its next unit: accounts of other chains are gone, measuring starts afresh. */
  ghost predicate Reloaded(db: Db, e: Db, c: Address) {
    && WellFormed(e) && e.marks == db.marks && e.base == e.w.bal
    && (forall a :: Bal(e.w, a) == if OnChain(a, c) then Bal(db.w, a) else 0)
  }

  datatype Event =
    | SubmitStep(tx: Tx)
    | ExecStep(k: Key, pool: nat, used: nat, header: Header)
    | ReloadStep(c: Address, db: Db)

  ghost predicate Enabled(env: Env, s: Sys, st: Event)
    requires EnvOk(env)
  {
    match st
    case SubmitStep(tx) => CanSubmit(s, tx)
    case ExecStep(k, pool, used, header) => CanExec(env, s, k, pool, used, header)
    case ReloadStep(c, db) => c in s.chains && Reloaded(s.chains[c], db, c)
  }

  ghost function Do(env: Env, s: Sys, st: Event): (r: Sys)
    requires EnvOk(env) && Enabled(env, s, st)
  {
    match st
    case SubmitStep(tx) => Submit(s, tx)
    case ExecStep(k, pool, used, header) => Exec(env, s, k, pool, used, header)
    case ReloadStep(c, db) => s.(chains := s.chains[c := db])
  }

  // ---- the invariant -----------------------------------------------------------------------------------------

  predicate Front(a: TxAction) { !IsCredit(a) }

  predicate First(a: TxAction) { Front(a) && a != ContractDeal }

  /** What an action in flight is known to be. */
  predicate GoodKey(txs: map<nat, Tx>, k: Key, e: TxExec) {
    && k.id in txs && e.tx == txs[k.id] && e.tx.id == k.id && e.tx.Valid() && e.action == k.action
    && (First(k.action) ==> e.pre.None? && (k.chain, k.action) == FirstAction(e.tx))
    && (!First(k.action) ==> e.pre.Some?)
    && (k.action == ContractDeal ==>
          && k.chain.Contract? && e.tx.to.Contract? && !e.tx.IsFree()
          && (!e.tx.create ==> k.chain == e.tx.to)
          && !e.pre.value.failed && e.pre.value.gasRemaining <= e.tx.gas)
    && (k.action == TransferReceipt ==>
          k.chain == e.tx.to && e.tx.to.User? && e.tx.to != e.tx.from && !e.pre.value.failed)
    && (k.action == ContractRefund ==> k.chain == e.tx.from)
    && (k.action == ContractReceipt ==>
          && k.chain.User? && !e.pre.value.failed
          && k.chain in e.pre.value.flows && e.pre.value.flows[k.chain] > 0)
  }

  /** The marks a transaction may have while a front action of it is in flight. */
  predicate MayBeMarked(k: Key, tx: Tx, c: Address, mark: TxAction) {
    && k.action == ContractDeal
    && ((c == tx.from && mark == ContractFreeze) || (tx.create && k.chain != SC && c == SC && mark == ContractDeal))
  }

  type Chains = map<Address, Db>
  type Txs = map<nat, Tx>
  type Pending = map<Key, TxExec>

  ghost predicate ChainOk(c: Address, db: Db, txs: Txs) {
    && WellFormed(db) && (c.Contract? ==> BaseAbove(db))
    && (forall m :: m in db.marks ==> m.0 in txs)
  }

  ghost predicate ChainsOk(chains: Chains, txs: Txs) {
    forall c :: c in chains ==> ChainOk(c, chains[c], txs)
  }

  ghost predicate PendingOk(txs: Txs, pending: Pending) {
    forall k :: k in pending ==> GoodKey(txs, k, pending[k])
  }

  /** A front action is the only one of its transaction in flight. */
  ghost predicate FrontAlone(pending: Pending) {
    forall k, j :: k in pending && j in pending && k.id == j.id && Front(k.action) ==> k == j
  }

  /** What chain `c` may have marked while `k` is in flight. */
  ghost predicate MarksFit(k: Key, tx: Tx, c: Address, marks: set<Mark>) {
    forall m :: (k.id, m) in marks ==>
      && (Front(k.action) ==> MayBeMarked(k, tx, c, m))
      && !(c == k.chain && m == MarkOf(k.action))
  }

  ghost predicate MarksOk(chains: Chains, pending: Pending) {
    forall k, c :: k in pending && c in chains ==> MarksFit(k, pending[k].tx, c, chains[c].marks)
  }

  ghost predicate Inv(s: Sys) {
    && ChainsOk(s.chains, s.txs)
    && PendingOk(s.txs, s.pending)
    && FrontAlone(s.pending)
    && MarksOk(s.chains, s.pending)
  }

  // ---- what an executed action is known to have done ---------------------------------------------------------

  /** A freeze that succeeds bought gas, so its transaction is not free. */
  lemma FreezeIsPaid(env: Env, db: Db, pool: nat, used: nat, tx: Tx, header: Header)
    requires WellFormed(db) && VmOk(env.vm) && tx.Valid() && header.mc.User?
    requires ApplyFreeze(env, db, pool, used, tx, header).Ok?
    ensures !tx.IsFree()
  {
    hide DataGas, Fee, Flows;
    PreApplyPool(AddMark(db, tx.id, ContractFreeze), pool, tx, tx.gas, 0, ContractFreeze);
  }

  /** The outcome of an action in flight. */
  ghost function OutcomeOf(env: Env, s: Sys, k: Key, pool: nat, used: nat, header: Header): (o: Outcome)
    requires EnvOk(env) && CanExec(env, s, k, pool, used, header)
    ensures o.Ok? && WellFormed(o.db)
  {
    ProcessTransaction(env, ChainDb(s, k.chain), pool, used, s.pending[k], header)
  }

  lemma DealOfKey(txs: map<nat, Tx>, k: Key, e: TxExec)
    requires GoodKey(txs, k, e) && IsDeal(k.action)
    ensures DealReadyToRun(e) && k.chain.Contract?
  {
  }

  lemma EmptyIsFine()
    ensures WellFormed(EMPTY_DB) && BaseAbove(EMPTY_DB) && forall c :: OwnBalance(EMPTY_DB, c) == 0
  {
    forall c ensures OwnBalance(EMPTY_DB, c) == 0 {
      assert Owned(EMPTY_DB.w, c) == {};
    }
  }

  /** An executed deal, in terms of its receipt and its chain's balance. */
  lemma RanDeal(env: Env, s: Sys, k: Key, pool: nat, used: nat, header: Header)
    requires EnvOk(env) && Inv(s) && CanExec(env, s, k, pool, used, header) && IsDeal(k.action)
    ensures var e := s.pending[k];
            var o := OutcomeOf(env, s, k, pool, used, header);
            && WellFormed(o.db) && k.chain.Contract?
            && DealAccounted(ChainDb(s, k.chain), e.tx, Remaining(e), header,
                             EffectBy(env, ChainDb(s, k.chain), pool, e, header), o)
  {
    hide ProcessTransaction, DealAccounted, BaseAbove, OwnBalance, EffectBy;
    EmptyIsFine();
    assert k.chain in s.chains ==> ChainOk(k.chain, s.chains[k.chain], s.txs);
    DealOfKey(s.txs, k, s.pending[k]);
    DealAccount(env, ChainDb(s, k.chain), pool, used, s.pending[k], header);
  }

  /** What is put in flight is well formed: credits, or one further deal. */
  ghost predicate GoodEmission(txs: Txs, k: Key, tx: Tx, p: Pending) {
    && (forall j :: j in p ==> j.id == k.id && p[j].tx == tx && GoodKey(txs, j, p[j]))
    && (forall j :: j in p && Front(j.action) ==>
          && p.Keys == {j} && j.action == ContractDeal
          && (k.action == ContractFreeze
              || (k.action == ContractDeal && k.chain == SC && j.chain != SC && tx.create)))
    && (IsCredit(k.action) ==> p == map[])
  }

  ghost function EmittedBy(env: Env, s: Sys, k: Key, pool: nat, used: nat, header: Header): (p: Pending)
    requires EnvOk(env) && CanExec(env, s, k, pool, used, header)
  {
    Emitted(env, k, s.pending[k], OutcomeOf(env, s, k, pool, used, header).receipt)
  }

  /** Receipts of deals, as far as emission depends on them. */
  predicate DealReceiptOk(e: TxExec, k: Key, r: Receipt) {
    && r.gasRemaining <= e.tx.gas
    && (forall a :: a in r.flows ==> a.User? && r.flows[a] > 0)
    && (r.failed ==> r.flows == map[])
  }

  lemma EmissionOfDeal(env: Env, txs: Txs, k: Key, e: TxExec, r: Receipt)
    requires EnvOk(env) && GoodKey(txs, k, e) && IsDeal(k.action) && DealReceiptOk(e, k, r)
    ensures GoodEmission(txs, k, e.tx, Emitted(env, k, e, r))
  {
    hide Emitted;
    if k.action == ContractDeal && k.chain == SC && e.tx.create && !r.failed {
      EmissionOfDeploy(env, txs, k, e, r);
    } else {
      EmissionOfCredits(env, txs, k, e, r);
    }
  }

  lemma EmissionOfCredits(env: Env, txs: Txs, k: Key, e: TxExec, r: Receipt)
    requires EnvOk(env) && GoodKey(txs, k, e) && IsDeal(k.action) && DealReceiptOk(e, k, r)
    requires !(k.action == ContractDeal && k.chain == SC && e.tx.create && !r.failed)
    ensures GoodEmission(txs, k, e.tx, Emitted(env, k, e, r))
  {
    hide Emitted;
  }

  lemma EmissionOfDeploy(env: Env, txs: Txs, k: Key, e: TxExec, r: Receipt)
    requires EnvOk(env) && GoodKey(txs, k, e) && DealReceiptOk(e, k, r)
    requires k.action == ContractDeal && k.chain == SC && e.tx.create && !r.failed
    ensures GoodEmission(txs, k, e.tx, Emitted(env, k, e, r))
  {
    var p := Emitted(env, k, e, r);
    hide Emitted;
    var j := Key(env.contractOf(r.output), k.id, ContractDeal);
    assert p.Keys == {j};
  }

  lemma EmittedByDeal(env: Env, s: Sys, k: Key, pool: nat, used: nat, header: Header)
    requires EnvOk(env) && Inv(s) && CanExec(env, s, k, pool, used, header) && IsDeal(k.action)
    ensures GoodEmission(s.txs, k, s.pending[k].tx, EmittedBy(env, s, k, pool, used, header))
  {
    hide GoodEmission, ProcessTransaction, Emitted, BaseAbove, OwnBalance, NoStaleGain, Fee, SumFlow, EffectBy, Inv;
    PendingIsGood(s, k);
    RanDeal(env, s, k, pool, used, header);
    EmissionOfDeal(env, s.txs, k, s.pending[k], OutcomeOf(env, s, k, pool, used, header).receipt);
  }

  lemma EmittedByPayment(env: Env, s: Sys, k: Key, pool: nat, used: nat, header: Header)
    requires EnvOk(env) && Inv(s) && CanExec(env, s, k, pool, used, header) && k.action == TransferPayment
    ensures GoodEmission(s.txs, k, s.pending[k].tx, EmittedBy(env, s, k, pool, used, header))
  {
    hide ApplyPayment, Emitted, OwnBalance, Fee, ChainsOk, MarksOk;
    var e := s.pending[k];
    PaymentAccount(env, ChainDb(s, k.chain), pool, used, e.tx, header);
  }

  lemma EmittedByFreeze(env: Env, s: Sys, k: Key, pool: nat, used: nat, header: Header)
    requires EnvOk(env) && Inv(s) && CanExec(env, s, k, pool, used, header) && k.action == ContractFreeze
    ensures GoodEmission(s.txs, k, s.pending[k].tx, EmittedBy(env, s, k, pool, used, header))
  {
    hide ApplyFreeze, Emitted, OwnBalance, Fee, ChainsOk, MarksOk;
    var e := s.pending[k];
    FreezeAccount(env, ChainDb(s, k.chain), pool, used, e.tx, header);
    FreezeIsPaid(env, ChainDb(s, k.chain), pool, used, e.tx, header);
    var p := EmittedBy(env, s, k, pool, used, header);
    assert p.Keys == {Key(e.tx.to, k.id, ContractDeal)};
  }

  lemma EmittedGood(env: Env, s: Sys, k: Key, pool: nat, used: nat, header: Header)
    requires EnvOk(env) && Inv(s) && CanExec(env, s, k, pool, used, header)
    ensures GoodEmission(s.txs, k, s.pending[k].tx, EmittedBy(env, s, k, pool, used, header))
  {
    hide ProcessTransaction, Fee, Inv;
    if IsDeal(k.action) {
      EmittedByDeal(env, s, k, pool, used, header);
    } else if k.action == TransferPayment {
      EmittedByPayment(env, s, k, pool, used, header);
    } else if k.action == ContractFreeze {
      EmittedByFreeze(env, s, k, pool, used, header);
    } else {
      assert EmittedBy(env, s, k, pool, used, header) == map[];
    }
  }

  // ---- every step keeps the invariant ------------------------------------------------------------------------

  lemma SubmitKeepsInv(s: Sys, tx: Tx)
    requires Inv(s) && CanSubmit(s, tx)
    ensures Inv(Submit(s, tx))
  {
    hide BaseAbove, MayBeMarked, MarkOf, GoodKey, ChainOk;
    var t := Submit(s, tx);
    var (c, a) := FirstAction(tx);
    var k := Key(c, tx.id, a);
    forall d | d in t.chains
      ensures ChainOk(d, t.chains[d], t.txs) && MarksFit(k, tx, d, t.chains[d].marks)
    {
      NewTxOnChain(s, tx, k, d);
    }
    forall j | j in t.pending
      ensures GoodKey(t.txs, j, t.pending[j]) && (j != k ==> j in s.pending && j.id != k.id)
    {
      NewTxPending(s, tx, k, j);
    }
  }

  lemma NewTxOnChain(s: Sys, tx: Tx, k: Key, d: Address)
    requires Inv(s) && CanSubmit(s, tx) && d in s.chains && k.id == tx.id
    ensures ChainOk(d, s.chains[d], Submit(s, tx).txs) && MarksFit(k, tx, d, s.chains[d].marks)
  {
    hide BaseAbove, MayBeMarked, MarkOf, GoodKey;
    assert ChainOk(d, s.chains[d], s.txs);
  }

  lemma NewTxPending(s: Sys, tx: Tx, k: Key, j: Key)
    requires Inv(s) && CanSubmit(s, tx) && k == Key(FirstAction(tx).0, tx.id, FirstAction(tx).1)
    requires j in Submit(s, tx).pending
    ensures GoodKey(Submit(s, tx).txs, j, Submit(s, tx).pending[j]) && (j != k ==> j in s.pending && j.id != k.id)
  {
    hide BaseAbove, MayBeMarked, MarkOf, ChainsOk, MarksOk, FrontAlone;
    assert j != k ==> GoodKey(s.txs, j, s.pending[j]);
  }

  lemma ReloadKeepsInv(s: Sys, c: Address, db: Db)
    requires Inv(s) && c in s.chains && Reloaded(s.chains[c], db, c)
    ensures Inv(s.(chains := s.chains[c := db]))
  {
    var t := s.(chains := s.chains[c := db]);
    assert ChainOk(c, s.chains[c], s.txs);
    assert BaseAbove(db);
    forall k, d | k in t.pending && d in t.chains
      ensures MarksFit(k, t.pending[k].tx, d, t.chains[d].marks)
    {
      assert MarksFit(k, s.pending[k].tx, d, s.chains[d].marks);
    }
  }

  /** The marks fit after chain `k.chain` marked `k`, for every action then in flight. */
  lemma MarksAfter(chains: Chains, pending: Pending, k: Key, tx: Tx, p: Pending, txs: Txs, c: Address,
                   marks: set<Mark>, j: Key)
    requires k in pending && pending[k].tx == tx && FrontAlone(pending) && GoodEmission(txs, k, tx, p)
    requires GoodKey(txs, k, pending[k])
    requires j in (pending - {k}) + p
    requires MarksFit(k, tx, c, marks) && (j in pending ==> MarksFit(j, pending[j].tx, c, marks))
    ensures var after := if c == k.chain then marks + {(k.id, MarkOf(k.action))} else marks;
            MarksFit(j, ((pending - {k}) + p)[j].tx, c, after)
  {
    var q := (pending - {k}) + p;
    var after := if c == k.chain then marks + {(k.id, MarkOf(k.action))} else marks;
    if j in p {
      assert !IsCredit(k.action);
      assert q[j].tx == tx;
    } else {
      assert j in pending && j != k && q[j] == pending[j];
    }
  }

  /** Executing an action keeps the invariant, whatever the state and the emissions, as long as they are in order. */
  lemma AfterKeepsInv(chains: Chains, txs: Txs, pending: Pending, k: Key, db: Db, p: Pending)
    requires ChainsOk(chains, txs) && PendingOk(txs, pending) && FrontAlone(pending) && MarksOk(chains, pending)
    requires k in pending && GoodEmission(txs, k, pending[k].tx, p)
    requires ChainOk(k.chain, db, txs)
    requires db.marks == (if k.chain in chains then chains[k.chain].marks else {}) + {(k.id, MarkOf(k.action))}
    ensures ChainsOk(chains[k.chain := db], txs)
    ensures PendingOk(txs, (pending - {k}) + p)
    ensures FrontAlone((pending - {k}) + p)
    ensures MarksOk(chains[k.chain := db], (pending - {k}) + p)
  {
    hide GoodKey, ChainOk, MayBeMarked, MarkOf;
    assert GoodKey(txs, k, pending[k]);
    var q := (pending - {k}) + p;
    var now := chains[k.chain := db];
    forall j, c | j in q && c in now
      ensures MarksFit(j, q[j].tx, c, now[c].marks)
    {
      var marks := if c in chains then chains[c].marks else {};
      MarksAfter(chains, pending, k, pending[k].tx, p, txs, c, marks, j);
    }
  }

  lemma ExecKeepsInv(env: Env, s: Sys, k: Key, pool: nat, used: nat, header: Header)
    requires EnvOk(env) && Inv(s) && CanExec(env, s, k, pool, used, header)
    ensures Inv(Exec(env, s, k, pool, used, header))
  {
    EmittedGood(env, s, k, pool, used, header);
    RanChainOk(env, s, k, pool, used, header);
    hide ProcessTransaction, Emitted, Fee, GoodKey, ChainOk, GoodEmission, ChainsOk, PendingOk, FrontAlone, MarksOk;
    MarkedOnce(env, ChainDb(s, k.chain), pool, used, s.pending[k], header);
    AfterKeepsInv(s.chains, s.txs, s.pending, k, OutcomeOf(env, s, k, pool, used, header).db,
                  EmittedBy(env, s, k, pool, used, header));
  }

  lemma RanChainOk(env: Env, s: Sys, k: Key, pool: nat, used: nat, header: Header)
    requires EnvOk(env) && Inv(s) && CanExec(env, s, k, pool, used, header)
    ensures ChainOk(k.chain, OutcomeOf(env, s, k, pool, used, header).db, s.txs)
    ensures s.pending[k].tx.id == k.id && s.pending[k].action == k.action
  {
    assert GoodKey(s.txs, k, s.pending[k]);
    assert k.chain in s.chains ==> ChainOk(k.chain, s.chains[k.chain], s.txs);
    MarkedOnce(env, ChainDb(s, k.chain), pool, used, s.pending[k], header);
    hide ProcessTransaction, BaseAbove, OwnBalance, Fee, SumFlow, NoStaleGain, MarksOk, FrontAlone, EffectBy;
    if IsDeal(k.action) {
      RanDeal(env, s, k, pool, used, header);
    }
  }

  // ---- conservation ------------------------------------------------------------------------------------------

  /** Replacing one chain's state changes what the chains own by the change of that chain. */
  lemma OwningAfter(s: Sys, c: Address, db: Db)
    ensures Owning(s.(chains := s.chains[c := db])) == Owning(s) - OwnBalance(ChainDb(s, c), c) + OwnBalance(db, c)
  {
    var t := s.(chains := s.chains[c := db]);
    var m, n := OwnOf(s), OwnOf(t);
    EmptyIsFine();
    Pick(n, t.chains.Keys, c);
    var rest := t.chains.Keys - {c};
    if c in s.chains {
      Pick(m, s.chains.Keys, c);
      assert s.chains.Keys - {c} == rest;
    } else {
      assert s.chains.Keys == rest;
    }
    Agree(m, n, rest);
  }

  /** Taking one action out of flight and putting others in. */
  lemma FlyingAfter(pending: Pending, k: Key, p: Pending)
    requires k in pending && p.Keys !! (pending.Keys - {k})
    ensures Flying((pending - {k}) + p) == Flying(pending) - InFlight(k, pending[k]) + Flying(p)
  {
    hide InFlight;
    var q := (pending - {k}) + p;
    var rest := pending.Keys - {k};
    Pick(FlightOf(pending), pending.Keys, k);
    assert q.Keys == rest + p.Keys;
    Split(FlightOf(q), rest, p.Keys);
    Agree(FlightOf(pending), FlightOf(q), rest);
    Agree(FlightOf(p), FlightOf(q), p.Keys);
  }

  lemma FlyingOne(k: Key, e: TxExec, p: Pending)
    requires p == map[k := e]
    ensures Flying(p) == InFlight(k, e)
  {
    Pick(FlightOf(p), p.Keys, k);
    assert p.Keys - {k} == {};
  }

  /** Contract receipts carry the flows they were emitted for. */
  lemma {:induction false} FlyingReceipts(flows: map<Address, int>, s: set<Address>, p: Pending, id: nat)
    requires s <= flows.Keys
    requires p.Keys == set a | a in s :: Key(a, id, ContractReceipt)
    requires forall a :: a in s ==> InFlight(Key(a, id, ContractReceipt), p[Key(a, id, ContractReceipt)]) == flows[a]
    ensures Flying(p) == Sum(FlowOf(flows), s)
    decreases |s|
  {
    hide InFlight;
    if s == {} {
      assert p.Keys == {};
    } else {
      var a :| a in s;
      var k := Key(a, id, ContractReceipt);
      var q := p - {k};
      assert q.Keys == set b | b in s - {a} :: Key(b, id, ContractReceipt);
      FlyingReceipts(flows, s - {a}, q, id);
      Pick(FlowOf(flows), s, a);
      Pick(FlightOf(p), p.Keys, k);
      assert p.Keys - {k} == q.Keys;
      Agree(FlightOf(p), FlightOf(q), q.Keys);
    }
  }

  /** What is emitted is new: nothing else of the transaction is in flight. */
  lemma EmissionIsNew(s: Sys, k: Key, p: Pending)
    requires Inv(s) && k in s.pending && GoodEmission(s.txs, k, s.pending[k].tx, p)
    ensures p.Keys !! (s.pending.Keys - {k})
  {
    hide GoodKey;
    forall j | j in p
      ensures j !in s.pending.Keys - {k}
    {
      assert j.id == k.id && !IsCredit(k.action);
    }
  }

  /** The receivers' actions, one per flow. */
  ghost function ReceiverKeys(r: Receipt, id: nat): (s: set<Key>) {
    set a | a in r.flows :: Key(a, id, ContractReceipt)
  }

  /** What a deal puts in flight, added up. */
  ghost function DealEmits(k: Key, tx: Tx, r: Receipt): (v: int) {
    match k.action
    case PowTxContractDeal => 0
    case SCIdleContractDeal => SumFlow(r.flows)
    case _ =>
      if k.chain == SC && tx.create && !r.failed then Fee(r.gasRemaining, tx.price) + tx.value
      else RefundOf(tx, r) + SumFlow(r.flows)
  }

  lemma EmissionOfReceivers(k: Key, e: TxExec, r: Receipt, p: Pending)
    requires forall a :: a in r.flows ==> a.User?
    requires p.Keys == ReceiverKeys(r, k.id)
    requires forall j :: j in p ==> p[j] == TxExec(e.tx, j.action, Some(r))
    ensures Flying(p) == SumFlow(r.flows)
  {
    FlyingReceipts(r.flows, r.flows.Keys, p, k.id);
  }

  lemma FlyingOfDeal(env: Env, txs: Txs, k: Key, e: TxExec, r: Receipt)
    requires EnvOk(env) && GoodKey(txs, k, e) && IsDeal(k.action) && DealReceiptOk(e, k, r)
    ensures Flying(Emitted(env, k, e, r)) == DealEmits(k, e.tx, r)
  {
    var p := Emitted(env, k, e, r);
    hide Emitted, Fee, SumFlow, Flying;
    if k.action == PowTxContractDeal {
      assert p == map[];
      assert Flying(map[]) == 0 by { FlyingNothing(); }
    } else if k.action == SCIdleContractDeal {
      assert p.Keys == ReceiverKeys(r, k.id);
      EmissionOfReceivers(k, e, r, p);
    } else if k.chain == SC && e.tx.create && !r.failed {
      var j := Key(env.contractOf(r.output), k.id, ContractDeal);
      assert p == map[j := TxExec(e.tx, ContractDeal, Some(r))];
      FlyingOne(j, p[j], p);
    } else {
      FlyingOfRefund(env, txs, k, e, r);
    }
  }

  lemma FlyingOfRefund(env: Env, txs: Txs, k: Key, e: TxExec, r: Receipt)
    requires EnvOk(env) && GoodKey(txs, k, e) && k.action == ContractDeal && DealReceiptOk(e, k, r)
    requires !(k.chain == SC && e.tx.create && !r.failed)
    ensures Flying(Emitted(env, k, e, r)) == DealEmits(k, e.tx, r)
  {
    var p := Emitted(env, k, e, r);
    hide Emitted, Fee, SumFlow, Flying;
    var j := Key(e.tx.from, k.id, ContractRefund);
    var q := p - {j};
    assert q.Keys == ReceiverKeys(r, k.id);
    EmissionOfReceivers(k, e, r, q);
    var one := map[j := p[j]];
    FlyingOne(j, p[j], one);
    FlyingSplit(one, q, p);
  }

  lemma FlyingNothing()
    ensures Flying(map[]) == 0
  {
  }

  lemma FlyingSplit(p: Pending, q: Pending, r: Pending)
    requires p.Keys !! q.Keys && r == p + q
    ensures Flying(r) == Flying(p) + Flying(q)
  {
    hide InFlight;
    Split(FlightOf(r), p.Keys, q.Keys);
    assert r.Keys == p.Keys + q.Keys;
    Agree(FlightOf(p), FlightOf(r), p.Keys);
    Agree(FlightOf(q), FlightOf(r), q.Keys);
  }

  /** Deals whose flows nobody delivers: proof of work, and the first stage of a deployment. */
  predicate Silent(k: Key, tx: Tx) { k.action == PowTxContractDeal || (tx.create && k.chain == SC) }

  /** Did the machine run without an error? */
  predicate Succeeded(c: Option<Call>) { c.Some? && c.value.answer.err == NoError }

  /** Does the deal hand out what its call paid? */
  predicate HandsOut(k: Key, tx: Tx, c: Option<Call>) { Succeeded(c) && !Unpaid(c.value.answer) && !Silent(k, tx) }

  /** When a deal keeps the value. There is nothing to lose if the machine is not called or reports an error. If its
      answer cannot be paid for, or nobody delivers the flows, it must have moved nothing between users and contracts;
      otherwise no user measured from a stale base may have gained. */
  ghost predicate Sound(env: Env, s: Sys, k: Key, pool: nat, header: Header)
    requires EnvOk(env) && k in s.pending && WellFormed(ChainDb(s, k.chain))
  {
    var tx := s.pending[k].tx;
    var c := CallFor(env, s, k, pool, header);
    if !IsDeal(k.action) || !Succeeded(c) then true
    else if HandsOut(k, tx, c) then NoStaleGain(ChainDb(s, k.chain), c.value.answer.w, tx.from)
    else Moved(c.value) == 0
  }

  lemma ExecTotal(env: Env, s: Sys, k: Key, pool: nat, used: nat, header: Header)
    requires EnvOk(env) && Inv(s) && CanExec(env, s, k, pool, used, header)
    ensures var o := OutcomeOf(env, s, k, pool, used, header);
            Total(Exec(env, s, k, pool, used, header)) - Total(s)
            == OwnBalance(o.db, k.chain) - OwnBalance(ChainDb(s, k.chain), k.chain)
               + Flying(EmittedBy(env, s, k, pool, used, header)) - InFlight(k, s.pending[k])
               + Fee(o.receipt.gasUsed, s.pending[k].tx.price) + DestroyedBy(env, s, k, pool, header)
  {
    EmittedGood(env, s, k, pool, used, header);
    var p := EmittedBy(env, s, k, pool, used, header);
    EmissionIsNew(s, k, p);
    hide ProcessTransaction, Emitted, Fee, InFlight, OwnBalance, Flying, Owning, Inv, GoodEmission, DestroyedBy;
    var o := OutcomeOf(env, s, k, pool, used, header);
    var t := Exec(env, s, k, pool, used, header);
    OwningAfter(s, k.chain, o.db);
    assert Owning(t) == Owning(s.(chains := s.chains[k.chain := o.db])) by {
      OwningDependsOnChains(t, s.(chains := s.chains[k.chain := o.db]));
    }
    FlyingAfter(s.pending, k, p);
  }

  lemma OwningDependsOnChains(s: Sys, t: Sys)
    requires s.chains == t.chains
    ensures Owning(s) == Owning(t)
  {
    Agree(OwnOf(s), OwnOf(t), s.chains.Keys);
  }

  /** What a deal changes outside its chain: what it emits and burns against what it carried. */
  lemma DealOutside(txs: Txs, k: Key, e: TxExec, r: Receipt, header: Header)
    requires GoodKey(txs, k, e) && IsDeal(k.action) && header.mc == k.chain
    requires Fee(r.gasUsed, e.tx.price) + Fee(r.gasRemaining, e.tx.price) == Fee(Remaining(e), e.tx.price)
    requires !Delivers(e.tx, r, header) ==> r.flows == map[]
    ensures DealEmits(k, e.tx, r) - InFlight(k, e) + Fee(r.gasUsed, e.tx.price)
         == if Delivers(e.tx, r, header) && k.action != PowTxContractDeal then SumFlow(r.flows) - e.tx.value else 0
  {
    hide Fee, SumFlow;
    NoFlowsNoSum(r);
    FeeAtNoPrice(r.gasUsed);
  }

  /** An executed deal, in terms of its call. */
  lemma RanByCall(env: Env, s: Sys, k: Key, pool: nat, used: nat, header: Header)
    requires EnvOk(env) && Inv(s) && CanExec(env, s, k, pool, used, header) && IsDeal(k.action)
    ensures var e := s.pending[k];
            ByCall(ChainDb(s, k.chain), e.tx.from, CallValue(e.tx, header), CallFor(env, s, k, pool, header),
                   EffectBy(env, ChainDb(s, k.chain), pool, e, header), OutcomeOf(env, s, k, pool, used, header))
  {
    hide ProcessTransaction, ByCall, EffectBy, Inv, GoodKey, EnvOk, DealCall;
    PendingIsGood(s, k);
    DealOfKey(s.txs, k, s.pending[k]);
    DealByCall(env, ChainDb(s, k.chain), pool, used, s.pending[k], header);
  }

  lemma PendingIsGood(s: Sys, k: Key)
    requires Inv(s) && k in s.pending
    ensures GoodKey(s.txs, k, s.pending[k])
  {
  }

  /** What a deal does to the total: handing out never adds; anything else adds what its call took from users. */
  lemma DealChanges(env: Env, s: Sys, k: Key, pool: nat, used: nat, header: Header)
    requires EnvOk(env) && Inv(s) && CanExec(env, s, k, pool, used, header) && IsDeal(k.action)
    ensures var c := CallFor(env, s, k, pool, header);
            var tx := s.pending[k].tx;
            var t := Exec(env, s, k, pool, used, header);
            if HandsOut(k, tx, c) then
              && Total(t) <= Total(s)
              && (Total(t) == Total(s) <==> NoStaleGain(ChainDb(s, k.chain), c.value.answer.w, tx.from))
            else Total(t) == Total(s) + CallEffect(c).kept
  {
    hide ProcessTransaction, Emitted, OwnBalance, NoStaleGain, BaseAbove, Fee, SumFlow, Flying, Exec, Total, EffectBy,
      RunMoves, CallEffect, DealCall;
    var e := s.pending[k];
    assert GoodKey(s.txs, k, e);
    RanDeal(env, s, k, pool, used, header);
    RanByCall(env, s, k, pool, used, header);
    ExecTotal(env, s, k, pool, used, header);
    var o := OutcomeOf(env, s, k, pool, used, header);
    assert header.mc == k.chain && DealReceiptOk(e, k, o.receipt);
    hide OutcomeOf, Inv, CanExec, InFlight, DealEmits, GoodKey, Unpaid, CallFor;
    FlyingOfDeal(env, s.txs, k, e, o.receipt);
    DealOutside(s.txs, k, e, o.receipt, header);
  }

  /** A deal keeps the total value if and only if it is sound. */
  lemma DealConservesIff(env: Env, s: Sys, k: Key, pool: nat, used: nat, header: Header)
    requires EnvOk(env) && Inv(s) && CanExec(env, s, k, pool, used, header) && IsDeal(k.action)
    ensures Total(Exec(env, s, k, pool, used, header)) == Total(s) <==> Sound(env, s, k, pool, header)
  {
    hide Exec, Total, Inv, CanExec, CallFor, NoStaleGain, Moved, Unpaid;
    DealChanges(env, s, k, pool, used, header);
  }

  lemma NoFlowsNoSum(r: Receipt)
    ensures r.flows == map[] ==> SumFlow(r.flows) == 0
  {
  }

  /** Every user is measured from the balance it has, as on a state just read from the store. */
  ghost predicate Measured(db: Db) { forall a: Address :: a.User? ==> Base(db, a) == Bal(db.w, a) }

  lemma ReloadedIsMeasured(db: Db, e: Db, c: Address)
    requires Reloaded(db, e, c)
    ensures Measured(e)
  {
  }

  /** Every other action keeps the total value. */
  lemma OtherActionsConserve(env: Env, s: Sys, k: Key, pool: nat, used: nat, header: Header)
    requires EnvOk(env) && Inv(s) && CanExec(env, s, k, pool, used, header) && !IsDeal(k.action)
    ensures Total(Exec(env, s, k, pool, used, header)) == Total(s)
  {
    hide GoodKey, ProcessTransaction, MarkOf, EnvOk, Exec, Total, OutcomeOf, EmittedBy, OwnBalance, Inv, Flying, Fee,
         InFlight;
    PendingIsGood(s, k);
    ExecTotal(env, s, k, pool, used, header);
    if IsCredit(k.action) {
      CreditConserves(env, s, k, pool, used, header);
    } else if k.action == TransferPayment {
      PaymentConserves(env, s, k, pool, used, header);
    } else {
      FreezeConserves(env, s, k, pool, used, header);
    }
  }

  lemma CreditConserves(env: Env, s: Sys, k: Key, pool: nat, used: nat, header: Header)
    requires EnvOk(env) && CanExec(env, s, k, pool, used, header) && IsCredit(k.action)
    requires GoodKey(s.txs, k, s.pending[k])
    ensures var o := OutcomeOf(env, s, k, pool, used, header);
            OwnBalance(o.db, k.chain) - OwnBalance(ChainDb(s, k.chain), k.chain)
            + Flying(EmittedBy(env, s, k, pool, used, header)) - InFlight(k, s.pending[k])
            + Fee(o.receipt.gasUsed, s.pending[k].tx.price) == 0
  {
    CreditAccount(env, ChainDb(s, k.chain), pool, used, s.pending[k], header);
    hide ProcessTransaction, Emitted, OwnBalance;
    assert EmittedBy(env, s, k, pool, used, header) == map[];
    FlyingNothing();
  }

  lemma PaymentConserves(env: Env, s: Sys, k: Key, pool: nat, used: nat, header: Header)
    requires EnvOk(env) && CanExec(env, s, k, pool, used, header) && k.action == TransferPayment
    requires GoodKey(s.txs, k, s.pending[k])
    ensures var o := OutcomeOf(env, s, k, pool, used, header);
            OwnBalance(o.db, k.chain) - OwnBalance(ChainDb(s, k.chain), k.chain)
            + Flying(EmittedBy(env, s, k, pool, used, header)) - InFlight(k, s.pending[k])
            + Fee(o.receipt.gasUsed, s.pending[k].tx.price) == 0
  {
    hide ApplyPayment, Emitted, OwnBalance, Fee, Flying;
    var e := s.pending[k];
    PaymentAccount(env, ChainDb(s, k.chain), pool, used, e.tx, header);
    var p := EmittedBy(env, s, k, pool, used, header);
    if e.tx.to == e.tx.from {
      assert p == map[];
      FlyingNothing();
    } else {
      var j := Key(e.tx.to, k.id, TransferReceipt);
      assert p.Keys == {j};
      FlyingOne(j, p[j], p);
    }
  }

  lemma FreezeConserves(env: Env, s: Sys, k: Key, pool: nat, used: nat, header: Header)
    requires EnvOk(env) && CanExec(env, s, k, pool, used, header) && k.action == ContractFreeze
    requires GoodKey(s.txs, k, s.pending[k])
    ensures var o := OutcomeOf(env, s, k, pool, used, header);
            OwnBalance(o.db, k.chain) - OwnBalance(ChainDb(s, k.chain), k.chain)
            + Flying(EmittedBy(env, s, k, pool, used, header)) - InFlight(k, s.pending[k])
            + Fee(o.receipt.gasUsed, s.pending[k].tx.price) == 0
  {
    hide ApplyFreeze, Emitted, OwnBalance, Fee, Flying;
    var e := s.pending[k];
    FreezeAccount(env, ChainDb(s, k.chain), pool, used, e.tx, header);
    var r := OutcomeOf(env, s, k, pool, used, header).receipt;
    FeeSplit(r.gasUsed, r.gasRemaining, e.tx.price);
    var p := EmittedBy(env, s, k, pool, used, header);
    var j := Key(e.tx.to, k.id, ContractDeal);
    assert p.Keys == {j};
    FlyingOne(j, p[j], p);
  }

  // ---- deployments --------------------------------------------------------------------------------------------------

  /** Once the first stage of a deployment succeeded and its output is paid for, the one action of the transaction in
      flight is the second stage, on the chain of the contract that output names. */
  lemma DeploymentContinues(env: Env, s: Sys, k: Key, pool: nat, used: nat, header: Header)
    requires EnvOk(env) && Inv(s) && CanExec(env, s, k, pool, used, header)
    requires k.action == ContractDeal && k.chain == SC && s.pending[k].tx.create
    requires var c := CallFor(env, s, k, pool, header); Succeeded(c) && !Unpaid(c.value.answer)
    ensures var t := Exec(env, s, k, pool, used, header);
            var j := Key(env.contractOf(CallFor(env, s, k, pool, header).value.answer.ret), k.id, ContractDeal);
            && (forall i :: i in t.pending && i.id == k.id <==> i == j)
            && t.pending[j].tx == s.pending[k].tx && t.pending[j].action == ContractDeal
            && t.pending[j].pre == Some(OutcomeOf(env, s, k, pool, used, header).receipt)
            && !OutcomeOf(env, s, k, pool, used, header).receipt.failed
  {
    hide Exec, EnvOk, CallFor, Unpaid, Inv, Emitted, OutcomeOf, ByCall, ProcessTransaction, EffectBy;
    RanByCall(env, s, k, pool, used, header);
    AloneInFlight(s, k);
    var c := CallFor(env, s, k, pool, header);
    var o := OutcomeOf(env, s, k, pool, used, header);
    OutputOfCall(ChainDb(s, k.chain), s.pending[k].tx, header, c, EffectBy(env, ChainDb(s, k.chain), pool, s.pending[k],
                                                                          header), o);
    ExecPending(env, s, k, pool, used, header);
    DeployEmits(env, k, s.pending[k], o.receipt);
  }

  lemma OutputOfCall(db: Db, tx: Tx, header: Header, c: Option<Call>, e: Effect, o: Outcome)
    requires o.Ok? && ByCall(db, tx.from, CallValue(tx, header), c, e, o) && Succeeded(c) && !Unpaid(c.value.answer)
    ensures !o.receipt.failed && o.receipt.output == c.value.answer.ret
  {
    hide RunMoves, CallEffect, Unpaid, NoStaleGain;
  }

  lemma ExecPending(env: Env, s: Sys, k: Key, pool: nat, used: nat, header: Header)
    requires EnvOk(env) && CanExec(env, s, k, pool, used, header)
    ensures Exec(env, s, k, pool, used, header).pending
         == (s.pending - {k}) + Emitted(env, k, s.pending[k], OutcomeOf(env, s, k, pool, used, header).receipt)
  {
    hide ProcessTransaction, Emitted, EnvOk, Fee, DestroyedBy;
  }

  lemma DeployEmits(env: Env, k: Key, e: TxExec, r: Receipt)
    requires k.action == ContractDeal && k.chain == SC && e.tx.create && !r.failed
    ensures Emitted(env, k, e, r)
         == map[Key(env.contractOf(r.output), k.id, ContractDeal) := TxExec(e.tx, ContractDeal, Some(r))]
  {
    var p := Emitted(env, k, e, r);
    hide Emitted;
    var j := Key(env.contractOf(r.output), k.id, ContractDeal);
    assert p.Keys == {j};
  }

  lemma AloneInFlight(s: Sys, k: Key)
    requires Inv(s) && k in s.pending && Front(k.action)
    ensures forall j :: j in s.pending && j.id == k.id ==> j == k
  {
    hide ChainsOk, MarksOk, PendingOk;
  }
}
