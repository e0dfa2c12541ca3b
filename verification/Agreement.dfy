/** Replaying a unit, whatever the miner's failed messages left behind: only the measuring bases can differ between the
    miner's and the validator's state, and only coin flows can show it. */
module Agreement {
  import opened Options
  import opened Ledger
  import opened Transition
  import opened Processor
  import opened GasLaws
  import opened Conservation
  import opened Mining

  // ---- execution does not read the measuring bases ------------------------------------------------------------------

  /** The same state but for the measuring bases. */
  predicate Like(d: Db, e: Db) { WellFormed(d) && WellFormed(e) && d.w == e.w && d.marks == e.marks }

  /** Steps that leave the same, but for the bases, or fail alike. */
  predicate LikeStep<T(==)>(s: Step<T>, t: Step<T>) {
    && s.pool == t.pool
    && if s.Fine? then t.Fine? && s.value == t.value && Like(s.db, t.db) else t.Fail? && s.error == t.error
  }

  lemma LikeFacts(d: Db, e: Db)
    requires Like(d, e)
    ensures WellFormed(d) && WellFormed(e) && d.w == e.w
  {
  }

  lemma TouchLike(d: Db, e: Db, a: Address)
    requires Like(d, e)
    ensures Like(Touch(d, a), Touch(e, a))
  {
  }

  lemma SetLike(d: Db, e: Db, a: Address, v: nat)
    requires Like(d, e)
    ensures Like(SetBalance(d, a, v), SetBalance(e, a, v))
  {
  }

  lemma AddLike(d: Db, e: Db, a: Address, v: nat)
    requires Like(d, e)
    ensures Like(AddBalance(d, a, v), AddBalance(e, a, v))
  {
    hide SetBalance, Bal;
    SetLike(d, e, a, Bal(d.w, a) + v);
  }

  lemma SubLike(d: Db, e: Db, a: Address, v: nat)
    requires Like(d, e) && v <= Bal(d.w, a)
    ensures Like(SubBalance(d, a, v), SubBalance(e, a, v))
  {
    hide SetBalance, Bal;
    SetLike(d, e, a, Bal(d.w, a) - v);
  }

  lemma BuyGasLike(d: Db, e: Db, pool: nat, tx: Tx, gas: u64, free: u64)
    requires Like(d, e)
    ensures LikeStep(BuyGas(d, pool, tx, gas, free), BuyGas(e, pool, tx, gas, free))
  {
    hide Touch, SubBalance, BuyCost, Fee, SubGas, Like, Bal, WellFormed;
    LikeFacts(d, e);
    TouchLike(d, e, tx.from);
    var d1, e1 := Touch(d, tx.from), Touch(e, tx.from);
    LikeFacts(d1, e1);
    if Bal(d1.w, tx.from) >= BuyCost(gas, tx.price, free) {
      SubLike(d1, e1, tx.from, BuyCost(gas, tx.price, free));
    }
  }

  lemma PreApplyLike(d: Db, e: Db, pool: nat, tx: Tx, gas: u64, free: u64, action: TxAction)
    requires Like(d, e)
    ensures LikeStep(PreApply(d, pool, tx, gas, free, action), PreApply(e, pool, tx, gas, free, action))
  {
    hide BuyGas, IntrinsicGas, Like;
    LikeFacts(d, e);
    BuyGasLike(d, e, pool, tx, gas, free);
  }

  /** Runs that leave the same, but for the bases. */
  predicate LikeRan(r: Ran, s: Ran) { Like(r.db, s.db) && r.gas == s.gas && r.ret == s.ret && r.err == s.err }

  lemma RunLike(env: Env, d: Db, e: Db, tx: Tx, gas: u64, action: TxAction, header: Header)
    requires Like(d, e) && tx.from in d.w.bal
    ensures LikeRan(Run(env, d, tx, gas, action, header), Run(env, e, tx, gas, action, header))
  {
    hide Run, Like;
    if tx.to.Contract? {
      CallLike(env, d, e, tx, gas, action, header);
    } else {
      TransferLike(env, d, e, tx, gas, action, header);
    }
  }

  lemma CallLike(env: Env, d: Db, e: Db, tx: Tx, gas: u64, action: TxAction, header: Header)
    requires Like(d, e) && tx.from in d.w.bal && tx.to.Contract?
    ensures LikeRan(Run(env, d, tx, gas, action, header), Run(env, e, tx, gas, action, header))
  {
    hide Run, WithWorld, CallOf;
    RunIsCall(env, d, tx, gas, action, header);
    RunIsCall(env, e, tx, gas, action, header);
    AtCallLike(d, e, tx, action, header);
  }

  /** The state in which a message is marked and counted. */
  function Counted(db: Db, tx: Tx, action: TxAction, header: Header): (r: Db)
    requires WellFormed(db)
    ensures WellFormed(r)
  {
    var db1 := AddMark(db, tx.id, action);
    if tx.create && header.mc != SC && header.number == 1 then db1 else BumpNonce(db1, header.mc)
  }

  lemma CountedLike(d: Db, e: Db, tx: Tx, action: TxAction, header: Header)
    requires Like(d, e)
    ensures Like(Counted(d, tx, action, header), Counted(e, tx, action, header))
  {
  }

  lemma AtCallLike(d: Db, e: Db, tx: Tx, action: TxAction, header: Header)
    requires Like(d, e)
    ensures Like(AtCall(d, tx, action, header), AtCall(e, tx, action, header))
  {
    hide Touch, BumpNonce, Like, WellFormed, Bal, Base;
    LikeFacts(d, e);
    CountedLike(d, e, tx, action, header);
    TouchLike(Counted(d, tx, action, header), Counted(e, tx, action, header), tx.to);
  }

  lemma TransferLike(env: Env, d: Db, e: Db, tx: Tx, gas: u64, action: TxAction, header: Header)
    requires Like(d, e) && tx.from in d.w.bal && tx.to.User?
    ensures LikeRan(Run(env, d, tx, gas, action, header), Run(env, e, tx, gas, action, header))
  {
    hide AddBalance, SubBalance, Touch, CallOf, WithWorld, Like, Bal, BumpNonce, WellFormed;
    LikeFacts(d, e);
    CountedLike(d, e, tx, action, header);
    var d2, e2 := Counted(d, tx, action, header), Counted(e, tx, action, header);
    LikeFacts(d2, e2);
    if Bal(d2.w, tx.from) >= tx.value {
      MoveLike(d2, e2, tx.from, tx.to, tx.value);
    }
  }

  lemma MoveLike(d: Db, e: Db, from: Address, to: Address, v: nat)
    requires Like(d, e) && v <= Bal(d.w, from)
    ensures Like(AddBalance(SubBalance(Touch(d, to), from, v), to, v),
                 AddBalance(SubBalance(Touch(e, to), from, v), to, v))
  {
    hide AddBalance, SubBalance, Touch, Like, Bal, WellFormed;
    LikeFacts(d, e);
    TouchLike(d, e, to);
    var d1, e1 := Touch(d, to), Touch(e, to);
    LikeFacts(d1, e1);
    SubLike(d1, e1, from, v);
    AddLike(SubBalance(d1, from, v), SubBalance(e1, from, v), to, v);
  }

  lemma FinishLike(vm: bool, r: Ran, s: Ran, pool: nat, tx: Tx, bought: u64, free: u64)
    requires LikeRan(r, s) && r.gas <= bought
    ensures LikeStep(Finish(vm, r, pool, tx, bought, free), Finish(vm, s, pool, tx, bought, free))
  {
    hide AddBalance, StorageRefund, RefundValue, PayOutput, Like, Bal, WellFormed;
    LikeFacts(r.db, s.db);
    SamePay(r, s);
    var rest := PayOutput(r).0;
    var used: u64 := bought - rest - StorageRefund(r.db.w, bought - rest, vm);
    AddLike(r.db, s.db, tx.from, RefundValue(bought, free, used, tx.price));
  }

  lemma SamePay(r: Ran, s: Ran)
    requires LikeRan(r, s)
    ensures PayOutput(r) == PayOutput(s)
  {
  }

  /** A message leaves the same accounts, gas and output whatever the bases. */
  lemma MessageLike(env: Env, vm: bool, d: Db, e: Db, pool: nat, tx: Tx, gas: u64, action: TxAction, header: Header)
    requires Like(d, e) && VmOk(env.vm)
    ensures LikeStep(ApplyMessage(env, vm, d, pool, tx, gas, action, header),
                     ApplyMessage(env, vm, e, pool, tx, gas, action, header))
  {
    hide PreApply, Run, FreeGas, VmOk, Finish, Touch, Like, Bal, WellFormed, RunOf;
    LikeFacts(d, e);
    var free := FreeAt(vm, tx, header);
    PreApplyLike(d, e, pool, tx, gas, free, action);
    var p, q := PreApply(d, pool, tx, gas, free, action), PreApply(e, pool, tx, gas, free, action);
    if p.Fine? {
      TouchLike(p.db, q.db, tx.from);
      var d1, e1 := Touch(p.db, tx.from), Touch(q.db, tx.from);
      LikeFacts(p.db, q.db);
      LikeFacts(d1, e1);
      RunGas(env, d1, tx, p.value.0, action, header);
      RunLike(env, d1, e1, tx, p.value.0, action, header);
      FinishLike(vm, Run(env, d1, tx, p.value.0, action, header), Run(env, e1, tx, p.value.0, action, header), p.pool, tx,
                 p.value.1, free);
    }
  }

  // ---- what the flows show ------------------------------------------------------------------------------------------

  /** An account that ends up with `v` shows the same flow measured from either base. */
  predicate Unseen(b: nat, c: nat, v: nat) { b == c || (v <= b && v <= c) }

  /** Every user but the one kept in the flows shows the same flow. */
  ghost predicate AllUnseen(d: Db, e: Db, w: World, keep: Option<Address>) {
    forall a: Address :: a.User? && keep != Some(a) ==> Unseen(Base(d, a), Base(e, a), Bal(w, a))
  }

  lemma FlowsIff(d: Db, e: Db, t: Db, u: Db, keep: Option<Address>)
    requires Like(t, u) && forall a :: keep != Some(a) ==> Base(t, a) == Base(d, a) && Base(u, a) == Base(e, a)
    requires keep.Some? ==> Base(t, keep.value) == Base(u, keep.value)
    ensures Flows(t, keep) == Flows(u, keep) <==> AllUnseen(d, e, t.w, keep)
  {
    hide Flows;
    FlowsAre(t, keep);
    FlowsAre(u, keep);
    var f, g := Flows(t, keep), Flows(u, keep);
    if AllUnseen(d, e, t.w, keep) {
      assert f == g;
    } else {
      var a: Address :| a.User? && keep != Some(a) && !Unseen(Base(d, a), Base(e, a), Bal(t.w, a));
      assert (a in f) != (a in g) || f[a] != g[a];
    }
  }

  lemma SenderFlowIff(f: map<Address, int>, g: map<Address, int>, tx: Tx, gas: u64)
    requires tx.from in f <==> tx.from in g
    requires tx.from in f ==> f[tx.from] == g[tx.from]
    ensures SenderFlow(f, tx, gas) == SenderFlow(g, tx, gas) <==> f == g
  {
    hide Fee;
    var x, y := SenderFlow(f, tx, gas), SenderFlow(g, tx, gas);
    assert forall a :: a != tx.from ==> (a in x <==> a in f) && (a in x ==> x[a] == f[a]);
    assert forall a :: a != tx.from ==> (a in y <==> a in g) && (a in y ==> y[a] == g[a]);
    if x == y {
      assert f == g;
    }
  }

  /** Outcomes that differ in the flows at most: success leaves the same state, with the same bases. */
  predicate LikeOutcome(o: Outcome, p: Outcome) {
    && o.pool == p.pool
    && if o.Ok? then p.Ok? && p.db == o.db && p.receipt == o.receipt.(flows := p.receipt.flows)
       else p.Err? && p.error == o.error
  }

  /** Does the receipt hide the difference between the bases: no flows, or none that differ? */
  ghost predicate Hides(d: Db, e: Db, o: Outcome, x: TxExec, header: Header)
    requires o.Ok?
  {
    || o.receipt.failed || (IsDeal(x.action) && x.tx.create && header.mc == SC)
    || AllUnseen(d, e, o.db.w, if IsDeal(x.action) then Some(x.tx.from) else None)
  }

  /** What the bases can change of an outcome: nothing but flows, and those exactly if the receipt does not hide it. */
  ghost predicate Blind(d: Db, e: Db, o: Outcome, p: Outcome, x: TxExec, header: Header) {
    LikeOutcome(o, p) && (o.Ok? ==> (p.receipt == o.receipt <==> Hides(d, e, o, x, header)))
  }

  lemma SameBases(d: Db, e: Db)
    requires KeepsBase(d, e)
    ensures forall a :: Base(e, a) == Base(d, a)
  {
  }

  lemma RebaseLike(t: Db, u: Db)
    requires Like(t, u)
    ensures Rebase(t) == Rebase(u)
  {
  }

  lemma ReceiptLike(d: Db, e: Db, t: Db, u: Db, action: TxAction, failed: bool, remaining: u64, used: nat, gas: u64,
                    output: seq<nat>)
    requires Like(t, u) && KeepsBase(d, t) && KeepsBase(e, u)
    ensures var r := CreateReceipt(t, action, failed, remaining, used, gas, output, None);
            var s := CreateReceipt(u, action, failed, remaining, used, gas, output, None);
            s == r.(flows := s.flows) && (s == r <==> failed || AllUnseen(d, e, t.w, None))
  {
    hide Flows, AllUnseen, KeepsBase, Base;
    SameBases(d, t);
    SameBases(e, u);
    FlowsIff(d, e, t, u, None);
  }

  lemma CloseLike(d: Db, e: Db, t: Db, u: Db, pool: nat, used: nat, tx: Tx, a: Applied, remaining: u64, refund: u64,
                  header: Header)
    requires Like(t, u) && Base(t, tx.from) == Base(u, tx.from)
    requires forall b :: b != tx.from ==> Base(t, b) == Base(d, b) && Base(u, b) == Base(e, b)
    ensures var o := CloseDeal(t, pool, used, tx, a, remaining, refund, header);
            var p := CloseDeal(u, pool, used, tx, a, remaining, refund, header);
            && LikeOutcome(o, p)
            && (o.Ok? ==>
                  (p.receipt == o.receipt
                   <==> a.failed || (tx.create && header.mc == SC) || AllUnseen(d, e, o.db.w, Some(tx.from)))
                  && o.receipt.failed == a.failed)
  {
    hide Flows, AllUnseen, Base, SenderFlow, SetBalance, Rebase, ForceSafeSub, Like;
    LikeFacts(t, u);
    RebaseLike(t, u);
    FlowsIff(d, e, t, u, Some(tx.from));
    FlowsOfSender(t, u, tx.from);
    var charged: u64 := if a.failed then (a.gasUsed + refund) % TWO64 else a.gasUsed;
    SenderFlowIff(Flows(t, Some(tx.from)), Flows(u, Some(tx.from)), tx, charged);
    UnseenAfter(d, e, t, tx.from);
  }

  lemma FlowsOfSender(t: Db, u: Db, from: Address)
    requires Like(t, u) && Base(t, from) == Base(u, from)
    ensures var f, g := Flows(t, Some(from)), Flows(u, Some(from));
            (from in f <==> from in g) && (from in f ==> f[from] == g[from])
  {
    FlowsAre(t, Some(from));
    FlowsAre(u, Some(from));
  }

  lemma UnseenAfter(d: Db, e: Db, t: Db, from: Address)
    requires WellFormed(t)
    ensures AllUnseen(d, e, SetBalance(Rebase(t), from, 0).w, Some(from)) <==> AllUnseen(d, e, t.w, Some(from))
  {
    var r := SetBalance(Rebase(t), from, 0);
    assert forall a :: a != from ==> Bal(r.w, a) == Bal(t.w, a);
  }

  lemma FundedLike(d: Db, e: Db, from: Address, amount: nat)
    requires Like(d, e)
    ensures var f, g := Funded(d, from, amount), Funded(e, from, amount);
            && Like(f, g) && Base(f, from) == amount == Base(g, from)
            && forall a :: a != from ==> Base(f, a) == Base(d, a) && Base(g, a) == Base(e, a)
  {
    hide AddBalance, SetBalance;
    SetLike(d, e, from, 0);
    AddLike(SetBalance(d, from, 0), SetBalance(e, from, 0), from, amount);
  }

  lemma RunDealLike(env: Env, d: Db, e: Db, pool: nat, used: nat, tx: Tx, gas: u64, remaining: u64, refund: u64,
                    first: bool, header: Header)
    requires Like(d, e) && VmOk(env.vm)
    ensures var o := RunDeal(env, d, pool, used, tx, gas, remaining, refund, first, header);
            var p := RunDeal(env, e, pool, used, tx, gas, remaining, refund, first, header);
            && LikeOutcome(o, p)
            && (o.Ok? ==>
                  (p.receipt == o.receipt
                   <==> o.receipt.failed || (tx.create && header.mc == SC) || AllUnseen(d, e, o.db.w, Some(tx.from))))
  {
    hide ApplyMessage, CloseDeal, Funded, Fee, AllUnseen, Like, KeepsBase, Base, VmOk;
    LikeFacts(d, e);
    var amount := Fee(remaining, tx.price) + tx.value;
    FundedLike(d, e, tx.from, amount);
    var f, g := Funded(d, tx.from, amount), Funded(e, tx.from, amount);
    LikeFacts(f, g);
    MessageLike(env, true, f, g, pool, tx, gas, ContractDeal, header);
    var t := ApplyMessage(env, true, f, pool, tx, gas, ContractDeal, header);
    var u := ApplyMessage(env, true, g, pool, tx, gas, ContractDeal, header);
    if t.Fine? {
      MessageBase(env, true, f, pool, tx, gas, ContractDeal, header);
      MessageBase(env, true, g, pool, tx, gas, ContractDeal, header);
      SameBases(f, t.db);
      SameBases(g, u.db);
      CloseLike(d, e, t.db, u.db, t.pool, used, tx, t.value, remaining, refund, header);
    }
  }

  lemma FailedRehearsalLike(d: Db, e: Db, pool: nat, used: nat, remaining: u64, n: Outcome)
    requires Like(d, e) && (n.Ok? ==> n.receipt.failed)
    ensures var o, p := FailedRehearsal(d, pool, used, remaining, n), FailedRehearsal(e, pool, used, remaining, n);
            LikeOutcome(o, p) && (o.Ok? ==> o.receipt == p.receipt && o.receipt.failed)
  {
    hide Flows;
    RebaseLike(d, e);
  }

  lemma ApplyDealLike(env: Env, d: Db, e: Db, pool: nat, used: nat, tx: Tx, gas: u64, remaining: u64, idle: bool,
                      first: bool, header: Header)
    requires Like(d, e) && EnvOk(env)
    ensures var o := ApplyDeal(env, d, pool, used, tx, gas, remaining, idle, first, header);
            var p := ApplyDeal(env, e, pool, used, tx, gas, remaining, idle, first, header);
            && LikeOutcome(o, p)
            && (o.Ok? ==>
                  (p.receipt == o.receipt
                   <==> o.receipt.failed || (tx.create && header.mc == SC) || AllUnseen(d, e, o.db.w, Some(tx.from))))
  {
    hide RunDeal, Fee, RehearsalDb, Nonce, FailedRehearsal, AllUnseen, VmOk, Like;
    LikeFacts(d, e);
    if !(tx.create && header.mc == SC) {
      RunDealLike(env, d, e, pool, used, tx, gas, remaining, 0, first, header);
    } else {
      var h := Header(env.newContract(Nonce(d.w, header.mc)), 1, 0, 0);
      var n := ApplyDeal(env, RehearsalDb(env, tx.from, Fee(remaining, tx.price) + tx.value), pool, 0, tx, gas,
                         remaining, idle, first, h);
      if n.Err? || n.receipt.failed {
        FailedRehearsalLike(d, e, pool, used, remaining, n);
      } else {
        RunDealLike(env, d, e, n.pool, used, tx, ForceSafeSub(gas, n.receipt.gasUsed), remaining, n.receipt.gasUsed,
                    first, header);
      }
    }
  }

  lemma MarkLike(d: Db, e: Db, id: nat, action: TxAction, w: World, keep: Option<Address>)
    requires Like(d, e)
    ensures Like(AddMark(d, id, action), AddMark(e, id, action))
    ensures AllUnseen(AddMark(d, id, action), AddMark(e, id, action), w, keep) <==> AllUnseen(d, e, w, keep)
    ensures KeepsBase(d, AddMark(d, id, action)) && KeepsBase(e, AddMark(e, id, action))
  {
    assert forall a :: Base(AddMark(d, id, action), a) == Base(d, a) && Base(AddMark(e, id, action), a) == Base(e, a);
  }

  lemma ToContractLike(env: Env, d: Db, e: Db, pool: nat, used: nat, x: TxExec, header: Header)
    requires Like(d, e) && EnvOk(env) && IsDeal(x.action)
    ensures Blind(d, e, ApplyToContract(env, d, pool, used, x, header), ApplyToContract(env, e, pool, used, x, header), x,
                  header)
  {
    hide ApplyDeal, AllUnseen, EnvOk;
    var d1, e1 := AddMark(d, x.tx.id, ContractDeal), AddMark(e, x.tx.id, ContractDeal);
    var o := ApplyToContract(env, d, pool, used, x, header);
    MarkLike(d, e, x.tx.id, ContractDeal, o.db.w, Some(x.tx.from));
    ApplyDealLike(env, d1, e1, pool, used, x.tx, Remaining(x), Remaining(x), x.action == SCIdleContractDeal, x.pre.None?,
                  header);
  }

  lemma PaymentLike(env: Env, d: Db, e: Db, pool: nat, used: nat, x: TxExec, header: Header)
    requires Like(d, e) && EnvOk(env) && x.action == TransferPayment
    ensures Blind(d, e, ApplyPayment(env, d, pool, used, x.tx, header), ApplyPayment(env, e, pool, used, x.tx, header), x,
                  header)
  {
    hide ApplyMessage, AllUnseen, CreateReceipt, KeepsBase, Rebase, VmOk;
    MessageLike(env, false, d, e, pool, x.tx, x.tx.gas, TransferPayment, header);
    MessageBase(env, false, d, pool, x.tx, x.tx.gas, TransferPayment, header);
    MessageBase(env, false, e, pool, x.tx, x.tx.gas, TransferPayment, header);
    var t := ApplyMessage(env, false, d, pool, x.tx, x.tx.gas, TransferPayment, header);
    var u := ApplyMessage(env, false, e, pool, x.tx, x.tx.gas, TransferPayment, header);
    if t.Fine? {
      ReceiptLike(d, e, t.db, u.db, TransferPayment, t.value.failed, x.tx.gas, used, t.value.gasUsed, t.value.output);
      RebaseLike(t.db, u.db);
      RebaseKeepsWorld(t.db);
      ReceiptFailed(t.db, TransferPayment, t.value.failed, x.tx.gas, used, t.value.gasUsed, t.value.output);
    }
  }

  lemma RebaseKeepsWorld(db: Db)
    requires WellFormed(db)
    ensures Rebase(db).w == db.w
  {
  }

  lemma ReceiptFailed(db: Db, action: TxAction, failed: bool, remaining: u64, used: nat, gas: u64, output: seq<nat>)
    requires WellFormed(db)
    ensures CreateReceipt(db, action, failed, remaining, used, gas, output, None).failed == failed
  {
    hide Flows;
  }

  lemma NonceLike(d: Db, e: Db, a: Address)
    requires Like(d, e)
    ensures Like(BumpNonce(d, a), BumpNonce(e, a))
  {
  }

  lemma RevertKeeps(db: Db, p: Db)
    requires WellFormed(db) && KeepsBase(db, p)
    ensures KeepsBase(db, Revert(p, db))
  {
  }

  /** The state a freeze leaves. */
  function FreezeState(db: Db, p: Db, from: Address, amount: nat): (r: Db)
    requires WellFormed(db) && amount <= Bal(Revert(p, db).w, from)
    ensures WellFormed(r)
  {
    BumpNonce(SubBalance(Revert(p, db), from, amount), from)
  }

  lemma FreezeStateKeeps(db: Db, p: Db, from: Address, amount: nat)
    requires WellFormed(db) && amount <= Bal(Revert(p, db).w, from) && KeepsBase(db, p)
    ensures KeepsBase(db, FreezeState(db, p, from, amount))
  {
    hide KeepsBase, SubBalance, Revert, BumpNonce, Bal;
    var r := Revert(p, db);
    RevertKeeps(db, p);
    SubBase(r, from, amount);
    var s := SubBalance(r, from, amount);
    NonceBase(s, from);
    KeepsTwice(db, r, s);
    KeepsTwice(db, s, BumpNonce(s, from));
  }

  lemma FreezeStateLike(d: Db, e: Db, p: Db, q: Db, from: Address, amount: nat)
    requires Like(d, e) && amount <= Bal(Revert(p, d).w, from)
    ensures Like(FreezeState(d, p, from, amount), FreezeState(e, q, from, amount))
  {
    hide SubBalance, BumpNonce, Bal;
    var r, s := Revert(p, d), Revert(q, e);
    SubLike(r, s, from, amount);
    NonceLike(SubBalance(r, from, amount), SubBalance(s, from, amount), from);
  }

  lemma FreezeEnds(d: Db, e: Db, p: Db, q: Db, tx: Tx, amount: nat, used: nat, gas: u64)
    requires Like(d, e) && amount <= Bal(d.w, tx.from)
    requires var d1, e1 := AddMark(d, tx.id, ContractFreeze), AddMark(e, tx.id, ContractFreeze);
             KeepsBase(d1, p) && KeepsBase(e1, q)
    ensures var t := FreezeState(AddMark(d, tx.id, ContractFreeze), p, tx.from, amount);
            var u := FreezeState(AddMark(e, tx.id, ContractFreeze), q, tx.from, amount);
            var r := CreateReceipt(t, ContractFreeze, false, tx.gas, used, gas, [], None);
            var s := CreateReceipt(u, ContractFreeze, false, tx.gas, used, gas, [], None);
            && s == r.(flows := s.flows) && !r.failed && (s == r <==> AllUnseen(d, e, Rebase(t).w, None))
            && Rebase(t) == Rebase(u)
  {
    hide AllUnseen, CreateReceipt, KeepsBase, Rebase, FreezeState, Bal;
    var d1, e1 := AddMark(d, tx.id, ContractFreeze), AddMark(e, tx.id, ContractFreeze);
    MarkKeeps(d, tx.id, ContractFreeze);
    MarkKeeps(e, tx.id, ContractFreeze);
    FreezeStateLike(d1, e1, p, q, tx.from, amount);
    FreezeStateKeeps(d1, p, tx.from, amount);
    FreezeStateKeeps(e1, q, tx.from, amount);
    var t, u := FreezeState(d1, p, tx.from, amount), FreezeState(e1, q, tx.from, amount);
    KeepsTwice(d, d1, t);
    KeepsTwice(e, e1, u);
    EndLike(d, e, t, u, ContractFreeze, tx.gas, used, gas);
  }

  /** A freeze fails as its purchase does, or for want of balance, or leaves its state and a receipt for it. */
  lemma FreezeShape(env: Env, db: Db, pool: nat, used: nat, tx: Tx, header: Header)
    requires WellFormed(db) && VmOk(env.vm)
    requires tx.to.Contract? && (tx.id, ContractFreeze) !in db.marks
    ensures var o := ApplyFreeze(env, db, pool, used, tx, header);
            var db1 := AddMark(db, tx.id, ContractFreeze);
            var p := PreApply(db1, pool, tx, tx.gas, FreeAt(true, tx, header), ContractFreeze);
            var amount := Fee(tx.gas, tx.price) + tx.value;
            && o.pool == p.pool
            && (p.Fail? ==> o.Err? && o.error == p.error)
            && (p.Fine? && Bal(db.w, tx.from) < amount ==> o.Err? && o.error == InsufficientBalance)
            && (p.Fine? && amount <= Bal(db.w, tx.from) ==>
                  var t := FreezeState(db1, p.db, tx.from, amount);
                  o == Ok(Rebase(t), p.pool,
                          CreateReceipt(t, ContractFreeze, false, tx.gas, used, p.value.1 - p.value.0, [], None)))
  {
    hide PreApply, CreateReceipt, Rebase, VmOk, Fee, SubBalance, BumpNonce, Bal;
  }

  lemma FreezeRunLike(env: Env, d: Db, e: Db, pool: nat, used: nat, x: TxExec, header: Header)
    requires Like(d, e) && EnvOk(env) && x.action == ContractFreeze
    requires x.tx.to.Contract? && (x.tx.id, ContractFreeze) !in d.marks
    ensures Blind(d, e, ApplyFreeze(env, d, pool, used, x.tx, header), ApplyFreeze(env, e, pool, used, x.tx, header), x,
                  header)
  {
    hide ApplyFreeze, PreApply, AllUnseen, CreateReceipt, KeepsBase, Rebase, VmOk, Fee, FreeAt, FreezeState, Bal;
    var free := FreeAt(true, x.tx, header);
    var d1, e1 := AddMark(d, x.tx.id, ContractFreeze), AddMark(e, x.tx.id, ContractFreeze);
    PreApplyLike(d1, e1, pool, x.tx, x.tx.gas, free, ContractFreeze);
    PreApplyBase(d1, pool, x.tx, x.tx.gas, free, ContractFreeze);
    PreApplyBase(e1, pool, x.tx, x.tx.gas, free, ContractFreeze);
    FreezeShape(env, d, pool, used, x.tx, header);
    FreezeShape(env, e, pool, used, x.tx, header);
    var p := PreApply(d1, pool, x.tx, x.tx.gas, free, ContractFreeze);
    var q := PreApply(e1, pool, x.tx, x.tx.gas, free, ContractFreeze);
    var amount := Fee(x.tx.gas, x.tx.price) + x.tx.value;
    if p.Fine? && amount <= Bal(d.w, x.tx.from) {
      FreezeEnds(d, e, p.db, q.db, x.tx, amount, used, p.value.1 - p.value.0);
    }
  }

  lemma FreezeLike(env: Env, d: Db, e: Db, pool: nat, used: nat, x: TxExec, header: Header)
    requires Like(d, e) && EnvOk(env) && x.action == ContractFreeze
    ensures Blind(d, e, ApplyFreeze(env, d, pool, used, x.tx, header), ApplyFreeze(env, e, pool, used, x.tx, header), x,
                  header)
  {
    hide PreApply, AllUnseen, CreateReceipt, Rebase, VmOk, Fee, SubBalance, BumpNonce, Bal, Revert;
    if x.tx.to.Contract? && (x.tx.id, ContractFreeze) !in d.marks {
      FreezeRunLike(env, d, e, pool, used, x, header);
    }
  }

  /** An action that ends with a receipt for the state it made. */
  lemma EndLike(d: Db, e: Db, t: Db, u: Db, action: TxAction, remaining: u64, used: nat, gas: u64)
    requires Like(t, u) && KeepsBase(d, t) && KeepsBase(e, u)
    ensures var r := CreateReceipt(t, action, false, remaining, used, gas, [], None);
            var s := CreateReceipt(u, action, false, remaining, used, gas, [], None);
            s == r.(flows := s.flows) && !r.failed && (s == r <==> AllUnseen(d, e, Rebase(t).w, None))
    ensures Rebase(t) == Rebase(u)
  {
    hide AllUnseen, CreateReceipt, KeepsBase, Rebase;
    ReceiptLike(d, e, t, u, action, false, remaining, used, gas, []);
    RebaseLike(t, u);
    RebaseKeepsWorld(t);
    ReceiptFailed(t, action, false, remaining, used, gas, []);
  }

  /** The states a credit leaves, for either order of paying and counting. */
  function Credited(db: Db, id: nat, action: TxAction, a: Address, v: nat, first: bool): (r: Db)
    requires WellFormed(db)
    ensures WellFormed(r)
  {
    var db1 := AddMark(db, id, action);
    if first then BumpNonce(AddBalance(db1, a, v), a) else AddBalance(BumpNonce(db1, a), a, v)
  }

  lemma CreditedKeeps(db: Db, id: nat, action: TxAction, a: Address, v: nat, first: bool)
    requires WellFormed(db)
    ensures KeepsBase(db, Credited(db, id, action, a, v, first))
  {
    hide KeepsBase, AddBalance, BumpNonce;
    var db1 := AddMark(db, id, action);
    MarkKeeps(db, id, action);
    NonceBase(db1, a);
    if first {
      AddBase(db1, a, v);
      NonceBase(AddBalance(db1, a, v), a);
      KeepsTwice(db, db1, AddBalance(db1, a, v));
      KeepsTwice(db, AddBalance(db1, a, v), BumpNonce(AddBalance(db1, a, v), a));
    } else {
      AddBase(BumpNonce(db1, a), a, v);
      KeepsTwice(db, db1, BumpNonce(db1, a));
      KeepsTwice(db, BumpNonce(db1, a), AddBalance(BumpNonce(db1, a), a, v));
    }
  }

  lemma MarkKeeps(db: Db, id: nat, action: TxAction)
    ensures KeepsBase(db, AddMark(db, id, action))
  {
  }

  lemma CreditedLike(d: Db, e: Db, id: nat, action: TxAction, a: Address, v: nat, first: bool)
    requires Like(d, e)
    ensures Like(Credited(d, id, action, a, v, first), Credited(e, id, action, a, v, first))
  {
    hide AddBalance, BumpNonce;
    var d1, e1 := AddMark(d, id, action), AddMark(e, id, action);
    if first {
      AddLike(d1, e1, a, v);
      NonceLike(AddBalance(d1, a, v), AddBalance(e1, a, v), a);
    } else {
      NonceLike(d1, e1, a);
      AddLike(BumpNonce(d1, a), BumpNonce(e1, a), a, v);
    }
  }

  lemma CreditEnds(d: Db, e: Db, id: nat, action: TxAction, a: Address, v: nat, first: bool, remaining: u64, used: nat)
    requires Like(d, e)
    ensures var t, u := Credited(d, id, action, a, v, first), Credited(e, id, action, a, v, first);
            var r := CreateReceipt(t, action, false, remaining, used, 0, [], None);
            var s := CreateReceipt(u, action, false, remaining, used, 0, [], None);
            && s == r.(flows := s.flows) && !r.failed && (s == r <==> AllUnseen(d, e, Rebase(t).w, None))
            && Rebase(t) == Rebase(u)
  {
    hide AllUnseen, CreateReceipt, KeepsBase, Rebase, Credited;
    CreditedLike(d, e, id, action, a, v, first);
    CreditedKeeps(d, id, action, a, v, first);
    CreditedKeeps(e, id, action, a, v, first);
    EndLike(d, e, Credited(d, id, action, a, v, first), Credited(e, id, action, a, v, first), action, remaining, used, 0);
  }

  lemma ReceiveLike(env: Env, d: Db, e: Db, pool: nat, used: nat, x: TxExec, header: Header)
    requires Like(d, e) && EnvOk(env) && x.action == TransferReceipt
    ensures Blind(d, e, ApplyReceive(d, pool, used, x, header), ApplyReceive(e, pool, used, x, header), x, header)
  {
    hide AllUnseen, CreateReceipt, Rebase, BumpNonce, AddBalance;
    if x.pre.Some? {
      CreditEnds(d, e, x.tx.id, TransferReceipt, x.tx.to, x.tx.value, true, x.pre.value.gasRemaining, used);
    }
  }

  lemma RefundLike(env: Env, d: Db, e: Db, pool: nat, used: nat, x: TxExec, header: Header)
    requires Like(d, e) && EnvOk(env) && x.action == ContractRefund
    ensures Blind(d, e, ApplyRefund(d, pool, used, x, header), ApplyRefund(e, pool, used, x, header), x, header)
  {
    hide AllUnseen, CreateReceipt, Rebase, BumpNonce, AddBalance, RefundOf;
    if x.pre.Some? {
      CreditEnds(d, e, x.tx.id, ContractRefund, x.tx.from, RefundOf(x.tx, x.pre.value), false,
                 x.pre.value.gasRemaining, used);
    }
  }

  lemma ContractReceiptLike(env: Env, d: Db, e: Db, pool: nat, used: nat, x: TxExec, header: Header)
    requires Like(d, e) && EnvOk(env) && x.action == ContractReceipt
    ensures Blind(d, e, ApplyContractReceipt(d, pool, used, x, header), ApplyContractReceipt(e, pool, used, x, header), x,
                  header)
  {
    hide AllUnseen, CreateReceipt, Rebase, BumpNonce, AddBalance;
    if x.pre.Some? && header.mc in x.pre.value.flows && x.pre.value.flows[header.mc] > 0 {
      CreditEnds(d, e, x.tx.id, ContractReceipt, header.mc, x.pre.value.flows[header.mc], false,
                 x.pre.value.gasRemaining, used);
    }
  }

  /** Every action does the same from states that differ in the measuring bases only: it fails with the same error, or
      succeeds with the same state, the same bases included, and the same receipt up to its flows; and the flows are the
      same exactly if the receipt hides the difference. */
  lemma ProcessIsBlind(env: Env, d: Db, e: Db, pool: nat, used: nat, x: TxExec, header: Header)
    requires Like(d, e) && EnvOk(env)
    ensures Blind(d, e, ProcessTransaction(env, d, pool, used, x, header),
                  ProcessTransaction(env, e, pool, used, x, header), x, header)
  {
    hide ApplyToContract, ApplyPayment, ApplyFreeze, ApplyReceive, ApplyRefund, ApplyContractReceipt, Blind, EnvOk,
      Like;
    LikeFacts(d, e);
    match x.action {
      case TransferPayment => PaymentLike(env, d, e, pool, used, x, header);
      case ContractFreeze => FreezeLike(env, d, e, pool, used, x, header);
      case TransferReceipt => ReceiveLike(env, d, e, pool, used, x, header);
      case ContractReceipt => ContractReceiptLike(env, d, e, pool, used, x, header);
      case ContractRefund => RefundLike(env, d, e, pool, used, x, header);
      case _ => ToContractLike(env, d, e, pool, used, x, header);
    }
  }

  // ---- any unit, replayed -------------------------------------------------------------------------------------------

  /** The same receipts but for their flows. */
  predicate Alike(rs: seq<Receipt>, qs: seq<Receipt>) {
    |rs| == |qs| && forall i :: 0 <= i < |rs| ==> qs[i] == rs[i].(flows := qs[i].flows)
  }

  lemma {:induction false} AlikeGas(rs: seq<Receipt>, qs: seq<Receipt>)
    requires Alike(rs, qs)
    ensures GasOf(rs) == GasOf(qs)
  {
    if rs != [] {
      AlikeGas(rs[..|rs| - 1], qs[..|qs| - 1]);
    }
  }

  /** Replaying what is packed so far succeeds, leaves the state `last`, which differs from the miner's in the bases
      only, and gives the miner's receipts up to their flows, with no less gas left in the pool. `same` tells whether
      the flows are the miner's too. */
  ghost predicate Replays(env: Env, db: Db, m: Mine, last: Db, same: bool, header: Header)
    requires WellFormed(db) && EnvOk(env)
  {
    var b := Process(env, db, header.gasLimit, Actions(m.packed), header);
    && b.Some? && b.value.db == last && Like(last, m.db) && Alike(b.value.receipts, m.receipts)
    && (same <==> b.value.receipts == m.receipts)
    && m.pool <= b.value.pool && b.value.pool + GasOf(m.receipts) <= header.gasLimit
  }

  /** Is the message run and packed? */
  ghost predicate Packs(env: Env, m: Mine, msg: Msg, header: Header)
    requires WellFormed(m.db) && EnvOk(env)
  {
    !Refused(m, msg) && msg.verdict == Pass
    && ProcessTransaction(env, m.db, m.pool, GasOf(m.receipts), msg.x, header).Ok?
  }

  /** The state a replay reaches once the message is taken. */
  ghost function NextLast(env: Env, m: Mine, last: Db, msg: Msg, header: Header): (r: Db)
    requires WellFormed(m.db) && EnvOk(env)
  {
    if Packs(env, m, msg, header) then Take(env, m, msg, header).0.db else last
  }

  /** If the message is packed, its receipt hides that the miner's bases are not those of `last`. */
  ghost predicate HiddenTake(env: Env, m: Mine, last: Db, msg: Msg, header: Header)
    requires WellFormed(m.db) && EnvOk(env)
  {
    Packs(env, m, msg, header) ==>
      Hides(last, m.db, ProcessTransaction(env, m.db, m.pool, GasOf(m.receipts), msg.x, header), msg.x, header)
  }

  lemma PackedReplays(env: Env, db: Db, m: Mine, last: Db, same: bool, msg: Msg, header: Header)
    requires WellFormed(db) && EnvOk(env) && Replays(env, db, m, last, same, header) && WellFormed(m.db)
    requires ProcessTransaction(env, m.db, m.pool, GasOf(m.receipts), msg.x, header).Ok?
    ensures var o := ProcessTransaction(env, m.db, m.pool, GasOf(m.receipts), msg.x, header);
            var n := m.(db := o.db, pool := o.pool, packed := m.packed + [msg], receipts := m.receipts + [o.receipt]);
            Replays(env, db, n, o.db, same && Hides(last, m.db, o, msg.x, header), header)
  {
    hide ProcessTransaction, Process, Actions, Hides, EnvOk, GasOf;
    var used := GasOf(m.receipts);
    var o := ProcessTransaction(env, m.db, m.pool, used, msg.x, header);
    var b := Process(env, db, header.gasLimit, Actions(m.packed), header).value;
    AlikeGas(b.receipts, m.receipts);
    ProcessMore(env, m.db, m.pool, b.pool - m.pool, used, msg.x, header);
    var o2 := ProcessTransaction(env, m.db, b.pool, used, msg.x, header);
    ProcessPool(env, m.db, b.pool, used, msg.x, header);
    LikeSym(last, m.db);
    ProcessIsBlind(env, m.db, last, b.pool, used, msg.x, header);
    HidesEither(last, m.db, o, o2, msg.x, header);
    ProcessSnoc(env, db, header.gasLimit, m.packed, msg, header);
    GasSnoc(m.receipts, o.receipt);
    var r := ProcessTransaction(env, last, b.pool, used, msg.x, header).receipt;
    SnocSame(b.receipts, r, m.receipts, o.receipt);
  }

  lemma LikeSym(d: Db, e: Db)
    requires Like(d, e)
    ensures Like(e, d)
  {
  }

  lemma SnocSame(rs: seq<Receipt>, r: Receipt, qs: seq<Receipt>, q: Receipt)
    requires Alike(rs, qs) && q == r.(flows := q.flows)
    ensures Alike(rs + [r], qs + [q])
    ensures rs + [r] == qs + [q] <==> rs == qs && r == q
  {
    if rs + [r] == qs + [q] {
      assert (rs + [r])[..|rs|] == rs && (qs + [q])[..|rs|] == qs;
      assert (rs + [r])[|rs|] == r && (qs + [q])[|rs|] == q;
    }
  }

  lemma HidesEither(d: Db, e: Db, o: Outcome, p: Outcome, x: TxExec, header: Header)
    requires o.Ok? && p.Ok? && p.db == o.db && p.receipt == o.receipt
    ensures Hides(d, e, o, x, header) <==> Hides(e, d, p, x, header)
  {
    var keep := if IsDeal(x.action) then Some(x.tx.from) else None;
    assert AllUnseen(d, e, o.db.w, keep) <==> AllUnseen(e, d, o.db.w, keep);
  }

  lemma TakeReplays(env: Env, db: Db, m: Mine, last: Db, same: bool, msg: Msg, header: Header)
    requires WellFormed(db) && EnvOk(env) && WellFormed(m.db) && Replays(env, db, m, last, same, header)
    ensures Replays(env, db, Take(env, m, msg, header).0, NextLast(env, m, last, msg, header),
                    same && HiddenTake(env, m, last, msg, header), header)
  {
    hide ProcessTransaction, Process, Revert, EnvOk, Actions, GasOf, Hides, Alike;
    if !Refused(m, msg) && msg.verdict == Pass {
      var o := ProcessTransaction(env, m.db, m.pool, GasOf(m.receipts), msg.x, header);
      var c := m.(zero := m.zero + if UsesNoGas(msg.x.action) then 1 else 0);
      if o.Err? {
        ProcessPool(env, m.db, m.pool, GasOf(m.receipts), msg.x, header);
      } else {
        assert Replays(env, db, c, last, same, header);
        PackedReplays(env, db, c, last, same, msg, header);
      }
    }
  }

  ghost function OwnLast(env: Env, m: Mine, last: Db, own: seq<Msg>, header: Header): (r: Db)
    requires WellFormed(m.db) && EnvOk(env)
    decreases |own|
  {
    if own == [] then last
    else OwnLast(env, Take(env, m, own[0], header).0, NextLast(env, m, last, own[0], header), own[1..], header)
  }

  ghost predicate HiddenOwn(env: Env, m: Mine, last: Db, own: seq<Msg>, header: Header)
    requires WellFormed(m.db) && EnvOk(env)
    decreases |own|
  {
    own == [] || (HiddenTake(env, m, last, own[0], header)
                  && HiddenOwn(env, Take(env, m, own[0], header).0, NextLast(env, m, last, own[0], header), own[1..],
                               header))
  }

  ghost predicate HiddenLoop(env: Env, m: Mine, last: Db, turns: seq<Turn>, header: Header)
    requires WellFormed(m.db) && EnvOk(env)
    decreases |turns|
  {
    if turns == [] then true
    else
      match turns[0]
      case TimedOut => true
      case Interrupted => true
      case Waited => HiddenLoop(env, m, last, turns[1..], header)
      case Popped(msg) =>
        && HiddenTake(env, m, last, msg, header)
        && var (n, go) := Take(env, m, msg, header);
           (go ==> HiddenLoop(env, n, NextLast(env, m, last, msg, header), turns[1..], header))
  }

  /** Every receipt of the unit hides what the failed messages before it did to the bases. */
  ghost predicate HiddenPack(env: Env, db: Db, own: seq<Msg>, turns: seq<Turn>, header: Header)
    requires WellFormed(db) && EnvOk(env)
  {
    var start := Mine(db, header.gasLimit, [], [], 0, [], [], []);
    && HiddenOwn(env, start, db, own, header)
    && HiddenLoop(env, TakeAll(env, start, own, header), OwnLast(env, start, db, own, header), turns, header)
  }

  lemma {:induction false} OwnReplays(env: Env, db: Db, m: Mine, last: Db, same: bool, own: seq<Msg>, header: Header)
    requires WellFormed(db) && EnvOk(env) && WellFormed(m.db) && Replays(env, db, m, last, same, header)
    ensures Replays(env, db, TakeAll(env, m, own, header), OwnLast(env, m, last, own, header),
                    same && HiddenOwn(env, m, last, own, header), header)
    decreases |own|
  {
    hide Replays, Take, HiddenTake, NextLast, EnvOk;
    if own != [] {
      TakeReplays(env, db, m, last, same, own[0], header);
      OwnReplays(env, db, Take(env, m, own[0], header).0, NextLast(env, m, last, own[0], header),
                 same && HiddenTake(env, m, last, own[0], header), own[1..], header);
    }
  }

  /** The replayed state at the end of the loop. */
  lemma {:induction false} LoopReplays(env: Env, db: Db, m: Mine, last: Db, same: bool, turns: seq<Turn>, header: Header)
    returns (end: Db)
    requires WellFormed(db) && EnvOk(env) && WellFormed(m.db) && Replays(env, db, m, last, same, header)
    ensures Replays(env, db, Loop(env, m, turns, header), end, same && HiddenLoop(env, m, last, turns, header), header)
    decreases |turns|
  {
    hide Replays, Take, HiddenTake, NextLast, EnvOk;
    end := last;
    if turns != [] {
      match turns[0] {
        case Waited => end := LoopReplays(env, db, m, last, same, turns[1..], header);
        case Popped(msg) =>
          TakeReplays(env, db, m, last, same, msg, header);
          end := NextLast(env, m, last, msg, header);
          if Take(env, m, msg, header).1 {
            end := LoopReplays(env, db, Take(env, m, msg, header).0, end,
                               same && HiddenTake(env, m, last, msg, header), turns[1..], header);
          }
        case Interrupted => PutBack(env, db, m, last, same, header);
        case TimedOut =>
      }
    }
  }

  lemma PutBack(env: Env, db: Db, m: Mine, last: Db, same: bool, header: Header)
    requires WellFormed(db) && EnvOk(env) && Replays(env, db, m, last, same, header)
    ensures Replays(env, db, m.(rollback := m.rollback + m.packed), last, same, header)
  {
    hide Process, EnvOk, Actions, GasOf;
  }

  lemma StartReplays(env: Env, db: Db, header: Header)
    requires WellFormed(db) && EnvOk(env)
    ensures Replays(env, db, Mine(db, header.gasLimit, [], [], 0, [], [], []), db, true, header)
  {
    assert Actions([]) == [];
  }

  /** Whatever the queue, the clock and the interruptions did, and whatever failed, replaying the packed actions
      succeeds with the same accounts and marks, the same gas and the same receipts up to their flows; and the flows
      agree if and only if every receipt hides the bases the failed messages left. */
  lemma ReplayAlwaysSucceeds(env: Env, db: Db, own: seq<Msg>, turns: seq<Turn>, header: Header)
    requires WellFormed(db) && EnvOk(env)
    ensures var m := Pack(env, db, own, turns, header);
            var b := Process(env, db, header.gasLimit, Actions(m.packed), header);
            && b.Some? && Like(b.value.db, m.db) && Alike(b.value.receipts, m.receipts)
            && GasOf(b.value.receipts) == GasOf(m.receipts) <= header.gasLimit
            && (b.value.receipts == m.receipts <==> HiddenPack(env, db, own, turns, header))
  {
    hide TakeAll, Loop, HiddenOwn, HiddenLoop, OwnLast, EnvOk, Process, Actions, GasOf, Like, Alike;
    var start := Mine(db, header.gasLimit, [], [], 0, [], [], []);
    StartReplays(env, db, header);
    OwnReplays(env, db, start, db, true, own, header);
    var end := LoopReplays(env, db, TakeAll(env, start, own, header), OwnLast(env, start, db, own, header),
                           HiddenOwn(env, start, db, own, header), turns, header);
    var m := Pack(env, db, own, turns, header);
    AlikeGas(Process(env, db, header.gasLimit, Actions(m.packed), header).value.receipts, m.receipts);
  }

  // ---- what a failed message does to the bases ----------------------------------------------------------------------

  lemma RevertedState(db: Db, from: Address, amount: nat, e: Db, marked: Db)
    requires WellFormed(db) && marked == db.(marks := marked.marks) && from in db.base
    requires KeepsBase(Funded(marked, from, amount), e)
    ensures Revert(e, db) == db.(base := db.base[from := amount])
  {
    var f := Funded(marked, from, amount);
    assert f.base == db.base[from := amount];
    hide Funded;
    var r := Revert(e, db);
    assert r.base.Keys == db.base.Keys;
    forall a | a in db.base
      ensures r.base[a] == db.base[from := amount][a]
    {
      assert a in f.base && a in e.base;
    }
  }

  /** A message that resets its sender's base and then fails leaves the miner's state as it was but for that base. */
  lemma DirtyTakeIs(env: Env, m: Mine, bad: Msg, header: Header)
    requires WellFormed(m.db) && EnvOk(env) && Fit(bad.x, header) && !Refused(m, bad) && bad.verdict == Pass
    requires Dirties(env, m.db, m.pool, bad.x, header) && FailsLate(env, m.db, m.pool, bad.x, header)
    ensures var n := Take(env, m, bad, header).0;
            && n.db == m.db.(base := m.db.base[bad.x.tx.from := Frozen(bad.x)])
            && n.packed == m.packed && n.receipts == m.receipts
    ensures bad.x.tx.from in m.db.base && m.db.base[bad.x.tx.from] != Frozen(bad.x) && bad.x.tx.from.User?
  {
    hide ProcessTransaction, FailsLate, ReachesFunding, Revert, EnvOk, Frozen, DealReadyToRun, Fee, GasOf;
    FailsLateIff(env, m.db, m.pool, GasOf(m.receipts), bad.x, header);
    DirtyState(env, m.db, m.pool, GasOf(m.receipts), bad.x, header);
  }

  lemma DirtyState(env: Env, db: Db, pool: nat, used: nat, x: TxExec, header: Header)
    requires WellFormed(db) && EnvOk(env) && Fit(x, header) && Dirties(env, db, pool, x, header)
    requires ProcessTransaction(env, db, pool, used, x, header).Err?
    ensures Revert(ProcessTransaction(env, db, pool, used, x, header).db, db)
         == db.(base := db.base[x.tx.from := Frozen(x)])
  {
    hide ApplyDeal, Fee, Rehearsal, KeepsBase, Funded, Revert, EnvOk;
    var o := ProcessTransaction(env, db, pool, used, x, header);
    var db1 := AddMark(db, x.tx.id, ContractDeal);
    var idle := x.action == SCIdleContractDeal;
    assert o == ApplyDeal(env, db1, pool, used, x.tx, Remaining(x), Remaining(x), idle, x.pre.None?, header);
    DealErr(env, db1, pool, used, x.tx, Remaining(x), idle, x.pre.None?, header);
    RevertedState(db, x.tx.from, Frozen(x), o.db, db1);
  }

  /** Any other message that is not packed leaves the miner's state as it was. */
  lemma CleanTakeIs(env: Env, m: Mine, msg: Msg, header: Header)
    requires WellFormed(m.db) && EnvOk(env) && Fit(msg.x, header)
    requires CleanTake(env, m, msg, header) && !Packs(env, m, msg, header)
    ensures Take(env, m, msg, header).0.db == m.db
  {
    hide ProcessTransaction, FailsLate, ReachesFunding, Revert, EnvOk, Fit, GasOf;
    if !Refused(m, msg) && msg.verdict == Pass {
      CleanRevertIff(env, m.db, m.pool, GasOf(m.receipts), msg.x, header);
      if Dirties(env, m.db, m.pool, msg.x, header) {
        FailsLateIff(env, m.db, m.pool, GasOf(m.receipts), msg.x, header);
      }
    }
  }

  /** After a message that resets its sender's base and then fails, the next packed deal shows it exactly if it leaves
      that sender, unless it is the deal's own, with more than either base. */
  lemma DirtyTakeShows(env: Env, db: Db, m: Mine, bad: Msg, msg: Msg, header: Header)
    requires WellFormed(db) && EnvOk(env) && WellFormed(m.db) && Agrees(env, db, m, header)
    requires Fit(bad.x, header) && !Refused(m, bad) && bad.verdict == Pass
    requires Dirties(env, m.db, m.pool, bad.x, header) && FailsLate(env, m.db, m.pool, bad.x, header)
    requires Packs(env, Take(env, m, bad, header).0, msg, header)
    requires Delivered(env, Take(env, m, bad, header).0, msg, header)
    ensures var k := Take(env, Take(env, m, bad, header).0, msg, header).0;
            var b := Process(env, db, header.gasLimit, Actions(k.packed), header);
            var f := bad.x.tx.from;
            && b.Some?
            && (b.value.receipts == k.receipts
                <==> f == msg.x.tx.from || (Bal(k.db.w, f) <= Base(m.db, f) && Bal(k.db.w, f) <= Frozen(bad.x)))
  {
    hide ProcessTransaction, Process, FailsLate, Dirties, EnvOk, Frozen, Fit, GasOf, Bal, Refused, Actions, Like, Alike,
      Hides, Packs;
    var n := Take(env, m, bad, header).0;
    DirtyTakeIs(env, m, bad, header);
    AgreesReplays(env, db, m, header);
    TakeReplays(env, db, m, m.db, true, bad, header);
    DirtyIsNotPacked(env, m, bad, header);
    TakeReplays(env, db, n, m.db, true, msg, header);
    PackedState(env, n, msg, header);
    ShownIff(m.db, n.db, bad.x.tx.from, Frozen(bad.x),
             ProcessTransaction(env, n.db, n.pool, GasOf(n.receipts), msg.x, header), msg.x, header);
  }

  /** Is the packed message a deal whose receipt carries flows? */
  ghost predicate Delivered(env: Env, m: Mine, msg: Msg, header: Header)
    requires WellFormed(m.db) && EnvOk(env) && Packs(env, m, msg, header)
  {
    && IsDeal(msg.x.action) && !(msg.x.tx.create && header.mc == SC)
    && !ProcessTransaction(env, m.db, m.pool, GasOf(m.receipts), msg.x, header).receipt.failed
  }

  lemma AgreesReplays(env: Env, db: Db, m: Mine, header: Header)
    requires WellFormed(db) && EnvOk(env) && WellFormed(m.db) && Agrees(env, db, m, header)
    ensures Replays(env, db, m, m.db, true, header)
  {
    hide Process, EnvOk, Actions, GasOf;
  }

  lemma DirtyIsNotPacked(env: Env, m: Mine, bad: Msg, header: Header)
    requires WellFormed(m.db) && EnvOk(env) && Fit(bad.x, header)
    requires Dirties(env, m.db, m.pool, bad.x, header) && FailsLate(env, m.db, m.pool, bad.x, header)
    ensures !Packs(env, m, bad, header)
  {
    hide ProcessTransaction, FailsLate, ReachesFunding, EnvOk, Fit;
    FailsLateIff(env, m.db, m.pool, GasOf(m.receipts), bad.x, header);
  }

  lemma PackedState(env: Env, m: Mine, msg: Msg, header: Header)
    requires WellFormed(m.db) && EnvOk(env) && Packs(env, m, msg, header)
    ensures var o := ProcessTransaction(env, m.db, m.pool, GasOf(m.receipts), msg.x, header);
            o.Ok? && Take(env, m, msg, header).0.db == o.db
  {
    hide ProcessTransaction, EnvOk, GasOf;
  }

  lemma ShownIff(d: Db, e: Db, f: Address, amount: nat, o: Outcome, x: TxExec, header: Header)
    requires f.User? && f in d.base && e == d.(base := d.base[f := amount]) && d.base[f] != amount
    requires o.Ok? && !o.receipt.failed && IsDeal(x.action) && !(x.tx.create && header.mc == SC)
    ensures Hides(d, e, o, x, header)
       <==> f == x.tx.from || (Bal(o.db.w, f) <= Base(d, f) && Bal(o.db.w, f) <= amount)
  {
    assert forall a :: a != f ==> Base(d, a) == Base(e, a);
    assert Base(e, f) == amount;
  }
}
