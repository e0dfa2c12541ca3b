/** When the value of the system is kept, in terms of what is known before an action runs and of the machine's answer.
    */
module Guards {
  import opened Sums
  import opened Ledger
  import opened Transition
  import opened Processor
  import opened GasLaws
  import opened Conservation
  import opened DealCalls
  import opened MultiChain

  /** A deal whose machine is not called, because its rehearsal failed, or reports an error fails and keeps the total.
      */
  lemma ErrorsConserve(env: Env, s: Sys, k: Key, pool: nat, used: nat, header: Header)
    requires EnvOk(env) && Inv(s) && CanExec(env, s, k, pool, used, header) && IsDeal(k.action)
    requires !Succeeded(CallFor(env, s, k, pool, header))
    ensures OutcomeOf(env, s, k, pool, used, header).receipt.failed
    ensures Total(Exec(env, s, k, pool, used, header)) == Total(s)
  {
    hide Exec, Total, Inv, CanExec, CallFor, OutcomeOf, NoStaleGain, Moved, Unpaid, RunMoves;
    DealChanges(env, s, k, pool, used, header);
    RanByCall(env, s, k, pool, used, header);
  }

  /** A call that succeeds but cannot pay for its output makes the deal fail and changes the total by exactly what it
      took from users. */
  lemma UnpaidAdds(env: Env, s: Sys, k: Key, pool: nat, used: nat, header: Header)
    requires EnvOk(env) && Inv(s) && CanExec(env, s, k, pool, used, header) && IsDeal(k.action)
    requires var c := CallFor(env, s, k, pool, header);
             && c.Some? && c.value.answer.err == NoError
             && |c.value.answer.ret| > 0 && c.value.answer.gas < DataGas(c.value.answer.ret)
    ensures OutcomeOf(env, s, k, pool, used, header).receipt.failed
    ensures Total(Exec(env, s, k, pool, used, header)) == Total(s) + Moved(CallFor(env, s, k, pool, header).value)
  {
    hide Exec, Total, Inv, CanExec, CallFor, OutcomeOf, NoStaleGain, Moved, RunMoves, DataGas;
    DealChanges(env, s, k, pool, used, header);
    RanByCall(env, s, k, pool, used, header);
  }

  /** A proof-of-work deal or the first stage of a deployment never adds value, and keeps it exactly if no user gained.
      */
  lemma SilentConservesIff(env: Env, s: Sys, k: Key, pool: nat, used: nat, header: Header)
    requires EnvOk(env) && Inv(s) && CanExec(env, s, k, pool, used, header) && IsDeal(k.action)
    requires Silent(k, s.pending[k].tx)
    ensures var c := CallFor(env, s, k, pool, header);
            var t := Exec(env, s, k, pool, used, header);
            && Total(t) <= Total(s)
            && (Total(t) == Total(s) <==> !Succeeded(c) || NoUserGains(c.value))
  {
    SilentIsFree(s, k, header);
    hide Exec, Total, Inv, CallFor, OutcomeOf, NoStaleGain, Moved, RunMoves, Unpaid, NoUserGains, GoodKey, CallValue,
      ProcessTransaction;
    DealChanges(env, s, k, pool, used, header);
    RanByCall(env, s, k, pool, used, header);
    var c := CallFor(env, s, k, pool, header);
    if Succeeded(c) {
      MovedWithoutValue(c.value, s.pending[k].tx.from);
    }
  }

  lemma SilentIsFree(s: Sys, k: Key, header: Header)
    requires Inv(s) && k in s.pending && IsDeal(k.action) && Silent(k, s.pending[k].tx) && header.mc == k.chain
    ensures CallValue(s.pending[k].tx, header) == 0 && s.pending[k].tx.from.User?
  {
    hide ChainsOk, MarksOk, FrontAlone;
    assert GoodKey(s.txs, k, s.pending[k]);
  }

  // ---- deals that hand out their flows ------------------------------------------------------------------------------

  /** Every user but the sender is measured from the balance it has. */
  ghost predicate MeasuredFor(db: Db, from: Address) {
    forall a: Address :: a.User? && a != from ==> Base(db, a) == Bal(db.w, a)
  }

  /** Neither the deal nor any contract has anything to pay with. */
  ghost predicate NoMoney(db: Db, tx: Tx) {
    tx.value == 0 && forall a: Address :: a.Contract? ==> Bal(db.w, a) == 0
  }

  lemma MeasuredIsSound(env: Env, s: Sys, k: Key, pool: nat, used: nat, header: Header)
    requires EnvOk(env) && Inv(s) && CanExec(env, s, k, pool, used, header) && IsDeal(k.action)
    requires HandsOut(k, s.pending[k].tx, CallFor(env, s, k, pool, header))
    requires MeasuredFor(ChainDb(s, k.chain), s.pending[k].tx.from) || NoMoney(ChainDb(s, k.chain), s.pending[k].tx)
    ensures Total(Exec(env, s, k, pool, used, header)) == Total(s)
  {
    var tx, db := s.pending[k].tx, ChainDb(s, k.chain);
    SenderIsUser(s, k);
    hide Exec, Total, Inv, CallFor, OutcomeOf, RunMoves, Unpaid, GoodKey, ProcessTransaction, Bal, Base, MeasuredFor,
      NoMoney, NoStaleGain;
    DealChanges(env, s, k, pool, used, header);
    RanByCall(env, s, k, pool, used, header);
    var c := CallFor(env, s, k, pool, header).value;
    if MeasuredFor(db, tx.from) {
      NobodyIsStale(db, c.answer.w, tx.from);
    } else {
      NoCallValue(db, tx, header);
      NobodyIsPaid(db, tx, c);
    }
  }

  lemma NoCallValue(db: Db, tx: Tx, header: Header)
    requires NoMoney(db, tx)
    ensures CallValue(tx, header) == 0
  {
  }

  lemma SenderIsUser(s: Sys, k: Key)
    requires Inv(s) && k in s.pending
    ensures s.pending[k].tx.from.User?
  {
    hide ChainsOk, MarksOk, FrontAlone;
    assert GoodKey(s.txs, k, s.pending[k]);
  }

  lemma NobodyIsStale(db: Db, w: World, from: Address)
    requires MeasuredFor(db, from)
    ensures NoStaleGain(db, w, from)
  {
  }

  lemma NobodyIsPaid(db: Db, tx: Tx, c: Call)
    requires NoMoney(db, tx) && tx.from.User? && tx.from in c.before.bal
    requires RunMoves(c.before, c.answer.w, true, tx.from, 0)
    requires forall a :: a != tx.from ==> Bal(c.before, a) == Bal(db.w, a)
    ensures NoStaleGain(db, c.answer.w, tx.from)
  {
    var k := c.answer.w.bal.Keys;
    MovedWithoutValue(c, tx.from);
    TotalSplit(c.before, k, tx.from);
    TotalSplit(c.answer.w, k, tx.from);
    UsersSplit(c.before, k, tx.from);
    UsersSplit(c.answer.w, k, tx.from);
    Zero(BalOf(c.before), ContractsIn(k));
    Monotone(BalOf(c.before), BalOf(c.answer.w), ContractsIn(k));
  }

  // ---- a machine that pays one account ------------------------------------------------------------------------------

  function Move(w: World, a: Address, b: Address, v: nat): (r: World)
    requires a != b && v <= Bal(w, a)
  {
    w.(bal := w.bal[a := Bal(w, a) - v][b := Bal(w, b) + v])
  }

  lemma MoveKeepsTotal(w: World, a: Address, b: Address, v: nat)
    requires a != b && v <= Bal(w, a)
    ensures TotalBalance(Move(w, a, b, v)) == TotalBalance(w)
  {
    var r := Move(w, a, b, v);
    var k := r.bal.Keys;
    SumBalWiden(w, w.bal.Keys, k);
    SumBalPick(w, k, a);
    SumBalPick(w, k - {a}, b);
    SumBalPick(r, k, a);
    SumBalPick(r, k - {a}, b);
    SumBalAgree(w, r, k - {a} - {b});
  }

  /** Pays one coin to a user, out of a contract or of what the caller sends. */
  function Pay(src: Address, dst: Address, w: World, c: VmCall): (r: VmResult) {
    var from := if src.Contract? then src else c.caller;
    if from == dst || dst.Contract? || Bal(w, from) == 0 || (from == c.caller && c.value == 0) then
      VmResult(w, c.gas, [], OtherError)
    else VmResult(Move(w, from, dst, 1), c.gas, [], NoError)
  }

  lemma PayIsOk(src: Address, dst: Address, w: World, c: VmCall)
    ensures VmStepOk(w, c, Pay(src, dst, w, c))
  {
    hide TotalBalance;
    var from := if src.Contract? then src else c.caller;
    if Pay(src, dst, w, c).err == NoError {
      MoveKeepsTotal(w, from, dst, 1);
    }
  }

  function Payer(src: Address, dst: Address): (env: Env) {
    Env((w: World, c: VmCall) => Pay(src, dst, w, c), World(map[], map[], 0, 0), (n: nat) => Contract(n + 1),
        out => Contract(1))
  }

  lemma PayerIsOk(src: Address, dst: Address)
    ensures EnvOk(Payer(src, dst))
  {
    hide VmStepOk, Pay;
    forall w: World, c: VmCall
      ensures VmStepOk(w, c, Payer(src, dst).vm(w, c))
    {
      PayIsOk(src, dst, w, c);
    }
  }

  /** Whatever admissible machine the deal meets, if it hands out its flows it keeps the total. */
  ghost predicate AlwaysConserves(s: Sys, k: Key, pool: nat, used: nat, header: Header)
    requires k in s.pending && WellFormed(ChainDb(s, k.chain))
  {
    forall env: Env :: EnvOk(env) && CanExec(env, s, k, pool, used, header)
                       && HandsOut(k, s.pending[k].tx, CallFor(env, s, k, pool, header)) ==>
                         Total(Exec(env, s, k, pool, used, header)) == Total(s)
  }

  /** A deal that hands out its flows keeps the total under every admissible machine if and only if every other user on
      its chain is measured from its present balance, or there is no money to pay anyone with. */
  lemma AlwaysConservesIff(s: Sys, k: Key, pool: nat, used: nat, header: Header)
    requires Inv(s) && k in s.pending && IsDeal(k.action) && !Silent(k, s.pending[k].tx) && header.mc == k.chain
    requires Callable(ChainDb(s, k.chain), pool, s.pending[k], header)
    ensures WellFormed(ChainDb(s, k.chain))
    ensures AlwaysConserves(s, k, pool, used, header)
       <==> MeasuredFor(ChainDb(s, k.chain), s.pending[k].tx.from) || NoMoney(ChainDb(s, k.chain), s.pending[k].tx)
  {
    var tx, db := s.pending[k].tx, ChainDb(s, k.chain);
    assert WellFormed(db);
    hide Inv, EnvOk, CanExec, Exec, Total, CallFor, MeasuredFor, NoMoney, Callable, Silent, HandsOut;
    if MeasuredFor(db, tx.from) || NoMoney(db, tx) {
      forall env: Env | EnvOk(env) && CanExec(env, s, k, pool, used, header)
                        && HandsOut(k, tx, CallFor(env, s, k, pool, header))
        ensures Total(Exec(env, s, k, pool, used, header)) == Total(s)
      {
        MeasuredIsSound(env, s, k, pool, used, header);
      }
    } else {
      var a, src := StaleAndSource(db, tx);
      PayerLoses(s, k, pool, used, header, a, src);
    }
  }

  lemma StaleAndSource(db: Db, tx: Tx) returns (a: Address, src: Address)
    requires !MeasuredFor(db, tx.from) && !NoMoney(db, tx)
    ensures a.User? && a != tx.from && Base(db, a) != Bal(db.w, a)
    ensures if src.Contract? then Bal(db.w, src) > 0 else tx.value > 0
  {
    a :| a.User? && a != tx.from && Base(db, a) != Bal(db.w, a);
    if tx.value > 0 {
      src := a;
    } else {
      src :| src.Contract? && Bal(db.w, src) != 0;
    }
  }

  lemma PayerLoses(s: Sys, k: Key, pool: nat, used: nat, header: Header, a: Address, src: Address)
    requires Inv(s) && k in s.pending && IsDeal(k.action) && !Silent(k, s.pending[k].tx) && header.mc == k.chain
    requires Callable(ChainDb(s, k.chain), pool, s.pending[k], header)
    requires a.User? && a != s.pending[k].tx.from && Base(ChainDb(s, k.chain), a) != Bal(ChainDb(s, k.chain).w, a)
    requires if src.Contract? then Bal(ChainDb(s, k.chain).w, src) > 0 else s.pending[k].tx.value > 0
    ensures WellFormed(ChainDb(s, k.chain)) && EnvOk(Payer(src, a))
    ensures CanExec(Payer(src, a), s, k, pool, used, header)
    ensures HandsOut(k, s.pending[k].tx, CallFor(Payer(src, a), s, k, pool, header))
    ensures Total(Exec(Payer(src, a), s, k, pool, used, header)) < Total(s)
  {
    hide Inv, EnvOk, Exec, Total, DealCall, Callable, ProcessTransaction, Unpaid, NoStaleGain, Bal, Base, Payer;
    var x, db := s.pending[k], ChainDb(s, k.chain);
    SenderIsUser(s, k);
    PayerIsOk(src, a);
    CallableFacts(db, pool, x, header);
    PayerRuns(Payer(src, a), db, pool, used, x, header, a, src);
    DealChanges(Payer(src, a), s, k, pool, used, header);
    StaleGains(db, DealCall(Payer(src, a), db, pool, x, header).value.answer.w, x.tx.from, a);
  }

  lemma PayerRuns(env: Env, db: Db, pool: nat, used: nat, x: TxExec, header: Header, a: Address, src: Address)
    requires EnvOk(env) && env == Payer(src, a)
    requires Callable(db, pool, x, header) && a.User? && a != x.tx.from && x.tx.from.User?
    requires if src.Contract? then Bal(db.w, src) > 0 else x.tx.value > 0
    ensures WellFormed(db)
    ensures var c := DealCall(env, db, pool, x, header);
            && c.Some? && c.value.answer.err == NoError && !Unpaid(c.value.answer)
            && Bal(c.value.answer.w, a) == Bal(db.w, a) + 1
    ensures ProcessTransaction(env, db, pool, used, x, header).Ok?
  {
    hide EnvOk, DealCall, Callable, ProcessTransaction, Unpaid, Called, Payer, Bal, FreeAt, CallOf;
    CallableFacts(db, pool, x, header);
    CallableErrIff(env, db, pool, used, x, header);
    MakesCall(env, db, pool, x, header);
    PayerPays(db, x.tx, DealCall(env, db, pool, x, header).value, Remaining(x) + FreeAt(true, x.tx, header), header, a,
              src);
  }

  lemma CallableFacts(db: Db, pool: nat, x: TxExec, header: Header)
    requires Callable(db, pool, x, header)
    ensures WellFormed(db) && header.number >= 1 && x.tx.to.Contract? && !(x.tx.create && header.mc == SC)
    ensures Remaining(x) + FreeAt(true, x.tx, header) <= pool < TWO64
  {
  }

  lemma StaleGains(db: Db, w: World, from: Address, a: Address)
    requires a.User? && a != from && Base(db, a) != Bal(db.w, a) && Bal(w, a) > Bal(db.w, a)
    ensures !NoStaleGain(db, w, from)
  {
    assert a in w.bal;
  }

  lemma PayerPays(db: Db, tx: Tx, c: Call, gas: u64, header: Header, a: Address, src: Address)
    requires c.before.bal == Called(db, tx, header) && c.answer == Payer(src, a).vm(c.before, CallOf(tx, gas, header))
    requires a.User? && tx.from.User? && a != tx.from && tx.to.Contract? && !(tx.create && header.mc == SC)
    requires if src.Contract? then Bal(db.w, src) > 0 else tx.value > 0
    ensures c.answer.err == NoError && !Unpaid(c.answer) && Bal(c.answer.w, a) == Bal(db.w, a) + 1
  {
  }
}
