/** Where each message ends up that the miner takes: in the unit, put back, deleted as failed, or dropped. */
module Filing {
  import opened Options
  import opened Ledger
  import opened Transition
  import opened Processor
  import opened GasLaws
  import opened Conservation
  import opened DealCalls
  import opened Mining

  /** A message as it is taken, and the miner as it then is. */
  datatype Try = Try(m: Mine, msg: Msg)

  datatype Fate = Fits | Fails | Waits | Drops

  ghost predicate WellTried(ts: seq<Try>) { forall t :: t in ts ==> WellFormed(t.m.db) }

  ghost function Attempted(env: Env, t: Try, header: Header): (o: Outcome)
    requires WellFormed(t.m.db) && EnvOk(env)
  {
    ProcessTransaction(env, t.m.db, t.m.pool, GasOf(t.m.receipts), t.msg.x, header)
  }

  /** Is the unit shut to the message: less than 21000 gas is left, or 199 messages without gas were taken and it is
      another? */
  predicate Shut(t: Try) {
    || t.m.pool % TWO64 < 21000
    || ((t.msg.x.action == TransferReceipt || t.msg.x.action == ContractRefund || t.msg.x.action == SCIdleContractDeal)
        && t.m.zero >= 199)
  }

  /** A message waits if the unit is shut to it, if it is too early, or if only the pool was too low for it; it is
      dropped if it is invalid; otherwise it fits or fails as its action does. */
  ghost function FateOf(env: Env, t: Try, header: Header): (f: Fate)
    requires WellFormed(t.m.db) && EnvOk(env)
  {
    if Shut(t) || t.msg.verdict == Future then Waits
    else if t.msg.verdict == Invalid then Drops
    else
      var o := Attempted(env, t, header);
      if o.Ok? then Fits else if o.error == GasLimitReached then Waits else Fails
  }

  /** Does the loop go on after the message? Not if the unit is shut to it or now full, nor if the pool was too low and
      something is packed. */
  ghost predicate GoesOn(env: Env, t: Try, header: Header)
    requires WellFormed(t.m.db) && EnvOk(env)
  {
    && !Shut(t)
    && (t.msg.verdict == Pass ==>
          var o := Attempted(env, t, header);
          if o.Ok? then |t.m.packed| < 65535 else o.error == GasLimitReached ==> t.m.packed == [])
  }

  lemma TakeGoesOn(env: Env, m: Mine, msg: Msg, header: Header)
    requires WellFormed(m.db) && EnvOk(env)
    ensures Take(env, m, msg, header).1 <==> GoesOn(env, Try(m, msg), header)
  {
    hide ProcessTransaction, Revert, EnvOk, GasOf;
  }

  // ---- whole runs ---------------------------------------------------------------------------------------------------

  ghost function OwnTries(env: Env, m: Mine, own: seq<Msg>, header: Header): (ts: seq<Try>)
    requires WellFormed(m.db) && EnvOk(env)
    ensures WellTried(ts)
    decreases |own|
  {
    if own == [] then []
    else [Try(m, own[0])] + OwnTries(env, Take(env, m, own[0], header).0, own[1..], header)
  }

  ghost function LoopTries(env: Env, m: Mine, turns: seq<Turn>, header: Header): (ts: seq<Try>)
    requires WellFormed(m.db) && EnvOk(env)
    ensures WellTried(ts)
    decreases |turns|
  {
    if turns == [] then []
    else
      match turns[0]
      case TimedOut => []
      case Interrupted => []
      case Waited => LoopTries(env, m, turns[1..], header)
      case Popped(msg) =>
        [Try(m, msg)] + if GoesOn(env, Try(m, msg), header)
                        then LoopTries(env, Take(env, m, msg, header).0, turns[1..], header) else []
  }

  /** All that a run takes, in order. */
  ghost function Tries(env: Env, db: Db, own: seq<Msg>, turns: seq<Turn>, header: Header): (ts: seq<Try>)
    requires WellFormed(db) && EnvOk(env)
    ensures WellTried(ts)
  {
    var start := Mine(db, header.gasLimit, [], [], 0, [], [], []);
    OwnTries(env, start, own, header) + LoopTries(env, TakeAll(env, start, own, header), turns, header)
  }

  /** The messages with a fate. */
  ghost function Those(env: Env, ts: seq<Try>, fate: Fate, header: Header): (r: seq<Msg>)
    requires WellTried(ts) && EnvOk(env)
    ensures forall msg :: msg in r ==> exists t :: t in ts && t.msg == msg && FateOf(env, t, header) == fate
  {
    if ts == [] then []
    else
      var t := ts[|ts| - 1];
      Those(env, ts[..|ts| - 1], fate, header) + if FateOf(env, t, header) == fate then [t.msg] else []
  }

  /** The receipts of those that fit. */
  ghost function ReceiptsOf(env: Env, ts: seq<Try>, header: Header): (r: seq<Receipt>)
    requires WellTried(ts) && EnvOk(env)
  {
    if ts == [] then []
    else
      var t := ts[|ts| - 1];
      ReceiptsOf(env, ts[..|ts| - 1], header)
      + if FateOf(env, t, header) == Fits then [Attempted(env, t, header).receipt] else []
  }

  lemma {:induction false} ThoseJoin(env: Env, ts: seq<Try>, us: seq<Try>, fate: Fate, header: Header)
    requires WellTried(ts) && WellTried(us) && EnvOk(env)
    ensures WellTried(ts + us)
    ensures Those(env, ts + us, fate, header) == Those(env, ts, fate, header) + Those(env, us, fate, header)
    decreases |us|
  {
    hide FateOf, EnvOk;
    if us == [] {
      assert ts + us == ts;
    } else {
      var n := |us| - 1;
      assert (ts + us)[..|ts| + n] == ts + us[..n];
      ThoseJoin(env, ts, us[..n], fate, header);
    }
  }

  lemma {:induction false} ReceiptsJoin(env: Env, ts: seq<Try>, us: seq<Try>, header: Header)
    requires WellTried(ts) && WellTried(us) && EnvOk(env)
    ensures WellTried(ts + us)
    ensures ReceiptsOf(env, ts + us, header) == ReceiptsOf(env, ts, header) + ReceiptsOf(env, us, header)
    decreases |us|
  {
    hide FateOf, EnvOk, ProcessTransaction;
    if us == [] {
      assert ts + us == ts;
    } else {
      var n := |us| - 1;
      assert (ts + us)[..|ts| + n] == ts + us[..n];
      ReceiptsJoin(env, ts, us[..n], header);
    }
  }

  /** What the messages add to the miner's lists. */
  ghost predicate Files(env: Env, m: Mine, ts: seq<Try>, n: Mine, header: Header)
    requires WellTried(ts) && EnvOk(env)
  {
    && n.packed == m.packed + Those(env, ts, Fits, header) && n.receipts == m.receipts + ReceiptsOf(env, ts, header)
    && n.rollback == m.rollback + Those(env, ts, Waits, header) && n.errs == m.errs + Those(env, ts, Fails, header)
    && n.ignored == m.ignored + Those(env, ts, Drops, header)
  }

  lemma NothingFiled(env: Env, m: Mine, header: Header)
    requires EnvOk(env)
    ensures Files(env, m, [], m, header)
  {
    hide EnvOk;
  }

  lemma OneOf(env: Env, t: Try, header: Header)
    requires WellFormed(t.m.db) && EnvOk(env)
    ensures forall f :: Those(env, [t], f, header) == if FateOf(env, t, header) == f then [t.msg] else []
    ensures ReceiptsOf(env, [t], header)
         == if FateOf(env, t, header) == Fits then [Attempted(env, t, header).receipt] else []
  {
    hide EnvOk, FateOf, ProcessTransaction;
    assert [t][..0] == [];
  }

  lemma TakeFilesOne(env: Env, m: Mine, msg: Msg, header: Header)
    requires WellFormed(m.db) && EnvOk(env)
    ensures Files(env, m, [Try(m, msg)], Take(env, m, msg, header).0, header)
  {
    hide EnvOk, ProcessTransaction, Revert, GasOf, Those, ReceiptsOf;
    OneOf(env, Try(m, msg), header);
  }

  lemma FilesOn(env: Env, m: Mine, ts: seq<Try>, n: Mine, us: seq<Try>, k: Mine, header: Header)
    requires WellTried(ts) && WellTried(us) && EnvOk(env) && Files(env, m, ts, n, header) && Files(env, n, us, k, header)
    ensures WellTried(ts + us) && Files(env, m, ts + us, k, header)
  {
    hide FateOf, EnvOk, Those, ReceiptsOf;
    ThoseJoin(env, ts, us, Fits, header);
    ThoseJoin(env, ts, us, Waits, header);
    ThoseJoin(env, ts, us, Fails, header);
    ThoseJoin(env, ts, us, Drops, header);
    ReceiptsJoin(env, ts, us, header);
  }

  lemma {:induction false} OwnFiles(env: Env, m: Mine, own: seq<Msg>, header: Header)
    requires WellFormed(m.db) && EnvOk(env)
    ensures Files(env, m, OwnTries(env, m, own, header), TakeAll(env, m, own, header), header)
    decreases |own|
  {
    hide Take, Files, EnvOk;
    if own == [] {
      NothingFiled(env, m, header);
    } else {
      var n := Take(env, m, own[0], header).0;
      TakeFilesOne(env, m, own[0], header);
      OwnFiles(env, n, own[1..], header);
      FilesOn(env, m, [Try(m, own[0])], n, OwnTries(env, n, own[1..], header), TakeAll(env, n, own[1..], header), header);
    }
  }

  /** The loop's result before an interruption puts everything packed back. */
  ghost function BeforeInterruption(env: Env, m: Mine, turns: seq<Turn>, header: Header): (r: Mine)
    requires WellFormed(m.db) && EnvOk(env)
  {
    var n := Loop(env, m, turns, header);
    if EndsInterrupted(env, m, turns, header) && |n.rollback| >= |n.packed|
    then n.(rollback := n.rollback[..|n.rollback| - |n.packed|]) else n
  }

  lemma {:induction false} LoopFiles(env: Env, m: Mine, turns: seq<Turn>, header: Header)
    requires WellFormed(m.db) && EnvOk(env)
    ensures var n := Loop(env, m, turns, header);
            var k := BeforeInterruption(env, m, turns, header);
            && Files(env, m, LoopTries(env, m, turns, header), k, header)
            && n == k.(rollback := k.rollback + if EndsInterrupted(env, m, turns, header) then k.packed else [])
    decreases |turns|
  {
    hide Take, Files, EnvOk, GoesOn;
    if turns == [] {
      NothingFiled(env, m, header);
    } else {
      match turns[0] {
        case Waited => LoopFiles(env, m, turns[1..], header);
        case Popped(msg) =>
          var n := Take(env, m, msg, header).0;
          TakeFilesOne(env, m, msg, header);
          TakeGoesOn(env, m, msg, header);
          if GoesOn(env, Try(m, msg), header) {
            LoopFiles(env, n, turns[1..], header);
            FilesOn(env, m, [Try(m, msg)], n, LoopTries(env, n, turns[1..], header),
                    BeforeInterruption(env, n, turns[1..], header), header);
          } else {
            assert [Try(m, msg)] + [] == [Try(m, msg)];
          }
        case Interrupted =>
          NothingFiled(env, m, header);
          assert (m.rollback + m.packed)[..|m.rollback|] == m.rollback;
        case TimedOut => NothingFiled(env, m, header);
      }
    }
  }

  /** For every queue, clock and interruption: the unit holds, in order and with their receipts, exactly the messages that
      fit; exactly those that fail are deleted; exactly the invalid ones are dropped; and exactly those that wait are put
      back, with everything packed after an interruption. */
  lemma PackFiles(env: Env, db: Db, own: seq<Msg>, turns: seq<Turn>, header: Header)
    requires WellFormed(db) && EnvOk(env)
    ensures var ts := Tries(env, db, own, turns, header);
            var m := Pack(env, db, own, turns, header);
            var start := Mine(db, header.gasLimit, [], [], 0, [], [], []);
            && m.packed == Those(env, ts, Fits, header) && m.receipts == ReceiptsOf(env, ts, header)
            && m.errs == Those(env, ts, Fails, header) && m.ignored == Those(env, ts, Drops, header)
            && m.rollback == Those(env, ts, Waits, header)
                             + if EndsInterrupted(env, TakeAll(env, start, own, header), turns, header) then m.packed
                               else []
  {
    hide EnvOk, Those, ReceiptsOf, OwnTries, LoopTries, Loop, TakeAll, BeforeInterruption, Files, WellTried,
      EndsInterrupted;
    var start := Mine(db, header.gasLimit, [], [], 0, [], [], []);
    var n := TakeAll(env, start, own, header);
    var k := BeforeInterruption(env, n, turns, header);
    OwnFiles(env, start, own, header);
    LoopFiles(env, n, turns, header);
    FilesOn(env, start, OwnTries(env, start, own, header), n, LoopTries(env, n, turns, header), k, header);
    FiledFromNothing(env, start, Tries(env, db, own, turns, header), k, header);
  }

  lemma FiledFromNothing(env: Env, m: Mine, ts: seq<Try>, k: Mine, header: Header)
    requires WellTried(ts) && EnvOk(env) && Files(env, m, ts, k, header)
    requires m.packed == [] && m.receipts == [] && m.rollback == [] && m.errs == [] && m.ignored == []
    ensures k.packed == Those(env, ts, Fits, header) && k.receipts == ReceiptsOf(env, ts, header)
    ensures k.rollback == Those(env, ts, Waits, header) && k.errs == Those(env, ts, Fails, header)
    ensures k.ignored == Those(env, ts, Drops, header)
  {
    hide EnvOk, Those, ReceiptsOf, FateOf;
  }

  // ---- what the fates mean ------------------------------------------------------------------------------------------

  /** The action fails in the same state with any larger pool. */
  ghost predicate Hopeless(env: Env, t: Try, header: Header)
    requires WellFormed(t.m.db) && EnvOk(env)
  {
    forall p: nat :: t.m.pool <= p < TWO64 ==>
      ProcessTransaction(env, t.m.db, p, GasOf(t.m.receipts), t.msg.x, header).Err?
  }

  /** The pool is too low for the action; with the largest pool it would be decided one way or the other. */
  ghost predicate ShortOfPool(env: Env, t: Try, header: Header)
    requires WellFormed(t.m.db) && EnvOk(env)
  {
    && Attempted(env, t, header).Err? && Attempted(env, t, header).error == GasLimitReached
    && Decided(ProcessTransaction(env, t.m.db, TWO64 - 1, GasOf(t.m.receipts), t.msg.x, header))
  }

  lemma FailsIsHopeless(env: Env, t: Try, header: Header)
    requires WellFormed(t.m.db) && EnvOk(env) && FateOf(env, t, header) == Fails
    ensures Hopeless(env, t, header)
  {
    hide EnvOk, ProcessTransaction, GasOf;
    forall p: nat | t.m.pool <= p < TWO64
      ensures ProcessTransaction(env, t.m.db, p, GasOf(t.m.receipts), t.msg.x, header).Err?
    {
      ProcessMore(env, t.m.db, t.m.pool, p - t.m.pool, GasOf(t.m.receipts), t.msg.x, header);
    }
  }

  /** Whatever is deleted as failed would fail with any larger pool. */
  lemma DeletedIsHopeless(env: Env, db: Db, own: seq<Msg>, turns: seq<Turn>, header: Header, msg: Msg)
    requires WellFormed(db) && EnvOk(env) && msg in Pack(env, db, own, turns, header).errs
    ensures exists t :: t in Tries(env, db, own, turns, header) && t.msg == msg && Hopeless(env, t, header)
  {
    hide EnvOk, Pack, Tries, Hopeless, FateOf;
    PackFiles(env, db, own, turns, header);
    var ts := Tries(env, db, own, turns, header);
    assert msg in Those(env, ts, Fails, header);
    var t :| t in ts && t.msg == msg && FateOf(env, t, header) == Fails;
    FailsIsHopeless(env, t, header);
  }

  // ---- with the largest pool ----------------------------------------------------------------------------------------

  lemma PurchaseDecided(db: Db, pool: nat, tx: Tx, gas: u64, free: u64, action: TxAction)
    requires WellFormed(db) && (gas + free) % TWO64 <= Low64(pool)
    ensures var p := PreApply(db, pool, tx, gas, free, action); p.Fail? ==> p.error != GasLimitReached
  {
    hide BuyCost, Fee, Touch, SubBalance, IntrinsicGas, Low64;
  }

  lemma MessageDecided(env: Env, vm: bool, db: Db, pool: nat, tx: Tx, gas: u64, action: TxAction, header: Header)
    requires WellFormed(db) && VmOk(env.vm) && (gas + FreeAt(vm, tx, header)) % TWO64 <= Low64(pool)
    ensures var t := ApplyMessage(env, vm, db, pool, tx, gas, action, header); t.Fail? ==> t.error != GasLimitReached
  {
    hide PreApply, Run, RefundValue, PayOutput, StorageRefund, VmOk, FreeGas, Low64;
    PurchaseDecided(db, pool, tx, gas, FreeAt(vm, tx, header), action);
  }

  lemma RunDecided(env: Env, db: Db, pool: nat, used: nat, tx: Tx, gas: u64, remaining: u64, refund: u64, first: bool,
                   header: Header)
    requires WellFormed(db) && VmOk(env.vm) && (gas + FreeAt(true, tx, header)) % TWO64 <= Low64(pool)
    ensures Decided(RunDeal(env, db, pool, used, tx, gas, remaining, refund, first, header))
  {
    hide ApplyMessage, Funded, Fee, CreateReceipt, SenderFlow, Rebase, SetBalance, Low64, FreeAt, VmOk;
    MessageDecided(env, true, Funded(db, tx.from, Fee(remaining, tx.price) + tx.value), pool, tx, gas, ContractDeal,
                   header);
  }

  lemma AllFits(n: u64)
    ensures n <= Low64(TWO64 - 1)
  {
  }

  /** A rehearsal with the largest pool ends with a receipt. */
  lemma RehearsalEnds(env: Env, db: Db, tx: Tx, gas: u64, idle: bool, first: bool, header: Header)
    requires WellFormed(db) && EnvOk(env) && header.mc != SC && tx.to.Contract? && tx.from.User? && !tx.IsFree()
    requires Fee(gas, tx.price) < TWO64 && !idle
    ensures ApplyDeal(env, db, TWO64 - 1, 0, tx, gas, gas, idle, first, header).Ok?
  {
    hide RunDeal, RunCall, Fee, FreeGas, Low64, VmOk;
    AllFits(gas);
    RunDealErrIff(env, db, TWO64 - 1, 0, tx, gas, gas, 0, first, header);
  }

  lemma DealDecided(env: Env, db: Db, used: nat, x: TxExec, header: Header)
    requires WellFormed(db) && EnvOk(env) && DealReadyToRun(x) && header.number >= 1
    ensures Decided(ApplyDeal(env, db, TWO64 - 1, used, x.tx, Remaining(x), Remaining(x), x.action == SCIdleContractDeal,
                              x.pre.None?, header))
  {
    hide RunDeal, Fee, RehearsalDb, Nonce, FreeAt, Low64, VmOk, CreateReceipt, Rebase;
    var tx, gas, idle, first := x.tx, Remaining(x), x.action == SCIdleContractDeal, x.pre.None?;
    if !(tx.create && header.mc == SC) {
      AllFits((gas + FreeAt(true, tx, header)) % TWO64);
      RunDecided(env, db, TWO64 - 1, used, tx, gas, gas, 0, first, header);
    } else if !idle {
      DeployFacts(x, header);
      var h := Header(env.newContract(Nonce(db.w, header.mc)), 1, 0, 0);
      var d := RehearsalDb(env, tx.from, Fee(gas, tx.price) + tx.value);
      RehearsalEnds(env, d, tx, gas, idle, first, h);
      RehearsalPool(env, d, TWO64 - 1, tx, gas, idle, first, h);
      RehearsalGas(env, d, TWO64 - 1, tx, gas, idle, first, h);
      var n := ApplyDeal(env, d, TWO64 - 1, 0, tx, gas, gas, idle, first, h);
      if !n.receipt.failed {
        SubtractsLow(TWO64 - 1, gas, n.receipt.gasUsed);
        RunDecided(env, db, n.pool, used, tx, ForceSafeSub(gas, n.receipt.gasUsed), gas, n.receipt.gasUsed, first, header);
      }
    }
  }

  /** With the largest pool no action is short of it. */
  lemma PoolHelps(env: Env, db: Db, used: nat, x: TxExec, header: Header)
    requires WellFormed(db) && EnvOk(env) && Fit(x, header)
    ensures Decided(ProcessTransaction(env, db, TWO64 - 1, used, x, header))
  {
    hide ApplyMessage, PreApply, ApplyDeal, CreateReceipt, Fee, Rebase, Revert, Touch, AddBalance, SubBalance,
      BumpNonce, Low64, FreeAt, FreeGas;
    match x.action {
      case TransferPayment =>
        AllFits((x.tx.gas + FreeAt(false, x.tx, header)) % TWO64);
        MessageDecided(env, false, db, TWO64 - 1, x.tx, x.tx.gas, TransferPayment, header);
      case ContractFreeze =>
        var free := if header.mc == SC then FreeGas(x.tx, header.number) else 0;
        AllFits((x.tx.gas + free) % TWO64);
        PurchaseDecided(AddMark(db, x.tx.id, ContractFreeze), TWO64 - 1, x.tx, x.tx.gas, free, ContractFreeze);
      case ContractDeal => DealDecided(env, AddMark(db, x.tx.id, ContractDeal), used, x, header);
      case PowTxContractDeal => DealDecided(env, AddMark(db, x.tx.id, ContractDeal), used, x, header);
      case SCIdleContractDeal => DealDecided(env, AddMark(db, x.tx.id, ContractDeal), used, x, header);
      case _ =>
    }
  }

  // ---- what is put back ---------------------------------------------------------------------------------------------

  lemma {:induction false} OwnAreFit(env: Env, m: Mine, own: seq<Msg>, header: Header)
    requires WellFormed(m.db) && EnvOk(env) && forall msg :: msg in own ==> Fit(msg.x, header)
    ensures forall t :: t in OwnTries(env, m, own, header) ==> Fit(t.msg.x, header)
    decreases |own|
  {
    hide Take, EnvOk, Fit;
    if own != [] {
      OwnAreFit(env, Take(env, m, own[0], header).0, own[1..], header);
    }
  }

  lemma {:induction false} LoopAreFit(env: Env, m: Mine, turns: seq<Turn>, header: Header)
    requires WellFormed(m.db) && EnvOk(env) && FitTurns(turns, header)
    ensures forall t :: t in LoopTries(env, m, turns, header) ==> Fit(t.msg.x, header)
    decreases |turns|
  {
    hide Take, EnvOk, Fit, GoesOn;
    if turns != [] {
      assert turns[0] in turns;
      match turns[0] {
        case Waited => LoopAreFit(env, m, turns[1..], header);
        case Popped(msg) => LoopAreFit(env, Take(env, m, msg, header).0, turns[1..], header);
        case _ =>
      }
    }
  }

  /** Whatever is put back, other than by an interruption, found the unit shut, was too early, or was short of the pool
      only. */
  lemma PutBackIsShort(env: Env, db: Db, own: seq<Msg>, turns: seq<Turn>, header: Header, msg: Msg)
    requires WellFormed(db) && EnvOk(env) && FitPack(own, turns, header)
    requires msg in Those(env, Tries(env, db, own, turns, header), Waits, header)
    ensures exists t :: t in Tries(env, db, own, turns, header) && t.msg == msg
                        && (Shut(t) || msg.verdict == Future || ShortOfPool(env, t, header))
  {
    hide EnvOk, OwnTries, LoopTries, Fit, FateOf, TakeAll, Shut;
    var start := Mine(db, header.gasLimit, [], [], 0, [], [], []);
    OwnAreFit(env, start, own, header);
    LoopAreFit(env, TakeAll(env, start, own, header), turns, header);
    var ts := Tries(env, db, own, turns, header);
    var t :| t in ts && t.msg == msg && FateOf(env, t, header) == Waits;
    WaitsMeans(env, t, header);
  }

  lemma WaitsMeans(env: Env, t: Try, header: Header)
    requires WellFormed(t.m.db) && EnvOk(env) && Fit(t.msg.x, header) && FateOf(env, t, header) == Waits
    ensures Shut(t) || t.msg.verdict == Future || ShortOfPool(env, t, header)
  {
    hide EnvOk, ProcessTransaction, Fit, GasOf;
    PoolHelps(env, t.m.db, GasOf(t.m.receipts), t.msg.x, header);
  }

  // ---- where the gas of the pool goes ---------------------------------------------------------------------------------

  /** What a try takes out of the pool: what its action does, whether it is packed or not. */
  ghost function Taken(env: Env, t: Try, header: Header): (n: int)
    requires WellFormed(t.m.db) && EnvOk(env)
  {
    if Shut(t) || t.msg.verdict != Pass then 0 else t.m.pool - Attempted(env, t, header).pool
  }

  ghost function TakenBy(env: Env, ts: seq<Try>, header: Header): (n: int)
    requires WellTried(ts) && EnvOk(env)
  {
    if ts == [] then 0 else Taken(env, ts[0], header) + TakenBy(env, ts[1..], header)
  }

  lemma {:induction false} TakenJoin(env: Env, ts: seq<Try>, us: seq<Try>, header: Header)
    requires WellTried(ts) && WellTried(us) && EnvOk(env)
    ensures WellTried(ts + us) && TakenBy(env, ts + us, header) == TakenBy(env, ts, header) + TakenBy(env, us, header)
    decreases |ts|
  {
    hide Taken, EnvOk;
    if ts == [] {
      assert ts + us == us;
    } else {
      assert (ts + us)[1..] == ts[1..] + us && (ts + us)[0] == ts[0];
      TakenJoin(env, ts[1..], us, header);
    }
  }

  lemma TakePool(env: Env, m: Mine, msg: Msg, header: Header)
    requires WellFormed(m.db) && EnvOk(env)
    ensures Take(env, m, msg, header).0.pool == m.pool - Taken(env, Try(m, msg), header)
  {
    hide ProcessTransaction, Revert, EnvOk, GasOf;
  }

  lemma TakenFirst(env: Env, t: Try, ts: seq<Try>, header: Header)
    requires WellFormed(t.m.db) && WellTried(ts) && EnvOk(env)
    ensures WellTried([t] + ts) && TakenBy(env, [t] + ts, header) == Taken(env, t, header) + TakenBy(env, ts, header)
  {
    hide Taken, EnvOk;
    assert ([t] + ts)[1..] == ts;
  }

  lemma {:induction false} OwnPool(env: Env, m: Mine, own: seq<Msg>, header: Header)
    requires WellFormed(m.db) && EnvOk(env)
    ensures TakeAll(env, m, own, header).pool + TakenBy(env, OwnTries(env, m, own, header), header) == m.pool
    decreases |own|
  {
    if own != [] {
      hide Take, Taken, EnvOk, TakenBy;
      var n := Take(env, m, own[0], header).0;
      TakePool(env, m, own[0], header);
      OwnPool(env, n, own[1..], header);
      TakenFirst(env, Try(m, own[0]), OwnTries(env, n, own[1..], header), header);
    }
  }

  lemma {:induction false} LoopPool(env: Env, m: Mine, turns: seq<Turn>, header: Header)
    requires WellFormed(m.db) && EnvOk(env)
    ensures Loop(env, m, turns, header).pool + TakenBy(env, LoopTries(env, m, turns, header), header) == m.pool
    decreases |turns|
  {
    if turns != [] {
      hide Take, Taken, EnvOk, GoesOn;
      match turns[0] {
        case Waited => LoopPool(env, m, turns[1..], header);
        case Popped(msg) =>
          var n := Take(env, m, msg, header).0;
          TakePool(env, m, msg, header);
          TakeGoesOn(env, m, msg, header);
          LoopPool(env, n, turns[1..], header);
          var rest := if GoesOn(env, Try(m, msg), header) then LoopTries(env, n, turns[1..], header) else [];
          TakenFirst(env, Try(m, msg), rest, header);
        case _ =>
      }
    }
  }

  /** The gas that is gone from the pool was taken by the messages tried, those that failed included: what they took is
      not given back. */
  lemma PoolAccount(env: Env, db: Db, own: seq<Msg>, turns: seq<Turn>, header: Header)
    requires WellFormed(db) && EnvOk(env)
    ensures Pack(env, db, own, turns, header).pool + TakenBy(env, Tries(env, db, own, turns, header), header)
         == header.gasLimit
  {
    hide Take, Taken, EnvOk, TakenBy, OwnTries, LoopTries;
    var start := Mine(db, header.gasLimit, [], [], 0, [], [], []);
    var n := TakeAll(env, start, own, header);
    OwnPool(env, start, own, header);
    LoopPool(env, n, turns, header);
    TakenJoin(env, OwnTries(env, start, own, header), LoopTries(env, n, turns, header), header);
  }

  // ---- messages without gas -------------------------------------------------------------------------------------------

  /** Does the try count as one without gas? */
  predicate Counts(t: Try) {
    && t.m.pool % TWO64 >= 21000
    && (t.msg.x.action == TransferReceipt || t.msg.x.action == ContractRefund || t.msg.x.action == SCIdleContractDeal)
  }

  function CountOf(ts: seq<Try>): (n: nat) {
    if ts == [] then 0 else (if Counts(ts[0]) then 1 else 0) + CountOf(ts[1..])
  }

  /** Each try finds the count that the earlier ones leave, starting from `n`. */
  ghost predicate Counted(ts: seq<Try>, n: nat) { forall i :: 0 <= i < |ts| ==> ts[i].m.zero == n + CountOf(ts[..i]) }

  lemma CountFirst(t: Try, ts: seq<Try>)
    ensures CountOf([t] + ts) == (if Counts(t) then 1 else 0) + CountOf(ts)
  {
    assert ([t] + ts)[1..] == ts;
  }

  lemma CountedFirst(t: Try, ts: seq<Try>)
    requires Counted(ts, t.m.zero + if Counts(t) then 1 else 0)
    ensures Counted([t] + ts, t.m.zero)
  {
    hide Counts;
    var all := [t] + ts;
    forall i | 0 <= i < |all|
      ensures all[i].m.zero == t.m.zero + CountOf(all[..i])
    {
      if i > 0 {
        assert all[..i] == [t] + ts[..i - 1] && all[i] == ts[i - 1];
        CountFirst(t, ts[..i - 1]);
      }
    }
  }

  lemma {:induction false} CountJoin(ts: seq<Try>, us: seq<Try>)
    ensures CountOf(ts + us) == CountOf(ts) + CountOf(us)
    decreases |ts|
  {
    hide Counts;
    if ts == [] {
      assert ts + us == us;
    } else {
      assert (ts + us)[1..] == ts[1..] + us && (ts + us)[0] == ts[0];
      CountJoin(ts[1..], us);
    }
  }

  lemma CountedJoin(ts: seq<Try>, us: seq<Try>, n: nat)
    requires Counted(ts, n) && Counted(us, n + CountOf(ts))
    ensures Counted(ts + us, n)
  {
    hide CountOf;
    forall i | 0 <= i < |ts + us|
      ensures (ts + us)[i].m.zero == n + CountOf((ts + us)[..i])
    {
      CountBefore(ts, us, i);
    }
  }

  lemma CountBefore(ts: seq<Try>, us: seq<Try>, i: nat)
    requires i < |ts + us|
    ensures CountOf((ts + us)[..i])
         == if i < |ts| then CountOf(ts[..i]) else CountOf(ts) + CountOf(us[..i - |ts|])
  {
    hide CountOf;
    if i < |ts| {
      assert (ts + us)[..i] == ts[..i];
    } else {
      assert (ts + us)[..i] == ts + us[..i - |ts|];
      CountJoin(ts, us[..i - |ts|]);
    }
  }

  lemma TakeCounts(env: Env, m: Mine, msg: Msg, header: Header)
    requires WellFormed(m.db) && EnvOk(env)
    ensures Take(env, m, msg, header).0.zero == m.zero + if Counts(Try(m, msg)) then 1 else 0
  {
    hide ProcessTransaction, Revert, EnvOk, GasOf;
  }

  lemma {:induction false} OwnCounted(env: Env, m: Mine, own: seq<Msg>, header: Header)
    requires WellFormed(m.db) && EnvOk(env)
    ensures var ts := OwnTries(env, m, own, header);
            Counted(ts, m.zero) && TakeAll(env, m, own, header).zero == m.zero + CountOf(ts)
    decreases |own|
  {
    if own != [] {
      hide Take, EnvOk, CountOf, Counts, Counted;
      var n := Take(env, m, own[0], header).0;
      TakeCounts(env, m, own[0], header);
      OwnCounted(env, n, own[1..], header);
      CountFirst(Try(m, own[0]), OwnTries(env, n, own[1..], header));
      CountedFirst(Try(m, own[0]), OwnTries(env, n, own[1..], header));
    }
  }

  lemma {:induction false} LoopCounted(env: Env, m: Mine, turns: seq<Turn>, header: Header)
    requires WellFormed(m.db) && EnvOk(env)
    ensures Counted(LoopTries(env, m, turns, header), m.zero)
    decreases |turns|
  {
    if turns != [] {
      hide Take, EnvOk, GoesOn, Counts, CountOf;
      match turns[0] {
        case Waited => LoopCounted(env, m, turns[1..], header);
        case Popped(msg) =>
          var n := Take(env, m, msg, header).0;
          TakeCounts(env, m, msg, header);
          LoopCounted(env, n, turns[1..], header);
          var rest := if GoesOn(env, Try(m, msg), header) then LoopTries(env, n, turns[1..], header) else [];
          CountedFirst(Try(m, msg), rest);
        case _ =>
      }
    }
  }

  /** The count a message meets is the number of messages without gas taken before it, while the pool held 21000. */
  lemma NoGasIsCounted(env: Env, db: Db, own: seq<Msg>, turns: seq<Turn>, header: Header, i: nat)
    requires WellFormed(db) && EnvOk(env) && i < |Tries(env, db, own, turns, header)|
    ensures var ts := Tries(env, db, own, turns, header);
            ts[i].m.zero == CountOf(ts[..i])
  {
    hide Take, EnvOk, OwnTries, LoopTries, CountOf, Counts;
    var start := Mine(db, header.gasLimit, [], [], 0, [], [], []);
    var n := TakeAll(env, start, own, header);
    OwnCounted(env, start, own, header);
    LoopCounted(env, n, turns, header);
    CountedJoin(OwnTries(env, start, own, header), LoopTries(env, n, turns, header), 0);
  }
}
