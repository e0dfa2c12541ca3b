/** The miner step by step: popping messages, running them on a snapshot, packing, rolling back. */
module MiningRun {
  import opened Options
  import opened Ledger
  import opened T = Transition
  import P = Processor
  import G = GasLaws
  import opened M = Mining
  import A = Agreement
  import opened StateObjects
  import R = ProcessorRun

  class Miner {
    const env: Env
    const header: Header
    const state: StateDB
    const gp: GasPool
    var packed: seq<Msg>
    var receipts: seq<Receipt>
    var totalGas: nat
    var zeroGasSum: nat
    var rollback: seq<Msg>
    var errs: seq<Msg>
    var ignored: seq<Msg>

    ghost function Value(): (r: Mine)
      reads this, state, gp
    {
      Mine(state.Value(), gp.gas, packed, receipts, zeroGasSum, rollback, errs, ignored)
    }

    ghost predicate Valid()
      reads this, state
    {
      state.Valid() && EnvOk(env) && totalGas == G.GasOf(receipts)
    }

    constructor (env: Env, state: StateDB, header: Header)
      requires state.Valid() && EnvOk(env)
      ensures Valid() && fresh(gp) && this.env == env && this.state == state && this.header == header
      ensures Value() == Mine(state.Value(), header.gasLimit, [], [], 0, [], [], [])
    {
      this.env, this.header, this.state := env, header, state;
      gp := new GasPool(header.gasLimit);
      packed, receipts, totalGas, zeroGasSum := [], [], 0, 0;
      rollback, errs, ignored := [], [], [];
    }

    /** Runs a message on a snapshot and puts the state back if it fails. */
    method HandleTx(msg: Msg) returns (r: R.Result)
      requires Valid()
      modifies state, gp
      ensures Valid()
      ensures var o := P.ProcessTransaction(env, old(state.Value()), old(gp.gas), G.GasOf(receipts), msg.x, header);
              && gp.gas == o.pool
              && state.Value() == (if o.Ok? then o.db else Revert(o.db, old(state.Value())))
              && r == if o.Ok? then R.Done(o.receipt) else R.Failed(o.error)
    {
      hide P.ProcessTransaction, Revert;
      var snap := state.Snapshot();
      r := R.ProcessTransaction(env, state, gp, totalGas, msg.x, header);
      if r.Failed? {
        state.RevertToSnapshot(snap);
      }
    }

    method AttemptTx(msg: Msg) returns (go: bool)
      requires Valid()
      modifies this, state, gp
      ensures Valid() && (Value(), go) == Attempt(env, old(Value()), msg, header)
    {
      hide P.ProcessTransaction, Revert, EnvOk, G.GasOf;
      ghost var m := Value();
      ghost var o := P.ProcessTransaction(env, m.db, m.pool, G.GasOf(m.receipts), msg.x, header);
      var r := HandleTx(msg);
      if r.Failed? {
        if r.error == GasLimitReached {
          rollback := rollback + [msg];
          return packed == [];
        }
        errs := errs + [msg];
        return true;
      }
      GasSnoc(receipts, r.receipt);
      receipts, totalGas := receipts + [r.receipt], totalGas + r.receipt.gasUsed;
      packed := packed + [msg];
      go := |packed| <= MAX_INDEX;
    }

    /** Takes one message; false means that the unit is full. */
    method ProcessTx(msg: Msg) returns (go: bool)
      requires Valid()
      modifies this, state, gp
      ensures Valid() && (Value(), go) == Take(env, old(Value()), msg, header)
    {
      hide Attempt, EnvOk;
      if gp.Gas() < TX_GAS {
        rollback := rollback + [msg];
        return false;
      }
      if UsesNoGas(msg.x.action) {
        zeroGasSum := zeroGasSum + 1;
        if zeroGasSum >= ZERO_GAS_MAX {
          rollback := rollback + [msg];
          return false;
        }
      }
      match msg.verdict {
        case Future =>
          rollback := rollback + [msg];
          go := true;
        case Invalid =>
          ignored := ignored + [msg];
          go := true;
        case Pass =>
          go := AttemptTx(msg);
      }
    }

    /** Packs its own messages first, then pops the queue until time is up, the unit is full, or an interruption. */
    method PackTxs(own: seq<Msg>, turns: seq<Turn>)
      requires Valid() && Value() == Mine(state.Value(), header.gasLimit, [], [], 0, [], [], [])
      modifies this, state, gp
      ensures Valid() && Value() == Pack(env, old(state.Value()), own, turns, header)
    {
      hide Take, EnvOk;
      ghost var start := Value();
      for i := 0 to |own|
        invariant Valid() && TakeAll(env, start, own, header) == TakeAll(env, Value(), own[i..], header)
      {
        assert own[i..][1..] == own[i + 1..];
        var go := ProcessTx(own[i]);
      }
      ghost var mid := Value();
      assert mid == TakeAll(env, start, own, header);
      var i := 0;
      while i < |turns|
        invariant 0 <= i <= |turns| && Valid()
        invariant Loop(env, mid, turns, header) == Loop(env, Value(), turns[i..], header)
      {
        assert turns[i..][1..] == turns[i + 1..];
        match turns[i] {
          case TimedOut => return;
          case Interrupted =>
            rollback := rollback + packed;
            return;
          case Waited =>
          case Popped(msg) =>
            var go := ProcessTx(msg);
            if !go {
              return;
            }
        }
        i := i + 1;
      }
    }
  }

  /** A unit built from scratch and replayed on the state it was built on: the replay succeeds, with the same accounts
      and gas, and the same receipts exactly if each hides what failed messages did to the bases; it gives the same
      state and receipts if no message resets a base and then fails. */
  method MineAndReplay(env: Env, db: Db, own: seq<Msg>, turns: seq<Turn>, header: Header)
    returns (mined: seq<Receipt>, replayed: Option<(seq<Receipt>, nat)>, there: Db, here: Db)
    requires WellFormed(db) && EnvOk(env)
    ensures replayed.Some? && A.Alike(replayed.value.0, mined) && replayed.value.1 == G.GasOf(mined) && A.Like(here, there)
    ensures replayed.value.0 == mined <==> A.HiddenPack(env, db, own, turns, header)
    ensures FitPack(own, turns, header) && CleanPack(env, db, own, turns, header) ==>
              replayed.value.0 == mined && there == here
  {
    hide CleanPack, A.HiddenPack, Pack, FitPack, EnvOk, M.Process, A.Alike, A.Like, G.GasOf;
    var s1 := new StateDB(db);
    var miner := new Miner(env, s1, header);
    miner.PackTxs(own, turns);
    mined := miner.receipts;
    there := miner.state.Snapshot();
    A.ReplayAlwaysSucceeds(env, db, own, turns, header);
    if FitPack(own, turns, header) && CleanPack(env, db, own, turns, header) {
      MinerAndValidatorAgree(env, db, own, turns, header);
    }
    var s2 := new StateDB(db);
    replayed := R.Process(env, s2, Actions(miner.packed), header);
    here := s2.Snapshot();
  }
}
