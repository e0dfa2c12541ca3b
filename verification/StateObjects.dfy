/** The objects execution updates in place: the gas pool and the state of one chain. */
module StateObjects {
  import opened Options
  import opened Ledger
  import T = Transition

  /** The accounts a list of changes names. */
  ghost function Names(logs: seq<(Address, int)>): (s: set<Address>) {
    if logs == [] then {} else Names(logs[..|logs| - 1]) + {logs[|logs| - 1].0}
  }

  lemma NamesSnoc(logs: seq<(Address, int)>, l: (Address, int))
    ensures Names(logs + [l]) == Names(logs) + {l.0}
  {
    assert (logs + [l])[..|logs|] == logs;
  }

  /** Lists, account by account, how far balances are from their bases. */
  method ListChanges(bal: map<Address, nat>, base: map<Address, nat>) returns (logs: seq<(Address, int)>)
    requires base.Keys == bal.Keys
    ensures forall i :: 0 <= i < |logs| ==>
              logs[i].0 in bal && logs[i].1 == bal[logs[i].0] as int - base[logs[i].0] as int
    ensures Names(logs) == bal.Keys
    ensures forall i, j :: 0 <= i < j < |logs| ==> logs[i].0 != logs[j].0
  {
    logs := [];
    var todo := bal.Keys;
    while todo != {}
      invariant todo <= bal.Keys && Names(logs) == bal.Keys - todo
      invariant forall i :: 0 <= i < |logs| ==>
                  logs[i].0 in bal.Keys - todo && logs[i].1 == bal[logs[i].0] as int - base[logs[i].0] as int
      invariant forall i, j :: 0 <= i < j < |logs| ==> logs[i].0 != logs[j].0
      decreases |todo|
    {
      var a :| a in todo;
      var change := (a, bal[a] as int - base[a] as int);
      NamesSnoc(logs, change);
      logs := logs + [change];
      todo := todo - {a};
    }
  }

  class GasPool {
    var gas: nat

    constructor (amount: nat)
      ensures gas == amount
    {
      gas := amount;
    }

    method AddGas(amount: nat)
      modifies this
      ensures gas == old(gas) + amount
    {
      gas := gas + amount;
    }

    /** Withdraws the amount, or leaves the pool alone when its low word does not cover it. */
    method SubGas(amount: u64) returns (ok: bool)
      modifies this
      ensures T.SubGas(old(gas), amount) == if ok then Some(gas) else None
      ensures !ok ==> gas == old(gas)
    {
      ok := T.Low64(gas) >= amount;
      if ok {
        gas := gas - amount;
      }
    }

    function Gas(): (r: u64)
      reads this
    {
      T.Low64(gas)
    }
  }

  class StateDB {
    var w: World
    var base: map<Address, nat>
    var marks: set<Mark>

    ghost function Value(): (r: Db)
      reads this
    {
      Db(w, base, marks)
    }

    ghost predicate Valid()
      reads this
    {
      WellFormed(Value())
    }

    constructor (db: Db)
      requires WellFormed(db)
      ensures Valid() && Value() == db
    {
      w, base, marks := db.w, db.base, db.marks;
    }

    /** Creates the account if it does not exist. */
    method GetOrNew(a: Address)
      requires Valid()
      modifies this
      ensures Valid() && Value() == Touch(old(Value()), a)
    {
      if a !in w.bal {
        w := w.(bal := w.bal[a := 0]);
        base := base[a := 0];
      }
    }

    method SetBalance(a: Address, v: nat)
      requires Valid()
      modifies this
      ensures Valid() && Value() == Ledger.SetBalance(old(Value()), a, v)
    {
      GetOrNew(a);
      w := w.(bal := w.bal[a := v]);
    }

    method AddBalance(a: Address, v: nat)
      requires Valid()
      modifies this
      ensures Valid() && Value() == Ledger.AddBalance(old(Value()), a, v)
    {
      var b := Bal(w, a);
      SetBalance(a, b + v);
    }

    method SubBalance(a: Address, v: nat)
      requires Valid() && v <= Bal(w, a)
      modifies this
      ensures Valid() && Value() == Ledger.SubBalance(old(Value()), a, v)
    {
      var b := Bal(w, a);
      SetBalance(a, b - v);
    }

    /** Advances the nonce of an account. */
    method BumpNonce(a: Address)
      requires Valid()
      modifies this
      ensures Valid() && Value() == Ledger.BumpNonce(old(Value()), a)
    {
      w := w.(nonce := w.nonce[a := Nonce(w, a) + 1]);
    }

    method SetMark(tx: nat, action: TxAction)
      requires Valid()
      modifies this
      ensures Valid() && Value() == AddMark(old(Value()), tx, action)
    {
      marks := marks + {(tx, action)};
    }

    method Snapshot() returns (snap: Db)
      ensures snap == Value()
    {
      snap := Db(w, base, marks);
    }

    /** Undoes what is journalled; the measuring bases of accounts that still exist stay as they are. */
    method RevertToSnapshot(snap: Db)
      requires Valid() && WellFormed(snap)
      modifies this
      ensures Valid() && Value() == Revert(old(Value()), snap)
    {
      w, marks := snap.w, snap.marks;
      base := snap.base + (base - (base.Keys - snap.base.Keys));
    }

    method ResetInitBalance(a: Address, amount: nat)
      requires Valid() && a in w.bal
      modifies this
      ensures Valid() && Value() == old(Value()).(base := old(base)[a := amount])
    {
      base := base[a := amount];
    }

    /** Takes over what a virtual machine made of the accounts. */
    method Adopt(v: World)
      requires Valid()
      modifies this
      ensures Valid() && Value() == WithWorld(old(Value()), v)
    {
      base := (map a | a in v.bal :: 0) + (base - (base.Keys - v.bal.Keys));
      w := v;
    }

    /** Lists what every account gained since the last call, each account once, and starts measuring afresh. */
    method GetBalanceChanged() returns (logs: seq<(Address, int)>)
      requires Valid()
      modifies this
      ensures Valid() && Value() == Rebase(old(Value()))
      ensures forall i :: 0 <= i < |logs| ==> logs[i].0 in w.bal && logs[i].1 == Diff(old(Value()), logs[i].0)
      ensures Names(logs) == w.bal.Keys
      ensures forall i, j :: 0 <= i < j < |logs| ==> logs[i].0 != logs[j].0
    {
      logs := ListChanges(w.bal, base);
      base := w.bal;
    }
  }
}
