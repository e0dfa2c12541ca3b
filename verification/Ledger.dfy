/** Accounts, transactions, receipts and the state of one chain. */
module Ledger {
  import opened Sums

  const TWO64: int := 0x1_0000_0000_0000_0000

  /** Unsigned 64-bit integers: staying inside the range is a proof obligation, so no subtraction wraps. */
  type u64 = n: int | 0 <= n < 0x1_0000_0000_0000_0000

  /** An address is an external account or a contract; the prefix of its text form tells which. */
  datatype Address = User(id: nat) | Contract(id: nat)

  /** The system chain's account. */
  const SC: Address := Contract(0)

  datatype TxAction =
    | TransferPayment
    | TransferReceipt
    | ContractFreeze
    | ContractDeal
    | PowTxContractDeal
    | SCIdleContractDeal
    | ContractRefund
    | ContractReceipt

  /** `create`, `idle` and `free` are what the first four bytes of `data` select when sent to the system chain:
      a contract deployment, an idle-chain transaction, the free gas allowance. */
  datatype Tx = Tx(id: nat, from: Address, to: Address, value: nat, gas: u64, price: u64, seed: u64,
                   data: seq<nat>, create: bool, idle: bool, free: u64)
  {
    predicate IsFree() { to == SC && free > 0 }

    /** What the unit validator and the selector table guarantee of a transaction. */
    predicate Valid() {
      && from.User?
      && (create || idle ==> to == SC)
      && (create ==> !idle && !IsFree())
      && (idle ==> IsFree())
      && (IsFree() ==> gas == 0 && price == 0 && value == 0)
      && (!IsFree() ==> gas > 0 && seed == 0 && Fee(gas, price) < TWO64)
    }
  }

  /** The part of a chain's state a virtual machine sees. */
  datatype World = World(bal: map<Address, nat>, nonce: map<Address, nat>, store: int, refund: u64)

  type Mark = (nat, TxAction)

  /** A chain's state: `base` holds, per live account, the balance from which the next receipt measures its flow. */
  datatype Db = Db(w: World, base: map<Address, nat>, marks: set<Mark>)

  predicate WellFormed(db: Db) { db.base.Keys == db.w.bal.Keys }

  function Bal(w: World, a: Address): (r: nat) { if a in w.bal then w.bal[a] else 0 }

  function Nonce(w: World, a: Address): (r: nat) { if a in w.nonce then w.nonce[a] else 0 }

  /** Accounts a chain keeps: its own, and on a contract chain every contract. */
  predicate OnChain(a: Address, chain: Address) { a == chain || (a.Contract? && chain.Contract?) }

  ghost function BalOf(w: World): (f: Address -> int) { (a: Address) => Bal(w, a) as int }

  /** The balances of some accounts, added up. */
  ghost function SumBal(w: World, s: set<Address>): (r: int) { Sum(BalOf(w), s) }

  ghost function Owned(w: World, chain: Address): (s: set<Address>) {
    set a | a in w.bal && OnChain(a, chain)
  }

  /** The value a chain holds for itself. */
  ghost function OwnBalance(db: Db, chain: Address): (r: int) { SumBal(db.w, Owned(db.w, chain)) }

  ghost function TotalBalance(w: World): (r: int) { SumBal(w, w.bal.Keys) }

  /** The price of an amount of gas. */
  function Fee(gas: nat, price: nat): (r: nat) { gas * price }

  // ---- state operations --------------------------------------------------------------------------------------

  /** Creates the account if it is missing. */
  function Touch(db: Db, a: Address): (r: Db)
    requires WellFormed(db)
    ensures WellFormed(r) && a in r.w.bal
    ensures r.marks == db.marks && r.w.(bal := db.w.bal) == db.w
    ensures forall b :: Bal(r.w, b) == Bal(db.w, b)
  {
    if a in db.w.bal then db
    else db.(w := db.w.(bal := db.w.bal[a := 0]), base := db.base[a := 0])
  }

  function SetBalance(db: Db, a: Address, v: nat): (r: Db)
    requires WellFormed(db)
    ensures WellFormed(r) && r.w.bal.Keys == db.w.bal.Keys + {a}
    ensures Bal(r.w, a) == v && forall b :: b != a ==> Bal(r.w, b) == Bal(db.w, b)
    ensures r.marks == db.marks && forall b :: b in db.base ==> r.base[b] == db.base[b]
  {
    var t := Touch(db, a);
    t.(w := t.w.(bal := t.w.bal[a := v]))
  }

  function AddBalance(db: Db, a: Address, v: nat): (r: Db)
    requires WellFormed(db)
    ensures WellFormed(r) && r.w.bal.Keys == db.w.bal.Keys + {a}
    ensures Bal(r.w, a) == Bal(db.w, a) + v && forall b :: b != a ==> Bal(r.w, b) == Bal(db.w, b)
    ensures r.marks == db.marks && forall b :: b in db.base ==> r.base[b] == db.base[b]
  {
    SetBalance(db, a, Bal(db.w, a) + v)
  }

  function SubBalance(db: Db, a: Address, v: nat): (r: Db)
    requires WellFormed(db) && v <= Bal(db.w, a)
    ensures WellFormed(r) && r.w.bal.Keys == db.w.bal.Keys + {a}
    ensures Bal(r.w, a) == Bal(db.w, a) - v && forall b :: b != a ==> Bal(r.w, b) == Bal(db.w, b)
    ensures r.marks == db.marks && forall b :: b in db.base ==> r.base[b] == db.base[b]
  {
    SetBalance(db, a, Bal(db.w, a) - v)
  }

  function BumpNonce(db: Db, a: Address): (r: Db) {
    db.(w := db.w.(nonce := db.w.nonce[a := Nonce(db.w, a) + 1]))
  }

  function AddMark(db: Db, tx: nat, action: TxAction): (r: Db) { db.(marks := db.marks + {(tx, action)}) }

  /** Undoes every journalled change since `snap`; the measuring base is not journalled. */
  function Revert(db: Db, snap: Db): (r: Db)
    requires WellFormed(snap)
    ensures WellFormed(r) && r.w == snap.w && r.marks == snap.marks
  {
    Db(snap.w, snap.base + (db.base - (db.base.Keys - snap.base.Keys)), snap.marks)
  }

  /** Takes over a world a virtual machine produced; accounts it created measure from zero. */
  function WithWorld(db: Db, w: World): (r: Db)
    ensures WellFormed(r) && r.w == w && r.marks == db.marks
  {
    Db(w, (map a | a in w.bal :: 0) + (db.base - (db.base.Keys - w.bal.Keys)), db.marks)
  }

  /** Starts measuring flows afresh from the present balances. */
  function Rebase(db: Db): (r: Db)
    requires WellFormed(db)
    ensures WellFormed(r)
  {
    db.(base := db.w.bal)
  }

  function Base(db: Db, a: Address): (r: nat) { if a in db.base then db.base[a] else 0 }

  /** What an account gained since its flow was last measured. */
  function Diff(db: Db, a: Address): (r: int) { Bal(db.w, a) as int - Base(db, a) as int }

  // ---- receipts ----------------------------------------------------------------------------------------------

  /** `flows` is the coin-flow list: one entry per receiving account. */
  datatype Receipt = Receipt(action: TxAction, failed: bool, gasUsed: u64, gasRemaining: u64, cumulative: nat,
                             flows: map<Address, int>, output: seq<nat>)

  /** A unit header, as far as execution reads it. */
  datatype Header = Header(mc: Address, number: nat, timestamp: nat, gasLimit: u64)
}
