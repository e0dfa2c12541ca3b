/** A set of keys with values inside a key-value database: a length, the keys by index, the index of every key, and the
    values. */
module DataSet {
  type Byte = n: nat | n < 256
  type Bytes = seq<Byte>
  type Db = map<Bytes, Bytes>

  const LIMIT: nat := 0x1_0000_0000

  // ---- numbers in four bytes ----------------------------------------------------------------------------------------

  function FromNumber(n: nat): (b: Bytes)
    requires n < LIMIT
    ensures |b| == 4
  {
    [n / 0x100_0000, n / 0x1_0000 % 256, n / 256 % 256, n % 256]
  }

  /** Nothing stored counts as zero. */
  function ToNumber(b: Bytes): (n: nat)
    ensures n < LIMIT
  {
    if |b| < 4 then 0 else b[0] as nat * 0x100_0000 + b[1] as nat * 0x1_0000 + b[2] as nat * 256 + b[3]
  }

  lemma NumberBack(n: nat)
    requires n < LIMIT
    ensures ToNumber(FromNumber(n)) == n
  {
    var a, b := n / 256, n / 0x1_0000;
    assert n == a * 256 + n % 256;
    assert a / 256 == b && a == b * 256 + a % 256;
    assert b / 256 == n / 0x100_0000 && b == b / 256 * 256 + b % 256;
  }

  /** The first of two strings of bytes comes first in the database. */
  predicate Before(a: Bytes, b: Bytes, k: nat) { k < |a| && k < |b| && a[..k] == b[..k] && a[k] < b[k] }

  /** Of two numbers of which one is smaller, the upper parts are equal or one is smaller; if they are equal, so are the
      lower. */
  lemma Parts(m: nat, n: nat)
    requires m < n
    ensures m / 256 < n / 256 || (m / 256 == n / 256 && m % 256 < n % 256)
  {
    assert m == m / 256 * 256 + m % 256 && n == n / 256 * 256 + n % 256;
  }

  lemma Uppers(n: nat)
    ensures n / 256 / 256 == n / 0x1_0000 && n / 0x1_0000 / 256 == n / 0x100_0000
  {
  }

  /** Indices sort in the database as the numbers they are. */
  lemma IndicesSort(m: nat, n: nat) returns (k: nat)
    requires m < n < LIMIT
    ensures Before(FromNumber(m), FromNumber(n), k)
  {
    Uppers(m);
    Uppers(n);
    Parts(m, n);
    if m / 256 == n / 256 {
      k := 3;
    } else {
      Parts(m / 256, n / 256);
      if m / 0x1_0000 == n / 0x1_0000 {
        k := 2;
      } else {
        Parts(m / 0x1_0000, n / 0x1_0000);
        k := if m / 0x100_0000 == n / 0x100_0000 then 1 else 0;
      }
    }
  }

  // ---- the tables ---------------------------------------------------------------------------------------------------

  function Get(db: Db, k: Bytes): (v: Bytes) { if k in db then db[k] else [] }

  /** The rows of a set: "_length", "_i_" and an index, "_k_" and a key, "_v_" and a key. */
  datatype Row = Length | Index(i: nat) | Key(key: Bytes) | Value(key: Bytes)

  predicate RowOk(r: Row) { r.Index? ==> r.i < LIMIT }

  function SubKey(set_: Bytes, r: Row): (k: Bytes)
    requires RowOk(r)
  {
    match r
    case Length => set_ + [95, 108, 101, 110, 103, 116, 104]
    case Index(i) => set_ + [95, 105, 95] + FromNumber(i)
    case Key(key) => set_ + [95, 107, 95] + key
    case Value(key) => set_ + [95, 118, 95] + key
  }

  function Text(s: string): (b: Bytes)
    ensures |b| == |s|
    ensures forall i :: 0 <= i < |s| ==> b[i] == s[i] as nat % 256
  {
    if s == [] then [] else Text(s[..|s| - 1]) + [s[|s| - 1] as nat % 256]
  }

  /** What the keys read. */
  lemma SubKeyReads(set_: Bytes, key: Bytes, i: nat)
    requires i < LIMIT
    ensures SubKey(set_, Length) == set_ + Text("_length")
    ensures SubKey(set_, Index(i)) == set_ + Text("_i_") + FromNumber(i)
    ensures SubKey(set_, Key(key)) == set_ + Text("_k_") + key
    ensures SubKey(set_, Value(key)) == set_ + Text("_v_") + key
  {
    hide FromNumber;
    assert Text("_length") == [95, 108, 101, 110, 103, 116, 104];
    assert Text("_i_") == [95, 105, 95] && Text("_k_") == [95, 107, 95] && Text("_v_") == [95, 118, 95];
  }

  /** No two rows share a database key. */
  lemma SubKeyOnce(set_: Bytes, r: Row, q: Row)
    requires RowOk(r) && RowOk(q) && SubKey(set_, r) == SubKey(set_, q)
    ensures r == q
  {
    hide FromNumber;
    var n := |set_|;
    assert SubKey(set_, r)[n + 1] == SubKey(set_, q)[n + 1];
    match r
    case Length =>
    case Index(i) =>
      assert SubKey(set_, r)[n + 3..] == FromNumber(i) && SubKey(set_, q)[n + 3..] == FromNumber(q.i);
      NumberBack(i);
      NumberBack(q.i);
    case Key(key) => assert SubKey(set_, r)[n + 3..] == key && SubKey(set_, q)[n + 3..] == q.key;
    case Value(key) => assert SubKey(set_, r)[n + 3..] == key && SubKey(set_, q)[n + 3..] == q.key;
  }

  function Look(db: Db, set_: Bytes, r: Row): (v: Bytes)
    requires RowOk(r)
  {
    Get(db, SubKey(set_, r))
  }

  function Put(db: Db, set_: Bytes, r: Row, v: Bytes): (after: Db)
    requires RowOk(r)
  {
    db[SubKey(set_, r) := v]
  }

  /** A write changes its own row only. */
  lemma PutLook(db: Db, set_: Bytes, r: Row, v: Bytes, q: Row)
    requires RowOk(r) && RowOk(q)
    ensures Look(Put(db, set_, r, v), set_, q) == if q == r then v else Look(db, set_, q)
  {
    hide SubKey;
    if SubKey(set_, q) == SubKey(set_, r) {
      SubKeyOnce(set_, q, r);
    }
  }

  // ---- operations ---------------------------------------------------------------------------------------------------

  function Len(db: Db, set_: Bytes): (n: nat)
    ensures n < LIMIT
  {
    ToNumber(Look(db, set_, Length))
  }

  /** The index of a key, if it is there. The subtraction is one of 32 bits. */
  function Exist(db: Db, set_: Bytes, key: Bytes): (r: (nat, bool))
    ensures r.0 < LIMIT
  {
    var v := Look(db, set_, Key(key));
    if |v| == 0 then (0, false) else ((ToNumber(v) + LIMIT - 1) % LIMIT, true)
  }

  function Updated(db: Db, set_: Bytes, index: nat, key: Bytes, value: Bytes): (after: Db)
    requires index < LIMIT
  {
    var a := Put(db, set_, Index(index), key);
    var b := Put(a, set_, Key(key), FromNumber((index + 1) % LIMIT));
    if |value| > 0 then Put(b, set_, Value(key), value) else b
  }

  function Cleared(db: Db, set_: Bytes, index: nat, key: Bytes): (after: Db)
    requires index < LIMIT
  {
    Put(Put(Put(db, set_, Index(index), []), set_, Key(key), []), set_, Value(key), [])
  }

  function Added(db: Db, set_: Bytes, key: Bytes, value: Bytes): (r: (Db, nat)) {
    var (index, ok) := Exist(db, set_, key);
    if ok then (db, index)
    else
      var n := Len(db, set_);
      var longer := Put(db, set_, Length, FromNumber((n + 1) % LIMIT));
      (Updated(longer, set_, n, key, value), n)
  }

  function RemovedAt(db: Db, set_: Bytes, index: nat): (r: (Db, Bytes))
    requires index < LIMIT
  {
    var n := Len(db, set_);
    var key := Look(db, set_, Index(index));
    if n == 0 || |key| == 0 then (db, [])
    else
      var after := if n - 1 == index then Cleared(db, set_, index, key) else Moved(db, set_, index, key, n - 1);
      (Shorter(after, set_), key)
  }

  /** The last key takes the place of the removed one. */
  function Moved(db: Db, set_: Bytes, index: nat, key: Bytes, last: nat): (after: Db)
    requires index < LIMIT && last < LIMIT
  {
    var lastKey := Look(db, set_, Index(last));
    var lastValue := Look(db, set_, Value(lastKey));
    Updated(Cleared(Cleared(db, set_, last, lastKey), set_, index, key), set_, index, lastKey, lastValue)
  }

  function Shorter(db: Db, set_: Bytes): (after: Db) {
    var n := Len(db, set_);
    if n == 0 then db else Put(db, set_, Length, FromNumber(n - 1))
  }

  function Removed(db: Db, set_: Bytes, key: Bytes): (r: (Db, bool)) {
    var (index, ok) := Exist(db, set_, key);
    if !ok then (db, false) else (RemovedAt(db, set_, index).0, true)
  }

  // ---- what the tables denote ---------------------------------------------------------------------------------------

  datatype Item = Item(key: Bytes, value: Bytes)

  /** The place of a key among the items, or -1. */
  function Place(items: seq<Item>, key: Bytes): (i: int)
    ensures -1 <= i < |items| && (i >= 0 ==> items[i].key == key)
    ensures i == -1 <==> forall j :: 0 <= j < |items| ==> items[j].key != key
  {
    if items == [] then -1
    else if items[|items| - 1].key == key then |items| - 1
    else Place(items[..|items| - 1], key)
  }

  predicate Proper(items: seq<Item>) {
    && |items| < LIMIT
    && (forall i :: 0 <= i < |items| ==> items[i].key != [])
    && (forall i, j :: 0 <= i < j < |items| ==> items[i].key != items[j].key)
  }

  /** What a row holds if the set is `items`. */
  function Expected(items: seq<Item>, r: Row): (v: Bytes)
    requires |items| < LIMIT && !r.Length?
  {
    match r
    case Index(i) => if i < |items| then items[i].key else []
    case Key(key) => if Place(items, key) >= 0 then FromNumber((Place(items, key) + 1) % LIMIT) else []
    case Value(key) => if Place(items, key) >= 0 then items[Place(items, key)].value else []
  }

  /** All four tables say the same: the set is `items`, in this order. */
  ghost predicate Denotes(db: Db, set_: Bytes, items: seq<Item>) {
    && Proper(items)
    && Len(db, set_) == |items|
    && forall r: Row {:trigger Look(db, set_, r)} :: RowOk(r) && !r.Length? ==> Look(db, set_, r) == Expected(items, r)
  }

  lemma PlaceIs(items: seq<Item>, key: Bytes, p: nat)
    requires Proper(items) && p < |items| && items[p].key == key
    ensures Place(items, key) == p
  {
  }

  /** A database denotes one set at most. */
  lemma DenotesOnce(db: Db, set_: Bytes, a: seq<Item>, b: seq<Item>)
    requires Denotes(db, set_, a) && Denotes(db, set_, b)
    ensures a == b
  {
    hide Look, Place;
    forall i | 0 <= i < |a|
      ensures a[i] == b[i]
    {
      var key := a[i].key;
      assert Look(db, set_, Index(i)) == key == b[i].key;
      PlaceIs(a, key, i);
      PlaceIs(b, key, i);
      assert Look(db, set_, Value(key)) == a[i].value == b[i].value;
    }
  }

  // ---- what writes do -----------------------------------------------------------------------------------------------

  lemma UpdatedLook(db: Db, set_: Bytes, index: nat, key: Bytes, value: Bytes, q: Row)
    requires index < LIMIT && RowOk(q)
    ensures Look(Updated(db, set_, index, key, value), set_, q)
         == if q == Index(index) then key
            else if q == Key(key) then FromNumber((index + 1) % LIMIT)
            else if q == Value(key) && |value| > 0 then value
            else Look(db, set_, q)
  {
    hide Look, Put, FromNumber;
    var a := Put(db, set_, Index(index), key);
    var b := Put(a, set_, Key(key), FromNumber((index + 1) % LIMIT));
    PutLook(db, set_, Index(index), key, q);
    PutLook(a, set_, Key(key), FromNumber((index + 1) % LIMIT), q);
    PutLook(b, set_, Value(key), value, q);
  }

  lemma ClearedLook(db: Db, set_: Bytes, index: nat, key: Bytes, q: Row)
    requires index < LIMIT && RowOk(q)
    ensures Look(Cleared(db, set_, index, key), set_, q)
         == if q == Index(index) || q == Key(key) || q == Value(key) then [] else Look(db, set_, q)
  {
    hide Look, Put;
    var a := Put(db, set_, Index(index), []);
    var b := Put(a, set_, Key(key), []);
    PutLook(db, set_, Index(index), [], q);
    PutLook(a, set_, Key(key), [], q);
    PutLook(b, set_, Value(key), [], q);
  }

  lemma MovedLook(db: Db, set_: Bytes, index: nat, key: Bytes, last: nat, lastKey: Bytes, lastValue: Bytes, q: Row)
    requires index < LIMIT && last < LIMIT && RowOk(q)
    requires lastKey == Look(db, set_, Index(last)) && lastValue == Look(db, set_, Value(lastKey))
    ensures Look(Moved(db, set_, index, key, last), set_, q)
         == if q == Index(index) then lastKey
            else if q == Key(lastKey) then FromNumber((index + 1) % LIMIT)
            else if q == Value(lastKey) then lastValue
            else if q == Index(last) || q == Key(key) || q == Value(key) then []
            else Look(db, set_, q)
  {
    hide Look, Updated, Cleared, FromNumber;
    var a := Cleared(db, set_, last, lastKey);
    var b := Cleared(a, set_, index, key);
    ClearedLook(db, set_, last, lastKey, q);
    ClearedLook(a, set_, index, key, q);
    UpdatedLook(b, set_, index, lastKey, lastValue, q);
  }

  lemma ShorterLook(db: Db, set_: Bytes, q: Row)
    requires RowOk(q)
    ensures Look(Shorter(db, set_), set_, q)
         == if q == Length && Len(db, set_) > 0 then FromNumber(Len(db, set_) - 1) else Look(db, set_, q)
  {
    hide Look, Put, FromNumber, ToNumber;
    if Len(db, set_) > 0 {
      PutLook(db, set_, Length, FromNumber(Len(db, set_) - 1), q);
    }
  }

  // ---- adding -------------------------------------------------------------------------------------------------------

  datatype Op = Add(key: Bytes, value: Bytes) | Remove(key: Bytes) | RemoveIndex(i: nat)

  /** A new key must not be empty and must leave room for the count. */
  predicate Fits(items: seq<Item>, op: Op) {
    op.Add? && Place(items, op.key) == -1 ==> op.key != [] && |items| + 1 < LIMIT
  }

  function WithItem(items: seq<Item>, key: Bytes, value: Bytes): (r: seq<Item>) {
    if Place(items, key) >= 0 then items else items + [Item(key, value)]
  }

  lemma PlaceSnoc(items: seq<Item>, it: Item, key: Bytes)
    ensures Place(items + [it], key) == if it.key == key then |items| else Place(items, key)
  {
    assert (items + [it])[..|items|] == items;
  }

  /** A key is found just where it is. */
  lemma ExistIff(db: Db, set_: Bytes, items: seq<Item>, key: Bytes)
    requires Denotes(db, set_, items)
    ensures Exist(db, set_, key) == if Place(items, key) >= 0 then (Place(items, key), true) else (0, false)
  {
    hide Look, FromNumber, ToNumber, Place;
    var p := Place(items, key);
    assert Look(db, set_, Key(key)) == Expected(items, Key(key));
    if p >= 0 {
      NumberBack(p + 1);
    }
  }

  lemma AddedLook(db: Db, set_: Bytes, items: seq<Item>, key: Bytes, value: Bytes, q: Row)
    requires Denotes(db, set_, items) && Place(items, key) == -1 && RowOk(q)
    ensures Look(Added(db, set_, key, value).0, set_, q)
         == if q == Length then FromNumber((|items| + 1) % LIMIT)
            else if q == Index(|items|) then key
            else if q == Key(key) then FromNumber((|items| + 1) % LIMIT)
            else if q == Value(key) then value
            else Look(db, set_, q)
  {
    hide Look, Put, FromNumber, ToNumber, Updated, Place;
    ExistIff(db, set_, items, key);
    var longer := Put(db, set_, Length, FromNumber((|items| + 1) % LIMIT));
    UpdatedLook(longer, set_, |items|, key, value, q);
    PutLook(db, set_, Length, FromNumber((|items| + 1) % LIMIT), q);
    assert Look(db, set_, Value(key)) == Expected(items, Value(key));
  }

  /** A key that is not empty joins the set at the end; one that is there already changes nothing. */
  lemma AddDenotes(db: Db, set_: Bytes, items: seq<Item>, key: Bytes, value: Bytes)
    requires Denotes(db, set_, items) && Fits(items, Add(key, value))
    ensures Denotes(Added(db, set_, key, value).0, set_, WithItem(items, key, value))
    ensures Added(db, set_, key, value).1 == Place(WithItem(items, key, value), key)
  {
    hide Look, Put, FromNumber, ToNumber, Updated, Place, Added;
    ExistIff(db, set_, items, key);
    AddedIndex(db, set_, items, key, value);
    if Place(items, key) == -1 {
      var after, more := Added(db, set_, key, value).0, items + [Item(key, value)];
      PlaceSnoc(items, Item(key, value), key);
      forall r: Row | RowOk(r)
        ensures r.Length? ==> Look(after, set_, r) == FromNumber(|items| + 1)
        ensures !r.Length? ==> Look(after, set_, r) == Expected(more, r)
      {
        AddedLook(db, set_, items, key, value, r);
        if r.Key? || r.Value? {
          PlaceSnoc(items, Item(key, value), r.key);
        }
      }
      assert Look(after, set_, Length) == FromNumber(|items| + 1);
      NumberBack(|items| + 1);
    }
  }

  lemma AddedIndex(db: Db, set_: Bytes, items: seq<Item>, key: Bytes, value: Bytes)
    requires Denotes(db, set_, items)
    ensures Place(items, key) >= 0 ==> Added(db, set_, key, value) == (db, Place(items, key))
    ensures Place(items, key) == -1 ==> Added(db, set_, key, value).1 == |items|
  {
    hide Look, Place;
    ExistIff(db, set_, items, key);
  }

  /** Adding a new key keeps a set exactly if the key is not empty and the count does not wrap around. */
  lemma AddKeepsIff(db: Db, set_: Bytes, items: seq<Item>, key: Bytes, value: Bytes)
    requires Denotes(db, set_, items) && Place(items, key) == -1
    ensures (exists more :: Denotes(Added(db, set_, key, value).0, set_, more)) <==> key != [] && |items| + 1 < LIMIT
  {
    hide Look, Put, FromNumber, ToNumber, Updated, Place, Added;
    var after := Added(db, set_, key, value).0;
    if key != [] && |items| + 1 < LIMIT {
      AddDenotes(db, set_, items, key, value);
    } else {
      forall more
        ensures !Denotes(after, set_, more)
      {
        AddedLook(db, set_, items, key, value, Key(key));
        AddedLook(db, set_, items, key, value, Length);
        if Denotes(after, set_, more) {
          assert Look(after, set_, Key(key)) == Expected(more, Key(key));
          NumberBack((|items| + 1) % LIMIT);
        }
      }
    }
  }

  // ---- removing -----------------------------------------------------------------------------------------------------

  function WithoutAt(items: seq<Item>, i: nat): (r: seq<Item>)
    requires i < |items|
  {
    var last := |items| - 1;
    if i == last then items[..last] else items[..last][i := items[last]]
  }

  /** Every other item stays, with its value. */
  lemma OthersStay(items: seq<Item>, i: nat)
    requires Proper(items) && i < |items|
    ensures Proper(WithoutAt(items, i))
    ensures forall it :: it in WithoutAt(items, i) <==> it in items && it != items[i]
  {
    var r, last := WithoutAt(items, i), |items| - 1;
    forall it
      ensures it in r <==> it in items && it != items[i]
    {
      if it in r {
        var j :| 0 <= j < |r| && r[j] == it;
        assert it == items[if j == i then last else j];
      }
      if it in items && it != items[i] {
        var j :| 0 <= j < |items| && items[j] == it;
        assert it == r[if j == last then i else j];
      }
    }
  }

  lemma PlaceWithout(items: seq<Item>, i: nat, key: Bytes)
    requires Proper(items) && i < |items|
    ensures Proper(WithoutAt(items, i))
    ensures Place(WithoutAt(items, i), key)
         == if key == items[i].key then -1
            else if key == items[|items| - 1].key then i
            else Place(items, key)
  {
    var r, p := WithoutAt(items, i), Place(items, key);
    if p >= 0 && p != i {
      PlaceIs(r, key, if p == |items| - 1 then i else p);
    }
  }

  /** The rows once an item is gone. */
  lemma ExpectedWithout(items: seq<Item>, i: nat, q: Row)
    requires Proper(items) && i < |items| && RowOk(q) && !q.Length?
    ensures Expected(WithoutAt(items, i), q)
         == if i < |items| - 1 && q == Index(i) then items[|items| - 1].key
            else if i < |items| - 1 && q == Key(items[|items| - 1].key) then FromNumber((i + 1) % LIMIT)
            else if i < |items| - 1 && q == Value(items[|items| - 1].key) then items[|items| - 1].value
            else if q == Index(|items| - 1) || q == Key(items[i].key) || q == Value(items[i].key) then []
            else Expected(items, q)
  {
    hide FromNumber, Place;
    if !q.Index? {
      PlaceWithout(items, i, q.key);
      PlaceIs(items, items[i].key, i);
    }
  }

  lemma RemovedLook(db: Db, set_: Bytes, items: seq<Item>, i: nat, q: Row)
    requires Denotes(db, set_, items) && i < |items| && RowOk(q)
    ensures RemovedAt(db, set_, i).1 == items[i].key
    ensures Look(RemovedAt(db, set_, i).0, set_, q)
         == if q == Length then FromNumber(|items| - 1) else Expected(WithoutAt(items, i), q)
  {
    hide Look, FromNumber, ToNumber, Place, Expected, WithoutAt, Cleared, Moved, Shorter;
    var it, last := items[i], items[|items| - 1];
    RowsOf(db, set_, items, i);
    LengthWithout(items, i);
    var after := if i == |items| - 1 then Cleared(db, set_, i, it.key) else Moved(db, set_, i, it.key, |items| - 1);
    forall r | RowOk(r)
      ensures r == Length ==> Look(after, set_, r) == Look(db, set_, r)
      ensures r != Length ==> Look(after, set_, r) == Expected(WithoutAt(items, i), r)
    {
      if i == |items| - 1 {
        ClearedLook(db, set_, i, it.key, r);
      } else {
        MovedLook(db, set_, i, it.key, |items| - 1, last.key, last.value, r);
      }
      if r != Length {
        ExpectedWithout(items, i, r);
      }
    }
    ShorterLook(after, set_, q);
  }

  lemma RowsOf(db: Db, set_: Bytes, items: seq<Item>, i: nat)
    requires Denotes(db, set_, items) && i < |items|
    ensures var last := items[|items| - 1];
            && Look(db, set_, Index(i)) == items[i].key != []
            && Look(db, set_, Index(|items| - 1)) == last.key
            && Look(db, set_, Value(last.key)) == last.value
  {
    hide Look, Place;
    PlaceIs(items, items[|items| - 1].key, |items| - 1);
  }

  /** The key at an index leaves and the last one takes its place; an index outside the set changes nothing. */
  lemma RemoveAtDenotes(db: Db, set_: Bytes, items: seq<Item>, i: nat)
    requires Denotes(db, set_, items) && i < LIMIT
    ensures i < |items| ==> Denotes(RemovedAt(db, set_, i).0, set_, WithoutAt(items, i))
                            && RemovedAt(db, set_, i).1 == items[i].key
    ensures i >= |items| ==> RemovedAt(db, set_, i) == (db, [])
  {
    hide Look, FromNumber, ToNumber, Place;
    if i < |items| {
      OthersStay(items, i);
      hide RemovedAt, WithoutAt, Expected;
      var after, fewer := RemovedAt(db, set_, i).0, WithoutAt(items, i);
      forall r: Row | RowOk(r)
        ensures r.Length? ==> Look(after, set_, r) == FromNumber(|items| - 1)
        ensures !r.Length? ==> Look(after, set_, r) == Expected(fewer, r)
      {
        RemovedLook(db, set_, items, i, r);
      }
      assert Look(after, set_, Length) == FromNumber(|items| - 1);
      NumberBack(|items| - 1);
      RemovedLook(db, set_, items, i, Length);
      LengthWithout(items, i);
    } else {
      assert Look(db, set_, Index(i)) == Expected(items, Index(i));
    }
  }

  lemma LengthWithout(items: seq<Item>, i: nat)
    requires i < |items|
    ensures |WithoutAt(items, i)| == |items| - 1
  {
  }

  // ---- every run ----------------------------------------------------------------------------------------------------

  predicate OpOk(op: Op) { op.RemoveIndex? ==> op.i < LIMIT }

  function Apply(db: Db, set_: Bytes, op: Op): (after: Db)
    requires OpOk(op)
  {
    match op
    case Add(key, value) => Added(db, set_, key, value).0
    case Remove(key) => Removed(db, set_, key).0
    case RemoveIndex(i) => RemovedAt(db, set_, i).0
  }

  function ApplyTo(items: seq<Item>, op: Op): (r: seq<Item>) {
    match op
    case Add(key, value) => WithItem(items, key, value)
    case Remove(key) => if Place(items, key) >= 0 then WithoutAt(items, Place(items, key)) else items
    case RemoveIndex(i) => if i < |items| then WithoutAt(items, i) else items
  }

  /** An operation leaves a set exactly if it fits, and then the set it should. */
  lemma OpKeepsIff(db: Db, set_: Bytes, items: seq<Item>, op: Op)
    requires Denotes(db, set_, items) && OpOk(op)
    ensures (exists more :: Denotes(Apply(db, set_, op), set_, more)) <==> Fits(items, op)
    ensures Fits(items, op) ==> Denotes(Apply(db, set_, op), set_, ApplyTo(items, op))
  {
    hide Denotes, Place, Added, RemovedAt, Exist;
    match op
    case Add(key, value) =>
      if Fits(items, op) {
        AddDenotes(db, set_, items, key, value);
        assert Denotes(Apply(db, set_, op), set_, ApplyTo(items, op));
      } else {
        AddKeepsIff(db, set_, items, key, value);
      }
    case Remove(key) =>
      ExistIff(db, set_, items, key);
      if Place(items, key) >= 0 {
        PlaceIsSmall(db, set_, items);
        RemoveAtDenotes(db, set_, items, Place(items, key));
      }
      assert Denotes(Apply(db, set_, op), set_, ApplyTo(items, op));
    case RemoveIndex(i) =>
      RemoveAtDenotes(db, set_, items, i);
      assert Denotes(Apply(db, set_, op), set_, ApplyTo(items, op));
  }

  lemma PlaceIsSmall(db: Db, set_: Bytes, items: seq<Item>)
    requires Denotes(db, set_, items)
    ensures |items| < LIMIT
  {
  }

  function Run(db: Db, set_: Bytes, ops: seq<Op>): (after: Db)
    requires forall op :: op in ops ==> OpOk(op)
  {
    if ops == [] then db else Apply(Run(db, set_, ops[..|ops| - 1]), set_, ops[|ops| - 1])
  }

  function RunOn(items: seq<Item>, ops: seq<Op>): (r: seq<Item>) {
    if ops == [] then items else ApplyTo(RunOn(items, ops[..|ops| - 1]), ops[|ops| - 1])
  }

  predicate RunFits(items: seq<Item>, ops: seq<Op>) {
    ops == [] || (RunFits(items, ops[..|ops| - 1]) && Fits(RunOn(items, ops[..|ops| - 1]), ops[|ops| - 1]))
  }

  /** After any operations that fit, the tables still denote one set without duplicates. */
  lemma {:induction false} RunDenotes(db: Db, set_: Bytes, items: seq<Item>, ops: seq<Op>)
    requires Denotes(db, set_, items) && RunFits(items, ops) && forall op :: op in ops ==> OpOk(op)
    ensures Denotes(Run(db, set_, ops), set_, RunOn(items, ops))
    decreases |ops|
  {
    if ops != [] {
      hide Denotes, Apply, ApplyTo, Fits;
      RunDenotes(db, set_, items, ops[..|ops| - 1]);
      OpKeepsIff(Run(db, set_, ops[..|ops| - 1]), set_, RunOn(items, ops[..|ops| - 1]), ops[|ops| - 1]);
    }
  }

  /** Every set starts empty. */
  lemma EmptyDenotes(db: Db, set_: Bytes)
    requires forall r :: RowOk(r) ==> Look(db, set_, r) == []
    ensures Denotes(db, set_, [])
  {
    assert Look(db, set_, Length) == [];
  }
}
