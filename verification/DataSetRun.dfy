/** The operations on the database, one read or write after the other. */
module DataSetRun {
  import opened DataSet

  class Database {
    var data: Db

    constructor ()
      ensures data == map[]
    {
      data := map[];
    }

    method GetRow(set_: Bytes, r: Row) returns (v: Bytes)
      requires RowOk(r)
      ensures v == Look(data, set_, r)
    {
      var k := SubKey(set_, r);
      v := if k in data then data[k] else [];
    }

    method PutRow(set_: Bytes, r: Row, v: Bytes)
      requires RowOk(r)
      modifies this
      ensures data == Put(old(data), set_, r, v)
    {
      data := data[SubKey(set_, r) := v];
    }

    method Length(set_: Bytes) returns (n: nat)
      ensures n == Len(data, set_)
    {
      var v := GetRow(set_, Row.Length);
      n := ToNumber(v);
    }

    method SubLen(set_: Bytes)
      modifies this
      ensures data == Shorter(old(data), set_)
    {
      var n := Length(set_);
      if n > 0 {
        PutRow(set_, Row.Length, FromNumber(n - 1));
      }
    }

    method AddLen(set_: Bytes) returns (n: nat)
      modifies this
      ensures n == Len(old(data), set_)
      ensures data == Put(old(data), set_, Row.Length, FromNumber((n + 1) % LIMIT))
    {
      n := Length(set_);
      PutRow(set_, Row.Length, FromNumber((n + 1) % LIMIT));
    }

    method Update(set_: Bytes, index: nat, key: Bytes, value: Bytes)
      requires index < LIMIT
      modifies this
      ensures data == Updated(old(data), set_, index, key, value)
    {
      PutRow(set_, Index(index), key);
      PutRow(set_, Key(key), FromNumber((index + 1) % LIMIT));
      if |value| > 0 {
        PutRow(set_, Value(key), value);
      }
    }

    method Clear(set_: Bytes, index: nat, key: Bytes)
      requires index < LIMIT
      modifies this
      ensures data == Cleared(old(data), set_, index, key)
    {
      PutRow(set_, Index(index), []);
      PutRow(set_, Key(key), []);
      PutRow(set_, Value(key), []);
    }

    method Contains(set_: Bytes, key: Bytes) returns (index: nat, ok: bool)
      ensures (index, ok) == Exist(data, set_, key)
      ensures forall items: seq<Item> :: Denotes(data, set_, items) ==>
                ok == (Place(items, key) >= 0) && (ok ==> index == Place(items, key))
    {
      forall items: seq<Item> | Denotes(data, set_, items)
        ensures Exist(data, set_, key) == if Place(items, key) >= 0 then (Place(items, key), true) else (0, false)
      {
        ExistIff(data, set_, items, key);
      }
      var v := GetRow(set_, Key(key));
      if |v| == 0 {
        return 0, false;
      }
      return (ToNumber(v) + LIMIT - 1) % LIMIT, true;
    }

    method AddWithValue(set_: Bytes, key: Bytes, value: Bytes) returns (index: nat)
      modifies this
      ensures (data, index) == Added(old(data), set_, key, value)
      ensures forall items: seq<Item> :: Denotes(old(data), set_, items) && Fits(items, Add(key, value)) ==>
                && Denotes(data, set_, WithItem(items, key, value))
                && index == Place(WithItem(items, key, value), key)
    {
      hide Denotes, Updated, Put, Len, Exist;
      forall items: seq<Item> | Denotes(data, set_, items) && Fits(items, Add(key, value))
        ensures Denotes(Added(data, set_, key, value).0, set_, WithItem(items, key, value))
        ensures Added(data, set_, key, value).1 == Place(WithItem(items, key, value), key)
      {
        AddDenotes(data, set_, items, key, value);
      }
      var ok;
      index, ok := Contains(set_, key);
      if ok {
        return;
      }
      index := AddLen(set_);
      Update(set_, index, key, value);
    }

    method RemoveByIndex(set_: Bytes, index: nat) returns (key: Bytes)
      requires index < LIMIT
      modifies this
      ensures (data, key) == RemovedAt(old(data), set_, index)
      ensures forall items: seq<Item> :: Denotes(old(data), set_, items) && index < |items| ==>
                Denotes(data, set_, WithoutAt(items, index)) && key == items[index].key
    {
      hide Denotes, Updated, Cleared, Shorter, Put, Len, Look;
      forall items: seq<Item> | Denotes(data, set_, items) && index < |items|
        ensures Denotes(RemovedAt(data, set_, index).0, set_, WithoutAt(items, index))
        ensures RemovedAt(data, set_, index).1 == items[index].key
      {
        RemoveAtDenotes(data, set_, items, index);
      }
      var n := Length(set_);
      if n == 0 {
        return [];
      }
      key := GetRow(set_, Index(index));
      if |key| == 0 {
        return;
      }
      if n - 1 == index {
        Clear(set_, index, key);
      } else {
        n := Length(set_);
        var last := n - 1;
        var lastKey := GetRow(set_, Index(last));
        var lastValue := GetRow(set_, Value(lastKey));
        Clear(set_, last, lastKey);
        Clear(set_, index, key);
        Update(set_, index, lastKey, lastValue);
      }
      SubLen(set_);
    }

    method Remove(set_: Bytes, key: Bytes) returns (ok: bool)
      modifies this
      ensures (data, ok) == Removed(old(data), set_, key)
      ensures forall items: seq<Item> :: Denotes(old(data), set_, items) ==>
                && ok == (Place(items, key) >= 0)
                && Denotes(data, set_, if ok then WithoutAt(items, Place(items, key)) else items)
    {
      hide Denotes, RemovedAt, Exist, WithoutAt;
      var index;
      index, ok := Contains(set_, key);
      if ok {
        var removed := RemoveByIndex(set_, index);
      }
    }

    /** Calls `f` on one key after the other until it says stop; `visited` are the calls. */
    method Range(set_: Bytes, f: (nat, Bytes) -> bool) returns (visited: seq<Bytes>)
      ensures forall items: seq<Item> :: Denotes(data, set_, items) ==> Visits(items, f, visited)
    {
      hide Look, Place, Len, Denotes, Visits;
      var n := Length(set_);
      visited := [];
      var i := 0;
      while i < n
        invariant 0 <= i <= n && |visited| == i
        invariant Went(data, set_, f, visited)
      {
        var key := GetRow(set_, Index(i));
        if |key| == 0 {
          break;
        }
        if !f(i, key) {
          forall items: seq<Item> | Denotes(data, set_, items)
            ensures Visits(items, f, visited + [key])
          {
            WentUpTo(data, set_, items, f, visited, key);
          }
          return visited + [key];
        }
        visited := visited + [key];
        i := i + 1;
      }
      forall items: seq<Item> | Denotes(data, set_, items)
        ensures Visits(items, f, visited)
      {
        WentThrough(data, set_, items, f, visited);
      }
    }
  }

  /** The visits so far: keys from their rows, and `f` said go on. */
  ghost predicate Went(db: Db, set_: Bytes, f: (nat, Bytes) -> bool, visited: seq<Bytes>) {
    && |visited| <= LIMIT
    && forall j :: 0 <= j < |visited| ==> visited[j] == Look(db, set_, Index(j)) != [] && f(j, visited[j])
  }

  /** Each member once, in order, up to the first that `f` stops at. */
  ghost predicate Visits(items: seq<Item>, f: (nat, Bytes) -> bool, visited: seq<Bytes>) {
    && |visited| <= |items|
    && (forall i :: 0 <= i < |visited| ==> visited[i] == items[i].key)
    && (forall i :: 0 <= i < |visited| - 1 ==> f(i, visited[i]))
    && (|visited| < |items| ==> visited != [] && !f(|visited| - 1, visited[|visited| - 1]))
  }

  lemma WentThrough(db: Db, set_: Bytes, items: seq<Item>, f: (nat, Bytes) -> bool, visited: seq<Bytes>)
    requires Denotes(db, set_, items) && Went(db, set_, f, visited) && |visited| <= Len(db, set_)
    requires |visited| < Len(db, set_) ==> Look(db, set_, Index(|visited|)) == []
    ensures Visits(items, f, visited)
  {
    hide Look, Place, Len;
  }

  lemma WentUpTo(db: Db, set_: Bytes, items: seq<Item>, f: (nat, Bytes) -> bool, visited: seq<Bytes>, key: Bytes)
    requires Denotes(db, set_, items) && Went(db, set_, f, visited) && |visited| < Len(db, set_)
    requires key == Look(db, set_, Index(|visited|)) && !f(|visited|, key)
    ensures Visits(items, f, visited + [key])
  {
    hide Look, Place, Len;
  }
}
