/** The log of a transaction's stages: entries numbered from 1, with a count per transaction. */
module TxStatusLog {

  type Hash = nat

  /** Where a stage of a transaction was executed; `index` counts from 1 inside the unit. */
  datatype Info = Info(unit: Hash, action: nat, failed: bool, index: nat)

  datatype TxExec = TxExec(tx: Hash, action: nat)

  type Counts = map<Hash, nat>
  type Entries = map<(Hash, nat), Info>

  function Count(counts: Counts, tx: Hash): (n: nat) { if tx in counts then counts[tx] else 0 }

  /** Every entry up to the count is there. Entries beyond it may be left over. */
  ghost predicate Dense(counts: Counts, entries: Entries) {
    forall tx: Hash, i: nat :: 1 <= i <= Count(counts, tx) ==> (tx, i) in entries
  }

  /** The first `n` entries of a transaction. */
  ghost function Prefix(entries: Entries, tx: Hash, n: nat): (r: seq<Info>)
    requires forall i: nat :: 1 <= i <= n ==> (tx, i) in entries
    ensures |r| == n && forall i :: 0 <= i < n ==> r[i] == entries[(tx, i + 1)]
  {
    if n == 0 then [] else Prefix(entries, tx, n - 1) + [entries[(tx, n)]]
  }

  ghost function Log(counts: Counts, entries: Entries, tx: Hash): (r: seq<Info>)
    requires Dense(counts, entries)
    ensures |r| == Count(counts, tx)
  {
    Prefix(entries, tx, Count(counts, tx))
  }

  /** The entries a unit adds to the log of one transaction, in unit order. */
  function Added(unit: Hash, txs: seq<TxExec>, failed: seq<bool>, tx: Hash): (r: seq<Info>) {
    if txs == [] then []
    else
      var k := |txs| - 1;
      Added(unit, txs[..k], failed, tx)
      + if txs[k].tx == tx then [Info(unit, txs[k].action, k < |failed| && failed[k], k + 1)] else []
  }

  /** The places among the first `k` stages of a unit that belong to a transaction. */
  function Places(txs: seq<TxExec>, k: nat, tx: Hash): (r: set<nat>)
    requires k <= |txs|
  {
    set j: nat | j < k && txs[j].tx == tx
  }

  lemma PlacesStep(txs: seq<TxExec>, k: nat, tx: Hash)
    requires k < |txs|
    ensures |Places(txs, k + 1, tx)| == |Places(txs, k, tx)| + if txs[k].tx == tx then 1 else 0
    ensures Places(txs[..k], k, tx) == Places(txs, k, tx)
  {
    assert Places(txs, k + 1, tx) == Places(txs, k, tx) + if txs[k].tx == tx then {k} else {};
  }

  /** A unit adds one entry for each of its stages of the transaction. */
  lemma {:induction false} AddedCount(unit: Hash, txs: seq<TxExec>, failed: seq<bool>, tx: Hash)
    ensures |Added(unit, txs, failed, tx)| == |Places(txs, |txs|, tx)|
    decreases |txs|
  {
    if txs != [] {
      var k := |txs| - 1;
      AddedCount(unit, txs[..k], failed, tx);
      PlacesStep(txs, k, tx);
    }
  }

  /** Stage `k` of the unit is entered after the earlier stages of its transaction. */
  ghost predicate Entered(log: seq<Info>, base: nat, unit: Hash, txs: seq<TxExec>, failed: seq<bool>, k: nat)
    requires k < |txs|
  {
    var place := base + |Places(txs, k, txs[k].tx)|;
    && place < |log| && log[place].unit == unit && log[place].action == txs[k].action && log[place].index == k + 1
    && (log[place].failed <==> k < |failed| && failed[k])
  }

  lemma {:induction false} AddedInOrder(unit: Hash, txs: seq<TxExec>, failed: seq<bool>, k: nat)
    requires k < |txs|
    ensures Entered(Added(unit, txs, failed, txs[k].tx), 0, unit, txs, failed, k)
    decreases |txs|
  {
    var n := |txs| - 1;
    var tx := txs[k].tx;
    AddedCount(unit, txs[..n], failed, tx);
    PlacesStep(txs, n, tx);
    if k < n {
      AddedInOrder(unit, txs[..n], failed, k);
      assert Places(txs[..n], k, tx) == Places(txs, k, tx);
    }
  }

  function Reverse(s: seq<Info>): (r: seq<Info>)
    ensures |r| == |s| && forall i :: 0 <= i < |s| ==> r[i] == s[|s| - 1 - i]
  {
    if s == [] then [] else [s[|s| - 1]] + Reverse(s[..|s| - 1])
  }

  /** The entries other than those of one action in one unit. */
  function Others(s: seq<Info>, unit: Hash, action: nat): (r: seq<Info>) {
    if s == [] then []
    else Others(s[..|s| - 1], unit, action)
         + if s[|s| - 1].action == action && s[|s| - 1].unit == unit then [] else [s[|s| - 1]]
  }

  lemma {:induction false} PrefixAgree(e: Entries, f: Entries, tx: Hash, n: nat)
    requires forall i: nat :: 1 <= i <= n ==> (tx, i) in e && (tx, i) in f && e[(tx, i)] == f[(tx, i)]
    ensures Prefix(e, tx, n) == Prefix(f, tx, n)
  {
  }

  /** A key-value store with a batch beside it: reads see the store, not what the batch is about to write. */
  class Database {
    var counts: Counts
    var entries: Entries

    ghost predicate Valid()
      reads this
    {
      Dense(counts, entries)
    }

    ghost function LogOf(tx: Hash): (r: seq<Info>)
      requires Valid()
      reads this
    {
      Log(counts, entries, tx)
    }

    /** Appends one entry at once. */
    method AddTransactionStatus(tx: Hash, info: Info)
      requires Valid()
      modifies this
      ensures Valid() && forall t :: LogOf(t) == old(LogOf(t)) + if t == tx then [info] else []
    {
      ghost var c, e := counts, entries;
      var n := Count(counts, tx) + 1;
      counts := counts[tx := n];
      entries := entries[(tx, n) := info];
      AppendOne(c, e, tx, info);
    }

    /** Writes a unit's stages through a batch. The number of a further stage of the same transaction is remembered,
        because the store does not show it yet. */
    method WriteBody(unit: Hash, txs: seq<TxExec>, failed: seq<bool>)
      requires Valid()
      modifies this
      ensures Valid() && forall t :: LogOf(t) == old(LogOf(t)) + Added(unit, txs, failed, t)
      ensures forall t :: |LogOf(t)| == |old(LogOf(t))| + |Places(txs, |txs|, t)|
      ensures forall k | 0 <= k < |txs| ::
                Entered(LogOf(txs[k].tx), |old(LogOf(txs[k].tx))|, unit, txs, failed, k)
    {
      hide Log, Dense;
      var batchCounts: Counts, batchEntries: Entries := map[], map[];
      assert counts + batchCounts == counts && entries + batchEntries == entries;
      var seen: Counts := map[];
      for k := 0 to |txs|
        invariant seen == batchCounts && counts == old(counts) && entries == old(entries)
        invariant Dense(counts + batchCounts, entries + batchEntries)
        invariant forall t ::
          Log(counts + batchCounts, entries + batchEntries, t) == LogOf(t) + Added(unit, txs[..k], failed, t)
        invariant forall t :: t in seen ==> seen[t] > 0
      {
        var tx := txs[k].tx;
        var info := Info(unit, txs[k].action, k < |failed| && failed[k], k + 1);
        var count := if tx in seen then seen[tx] else 0;
        if count == 0 {
          count := Count(counts, tx);
        }
        count := count + 1;
        ghost var c, e := counts + batchCounts, entries + batchEntries;
        assert count == Count(c, tx) + 1;
        batchCounts := batchCounts[tx := count];
        batchEntries := batchEntries[(tx, count) := info];
        seen := seen[tx := count];
        assert counts + batchCounts == c[tx := count] && entries + batchEntries == e[(tx, count) := info];
        AppendOne(c, e, tx, info);
        assert txs[..k + 1][..k] == txs[..k];
      }
      assert txs[..|txs|] == txs;
      counts, entries := counts + batchCounts, entries + batchEntries;
      forall t
        ensures |LogOf(t)| == |old(LogOf(t))| + |Places(txs, |txs|, t)|
      {
        AddedCount(unit, txs, failed, t);
      }
      forall k | 0 <= k < |txs|
        ensures Entered(LogOf(txs[k].tx), |old(LogOf(txs[k].tx))|, unit, txs, failed, k)
      {
        AddedInOrder(unit, txs, failed, k);
      }
    }

    /** Walks the log from the first entry and collects what does not match. */
    method CollectOthers(unit: Hash, tx: Hash, action: nat) returns (keep: seq<Info>)
      requires Valid()
      ensures keep == Others(LogOf(tx), unit, action)
    {
      keep := [];
      for i := 1 to Count(counts, tx) + 1
        invariant keep == Others(Prefix(entries, tx, i - 1), unit, action)
      {
        var info := entries[(tx, i)];
        assert Prefix(entries, tx, i)[..i - 1] == Prefix(entries, tx, i - 1);
        if !(info.action == action && info.unit == unit) {
          keep := keep + [info];
        }
      }
    }

    method ResetCount(tx: Hash)
      requires Valid()
      modifies this
      ensures Valid() && forall t :: LogOf(t) == if t == tx then [] else old(LogOf(t))
    {
      counts := counts[tx := 0];
    }

    /** Rewrites the log of a transaction without the entries of one action in one unit, last entry first. */
    method DelTransactionStatus(unit: Hash, tx: Hash, action: nat)
      requires Valid()
      modifies this
      ensures Valid()
      ensures forall t :: LogOf(t) == if t == tx then Reverse(Others(old(LogOf(tx)), unit, action)) else old(LogOf(t))
    {
      hide Dense, Log;
      var keep := CollectOthers(unit, tx, action);
      ResetCount(tx);
      var i := |keep|;
      while i > 0
        invariant 0 <= i <= |keep| && Valid()
        invariant forall t :: LogOf(t) == if t == tx then Reverse(keep[i..]) else old(LogOf(t))
      {
        AddTransactionStatus(tx, keep[i - 1]);
        ReverseCons(keep[i - 1], keep[i..]);
        assert keep[i - 1..] == [keep[i - 1]] + keep[i..];
        i := i - 1;
      }
      assert keep[0..] == keep;
    }
  }

  lemma AppendOne(counts: Counts, entries: Entries, tx: Hash, info: Info)
    requires Dense(counts, entries)
    ensures var n := Count(counts, tx) + 1;
            var c := counts[tx := n];
            var e := entries[(tx, n) := info];
            Dense(c, e) && forall t :: Log(c, e, t) == Log(counts, entries, t) + if t == tx then [info] else []
  {
    var n := Count(counts, tx) + 1;
    var c := counts[tx := n];
    var e := entries[(tx, n) := info];
    assert Dense(c, e);
    forall t
      ensures Log(c, e, t) == Log(counts, entries, t) + if t == tx then [info] else []
    {
      PrefixAgree(entries, e, t, Count(counts, t));
    }
  }

  lemma ReverseCons(x: Info, s: seq<Info>)
    ensures Reverse([x] + s) == Reverse(s) + [x]
  {
  }

  /** Deleting keeps the order of what is left, all entries being different, exactly when at most one is left. */
  lemma DeleteKeepsOrderIff(s: seq<Info>, unit: Hash, action: nat)
    requires var rest := Others(s, unit, action);
             forall i, j :: 0 <= i < j < |rest| ==> rest[i] != rest[j]
    ensures Reverse(Others(s, unit, action)) == Others(s, unit, action) <==> |Others(s, unit, action)| <= 1
  {
    var f := Others(s, unit, action);
    if |f| > 1 {
      assert Reverse(f)[0] == f[|f| - 1];
    }
  }

  /** Exactly the matching entries go: the rest is kept with its multiplicity. */
  lemma {:induction false} OthersAreTheRest(s: seq<Info>, unit: Hash, action: nat, x: Info)
    ensures multiset(Others(s, unit, action))[x]
         == if x.action == action && x.unit == unit then 0 else multiset(s)[x]
    decreases |s|
  {
    if s != [] {
      OthersAreTheRest(s[..|s| - 1], unit, action, x);
      assert s == s[..|s| - 1] + [s[|s| - 1]];
    }
  }

  predicate Matches(x: Info, unit: Hash, action: nat) { x.action == action && x.unit == unit }

  /** The first `k` entries that do not match. */
  function Kept(s: seq<Info>, k: nat, unit: Hash, action: nat): (r: set<nat>)
    requires k <= |s|
  {
    set j: nat | j < k && !Matches(s[j], unit, action)
  }

  lemma KeptStep(s: seq<Info>, k: nat, unit: Hash, action: nat)
    requires k < |s|
    ensures |Kept(s, k + 1, unit, action)| == |Kept(s, k, unit, action)| + if Matches(s[k], unit, action) then 0 else 1
    ensures Kept(s[..k], k, unit, action) == Kept(s, k, unit, action)
  {
    assert Kept(s, k + 1, unit, action) == Kept(s, k, unit, action) + if Matches(s[k], unit, action) then {} else {k};
  }

  lemma {:induction false} OthersCount(s: seq<Info>, unit: Hash, action: nat)
    ensures |Others(s, unit, action)| == |Kept(s, |s|, unit, action)|
    decreases |s|
  {
    if s != [] {
      OthersCount(s[..|s| - 1], unit, action);
      KeptStep(s, |s| - 1, unit, action);
    }
  }

  /** What does not match keeps its order: each entry comes after those before it that stay. */
  lemma {:induction false} OthersInOrder(s: seq<Info>, unit: Hash, action: nat, k: nat)
    requires k < |s| && !Matches(s[k], unit, action)
    ensures var place := |Kept(s, k, unit, action)|;
            place < |Others(s, unit, action)| && Others(s, unit, action)[place] == s[k]
    decreases |s|
  {
    var n := |s| - 1;
    OthersCount(s[..n], unit, action);
    KeptStep(s, n, unit, action);
    if k < n {
      OthersInOrder(s[..n], unit, action, k);
      assert Kept(s[..n], k, unit, action) == Kept(s, k, unit, action);
    }
  }
}
