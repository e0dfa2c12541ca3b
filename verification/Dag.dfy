/** Units and how they reference each other. A unit's hash commits to the units it references, so a unit stands for
    its hash and is a tree of references. */
module Dag {

  /** `links` are the system-chain unit and the previous steps of the transactions. */
  datatype Unit = Genesis | Unit(chain: nat, number: nat, parent: Unit, links: seq<Unit>, salt: nat)

  function Refs(u: Unit): (s: set<Unit>) {
    if u.Genesis? then {} else {u.parent} + set r | r in u.links
  }

  function Rank(u: Unit): (n: nat)
    decreases u
  {
    if u.Genesis? then 0 else 1 + Rank(u.parent) + RankAll(u.links)
  }

  function RankAll(us: seq<Unit>): (n: nat)
    decreases us
  {
    if us == [] then 0 else Rank(us[0]) + RankAll(us[1..])
  }

  lemma {:induction false} RankOne(us: seq<Unit>, u: Unit)
    requires u in us
    ensures Rank(u) <= RankAll(us)
  {
    if us[0] != u {
      RankOne(us[1..], u);
    }
  }

  /** References are acyclic. */
  lemma RefRank(u: Unit, r: Unit)
    requires r in Refs(u)
    ensures Rank(r) < Rank(u)
  {
    if r != u.parent {
      RankOne(u.links, r);
    }
  }

  /** `v` is `u` or references it, directly or through other units. */
  ghost predicate Refers(v: Unit, u: Unit)
    decreases Rank(v)
  {
    v == u || exists r :: r in Refs(v) && (RefRank(v, r); Refers(r, u))
  }

  lemma GenesisRefers(u: Unit)
    ensures Refers(Genesis, u) <==> u == Genesis
  {
  }

  lemma {:induction false} RefersRank(v: Unit, u: Unit)
    requires Refers(v, u)
    ensures v == u || Rank(u) < Rank(v)
    decreases Rank(v)
  {
    if v != u {
      var r :| r in Refs(v) && (RefRank(v, r); Refers(r, u));
      RefRank(v, r);
      RefersRank(r, u);
    }
  }

  lemma {:induction false} RefersTrans(v: Unit, w: Unit, u: Unit)
    requires Refers(v, w) && Refers(w, u)
    ensures Refers(v, u)
    decreases Rank(v)
  {
    if v != w {
      var r :| r in Refs(v) && (RefRank(v, r); Refers(r, w));
      RefRank(v, r);
      RefersTrans(r, w, u);
    }
  }

  /** Whatever refers to a unit does so through a direct reference. */
  lemma {:induction false} RefersLast(v: Unit, u: Unit) returns (c: Unit)
    requires Refers(v, u) && v != u
    ensures u in Refs(c) && Refers(v, c)
    decreases Rank(v)
  {
    var r :| r in Refs(v) && (RefRank(v, r); Refers(r, u));
    RefRank(v, r);
    if r == u {
      c := v;
    } else {
      c := RefersLast(r, u);
      assert Refers(v, c);
    }
  }
}
