/** Cluster membership: how a configuration travels as text, and why one-server changes keep quorums overlapping. */
module Membership {
  import opened RaftLog
  import opened Strings

  const Comma: Byte := 44

  type ServerId = Bytes

  /** A sequence that lists a set once, as iterating over a map does in some order. */
  predicate Lists(order: seq<ServerId>, members: set<ServerId>) {
    && (forall i | 0 <= i < |order| :: order[i] in members)
    && (forall m | m in members :: m in order)
    && |order| == |members|
  }

  /** The ids that a configuration text names. */
  function Named(config: Bytes): set<ServerId> {
    set f | f in Fields(config, {Comma}, 0)
  }

  /** The members after `adjust_configuration`: those of the text, or no change for an empty one. */
  function Adjusted(members: set<ServerId>, config: Bytes): set<ServerId> {
    if config == [] then members else Named(config)
  }

  class Membership {
    var cluster: set<ServerId>

    constructor (cluster: set<ServerId>)
      ensures this.cluster == cluster
    {
      this.cluster := cluster;
    }

    /** `serialize_configuration`; the order in which the members come is that of the map. */
    method Serialize() returns (config: Bytes)
      ensures exists order :: Lists(order, cluster) && config == Join(order, Comma)
    {
      config := [];
      ghost var order := [];
      var i, rest := 0, cluster;
      while rest != {}
        invariant rest <= cluster && i == |order| && Lists(order, cluster - rest)
        invariant config == Separated(order, rest == {})
        decreases rest
      {
        var n :| n in rest;
        OneMoreListed(order, cluster, rest, n);
        OneMoreJoined(order, n, rest - {n} == {});
        config := config + n;
        if i != |cluster| - 1 { config := config + [Comma]; }
        i := i + 1;
        order := order + [n];
        rest := rest - {n};
      }
      assert cluster - {} == cluster;
      assert Lists(order, cluster);
    }

    /** `adjust_configuration`: missing members are added, then those not named are removed. */
    method AdjustConfiguration(config: Bytes)
      modifies this
      ensures cluster == Adjusted(old(cluster), config)
    {
      if config == [] { return; }
      var addresses := Split(config, {Comma});
      for k := 0 to |addresses|
        invariant cluster == old(cluster) + set f | f in addresses[..k]
      {
        if addresses[k] !in cluster { cluster := cluster + {addresses[k]}; }
        assert addresses[..k + 1] == addresses[..k] + [addresses[k]];
      }
      assert addresses[..|addresses|] == addresses;
      var rest := cluster;
      ghost var all := cluster;
      while rest != {}
        invariant rest <= cluster <= all
        invariant forall m | m in all - rest :: m in cluster <==> m in addresses
        decreases rest
      {
        var m :| m in rest;
        if m !in addresses { cluster := cluster - {m}; }
        rest := rest - {m};
      }
    }
  }

  /** The members so far, each followed by a comma unless it is the last of all. */
  function Separated(order: seq<ServerId>, last: bool): Bytes {
    if last || order == [] then Join(order, Comma) else Join(order, Comma) + [Comma]
  }

  lemma OneMoreListed(order: seq<ServerId>, all: set<ServerId>, rest: set<ServerId>, n: ServerId)
    requires rest <= all && n in rest && Lists(order, all - rest)
    ensures Lists(order + [n], all - (rest - {n}))
    ensures |order| == |all| - 1 <==> rest - {n} == {}
  {
    assert all - (rest - {n}) == all - rest + {n};
    assert all == (all - rest) + (rest - {n}) + {n};
  }

  lemma OneMoreJoined(order: seq<ServerId>, n: ServerId, last: bool)
    ensures Separated(order + [n], last) == Separated(order, false) + n + if last then [] else [Comma]
  {
    JoinOneMore(order, n);
  }

  lemma {:induction false} JoinOneMore(order: seq<ServerId>, n: ServerId)
    ensures Join(order + [n], Comma) == if order == [] then n else Join(order, Comma) + [Comma] + n
    decreases |order|
  {
    if |order| > 1 {
      JoinOneMore(order[1..], n);
      assert (order + [n])[1..] == order[1..] + [n];
    } else if |order| == 1 {
      assert (order + [n])[1..] == [n];
    }
  }

  // ----- Transport

  lemma JoinEmpty(order: seq<ServerId>)
    requires order != []
    ensures Join(order, Comma) == [] <==> order == [[]]
  {
  }

  lemma ListedOnce(order: seq<ServerId>, members: set<ServerId>, id: ServerId)
    requires Lists(order, members)
    ensures order == [id] <==> members == {id}
  {
    if members == {id} { assert |order| == 1 && order[0] == id; }
    if order == [id] { assert members == {id}; }
  }

  /**
   A configuration that is serialised, sent and applied gives its members, from any prior cluster and whatever the
   order of the map, exactly when no id has a comma and the members are not just the empty id.
   */
  lemma TransportExact(order: seq<ServerId>, members: set<ServerId>)
    requires members != {} && Lists(order, members)
    ensures (forall prior: set<ServerId> :: Adjusted(prior, Join(order, Comma)) == members)
            <==> (forall m | m in members :: Free(m, Comma)) && members != {[]}
  {
    var config := Join(order, Comma);
    JoinEmpty(order);
    ListedOnce(order, members, []);
    if members == {[]} {
      assert Adjusted({}, config) == {};
    } else {
      forall prior: set<ServerId> ensures Adjusted(prior, config) == Named(config) { }
      FieldsAreFree(config, Comma, 0);
      if forall m | m in members :: Free(m, Comma) {
        SplitJoin(order, Comma);
        assert Named(config) == members;
      } else {
        var m :| m in members && !Free(m, Comma);
        assert m !in Named(config);
        assert Adjusted({}, config) != members;
      }
    }
  }

  // ----- Quorums

  /** `count > cluster.size() / 2`. */
  predicate Quorum(group: set<ServerId>, members: set<ServerId>) {
    group <= members && |group| > |members| / 2
  }

  /** Any quorum of a configuration meets any quorum of the one that adding or removing a single server makes of it. */
  lemma QuorumsOverlap(members: set<ServerId>, x: ServerId, a: set<ServerId>, b: set<ServerId>)
    requires Quorum(a, members)
    requires Quorum(b, members) || Quorum(b, members + {x}) || Quorum(b, members - {x})
    ensures a * b != {}
  {
    if Quorum(b, members) {
      Overlap(a, b, members);
    } else if Quorum(b, members + {x}) {
      Overlap(a, b, members + {x});
    } else {
      Overlap(a, b, members);
    }
  }

  /** Two servers at once would be too many. */
  lemma TwoAtOnceMayNotOverlap()
    ensures exists members: set<ServerId>, x: ServerId, y: ServerId, a: set<ServerId>, b: set<ServerId> ::
              Quorum(a, members) && Quorum(b, members + {x, y}) && a * b == {}
  {
    var members: set<ServerId> := {[1]};
    var b: set<ServerId> := {[2], [3]};
    assert members + {[2], [3]} == {[1], [2], [3]};
    assert Quorum(members, members) && Quorum(b, members + {[2], [3]});
  }
}
