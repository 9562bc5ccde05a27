/**
 * The K2 set: four nodes, two excitatory (node 0, the primary, and node 1)
 * and two inhibitory (node 2 and node 3, the antipodal node), connected by
 * ten connections whose weights come from four parameters.
 */
module K2Set {
  import opened Outcomes
  import opened History
  import opened K0Graph
  import opened Wiring

  /**
   * `K2Config`: excitatory-to-excitatory, excitatory-to-inhibitory,
   * inhibitory-to-excitatory and inhibitory-to-inhibitory weights, and the
   * node settings.
   */
  datatype K2Config = K2Config(wee: real, wei: real, wie: real, wii: real, k0config: K0Config)
  {
    /** `checkWeights()`: the excitatory weights positive, the inhibitory ones negative. */
    predicate CheckWeights()
    {
      wee > 0.0 && wei > 0.0 && wie < 0.0 && wii < 0.0
    }
  }

  /**
   * `K2Config(weights, k0config)` and `K2Config(wee, wei, wie, wii)` (with
   * the default node settings): the constructors call `checkWeights()` and
   * discard its result, so every weight vector is stored as given.
   */
  function ConfigOf(weights: seq<real>, k0config: K0Config): (c: K2Config)
    requires |weights| == 4
    ensures [c.wee, c.wei, c.wie, c.wii] == weights && c.k0config == k0config
  {
    K2Config(weights[0], weights[1], weights[2], weights[3], k0config)
  }

  /** The ten connections of a K2, by the index of the node that receives them. */
  function K2Table(c: K2Config): seq<seq<Edge>>
  {
    [ [Edge(1, c.wee, DEFAULT_DELAY), Edge(2, c.wie, DEFAULT_DELAY), Edge(3, c.wie, DEFAULT_DELAY)],
      [Edge(0, c.wee, DEFAULT_DELAY), Edge(3, c.wie, DEFAULT_DELAY)],
      [Edge(0, c.wei, DEFAULT_DELAY), Edge(3, c.wii, DEFAULT_DELAY)],
      [Edge(0, c.wei, DEFAULT_DELAY), Edge(1, c.wei, DEFAULT_DELAY), Edge(2, c.wii, DEFAULT_DELAY)] ]
  }

  /** Nodes 0 and 1 are excitatory, nodes 2 and 3 inhibitory. */
  predicate Excitatory(k: nat)
  {
    k < 2
  }

  /**
   * The weights pass `checkWeights()` exactly when every connection of the
   * K2 carries the sign of its source: positive from an excitatory node,
   * negative from an inhibitory one. No node listens to itself.
   */
  lemma K2SignsFollowSources(c: K2Config)
    ensures var t: seq<seq<Edge>> := K2Table(c);
      c.CheckWeights() <==>
        forall k, j :: 0 <= k < |t| && 0 <= j < |t[k]| ==>
          (Excitatory(t[k][j].from) ==> t[k][j].weight > 0.0) && (!Excitatory(t[k][j].from) ==> t[k][j].weight < 0.0)
    ensures var t: seq<seq<Edge>> := K2Table(c);
      forall k, j :: 0 <= k < |t| && 0 <= j < |t[k]| ==> t[k][j].from != k && t[k][j].from < 4
  {
    var t: seq<seq<Edge>> := K2Table(c);
    if forall k, j :: 0 <= k < |t| && 0 <= j < |t[k]| ==>
         (Excitatory(t[k][j].from) ==> t[k][j].weight > 0.0) && (!Excitatory(t[k][j].from) ==> t[k][j].weight < 0.0)
    {
      assert t[1][0].weight == c.wee && t[2][0].weight == c.wei;
      assert t[0][1].weight == c.wie && t[2][1].weight == c.wii;
    }
  }

  /**
   * `K2(config, name)`: a four-node collection with the configured node
   * settings, then the ten connections with the default delay and no tag.
   * The weights are used as given, whether or not they pass the check.
   */
  method New(config: K2Config, name: Option<string>) returns (c: K0Collection)
    ensures fresh(c) && c.Valid() && c.name == name && WiredAs(c.nodes, K2Table(config))
    ensures forall i :: 0 <= i < 4 ==> c.Initial(i, config.k0config)
    ensures forall i :: 0 <= i < 4 ==> fresh(c.nodes[i]) && fresh(c.nodes[i].history)
  {
    var made := K0Collection.New(4, name, config.k0config);
    c := made.value;
    forall i | 0 <= i < 4
      ensures c.nodes[i].inbound == [] && c.Initial(i, config.k0config)
    {
      assert c.Fresh(i, config.k0config);
    }
    Connect(c.nodes, config);
  }

  /** Row `k` of the K2 diagram on the four nodes `ns`: what node `k` hears. */
  ghost function K2Row(ns: seq<K0>, k: nat, c: K2Config): seq<Connection>
    requires |ns| == 4 && k < 4
  {
    K2SignsFollowSources(c);
    Edges(ns, k, K2Table(c)[k])
  }

  /** The body of the constructor: the ten `addInboundConnection` calls on four new nodes. */
  method Connect(ns: seq<K0>, config: K2Config)
    requires |ns| == 4 && Distinct(ns)
    requires forall i :: 0 <= i < 4 ==> ns[i].inbound == []
    modifies Members(ns)`inbound
    ensures WiredAs(ns, K2Table(config))
  {
    var n0, n1, n2, n3 := ns[0], ns[1], ns[2], ns[3];
    n0.AddInboundConnection(n1, config.wee, DEFAULT_DELAY, None);
    n0.AddInboundConnection(n2, config.wie, DEFAULT_DELAY, None);
    n0.AddInboundConnection(n3, config.wie, DEFAULT_DELAY, None);
    assert n0.inbound == [Connection(n1, n0, config.wee, DEFAULT_DELAY, None),
      Connection(n2, n0, config.wie, DEFAULT_DELAY, None), Connection(n3, n0, config.wie, DEFAULT_DELAY, None)];

    n1.AddInboundConnection(n0, config.wee, DEFAULT_DELAY, None);
    n1.AddInboundConnection(n3, config.wie, DEFAULT_DELAY, None);
    assert n1.inbound == [Connection(n0, n1, config.wee, DEFAULT_DELAY, None), Connection(n3, n1, config.wie, DEFAULT_DELAY, None)];

    n2.AddInboundConnection(n0, config.wei, DEFAULT_DELAY, None);
    n2.AddInboundConnection(n3, config.wii, DEFAULT_DELAY, None);
    assert n2.inbound == [Connection(n0, n2, config.wei, DEFAULT_DELAY, None), Connection(n3, n2, config.wii, DEFAULT_DELAY, None)];

    n3.AddInboundConnection(n0, config.wei, DEFAULT_DELAY, None);
    n3.AddInboundConnection(n1, config.wei, DEFAULT_DELAY, None);
    n3.AddInboundConnection(n2, config.wii, DEFAULT_DELAY, None);
    assert n3.inbound == [Connection(n0, n3, config.wei, DEFAULT_DELAY, None),
      Connection(n1, n3, config.wei, DEFAULT_DELAY, None), Connection(n2, n3, config.wii, DEFAULT_DELAY, None)];
    K2Wired(ns, config);
  }

  /** The four inbound lists the constructor leaves are the K2 diagram. */
  lemma K2Wired(ns: seq<K0>, config: K2Config)
    requires |ns| == 4
    requires ns[0].inbound == [Connection(ns[1], ns[0], config.wee, DEFAULT_DELAY, None),
      Connection(ns[2], ns[0], config.wie, DEFAULT_DELAY, None), Connection(ns[3], ns[0], config.wie, DEFAULT_DELAY, None)]
    requires ns[1].inbound == [Connection(ns[0], ns[1], config.wee, DEFAULT_DELAY, None), Connection(ns[3], ns[1], config.wie, DEFAULT_DELAY, None)]
    requires ns[2].inbound == [Connection(ns[0], ns[2], config.wei, DEFAULT_DELAY, None), Connection(ns[3], ns[2], config.wii, DEFAULT_DELAY, None)]
    requires ns[3].inbound == [Connection(ns[0], ns[3], config.wei, DEFAULT_DELAY, None),
      Connection(ns[1], ns[3], config.wei, DEFAULT_DELAY, None), Connection(ns[2], ns[3], config.wii, DEFAULT_DELAY, None)]
    ensures WiredAs(ns, K2Table(config))
  {
    var t := K2Table(config);
    assert ns[0].inbound == Edges(ns, 0, t[0]);
    assert ns[1].inbound == Edges(ns, 1, t[1]);
    assert ns[2].inbound == Edges(ns, 2, t[2]);
    assert ns[3].inbound == Edges(ns, 3, t[3]);
  }

  /** `antipodalNode()`: node 3 of the collection. */
  function AntipodalNode(c: K0Collection): (n: K0)
    reads c
    requires |c.nodes| > 3
    ensures c.Node(3) == Ok(n)
  {
    c.nodes[3]
  }

  /** The copy constructor: a copy on new nodes with the same diagram and state. */
  method Copy(other: K0Collection, ghost config: K2Config) returns (c: K0Collection)
    requires WiredAs(other.nodes, K2Table(config))
    ensures fresh(c) && |c.nodes| == 4 && WiredAs(c.nodes, K2Table(config))
    ensures forall i :: 0 <= i < 4 ==> fresh(c.nodes[i]) && StateCopied(other.nodes[i], c.nodes[i])
    ensures other.Valid() ==> c.Valid()
  {
    c := CopyWired(other, K2Table(config));
  }
}
