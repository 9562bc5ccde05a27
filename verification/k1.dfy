/**
 * The K1 set: a collection of two nodes, the primary (node 0) and the
 * secondary (node 1), each listening to the other. Both weights must have
 * the same sign: two excitatory or two inhibitory populations.
 */
module K1Set {
  import opened Outcomes
  import opened History
  import opened K0Graph
  import opened Wiring

  /** The diagram of a K1: the secondary listens to the primary with `wPS`, the primary to the secondary with `wSP`. */
  function K1Table(wPS: real, wSP: real, dPS: nat, dSP: nat): seq<seq<Edge>>
  {
    [[Edge(1, wSP, dSP)], [Edge(0, wPS, dPS)]]
  }

  /** A K1 diagram joins the two nodes both ways and has no self-loops. */
  lemma K1Mutual(wPS: real, wSP: real, dPS: nat, dSP: nat)
    ensures var t := K1Table(wPS, wSP, dPS, dSP);
      && |t| == 2
      && forall k, j :: 0 <= k < 2 && 0 <= j < |t[k]| ==> t[k][j].from == 1 - k
  {
  }

  /**
   * `K1(wPS, wSP)`: a two-node collection with the default node settings,
   * then invalid_argument when the weights' sign bits differ; otherwise the
   * two connections, with the default delay and no tag.
   */
  method New(wPS: real, wSP: real) returns (r: Result<K0Collection>)
    ensures r.Err? <==> SignBit(wPS) != SignBit(wSP)
    ensures r.Err? ==> r.error == InvalidArgument
    ensures r.Ok? ==> fresh(r.value) && r.value.Valid() && r.value.name == None
    ensures r.Ok? ==> WiredAs(r.value.nodes, K1Table(wPS, wSP, DEFAULT_DELAY, DEFAULT_DELAY))
    ensures r.Ok? ==> forall i :: 0 <= i < 2 ==> r.value.Initial(i, DEFAULT_K0_CONFIG)
    ensures r.Ok? ==> forall i :: 0 <= i < 2 ==> fresh(r.value.nodes[i]) && fresh(r.value.nodes[i].history)
  {
    var made := K0Collection.New(2, None, DEFAULT_K0_CONFIG);
    var c := made.value;
    if SignBit(wPS) != SignBit(wSP) {
      return Err(InvalidArgument);
    }
    forall i | 0 <= i < 2
      ensures c.nodes[i].inbound == [] && c.Initial(i, DEFAULT_K0_CONFIG)
    {
      assert c.Fresh(i, DEFAULT_K0_CONFIG);
    }
    var primary, secondary := c.nodes[0], c.nodes[1];
    secondary.AddInboundConnection(primary, wPS, DEFAULT_DELAY, None);
    primary.AddInboundConnection(secondary, wSP, DEFAULT_DELAY, None);
    K1Wired(c.nodes, wPS, wSP, DEFAULT_DELAY, DEFAULT_DELAY);
    r := Ok(c);
  }

  /** The two inbound lists a K1 constructor leaves are the K1 diagram. */
  lemma K1Wired(ns: seq<K0>, wPS: real, wSP: real, dPS: nat, dSP: nat)
    requires |ns| == 2
    requires ns[0].inbound == [Connection(ns[1], ns[0], wSP, dSP, None)]
    requires ns[1].inbound == [Connection(ns[0], ns[1], wPS, dPS, None)]
    ensures WiredAs(ns, K1Table(wPS, wSP, dPS, dSP))
  {
    assert ns[0].inbound == Edges(ns, 0, K1Table(wPS, wSP, dPS, dSP)[0]);
    assert ns[1].inbound == Edges(ns, 1, K1Table(wPS, wSP, dPS, dSP)[1]);
  }

  /** `secondaryNode()`: node 1 of the collection. */
  function SecondaryNode(c: K0Collection): (n: K0)
    reads c
    requires |c.nodes| > 1
    ensures c.Node(1) == Ok(n)
  {
    c.nodes[1]
  }

  /** The copy constructor: a copy on new nodes with the same diagram and state. */
  method Copy(other: K0Collection, ghost wPS: real, ghost wSP: real) returns (c: K0Collection)
    requires WiredAs(other.nodes, K1Table(wPS, wSP, DEFAULT_DELAY, DEFAULT_DELAY))
    ensures fresh(c) && |c.nodes| == 2 && WiredAs(c.nodes, K1Table(wPS, wSP, DEFAULT_DELAY, DEFAULT_DELAY))
    ensures forall i :: 0 <= i < 2 ==> fresh(c.nodes[i]) && StateCopied(other.nodes[i], c.nodes[i])
    ensures other.Valid() ==> c.Valid()
  {
    c := CopyWired(other, K1Table(wPS, wSP, DEFAULT_DELAY, DEFAULT_DELAY));
  }
}
