/**
 * The first K0 collection, which holds its nodes by value, and the first
 * K1 built on it. Any number of nodes is allowed, zero included, and every
 * operation that needs the primary node reaches it through the
 * bounds-checked `node(0)`. The nodes are the K0 nodes of this model; the
 * first K0's own implementation is not part of this model.
 */
module ValueCollection {
  import opened Outcomes
  import opened History
  import opened K0Graph
  import opened Wiring
  import opened K1Set

  /** The state of a default-constructed node (`K0()`), which the collection copies. */
  ghost predicate DefaultNode(n: K0)
    reads n, n.history
  {
    && n.inbound == [] && n.history.samples == seq(HISTORY_SIZE, _ => 0.0) && n.history.monitoredWindow == None
    && n.odeState == OdeState(0.0, 0.0) && n.nextOdeState == OdeState(0.0, 0.0) && n.stimulus == 0.0
  }

  class K0Collection {
    var nodes: seq<K0>

    ghost predicate Valid()
      reads this
    {
      Distinct(nodes)
    }

    /** `K0Collection(nNodes)`: `nNodes` separate copies of a default node. */
    constructor (nNodes: nat)
      ensures Valid() && |nodes| == nNodes
      ensures forall i :: 0 <= i < nNodes ==> fresh(nodes[i]) && fresh(nodes[i].history)
      ensures forall i :: 0 <= i < nNodes ==> DefaultNode(nodes[i])
    {
      var ns: seq<K0> := [];
      var i := 0;
      while i < nNodes
        invariant 0 <= i <= nNodes && |ns| == i && Distinct(ns)
        invariant forall k :: 0 <= k < i ==> fresh(ns[k]) && fresh(ns[k].history) && DefaultNode(ns[k])
      {
        var n := new K0(DEFAULT_K0_CONFIG);
        ns := ns + [n];
        i := i + 1;
      }
      nodes := ns;
    }

    /** `node(index)`: `at`, so out_of_range past the end. */
    function Node(index: nat): (r: Result<K0>)
      reads this
      ensures r.Ok? <==> index < |nodes|
      ensures r.Ok? ==> r.value == nodes[index]
      ensures r.Err? ==> r.error == OutOfRange
    {
      if index < |nodes| then Ok(nodes[index]) else Err(OutOfRange)
    }

    /** `setExternalStimulus`: `primaryNode()` is `node(0)`, out_of_range when there are no nodes. */
    method SetExternalStimulus(s: real) returns (r: Outcome)
      modifies Primary(nodes)`stimulus
      ensures r == Pass <==> |nodes| > 0
      ensures r != Pass ==> r == Fail(OutOfRange)
      ensures r == Pass ==> nodes[0].stimulus == s
    {
      var primary := Node(0);
      if primary.Err? {
        return Fail(OutOfRange);
      }
      primary.value.SetExternalStimulus(s);
      r := Pass;
    }

    /** `calculateNextState()`: each node's next state from the current inputs. */
    method CalculateNextState(step: OdeStep)
      requires Valid() && AllInputsReady(nodes)
      modifies Members(nodes)`nextOdeState
      ensures forall i :: 0 <= i < |nodes| ==> nodes[i].nextOdeState == step(old(nodes[i].odeState), old(nodes[i].NetInput()))
    {
      CalculateAll(nodes, step);
    }

    /** `calculateNextState(stimulus)`: the stimulus goes to the primary node first, which throws when there is none. */
    method CalculateNextStateWith(s: real, step: OdeStep) returns (r: Outcome)
      requires Valid() && AllInputsReady(nodes)
      modifies Primary(nodes)`stimulus, Members(nodes)`nextOdeState
      ensures r == Pass <==> |nodes| > 0
      ensures r != Pass ==> r == Fail(OutOfRange)
      ensures r == Pass ==> nodes[0].stimulus == s
      ensures r == Pass ==> nodes[0].nextOdeState == step(old(nodes[0].odeState), s + old(nodes[0].noise + DelayedSum(nodes[0].inbound)))
      ensures forall i :: 0 < i < |nodes| ==> nodes[i].nextOdeState == step(old(nodes[i].odeState), old(nodes[i].NetInput()))
    {
      var primary := Node(0);
      if primary.Err? {
        return Fail(OutOfRange);
      }
      CalculateAllWith(nodes, s, step);
      r := Pass;
    }

    /** `commitNextState()`: every node commits once. */
    method CommitNextState(sigmoid: Sigmoid)
      requires Valid() && AllCanPut(nodes)
      modifies Members(nodes)`odeState, Histories(nodes)`samples
      ensures forall i :: 0 <= i < |nodes| ==> Committed(old(nodes[i].nextOdeState), old(nodes[i].history.samples), nodes[i], sigmoid)
    {
      CommitAll(nodes, sigmoid);
    }

    /** `calculateAndCommitNextState()`. */
    method CalculateAndCommitNextState(step: OdeStep, sigmoid: Sigmoid)
      requires Valid() && AllInputsReady(nodes) && AllCanPut(nodes)
      modifies Members(nodes)`odeState, Members(nodes)`nextOdeState, Histories(nodes)`samples
      ensures forall i :: 0 <= i < |nodes| ==>
                && nodes[i].nextOdeState == step(old(nodes[i].odeState), old(nodes[i].NetInput()))
                && Committed(nodes[i].nextOdeState, old(nodes[i].history.samples), nodes[i], sigmoid)
    {
      StepAll(nodes, step, sigmoid);
    }

    /** `calculateAndCommitNextState(stimulus)`: nothing is stepped when there is no primary node. */
    method CalculateAndCommitNextStateWith(s: real, step: OdeStep, sigmoid: Sigmoid) returns (r: Outcome)
      requires Valid() && AllInputsReady(nodes) && AllCanPut(nodes)
      modifies Primary(nodes)`stimulus, Members(nodes)`odeState, Members(nodes)`nextOdeState, Histories(nodes)`samples
      ensures r == Pass <==> |nodes| > 0
      ensures r != Pass ==> r == Fail(OutOfRange)
      ensures r == Pass ==> nodes[0].stimulus == s
      ensures r == Pass ==> nodes[0].nextOdeState == step(old(nodes[0].odeState), s + old(nodes[0].noise + DelayedSum(nodes[0].inbound)))
      ensures forall i :: 0 < i < |nodes| ==> nodes[i].nextOdeState == step(old(nodes[i].odeState), old(nodes[i].NetInput()))
      ensures r == Pass ==> forall i :: 0 <= i < |nodes| ==> Committed(nodes[i].nextOdeState, old(nodes[i].history.samples), nodes[i], sigmoid)
    {
      var primary := Node(0);
      if primary.Err? {
        return Fail(OutOfRange);
      }
      StepAllWith(nodes, s, step, sigmoid);
      r := Pass;
    }
  }

  /**
   * `K1(wPS, wSP, dPS, dSP)`: two default nodes, the secondary listening to
   * the primary and back with the given weights and delays. Unlike the
   * later K1, the signs of the weights are not checked: every pair of
   * weights gives a K1.
   */
  method NewK1(wPS: real, wSP: real, dPS: nat, dSP: nat) returns (c: K0Collection)
    ensures fresh(c) && c.Valid() && WiredAs(c.nodes, K1Table(wPS, wSP, dPS, dSP))
    ensures forall i :: 0 <= i < 2 ==> fresh(c.nodes[i]) && c.nodes[i].history.samples == seq(HISTORY_SIZE, _ => 0.0)
  {
    c := new K0Collection(2);
    var primary, secondary := c.nodes[0], c.nodes[1];
    assert DefaultNode(primary) && DefaultNode(secondary);
    secondary.AddInboundConnection(primary, wPS, dPS, None);
    primary.AddInboundConnection(secondary, wSP, dSP, None);
    K1Wired(c.nodes, wPS, wSP, dPS, dSP);
  }
}
