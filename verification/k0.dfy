/**
 * K0 sets: the single neural population of the K-set hierarchy, the signed
 * delayed connections between them, the cycle-safe cloning of a connection
 * subgraph, and the K0Collection every larger K set is built from.
 *
 * A connection is stored on its target ("inbound"), refers to its source by
 * reference, and reads the source's output `delay` steps back. Floating
 * point numbers are reals; the sigmoid, built from exponentials, is a
 * parameter.
 */
module K0Graph {
  import opened Outcomes
  import opened History

  /** A connection tag (`conntag`); its definition is not part of this model. */
  type ConnTag = nat

  /** The delay and tag `addInboundConnection` uses when the caller gives none. */
  const DEFAULT_DELAY: nat := 0

  const HISTORY_SIZE: nat := 20000
  const SIGMOID_Q: real := 5.0

  datatype K0Config = K0Config(historySize: nat, sigmoidQ: real)

  const DEFAULT_K0_CONFIG: K0Config := K0Config(HISTORY_SIZE, SIGMOID_Q)

  /** `odeState`: [0] the output before the sigmoid, [1] its derivative. */
  datatype OdeState = OdeState(x: real, dx: real)

  /**
   * One ODE step from a state under a total input. The simulator's step is
   * `Rk4` below; the nodes and collections take it as a parameter, so their
   * proofs do not depend on its arithmetic.
   */
  type OdeStep = (OdeState, real) -> OdeState

  const ODE_STEP_SIZE: real := 0.5
  const ODE_A_DECAY_RATE: real := 0.22
  const ODE_B_RISE_RATE: real := 0.72

  /** `odeF1`: the derivative of the output is its second state component. */
  function OdeF1(x: real, dx: real, u: real): real
  {
    dx
  }

  /** `odeF2`: the second-order decay/rise dynamics driven by the total input `u`. */
  function OdeF2(x: real, dx: real, u: real): real
  {
    -(ODE_A_DECAY_RATE + ODE_B_RISE_RATE) * dx + ODE_A_DECAY_RATE * ODE_B_RISE_RATE * (u - x)
  }

  /**
   * One classical Runge-Kutta step of size `ODE_STEP_SIZE` under the total
   * input `u`. A node is at rest under a constant input exactly when its
   * output equals that input and its derivative is zero: the step leaves
   * such a state unchanged and moves every other one.
   */
  function Rk4(s: OdeState, u: real): (r: OdeState)
    ensures r == s <==> s == OdeState(u, 0.0)
  {
    var h := ODE_STEP_SIZE;
    var k1 := OdeF1(s.x, s.dx, u) * h;
    var l1 := OdeF2(s.x, s.dx, u) * h;
    var k2 := OdeF1(s.x + k1 / 2.0, s.dx + l1 / 2.0, u) * h;
    var l2 := OdeF2(s.x + k1 / 2.0, s.dx + l1 / 2.0, u) * h;
    var k3 := OdeF1(s.x + k2 / 2.0, s.dx + l2 / 2.0, u) * h;
    var l3 := OdeF2(s.x + k2 / 2.0, s.dx + l2 / 2.0, u) * h;
    var k4 := OdeF1(s.x + k3, s.dx + l3, u) * h;
    var l4 := OdeF2(s.x + k3, s.dx + l3, u) * h;
    OdeState(s.x + (k1 + 2.0 * k2 + 2.0 * k3 + k4) / 6.0, s.dx + (l1 + 2.0 * l2 + 2.0 * l3 + l4) / 6.0)
  }

  /** The sigmoid of an output under a node's `sigmoidQ` (floating point; a parameter). */
  type Sigmoid = (real, real) -> real

  /** `copysign(1.0, x) < 0`; a real has no negative zero, so zero counts as positive. */
  predicate SignBit(x: real)
  {
    x < 0.0
  }

  datatype Connection = Connection(source: K0, target: K0, weight: real, delay: nat, tag: Option<ConnTag>)
  {
    /**
     * `perturbWeight(delta)`: adds `delta` to the weight unless that would
     * change its sign; reports whether it did.
     */
    function PerturbWeight(delta: real): (r: (bool, Connection))
      ensures r.0 <==> SignBit(weight) == SignBit(weight + delta)
      ensures r.0 ==> r.1 == this.(weight := weight + delta)
      ensures !r.0 ==> r.1 == this
      ensures SignBit(r.1.weight) == SignBit(weight)
    {
      var newWeight := weight + delta;
      if SignBit(weight) != SignBit(newWeight) then (false, this)
      else (true, this.(weight := newWeight))
    }
  }

  /** Repeated perturbation never changes a weight's sign. */
  lemma {:induction false} PerturbationsKeepSign(c: Connection, deltas: seq<real>)
    ensures SignBit(PerturbAll(c, deltas).weight) == SignBit(c.weight)
    decreases |deltas|
  {
    if deltas != [] {
      PerturbationsKeepSign(c.PerturbWeight(deltas[0]).1, deltas[1..]);
    }
  }

  /** The connection after trying each perturbation in turn. */
  function PerturbAll(c: Connection, deltas: seq<real>): Connection
    decreases |deltas|
  {
    if deltas == [] then c else PerturbAll(c.PerturbWeight(deltas[0]).1, deltas[1..])
  }

  /** The histories an inbound list reads from. */
  ghost function SourceHistories(conns: seq<Connection>): set<ActivationHistory>
  {
    set c | c in conns :: c.source.history
  }

  /** Every connection's delayed read is in range (otherwise `at` throws inside noexcept code). */
  ghost predicate InputsReady(conns: seq<Connection>)
    reads SourceHistories(conns)`samples
  {
    forall c :: c in conns ==> c.source.history.Get(c.delay).Ok?
  }

  /** The sum over the connections of weight times the source's delayed output. */
  ghost function DelayedSum(conns: seq<Connection>): real
    reads SourceHistories(conns)`samples
    requires InputsReady(conns)
    decreases |conns|
  {
    if conns == [] then 0.0
    else
      var last := conns[|conns| - 1];
      assert SourceHistories(conns[..|conns| - 1]) <= SourceHistories(conns);
      DelayedSum(conns[..|conns| - 1]) + last.weight * last.source.history.Get(last.delay).value
  }

  /** The delayed sum only depends on the sources' samples. */
  twostate lemma DelayedSumUnchanged(conns: seq<Connection>)
    requires old(InputsReady(conns))
    requires forall c :: c in conns ==> unchanged(c.source.history`samples)
    ensures InputsReady(conns) && DelayedSum(conns) == old(DelayedSum(conns))
    decreases |conns|
  {
    if conns != [] {
      DelayedSumUnchanged(conns[..|conns| - 1]);
    }
  }

  class K0 {
    const history: ActivationHistory
    var sigmoidQ: real
    var inbound: seq<Connection>
    var odeState: OdeState
    var nextOdeState: OdeState
    var stimulus: real
    var noise: real
    var hasNoiseEngine: bool
    var collection: K0Collection?
    var id: Option<nat>

    /** `K0(config)`: a free-standing node with a zeroed history. */
    constructor (config: K0Config)
      ensures fresh(history)
      ensures history.samples == seq(config.historySize, _ => 0.0) && history.monitoredWindow == None
      ensures sigmoidQ == config.sigmoidQ && inbound == []
      ensures odeState == OdeState(0.0, 0.0) && nextOdeState == OdeState(0.0, 0.0)
      ensures stimulus == 0.0 && noise == 0.0 && !hasNoiseEngine
      ensures collection == null && id == None
    {
      history := new ActivationHistory(config.historySize);
      sigmoidQ := config.sigmoidQ;
      inbound := [];
      odeState, nextOdeState := OdeState(0.0, 0.0), OdeState(0.0, 0.0);
      stimulus, noise, hasNoiseEngine := 0.0, 0.0, false;
      collection, id := null, None;
    }

    /** `K0(collection, id, config)`: a node that knows its collection and index. */
    constructor InCollection(owner: K0Collection, nodeId: nat, config: K0Config)
      ensures fresh(history)
      ensures history.samples == seq(config.historySize, _ => 0.0) && history.monitoredWindow == None
      ensures sigmoidQ == config.sigmoidQ && inbound == []
      ensures odeState == OdeState(0.0, 0.0) && nextOdeState == OdeState(0.0, 0.0)
      ensures stimulus == 0.0 && noise == 0.0 && !hasNoiseEngine
      ensures collection == owner && id == Some(nodeId)
    {
      history := new ActivationHistory(config.historySize);
      sigmoidQ := config.sigmoidQ;
      inbound := [];
      odeState, nextOdeState := OdeState(0.0, 0.0), OdeState(0.0, 0.0);
      stimulus, noise, hasNoiseEngine := 0.0, 0.0, false;
      collection, id := owner, Some(nodeId);
    }

    /**
     * The copy constructor: history, ODE state, stimulus and id are copied;
     * the copy starts with no connections, no collection and no noise engine.
     */
    constructor Copy(other: K0)
      ensures fresh(history)
      ensures StateCopied(other, this)
      ensures inbound == [] && noise == 0.0 && !hasNoiseEngine
    {
      history := new ActivationHistory.Copy(other.history);
      sigmoidQ := other.sigmoidQ;
      inbound := [];
      odeState, nextOdeState := other.odeState, other.nextOdeState;
      stimulus := other.stimulus;
      noise, hasNoiseEngine := 0.0, false;
      collection := null;
      id := other.id;
    }

    /** `setHistorySize(nIter)`. */
    method SetHistorySize(nIter: nat)
      modifies history`samples
      ensures history.Size() == nIter
    {
      history.Resize(nIter);
    }

    /** `setActivityMonitoring(nIter)`: forwards to the history. */
    method SetActivityMonitoring(nIter: nat) returns (r: Outcome)
      modifies history`monitoredWindow
      ensures nIter > history.Size() ==> r == Fail(InvalidArgument) && history.monitoredWindow == old(history.monitoredWindow)
      ensures nIter == 0 ==> r == Pass && history.monitoredWindow == None
      ensures 0 < nIter <= history.Size() ==> history.monitoredWindow == Some(nIter) && r == history.InitMonitoring(nIter)
      ensures (r == Pass <==> history.AcceptsWindow(nIter)) && history.monitoredWindow == history.WindowAfter(old(history.monitoredWindow), nIter)
    {
      r := history.SetActivityMonitoring(nIter);
    }

    method SetCollection(owner: K0Collection)
      modifies this`collection
      ensures collection == owner
    {
      collection := owner;
    }

    method SetId(nodeId: nat)
      modifies this`id
      ensures id == Some(nodeId)
    {
      id := Some(nodeId);
    }

    /** `addInboundConnection`: appends exactly one connection ending at this node. */
    method AddInboundConnection(source: K0, weight: real, delay: nat, tag: Option<ConnTag>)
      modifies this`inbound
      ensures inbound == old(inbound) + [Connection(source, this, weight, delay, tag)]
    {
      inbound := inbound + [Connection(source, this, weight, delay, tag)];
    }

    /** `clearInboundConnections`. */
    method ClearInboundConnections()
      modifies this`inbound
      ensures inbound == []
    {
      inbound := [];
    }

    /** `getDelayedOutput(delay)`: the history sample `delay` steps back. */
    function DelayedOutput(delay: nat): (r: real)
      reads history`samples
      requires history.Get(delay).Ok?
      ensures history.Get(delay) == Ok(r)
    {
      history.Get(delay).value
    }

    /** `getCurrentOutput()`: the newest history sample. */
    function CurrentOutput(): (r: real)
      reads history`samples
      requires history.Get(0).Ok?
      ensures history.Get(0) == Ok(r)
    {
      DelayedOutput(0)
    }

    /** `setExternalStimulus`. */
    method SetExternalStimulus(s: real)
      modifies this`stimulus
      ensures stimulus == s
    {
      stimulus := s;
    }

    /** `setRngEngine`: installs an engine and draws from it; `draw` is its first value. */
    method SetRngEngine(draw: real)
      modifies this`hasNoiseEngine, this`noise
      ensures hasNoiseEngine && noise == draw
    {
      hasNoiseEngine := true;
      var r := AdvanceNoise(draw);
    }

    /** `advanceNoise`: logic_error without an engine; otherwise the noise becomes `draw`. */
    method AdvanceNoise(draw: real) returns (r: Outcome)
      modifies this`noise
      ensures r == Pass <==> hasNoiseEngine
      ensures r != Pass ==> r == Fail(LogicError) && noise == old(noise)
      ensures r == Pass ==> noise == draw
    {
      if !hasNoiseEngine {
        return Fail(LogicError);
      }
      noise := draw;
      r := Pass;
    }

    /** `randomizeState(rng)`: the output part of the ODE state becomes the draw `draw`. */
    method RandomizeState(draw: real)
      modifies this`odeState
      ensures odeState == OdeState(draw, old(odeState.dx))
    {
      odeState := odeState.(x := draw);
    }

    /** The total input: stimulus, noise and every weighted delayed source output. */
    ghost function NetInput(): real
      reads this`stimulus, this`noise, this`inbound, SourceHistories(inbound)`samples
      requires InputsReady(inbound)
    {
      stimulus + noise + DelayedSum(inbound)
    }

    /** A node's input changes only with its stimulus, noise, connections or sources' samples. */
    twostate lemma NetInputUnchanged()
      requires old(InputsReady(inbound))
      requires unchanged(this`stimulus, this`noise, this`inbound)
      requires forall c :: c in inbound ==> unchanged(c.source.history`samples)
      ensures InputsReady(inbound) && NetInput() == old(NetInput())
    {
      DelayedSumUnchanged(inbound);
    }

    /** `calculateNetInput`: the accumulation loop over the inbound connections. */
    method CalculateNetInput() returns (acc: real)
      requires InputsReady(inbound)
      ensures acc == NetInput()
    {
      acc := stimulus;
      acc := acc + noise;
      var i := 0;
      while i < |inbound|
        invariant 0 <= i <= |inbound|
        invariant InputsReady(inbound[..i])
        invariant acc == stimulus + noise + DelayedSum(inbound[..i])
      {
        var c := inbound[i];
        assert c in inbound;
        assert inbound[..i + 1][..i] == inbound[..i];
        acc := acc + c.weight * c.source.history.Get(c.delay).value;
        i := i + 1;
      }
      assert inbound[..i] == inbound;
    }

    /** `calculateNextState()`: one ODE step under the current net input. */
    method CalculateNextState(step: OdeStep)
      requires InputsReady(inbound)
      modifies this`nextOdeState
      ensures nextOdeState == step(odeState, NetInput())
    {
      var total := CalculateNetInput();
      nextOdeState := step(odeState, total);
    }

    /** `calculateNextState(stimulus)`: set the stimulus, then step. */
    method CalculateNextStateWith(s: real, step: OdeStep)
      requires InputsReady(inbound)
      modifies this`stimulus, this`nextOdeState
      ensures stimulus == s
      ensures nextOdeState == step(odeState, NetInput())
    {
      SetExternalStimulus(s);
      CalculateNextState(step);
    }

    /**
     * `commitNextState()`: the next state becomes the state and exactly one
     * sample, the sigmoid of the new output, is pushed to the history
     * (`pushOutputToHistory`), so it is the new current output.
     */
    method CommitNextState(sigmoid: Sigmoid)
      requires history.CanPut()
      modifies this`odeState, history`samples
      ensures odeState == old(nextOdeState)
      ensures history.samples == Pushed(old(history.samples), sigmoid(odeState.x, sigmoidQ))
    {
      odeState := nextOdeState;
      var r := history.Put(sigmoid(odeState.x, sigmoidQ));
    }

    /** `calculateAndCommitNextState()`. */
    method CalculateAndCommitNextState(step: OdeStep, sigmoid: Sigmoid)
      requires InputsReady(inbound) && history.CanPut()
      modifies this`odeState, this`nextOdeState, history`samples
      ensures odeState == nextOdeState == step(old(odeState), old(NetInput()))
      ensures history.samples == Pushed(old(history.samples), sigmoid(odeState.x, sigmoidQ))
    {
      assert forall h :: h in SourceHistories(inbound) ==> allocated(h);
      CalculateNextState(step);
      CommitNextState(sigmoid);
    }

    /** `calculateAndCommitNextState(stimulus)`. */
    method CalculateAndCommitNextStateWith(s: real, step: OdeStep, sigmoid: Sigmoid)
      requires InputsReady(inbound) && history.CanPut()
      modifies this`stimulus, this`odeState, this`nextOdeState, history`samples
      ensures stimulus == s
      ensures odeState == nextOdeState == step(old(odeState), s + old(noise + DelayedSum(inbound)))
      ensures history.samples == Pushed(old(history.samples), sigmoid(odeState.x, sigmoidQ))
    {
      CalculateNextStateWith(s, step);
      DelayedSumUnchanged(inbound);
      CommitNextState(sigmoid);
    }

    /**
     * `cloneSubgraph()`: a fresh copy of every node reachable from this one
     * through inbound sources, wired like the originals, keyed by original.
     */
    method CloneSubgraph(ghost g: set<K0>) returns (m: map<K0, K0>)
      requires this in g && ClosedUnderSources(g)
      ensures this in m && NewKeysIn(map[], m, g)
      ensures forall k :: k in m ==> fresh(m[k]) && fresh(m[k].history)
      ensures ClonesCopied(map[], m) && ClonesWired(map[], m, {}) && ClonesDistinct(map[], m)
    {
      m := DoCloneSubgraph(map[], this, g);
    }

    /**
     * `cloneSubgraph(partialMapping)`: extends a partial mapping with clones of
     * every node reachable from this one that it does not map yet; the
     * entries already there are kept and reused as sources.
     */
    method CloneSubgraphInto(partial: map<K0, K0>, ghost g: set<K0>) returns (m: map<K0, K0>)
      requires this in g && ClosedUnderSources(g)
      ensures Extends(partial, m) && this in m && NewKeysIn(partial, m, g)
      ensures forall k :: k in m && k !in partial ==> fresh(m[k]) && fresh(m[k].history)
      ensures ClonesCopied(partial, m) && ClonesWired(partial, m, {}) && ClonesDistinct(partial, m)
    {
      m := DoCloneSubgraph(partial, this, g);
    }
  }

  /** The node-level state the copy constructor carries over. */
  ghost predicate StateCopied(orig: K0, clone: K0)
    reads orig`sigmoidQ, orig`odeState, orig`nextOdeState, orig`stimulus, orig`id
    reads clone`sigmoidQ, clone`odeState, clone`nextOdeState, clone`stimulus, clone`id, clone`collection
    reads orig.history, clone.history
  {
    && clone.history.samples == orig.history.samples
    && clone.history.monitoredWindow == orig.history.monitoredWindow
    && clone.sigmoidQ == orig.sigmoidQ
    && clone.odeState == orig.odeState
    && clone.nextOdeState == orig.nextOdeState
    && clone.stimulus == orig.stimulus
    && clone.id == orig.id
    && clone.collection == null
  }

  /** `m'` keeps every entry of `m`. */
  ghost predicate Extends(m: map<K0, K0>, m': map<K0, K0>)
  {
    forall k :: k in m ==> k in m' && m'[k] == m[k]
  }

  /** `g` contains the source of every inbound connection of its nodes. */
  ghost predicate ClosedUnderSources(g: set<K0>)
    reads g
  {
    forall n :: n in g ==> forall j :: 0 <= j < |n.inbound| ==> n.inbound[j].source in g
  }

  /**
   * The first `n` inbound connections of `clone` are those of `orig`, in the
   * same order and with the same weight, delay and tag, but coming from the
   * clone (under `m`) of the original source and ending at `clone`.
   */
  ghost predicate WiredPrefix(orig: K0, clone: K0, m: map<K0, K0>, n: nat)
    reads orig`inbound, clone`inbound
  {
    && n <= |orig.inbound|
    && |clone.inbound| == n
    && forall j :: 0 <= j < n ==>
         var c := orig.inbound[j];
         c.source in m && clone.inbound[j] == Connection(m[c.source], clone, c.weight, c.delay, c.tag)
  }

  ghost predicate Wired(orig: K0, clone: K0, m: map<K0, K0>)
    reads orig`inbound, clone`inbound
  {
    WiredPrefix(orig, clone, m, |orig.inbound|)
  }

  lemma WiredPrefixExtends(orig: K0, clone: K0, m: map<K0, K0>, m': map<K0, K0>, n: nat)
    requires WiredPrefix(orig, clone, m, n) && Extends(m, m')
    ensures WiredPrefix(orig, clone, m', n)
  {
  }

  /** Every key `m'` adds to `m` (other than those in `skip`) maps to a wired clone. */
  ghost predicate ClonesWired(m: map<K0, K0>, m': map<K0, K0>, skip: set<K0>)
    reads m'.Keys`inbound, m'.Values`inbound
  {
    forall k :: k in m' && k !in m && k !in skip ==> Wired(k, m'[k], m')
  }

  /** The keys `m'` adds to `m` map to pairwise distinct clones with distinct histories. */
  ghost predicate ClonesDistinct(m: map<K0, K0>, m': map<K0, K0>)
  {
    forall k1, k2 :: k1 in m' && k2 in m' && k1 !in m && k2 !in m && k1 != k2 ==>
      m'[k1] != m'[k2] && m'[k1].history != m'[k2].history
  }

  /** The keys `m'` adds to `m` are nodes of `g`. */
  ghost predicate NewKeysIn(m: map<K0, K0>, m': map<K0, K0>, g: set<K0>)
  {
    forall k :: k in m' && k !in m && k !in g ==> false
  }

  /** Wiring made against a smaller map survives the extension a nested call makes. */
  lemma {:induction false} ClonesWiredCompose(m: map<K0, K0>, before: map<K0, K0>, m': map<K0, K0>, skip: set<K0>)
    requires ClonesWired(m, before, skip) && ClonesWired(before, m', {}) && Extends(before, m')
    ensures ClonesWired(m, m', skip)
  {
    forall k | k in m' && k !in m && k !in skip
      ensures Wired(k, m'[k], m')
    {
      if k in before {
        WiredPrefixExtends(k, before[k], before, m', |k.inbound|);
      }
    }
  }

  /** Once the clone of `current` is wired too, every clone the call added is. */
  lemma ClonesWiredClose(m: map<K0, K0>, m': map<K0, K0>, current: K0)
    requires ClonesWired(m, m', {current}) && current in m'
    requires current !in m ==> Wired(current, m'[current], m')
    ensures ClonesWired(m, m', {})
  {
  }

  /** The clones the keys `m'` adds to `m` carry their originals' state. */
  ghost predicate ClonesCopied(m: map<K0, K0>, m': map<K0, K0>)
    reads m'.Keys, m'.Values, set k | k in m'.Keys :: k.history, set v | v in m'.Values :: v.history
  {
    forall k :: k in m' && k !in m ==> StateCopied(k, m'[k])
  }

  lemma ClonesCopiedCompose(m: map<K0, K0>, before: map<K0, K0>, m': map<K0, K0>)
    requires ClonesCopied(m, before) && ClonesCopied(before, m') && Extends(before, m')
    ensures ClonesCopied(m, m')
  {
  }

  /** Entering the first clone: the map is extended by at most that one copy. */
  lemma ClonesStart(m: map<K0, K0>, m': map<K0, K0>, current: K0, newCurrent: K0)
    requires m' == if current in m then m else m[current := newCurrent]
    requires StateCopied(current, newCurrent)
    ensures Extends(m, m') && current in m'
    ensures ClonesCopied(m, m') && ClonesWired(m, m', {current}) && ClonesDistinct(m, m')
  {
  }

  /**
   * `doCloneSubgraph(oldToNew, current)`: clones `current` and, depth first,
   * every node reachable from it through inbound sources that is not mapped
   * yet. The clone is entered in the map before the recursion, so a cycle
   * finds it there. `insert` does not overwrite: if `current` was already
   * mapped, its new clone is left out of the map.
   *
   * `g` is a set of nodes closed under sources that contains `current`
   * (every node the DFS can reach); the map's missing part of it shrinks.
   */
  method DoCloneSubgraph(m: map<K0, K0>, current: K0, ghost g: set<K0>) returns (m': map<K0, K0>)
    requires current in g && ClosedUnderSources(g)
    ensures Extends(m, m') && current in m' && NewKeysIn(m, m', g)
    ensures forall k :: k in m' && k !in m ==> fresh(m'[k]) && fresh(m'[k].history)
    ensures ClonesCopied(m, m') && ClonesWired(m, m', {}) && ClonesDistinct(m, m')
    decreases g - m.Keys, if current in m then 4 else 1
  {
    var newCurrent := new K0.Copy(current);
    m' := if current in m then m else m[current := newCurrent];
    ClonesStart(m, m', current, newCurrent);
    var j := 0;
    while j < |current.inbound|
      invariant 0 <= j <= |current.inbound|
      invariant Extends(m, m') && current in m' && NewKeysIn(m, m', g)
      invariant current !in m ==> m'[current] == newCurrent
      invariant fresh(newCurrent) && fresh(newCurrent.history) && StateCopied(current, newCurrent)
      invariant WiredPrefix(current, newCurrent, m', j)
      invariant forall k :: k in m' && k !in m && k != current ==>
                  fresh(m'[k]) && fresh(m'[k].history) && m'[k] != newCurrent && m'[k].history != newCurrent.history
      invariant ClonesCopied(m, m') && ClonesWired(m, m', {current}) && ClonesDistinct(m, m')
    {
      m' := CloneAndLink(m, m', current, newCurrent, j, g);
      j := j + 1;
    }
    ClonesWiredClose(m, m', current);
  }

  /**
   * One pass of the loop in `doCloneSubgraph`: clone the `j`-th source when
   * it is not mapped yet, then give the new node the matching connection.
   */
  method CloneAndLink(ghost m: map<K0, K0>, m1: map<K0, K0>, current: K0, newCurrent: K0, j: nat, ghost g: set<K0>)
    returns (m2: map<K0, K0>)
    requires j < |current.inbound| && current in g && ClosedUnderSources(g) && newCurrent !in g
    requires Extends(m, m1) && current in m1 && NewKeysIn(m, m1, g)
    requires current !in m ==> m1[current] == newCurrent
    requires WiredPrefix(current, newCurrent, m1, j) && StateCopied(current, newCurrent)
    requires forall k :: k in m1 && k !in m && k != current ==> m1[k] != newCurrent && m1[k].history != newCurrent.history
    requires ClonesCopied(m, m1) && ClonesWired(m, m1, {current}) && ClonesDistinct(m, m1)
    modifies newCurrent`inbound
    ensures Extends(m1, m2) && NewKeysIn(m1, m2, g)
    ensures forall k :: k in m2 && k !in m1 ==> fresh(m2[k]) && fresh(m2[k].history)
    ensures WiredPrefix(current, newCurrent, m2, j + 1) && StateCopied(current, newCurrent)
    ensures forall k :: k in m2 && k !in m && k != current ==> m2[k] != newCurrent && m2[k].history != newCurrent.history
    ensures ClonesCopied(m, m2) && ClonesWired(m, m2, {current}) && ClonesDistinct(m, m2)
    decreases g - m1.Keys, 3
  {
    var conn := current.inbound[j];
    m2 := MapSource(m, m1, current, newCurrent, j, g);
    newCurrent.AddInboundConnection(m2[conn.source], conn.weight, conn.delay, conn.tag);
  }

  /** The first half of that pass: afterwards the `j`-th source is mapped. */
  method MapSource(ghost m: map<K0, K0>, m1: map<K0, K0>, current: K0, newCurrent: K0, j: nat, ghost g: set<K0>)
    returns (m2: map<K0, K0>)
    requires j < |current.inbound| && current in g && ClosedUnderSources(g)
    requires Extends(m, m1) && current in m1 && NewKeysIn(m, m1, g)
    requires WiredPrefix(current, newCurrent, m1, j)
    requires ClonesCopied(m, m1) && ClonesWired(m, m1, {current}) && ClonesDistinct(m, m1)
    ensures Extends(m1, m2) && NewKeysIn(m1, m2, g) && current.inbound[j].source in m2
    ensures forall k :: k in m2 && k !in m1 ==> fresh(m2[k]) && fresh(m2[k].history)
    ensures WiredPrefix(current, newCurrent, m2, j)
    ensures ClonesCopied(m, m2) && ClonesWired(m, m2, {current}) && ClonesDistinct(m, m2)
    decreases g - m1.Keys, 2
  {
    var source := current.inbound[j].source;
    m2 := m1;
    if source !in m1 {
      m2 := DoCloneSubgraph(m1, source, g);
      WiredPrefixExtends(current, newCurrent, m1, m2, j);
      ClonesWiredCompose(m, m1, m2, {current});
    }
  }

  /**
   * The body of the copy constructor's loop: clone a node's subgraph into
   * the mapping unless the node is mapped already.
   */
  method CloneIfMissing(oldToNew: map<K0, K0>, node: K0, ghost g: set<K0>) returns (m: map<K0, K0>)
    requires node in g && ClosedUnderSources(g)
    requires ClonesCopied(map[], oldToNew) && ClonesWired(map[], oldToNew, {}) && ClonesDistinct(map[], oldToNew)
    ensures Extends(oldToNew, m) && node in m
    ensures forall k :: k in m && k !in oldToNew ==> k in g && fresh(m[k]) && fresh(m[k].history)
    ensures ClonesCopied(map[], m) && ClonesWired(map[], m, {}) && ClonesDistinct(map[], m)
  {
    m := oldToNew;
    if node !in oldToNew {
      m := node.CloneSubgraphInto(oldToNew, g);
      ClonesWiredCompose(map[], oldToNew, m, {});
      ClonesCopiedCompose(map[], oldToNew, m);
    }
  }

  /**
   * The loop of the collection's copy constructor: clones every node of
   * `nodes` still missing from the map and lists the clones in order.
   */
  method CloneEach(start: map<K0, K0>, nodes: seq<K0>, ghost g: set<K0>) returns (m: map<K0, K0>, clones: seq<K0>)
    requires forall i :: 0 <= i < |nodes| ==> nodes[i] in g
    requires ClosedUnderSources(g)
    requires ClonesCopied(map[], start) && ClonesWired(map[], start, {}) && ClonesDistinct(map[], start)
    ensures Extends(start, m)
    ensures forall k :: k in m && k !in start ==> k in g && fresh(m[k]) && fresh(m[k].history)
    ensures ClonesCopied(map[], m) && ClonesWired(map[], m, {}) && ClonesDistinct(map[], m)
    ensures |clones| == |nodes|
    ensures forall i :: 0 <= i < |nodes| ==> nodes[i] in m && clones[i] == m[nodes[i]]
  {
    m := start;
    clones := [];
    var i := 0;
    while i < |nodes|
      invariant 0 <= i <= |nodes| && |clones| == i
      invariant Extends(start, m)
      invariant forall k :: k in m && k !in start ==> k in g && fresh(m[k]) && fresh(m[k].history)
      invariant ClonesCopied(map[], m) && ClonesWired(map[], m, {}) && ClonesDistinct(map[], m)
      invariant forall k :: 0 <= k < i ==> nodes[k] in m && clones[k] == m[nodes[k]]
    {
      ghost var before := m;
      m := CloneIfMissing(m, nodes[i], g);
      clones := clones + [m[nodes[i]]];
      forall k | 0 <= k <= i
        ensures nodes[k] in m && clones[k] == m[nodes[k]]
      {
        if k < i {
          assert nodes[k] in before;
        }
      }
      i := i + 1;
    }
  }

  /** Pairwise distinct nodes with pairwise distinct histories: a loop over them touches each once. */
  ghost predicate Distinct(ns: seq<K0>)
  {
    forall i, j :: 0 <= i < j < |ns| ==> ns[i] != ns[j] && ns[i].history != ns[j].history
  }

  /** Nodes `i` and `j` of `ns` are two nodes with two histories. */
  ghost predicate Apart(ns: seq<K0>, i: int, j: int)
  {
    0 <= i < |ns| && 0 <= j < |ns| && ns[i] != ns[j] && ns[i].history != ns[j].history
  }

  /**
   * `Distinct(ns)`, spelled pair by pair: a pair is only looked at when a
   * proof names it, so long node sequences are kept in this form and turned
   * into `Distinct` where a loop over the nodes needs it.
   */
  ghost predicate Separate(ns: seq<K0>)
  {
    forall i, j {:trigger Apart(ns, i, j)} :: 0 <= i < j < |ns| ==> Apart(ns, i, j)
  }

  lemma SeparateDistinct(ns: seq<K0>)
    requires Separate(ns)
    ensures Distinct(ns)
  {
    forall i, j | 0 <= i < j < |ns|
      ensures ns[i] != ns[j] && ns[i].history != ns[j].history
    {
      assert Apart(ns, i, j);
    }
  }

  ghost function Members(ns: seq<K0>): set<K0>
  {
    set i | 0 <= i < |ns| :: ns[i]
  }

  /** The primary node, when there is one: the only node `setExternalStimulus` touches. */
  ghost function Primary(ns: seq<K0>): set<K0>
  {
    if |ns| > 0 then {ns[0]} else {}
  }

  ghost function Histories(ns: seq<K0>): set<ActivationHistory>
  {
    set i | 0 <= i < |ns| :: ns[i].history
  }

  /** Every node's delayed reads are in range. */
  ghost predicate AllInputsReady(ns: seq<K0>)
    reads Members(ns)`inbound, set i, c | 0 <= i < |ns| && c in ns[i].inbound :: c.source.history`samples
  {
    forall i :: 0 <= i < |ns| ==> InputsReady(ns[i].inbound)
  }

  /** Node `n` holds the state one ODE step on from its state, under its input. */
  ghost predicate Calculated(n: K0, step: OdeStep)
    reads n`nextOdeState, n`odeState, n`stimulus, n`noise, n`inbound, SourceHistories(n.inbound)`samples
    requires InputsReady(n.inbound)
  {
    n.nextOdeState == step(n.odeState, n.NetInput())
  }

  /** Every node's history accepts a put. */
  ghost predicate AllCanPut(ns: seq<K0>)
    reads Histories(ns)`samples, Histories(ns)`monitoredWindow
  {
    forall i :: 0 <= i < |ns| ==> ns[i].history.CanPut()
  }

  /**
   * Node `n` has committed the state `next`: it is the state now, and the
   * history that held `before` has had exactly the new output pushed.
   */
  ghost predicate Committed(next: OdeState, before: seq<real>, n: K0, sigmoid: Sigmoid)
    reads n`odeState, n`sigmoidQ, n.history`samples
  {
    |before| > 0 && n.odeState == next && n.history.samples == Pushed(before, sigmoid(next.x, n.sigmoidQ))
  }

  /** The destructors' loop: every node is left with no inbound connections. */
  method ClearAll(ns: seq<K0>)
    modifies Members(ns)`inbound
    ensures forall i :: 0 <= i < |ns| ==> ns[i].inbound == []
  {
    var i := 0;
    while i < |ns|
      invariant 0 <= i <= |ns|
      invariant forall k :: 0 <= k < i ==> ns[k].inbound == []
    {
      ns[i].ClearInboundConnections();
      i := i + 1;
    }
  }

  /** The collections' `calculateNextState()` loop: each node computes once, from the inputs before the loop. */
  method CalculateAll(ns: seq<K0>, step: OdeStep)
    requires Distinct(ns) && AllInputsReady(ns)
    modifies Members(ns)`nextOdeState
    ensures forall i :: 0 <= i < |ns| ==> ns[i].nextOdeState == step(old(ns[i].odeState), old(ns[i].NetInput()))
    ensures forall i :: 0 <= i < |ns| ==> InputsReady(ns[i].inbound) && Calculated(ns[i], step)
  {
    var i := 0;
    while i < |ns|
      invariant 0 <= i <= |ns|
      invariant forall k :: 0 <= k < i ==> ns[k].nextOdeState == step(old(ns[k].odeState), old(ns[k].NetInput()))
    {
      ns[i].CalculateNextState(step);
      ns[i].NetInputUnchanged();
      i := i + 1;
    }
    forall k | 0 <= k < |ns|
      ensures InputsReady(ns[k].inbound) && Calculated(ns[k], step)
    {
      ns[k].NetInputUnchanged();
    }
  }

  /**
   * `calculateNextState(stimulus)` of a collection: the primary node's
   * stimulus is set first, so its step sees the new stimulus and the others
   * see their own.
   */
  method CalculateAllWith(ns: seq<K0>, s: real, step: OdeStep)
    requires Distinct(ns) && AllInputsReady(ns) && |ns| > 0
    modifies {ns[0]}`stimulus, Members(ns)`nextOdeState
    ensures ns[0].stimulus == s
    ensures ns[0].nextOdeState == step(old(ns[0].odeState), s + old(ns[0].noise + DelayedSum(ns[0].inbound)))
    ensures forall i :: 0 < i < |ns| ==> ns[i].nextOdeState == step(old(ns[i].odeState), old(ns[i].NetInput()))
  {
    ns[0].SetExternalStimulus(s);
    DelayedSumUnchanged(ns[0].inbound);
    forall i | 0 < i < |ns|
      ensures InputsReady(ns[i].inbound) && ns[i].NetInput() == old(ns[i].NetInput())
    {
      assert ns[i] != ns[0];
      ns[i].NetInputUnchanged();
    }
    CalculateAll(ns, step);
  }

  /** The collections' `commitNextState()` loop: every node commits exactly once. */
  method CommitAll(ns: seq<K0>, sigmoid: Sigmoid)
    requires Distinct(ns) && AllCanPut(ns)
    modifies Members(ns)`odeState, Histories(ns)`samples
    ensures forall i :: 0 <= i < |ns| ==> Committed(old(ns[i].nextOdeState), old(ns[i].history.samples), ns[i], sigmoid)
  {
    var i := 0;
    while i < |ns|
      invariant 0 <= i <= |ns|
      invariant forall k :: 0 <= k < i ==> Committed(old(ns[k].nextOdeState), old(ns[k].history.samples), ns[k], sigmoid)
      invariant forall k :: i <= k < |ns| ==> ns[k].odeState == old(ns[k].odeState) && ns[k].history.samples == old(ns[k].history.samples)
    {
      assert ns[i].history.CanPut();
      ns[i].CommitNextState(sigmoid);
      i := i + 1;
    }
  }

  /** `calculateAndCommitNextState()` of a collection: every node computes before any commits. */
  method StepAll(ns: seq<K0>, step: OdeStep, sigmoid: Sigmoid)
    requires Distinct(ns) && AllInputsReady(ns) && AllCanPut(ns)
    modifies Members(ns)`odeState, Members(ns)`nextOdeState, Histories(ns)`samples
    ensures forall i :: 0 <= i < |ns| ==>
              && ns[i].nextOdeState == step(old(ns[i].odeState), old(ns[i].NetInput()))
              && Committed(ns[i].nextOdeState, old(ns[i].history.samples), ns[i], sigmoid)
  {
    CalculateAll(ns, step);
    CommitAll(ns, sigmoid);
  }

  /** `calculateAndCommitNextState(stimulus)` of a collection. */
  method StepAllWith(ns: seq<K0>, s: real, step: OdeStep, sigmoid: Sigmoid)
    requires Distinct(ns) && AllInputsReady(ns) && AllCanPut(ns) && |ns| > 0
    modifies {ns[0]}`stimulus, Members(ns)`odeState, Members(ns)`nextOdeState, Histories(ns)`samples
    ensures ns[0].stimulus == s
    ensures ns[0].nextOdeState == step(old(ns[0].odeState), s + old(ns[0].noise + DelayedSum(ns[0].inbound)))
    ensures forall i :: 0 < i < |ns| ==> ns[i].nextOdeState == step(old(ns[i].odeState), old(ns[i].NetInput()))
    ensures forall i :: 0 <= i < |ns| ==> Committed(ns[i].nextOdeState, old(ns[i].history.samples), ns[i], sigmoid)
  {
    CalculateAllWith(ns, s, step);
    CommitAll(ns, sigmoid);
  }

  /** `randomizeK0States(rng)`: node `i` takes the `i`-th draw as its output state. */
  method RandomizeAll(ns: seq<K0>, draws: seq<real>)
    requires Distinct(ns) && |draws| == |ns|
    modifies Members(ns)`odeState
    ensures forall i :: 0 <= i < |ns| ==> ns[i].odeState == OdeState(draws[i], old(ns[i].odeState.dx))
  {
    var i := 0;
    while i < |ns|
      invariant 0 <= i <= |ns|
      invariant forall k :: 0 <= k < i ==> ns[k].odeState == OdeState(draws[k], old(ns[k].odeState.dx))
      invariant forall k :: i <= k < |ns| ==> ns[k].odeState == old(ns[k].odeState)
    {
      ns[i].RandomizeState(draws[i]);
      i := i + 1;
    }
  }

  class K0Collection {
    var nodes: seq<K0>
    var name: Option<string>

    /** Distinct nodes with distinct histories: the collection's loops touch each once. */
    ghost predicate Valid()
      reads this
    {
      Distinct(nodes)
    }

    ghost function NodeSet(): set<K0>
      reads this
    {
      Members(nodes)
    }

    ghost function HistorySet(): set<ActivationHistory>
      reads this
    {
      Histories(nodes)
    }

    /** A collection over the given nodes, as the constructors leave it before `initNodes`. */
    constructor Of(members: seq<K0>, collectionName: Option<string>)
      ensures nodes == members && name == collectionName
    {
      nodes := members;
      name := collectionName;
    }

    /**
     * `K0Collection(nNodes, name, config)`: invalid_argument for zero nodes;
     * otherwise `nNodes` fresh nodes with ids 0..nNodes-1.
     */
    static method New(nNodes: nat, collectionName: Option<string>, config: K0Config) returns (r: Result<K0Collection>)
      ensures nNodes == 0 <==> r.Err?
      ensures r.Err? ==> r.error == InvalidArgument
      ensures r.Ok? ==> fresh(r.value) && r.value.Valid() && |r.value.nodes| == nNodes && r.value.name == collectionName
      ensures r.Ok? ==> forall i :: 0 <= i < nNodes ==> r.value.Fresh(i, config)
      ensures r.Ok? ==> forall i :: 0 <= i < nNodes ==> fresh(r.value.nodes[i]) && fresh(r.value.nodes[i].history)
    {
      var c := new K0Collection.Of([], collectionName);
      var o := c.InitNodes(nNodes, config);
      if o.Fail? {
        return Err(InvalidArgument);
      }
      r := Ok(c);
    }

    /**
     * The copy constructor: clones the primary node's subgraph, then the
     * subgraph of every node still missing, and collects the clones in the
     * original order. The name is not copied, and the clones keep their
     * original ids and have no collection reference.
     */
    static method CopyOf(other: K0Collection, ghost g: set<K0>) returns (c: K0Collection, ghost m: map<K0, K0>)
      requires |other.nodes| > 0
      requires forall i :: 0 <= i < |other.nodes| ==> other.nodes[i] in g
      requires ClosedUnderSources(g)
      ensures fresh(c) && c.name == None && |c.nodes| == |other.nodes|
      ensures forall i :: 0 <= i < |other.nodes| ==> other.nodes[i] in m && c.nodes[i] == m[other.nodes[i]]
      ensures NewKeysIn(map[], m, g)
      ensures forall k :: k in m ==> fresh(m[k]) && fresh(m[k].history)
      ensures ClonesCopied(map[], m) && ClonesWired(map[], m, {}) && ClonesDistinct(map[], m)
      ensures other.Valid() ==> c.Valid()
    {
      var oldToNew := other.nodes[0].CloneSubgraph(g);
      var clones;
      oldToNew, clones := CloneEach(oldToNew, other.nodes, g);
      c := new K0Collection.Of(clones, None);
      m := oldToNew;
    }

    /**
     * Node `i` has the state `initNodes` gives a new node: id `i`, this
     * collection, a zeroed history of the configured size, the configured
     * sigmoid parameter, a zero state and stimulus, no noise engine.
     */
    ghost predicate Initial(i: nat, config: K0Config)
      requires i < |nodes|
      reads this, {nodes[i]}`id, {nodes[i]}`collection, {nodes[i]}`sigmoidQ, {nodes[i]}`odeState
      reads {nodes[i]}`nextOdeState, {nodes[i]}`stimulus, {nodes[i]}`hasNoiseEngine, nodes[i].history
    {
      InitialState(i, config) && nodes[i].collection == this
    }

    /** Every node points back at this collection. */
    ghost predicate OwnsNodes()
      reads this, Members(nodes)`collection
    {
      forall i :: 0 <= i < |nodes| ==> nodes[i].collection == this
    }

    /**
     * `Initial` but for the collection reference, which a copy of the node
     * (the copy constructor) does not carry over.
     */
    ghost predicate InitialState(i: nat, config: K0Config)
      requires i < |nodes|
      reads this, {nodes[i]}`id, {nodes[i]}`sigmoidQ, {nodes[i]}`odeState
      reads {nodes[i]}`nextOdeState, {nodes[i]}`stimulus, {nodes[i]}`hasNoiseEngine, nodes[i].history
    {
      var n := nodes[i];
      && n.id == Some(i)
      && n.history.samples == seq(config.historySize, _ => 0.0) && n.history.monitoredWindow == None
      && n.sigmoidQ == config.sigmoidQ && n.odeState == OdeState(0.0, 0.0)
      && n.nextOdeState == OdeState(0.0, 0.0) && n.stimulus == 0.0 && !n.hasNoiseEngine
    }

    /** Node `i` is a newly made node of this collection, with no connections yet. */
    ghost predicate Fresh(i: nat, config: K0Config)
      requires i < |nodes|
      reads this, nodes[i], nodes[i].history
    {
      Initial(i, config) && nodes[i].inbound == []
    }

    /** `initNodes(nNodes, config)`: appends `nNodes` new nodes with ids 0..nNodes-1. */
    method InitNodes(nNodes: nat, config: K0Config) returns (r: Outcome)
      requires Valid()
      modifies this`nodes
      ensures r == (if nNodes == 0 then Fail(InvalidArgument) else Pass)
      ensures nNodes == 0 ==> nodes == old(nodes)
      ensures Valid() && |nodes| == |old(nodes)| + nNodes && nodes[..|old(nodes)|] == old(nodes)
      ensures forall i :: |old(nodes)| <= i < |nodes| ==> fresh(nodes[i]) && fresh(nodes[i].history)
      ensures forall i :: |old(nodes)| <= i < |nodes| ==>
                var n := nodes[i];
                && n.id == Some(i - |old(nodes)|) && n.collection == this && n.inbound == []
                && n.history.samples == seq(config.historySize, _ => 0.0) && n.history.monitoredWindow == None
                && n.sigmoidQ == config.sigmoidQ && n.odeState == OdeState(0.0, 0.0)
                && n.nextOdeState == OdeState(0.0, 0.0) && n.stimulus == 0.0 && !n.hasNoiseEngine
    {
      if nNodes == 0 {
        return Fail(InvalidArgument);
      }
      var base := |nodes|;
      var i := 0;
      while i < nNodes
        invariant 0 <= i <= nNodes
        invariant Valid() && |nodes| == base + i && nodes[..base] == old(nodes)
        invariant forall k :: base <= k < |nodes| ==> fresh(nodes[k]) && fresh(nodes[k].history)
        invariant forall k :: base <= k < |nodes| ==>
                    var n := nodes[k];
                    && n.id == Some(k - base) && n.collection == this && n.inbound == []
                    && n.history.samples == seq(config.historySize, _ => 0.0) && n.history.monitoredWindow == None
                    && n.sigmoidQ == config.sigmoidQ && n.odeState == OdeState(0.0, 0.0)
                    && n.nextOdeState == OdeState(0.0, 0.0) && n.stimulus == 0.0 && !n.hasNoiseEngine
      {
        var n := new K0.InCollection(this, i, config);
        nodes := nodes + [n];
        i := i + 1;
      }
      r := Pass;
    }

    /** `node(index)`: out_of_range past the end. */
    function Node(index: nat): (r: Result<K0>)
      reads this
      ensures r.Ok? <==> index < |nodes|
      ensures r.Ok? ==> r.value == nodes[index]
      ensures r.Err? ==> r.error == OutOfRange
    {
      if index < |nodes| then Ok(nodes[index]) else Err(OutOfRange)
    }

    function Size(): nat
      reads this
    {
      |nodes|
    }

    /** `updateNodeCollectionReferenceAndId`: node `i` points back here with id `i`. */
    method UpdateNodeCollectionReferenceAndId()
      requires Valid()
      modifies NodeSet()`collection, NodeSet()`id
      ensures forall i :: 0 <= i < |nodes| ==> nodes[i].collection == this && nodes[i].id == Some(i)
    {
      var i := 0;
      while i < |nodes|
        invariant 0 <= i <= |nodes|
        invariant forall k :: 0 <= k < i ==> nodes[k].collection == this && nodes[k].id == Some(k)
      {
        nodes[i].SetCollection(this);
        nodes[i].SetId(i);
        i := i + 1;
      }
    }

    /** The destructor: every node is left with no inbound connections. */
    method Destroy()
      requires Valid()
      modifies NodeSet()`inbound
      ensures forall i :: 0 <= i < |nodes| ==> nodes[i].inbound == []
    {
      ClearAll(nodes);
    }

    /** `setExternalStimulus`: only the primary node (node 0) is touched. */
    method SetExternalStimulus(s: real)
      requires |nodes| > 0
      modifies {nodes[0]}`stimulus
      ensures nodes[0].stimulus == s
    {
      nodes[0].SetExternalStimulus(s);
    }

    /** `calculateNextState()`: each node's next state, from the current inputs. */
    method CalculateNextState(step: OdeStep)
      requires Valid() && AllInputsReady(nodes)
      modifies NodeSet()`nextOdeState
      ensures forall i :: 0 <= i < |nodes| ==> nodes[i].nextOdeState == step(old(nodes[i].odeState), old(nodes[i].NetInput()))
    {
      CalculateAll(nodes, step);
    }

    /** `calculateNextState(stimulus)`: set the primary's stimulus, then step every node. */
    method CalculateNextStateWith(s: real, step: OdeStep)
      requires Valid() && AllInputsReady(nodes) && |nodes| > 0
      modifies {nodes[0]}`stimulus, NodeSet()`nextOdeState
      ensures nodes[0].stimulus == s
      ensures nodes[0].nextOdeState == step(old(nodes[0].odeState), s + old(nodes[0].noise + DelayedSum(nodes[0].inbound)))
      ensures forall i :: 0 < i < |nodes| ==> nodes[i].nextOdeState == step(old(nodes[i].odeState), old(nodes[i].NetInput()))
    {
      CalculateAllWith(nodes, s, step);
    }

    /** `commitNextState()`: every node commits exactly once. */
    method CommitNextState(sigmoid: Sigmoid)
      requires Valid() && AllCanPut(nodes)
      modifies NodeSet()`odeState, HistorySet()`samples
      ensures forall i :: 0 <= i < |nodes| ==> Committed(old(nodes[i].nextOdeState), old(nodes[i].history.samples), nodes[i], sigmoid)
    {
      CommitAll(nodes, sigmoid);
    }

    /** `calculateAndCommitNextState()`: a whole step of every node. */
    method CalculateAndCommitNextState(step: OdeStep, sigmoid: Sigmoid)
      requires Valid() && AllInputsReady(nodes) && AllCanPut(nodes)
      modifies NodeSet()`odeState, NodeSet()`nextOdeState, HistorySet()`samples
      ensures forall i :: 0 <= i < |nodes| ==>
                && nodes[i].nextOdeState == step(old(nodes[i].odeState), old(nodes[i].NetInput()))
                && Committed(nodes[i].nextOdeState, old(nodes[i].history.samples), nodes[i], sigmoid)
    {
      StepAll(nodes, step, sigmoid);
    }

    /** `calculateAndCommitNextState(stimulus)`: set the primary's stimulus, then a whole step. */
    method CalculateAndCommitNextStateWith(s: real, step: OdeStep, sigmoid: Sigmoid)
      requires Valid() && AllInputsReady(nodes) && AllCanPut(nodes) && |nodes| > 0
      modifies {nodes[0]}`stimulus, NodeSet()`odeState, NodeSet()`nextOdeState, HistorySet()`samples
      ensures nodes[0].stimulus == s
      ensures nodes[0].nextOdeState == step(old(nodes[0].odeState), s + old(nodes[0].noise + DelayedSum(nodes[0].inbound)))
      ensures forall i :: 0 < i < |nodes| ==> nodes[i].nextOdeState == step(old(nodes[i].odeState), old(nodes[i].NetInput()))
      ensures forall i :: 0 <= i < |nodes| ==> Committed(nodes[i].nextOdeState, old(nodes[i].history.samples), nodes[i], sigmoid)
    {
      StepAllWith(nodes, s, step, sigmoid);
    }

    /** `randomizeK0States(rng)`: node `i` takes the `i`-th draw as its output state. */
    method RandomizeK0States(draws: seq<real>)
      requires Valid() && |draws| == |nodes|
      modifies NodeSet()`odeState
      ensures forall i :: 0 <= i < |nodes| ==> nodes[i].odeState == OdeState(draws[i], old(nodes[i].odeState.dx))
    {
      RandomizeAll(nodes, draws);
    }
  }
}
