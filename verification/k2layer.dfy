/**
 * The K2 layer: a row of K2 units, optionally connected laterally through
 * their primary nodes (excitatory, all pairs) and their antipodal nodes
 * (inhibitory, all pairs), with two histories holding the layer's average
 * primary and antipodal output after each step.
 */
module K2Layers {
  import opened Outcomes
  import opened History
  import opened K0Graph
  import opened Wiring
  import opened K2Set

  /** Where `primaryNode()` and `antipodalNode()` sit in a unit. */
  const PRIMARY: nat := 0
  const ANTIPODAL: nat := 3

  /**
   * The units, four nodes each, laid end to end in `ns`: node `a` of unit
   * `u` is `ns[4u + a]`.
   */
  ghost predicate Tiled(us: seq<K0Collection>, ns: seq<K0>)
    reads us`nodes
  {
    && |ns| == 4 * |us|
    && (forall u :: 0 <= u < |us| ==> |us[u].nodes| == 4)
    && (forall u, a :: 0 <= u < |us| && 0 <= a < 4 ==> us[u].nodes[a] == ns[4 * u + a])
  }

  /** The nodes of the units, unit after unit, each unit's nodes in their own order. */
  function Flatten(us: seq<K0Collection>): seq<K0>
    reads us`nodes
  {
    if us == [] then [] else Flatten(us[..|us| - 1]) + us[|us| - 1].nodes
  }

  /** Walking the units in order, and each unit's nodes in order, visits the layout node by node. */
  lemma {:induction false} FlattenTiled(us: seq<K0Collection>, ns: seq<K0>)
    requires Tiled(us, ns)
    ensures Flatten(us) == ns
  {
    if us != [] {
      var m := |us| - 1;
      assert Tiled(us[..m], ns[..4 * m]) by {
        forall u, a | 0 <= u < m && 0 <= a < 4
          ensures us[..m][u].nodes[a] == ns[..4 * m][4 * u + a]
        {
          assert us[u].nodes[a] == ns[4 * u + a];
        }
      }
      FlattenTiled(us[..m], ns[..4 * m]);
      assert us[m].nodes == ns[4 * m..] by {
        forall a | 0 <= a < 4
          ensures us[m].nodes[a] == ns[4 * m..][a]
        {
          assert us[m].nodes[a] == ns[4 * m + a];
        }
      }
      assert ns == ns[..4 * m] + ns[4 * m..];
    }
  }

  /** Node `a` of every unit, in unit order: `primaryNode()` for `PRIMARY`, `antipodalNode()` for `ANTIPODAL`. */
  function Lane(us: seq<K0Collection>, a: nat): (ps: seq<K0>)
    reads us`nodes
    requires forall u :: 0 <= u < |us| ==> a < |us[u].nodes|
    ensures |ps| == |us| && forall u :: 0 <= u < |us| ==> ps[u] == us[u].nodes[a]
  {
    if us == [] then [] else Lane(us[..|us| - 1], a) + [us[|us| - 1].nodes[a]]
  }

  /** Node `u` of a lane is the node at position `4u + a` of the layout. */
  lemma LaneAt(us: seq<K0Collection>, ns: seq<K0>, a: nat)
    requires Tiled(us, ns) && a < 4
    ensures |Lane(us, a)| == |us| && forall u :: 0 <= u < |us| ==> Lane(us, a)[u] == ns[4 * u + a]
  {
    forall u | 0 <= u < |us|
      ensures Lane(us, a)[u] == ns[4 * u + a]
    {
      assert us[u].nodes[a] == ns[4 * u + a];
    }
  }

  /** The weight each lateral connection carries: the layer weight shared among the other units. */
  function LateralWeight(w: real, n: nat): real
  {
    if n > 1 then w / (n - 1) as real else w
  }

  /** The total weight of a list of connections. */
  function WeightSum(conns: seq<Connection>): real
  {
    if conns == [] then 0.0 else WeightSum(conns[..|conns| - 1]) + conns[|conns| - 1].weight
  }

  lemma {:induction false} WeightSumConstant(conns: seq<Connection>, w: real)
    requires forall i :: 0 <= i < |conns| ==> conns[i].weight == w
    ensures WeightSum(conns) == |conns| as real * w
  {
    if conns != [] {
      WeightSumConstant(conns[..|conns| - 1], w);
    }
  }

  /**
   * The lateral wiring of a layer of `n > 1` units gives each node `n - 1`
   * connections, one from every other unit, whose weights add up to the
   * weight the layer was given.
   */
  lemma LateralInputTotal(ns: seq<K0>, k: nat, w: real, d: nat)
    requires 1 < |ns| && k < |ns|
    ensures var conns := From(ns, k, Others(|ns|, k), LateralWeight(w, |ns|), d);
      |conns| == |ns| - 1 && WeightSum(conns) == w
  {
    var conns := From(ns, k, Others(|ns|, k), LateralWeight(w, |ns|), d);
    WeightSumConstant(conns, LateralWeight(w, |ns|));
  }

  /** The sum of a sequence of outputs, added up in order. */
  function Sum(xs: seq<real>): real
  {
    if xs == [] then 0.0 else Sum(xs[..|xs| - 1]) + xs[|xs| - 1]
  }

  /** A total shared out among `n` units. */
  function Average(total: real, n: nat): real
    requires n > 0
  {
    total / n as real
  }

  /** The layer average: the sum divided by the number of units. */
  function Mean(xs: seq<real>): real
    requires |xs| > 0
  {
    Average(Sum(xs), |xs|)
  }

  lemma {:induction false} SumWithin(xs: seq<real>, lo: real, hi: real)
    requires forall i :: 0 <= i < |xs| ==> lo <= xs[i] <= hi
    ensures |xs| as real * lo <= Sum(xs) <= |xs| as real * hi
  {
    if xs != [] {
      SumWithin(xs[..|xs| - 1], lo, hi);
    }
  }

  /** The average lies between the smallest and the largest output averaged. */
  lemma MeanWithin(xs: seq<real>, lo: real, hi: real)
    requires |xs| > 0
    requires forall i :: 0 <= i < |xs| ==> lo <= xs[i] <= hi
    ensures lo <= Mean(xs) <= hi
  {
    SumWithin(xs, lo, hi);
    var n := |xs| as real;
    assert n * lo <= Sum(xs) <= n * hi;
    assert Mean(xs) * n == Sum(xs);
  }

  class K2Layer {
    var units: seq<K0Collection>
    const avgPrimary: ActivationHistory
    const avgAntipodal: ActivationHistory
    /** The nodes of the units, unit after unit: node `a` of unit `u` is `nodes[4u + a]`. */
    ghost var nodes: seq<K0>
    /** The units' primary nodes and their antipodal nodes, in unit order. */
    ghost var primaries: seq<K0>
    ghost var antipodals: seq<K0>

    /** At least one unit, no node (or node history) twice, and two average histories of their own. */
    ghost predicate Valid()
      reads this`units, this`nodes, this`primaries, this`antipodals, units`nodes
    {
      && |units| > 0 && Tiled(units, nodes) && Separate(nodes)
      && |primaries| == |units| && |antipodals| == |units|
      && (forall u :: 0 <= u < |units| ==> primaries[u] == nodes[4 * u + PRIMARY] && antipodals[u] == nodes[4 * u + ANTIPODAL])
      && avgPrimary != avgAntipodal
      && forall k :: 0 <= k < |nodes| ==> nodes[k].history != avgPrimary && nodes[k].history != avgAntipodal
    }

    constructor Of(us: seq<K0Collection>, config: K2Config, ghost ns: seq<K0>, ghost ps: seq<K0>, ghost qs: seq<K0>)
      requires |us| > 0 && Tiled(us, ns) && Separate(ns) && |ps| == |qs| == |us|
      requires forall u :: 0 <= u < |us| ==> ps[u] == ns[4 * u + PRIMARY] && qs[u] == ns[4 * u + ANTIPODAL]
      requires forall u :: 0 <= u < |us| ==> us[u].name == None && WiredAs(us[u].nodes, K2Table(config))
      requires forall u, a :: 0 <= u < |us| && 0 <= a < 4 ==> us[u].InitialState(a, config.k0config)
      requires us[|us| - 1].OwnsNodes()
      ensures Valid() && units == us && nodes == ns && primaries == ps && antipodals == qs
      ensures forall u :: 0 <= u < |us| ==> us[u].name == None && WiredAs(us[u].nodes, K2Table(config))
      ensures forall u, a :: 0 <= u < |us| && 0 <= a < 4 ==> us[u].InitialState(a, config.k0config)
      ensures us[|us| - 1].OwnsNodes()
      ensures fresh(avgPrimary) && fresh(avgAntipodal)
      ensures avgPrimary.samples == seq(config.k0config.historySize, _ => 0.0) && avgPrimary.monitoredWindow == None
      ensures avgAntipodal.samples == seq(config.k0config.historySize, _ => 0.0) && avgAntipodal.monitoredWindow == None
    {
      units := us;
      nodes := ns;
      primaries := ps;
      antipodals := qs;
      avgPrimary := new ActivationHistory(config.k0config.historySize);
      avgAntipodal := new ActivationHistory(config.k0config.historySize);
    }

    /**
     * `K2Layer(nUnits, config)`: invalid_argument for zero units; otherwise
     * `nUnits` K2 units built from the configuration, and two zeroed average
     * histories of the configured length. `emplace_back` may grow the vector
     * by copying the earlier units, and a node's copy has no collection
     * reference, so only the last unit, built in place, is said to own its
     * nodes.
     */
    static method New(nUnits: nat, config: K2Config) returns (r: Result<K2Layer>)
      ensures r.Err? <==> nUnits == 0
      ensures r.Err? ==> r.error == InvalidArgument
      ensures r.Ok? ==> fresh(r.value) && r.value.Valid() && |r.value.units| == nUnits
      ensures r.Ok? ==> forall k :: 0 <= k < |r.value.nodes| ==> fresh(r.value.nodes[k])
      ensures r.Ok? ==> forall u :: 0 <= u < nUnits ==>
                fresh(r.value.units[u]) && r.value.units[u].name == None && WiredAs(r.value.units[u].nodes, K2Table(config))
      ensures r.Ok? ==> forall u, a :: 0 <= u < nUnits && 0 <= a < 4 ==> r.value.units[u].InitialState(a, config.k0config)
      ensures r.Ok? ==> r.value.units[nUnits - 1].OwnsNodes()
      ensures r.Ok? ==> r.value.avgPrimary.samples == seq(config.k0config.historySize, _ => 0.0) && r.value.avgPrimary.monitoredWindow == None
      ensures r.Ok? ==> r.value.avgAntipodal.samples == seq(config.k0config.historySize, _ => 0.0) && r.value.avgAntipodal.monitoredWindow == None
    {
      if nUnits == 0 {
        return Err(InvalidArgument);
      }
      var us, ns := NewUnits(nUnits, config);
      ghost var ps, qs := Lane(us, PRIMARY), Lane(us, ANTIPODAL);
      LaneAt(us, ns, PRIMARY);
      LaneAt(us, ns, ANTIPODAL);
      var layer := new K2Layer.Of(us, config, ns, ps, qs);
      r := Ok(layer);
    }

    function Size(): (n: nat)
      reads this
      ensures n == |units|
    {
      |units|
    }

    /** `unit(index)`: `at`, so out_of_range past the end. */
    function Unit(index: nat): (r: Result<K0Collection>)
      reads this
      ensures r.Ok? <==> index < |units|
      ensures r.Ok? ==> r.value == units[index]
      ensures r.Err? ==> r.error == OutOfRange
    {
      if index < |units| then Ok(units[index]) else Err(OutOfRange)
    }

    /**
     * `connectPrimaryNodesLaterally(weight, delay)`: a negative weight is
     * refused and nothing is added; otherwise, with the weight divided among
     * the other units, every primary node listens to every other one.
     */
    method ConnectPrimaryNodesLaterally(w: real, d: nat) returns (ok: bool)
      requires Valid()
      modifies Members(primaries)`inbound
      ensures ok <==> w >= 0.0
      ensures !ok ==> forall u :: 0 <= u < |primaries| ==> primaries[u].inbound == old(primaries[u].inbound)
      ensures ok ==> forall u :: 0 <= u < |primaries| ==>
                primaries[u].inbound == old(primaries[u].inbound) + From(primaries, u, Others(|primaries|, u), LateralWeight(w, |primaries|), d)
    {
      if w < 0.0 {
        return false;
      }
      var weight := LateralWeight(w, |units|);
      assert Lane(units, PRIMARY) == primaries && Separate(primaries) by {
        LaneOfLayer(units, nodes, primaries, PRIMARY);
      }
      ConnectLane(Lane(units, PRIMARY), weight, d);
      ok := true;
    }

    /**
     * `connectAntipodalNodesLaterally(weight, delay)`: a positive weight is
     * refused and nothing is added; otherwise the antipodal nodes are wired
     * in the same all-pairs pattern.
     */
    method ConnectAntipodalNodesLaterally(w: real, d: nat) returns (ok: bool)
      requires Valid()
      modifies Members(antipodals)`inbound
      ensures ok <==> w <= 0.0
      ensures !ok ==> forall u :: 0 <= u < |antipodals| ==> antipodals[u].inbound == old(antipodals[u].inbound)
      ensures ok ==> forall u :: 0 <= u < |antipodals| ==>
                antipodals[u].inbound == old(antipodals[u].inbound) + From(antipodals, u, Others(|antipodals|, u), LateralWeight(w, |antipodals|), d)
    {
      if w > 0.0 {
        return false;
      }
      var weight := LateralWeight(w, |units|);
      assert Lane(units, ANTIPODAL) == antipodals && Separate(antipodals) by {
        LaneOfLayer(units, nodes, antipodals, ANTIPODAL);
      }
      ConnectLane(Lane(units, ANTIPODAL), weight, d);
      ok := true;
    }

    /** `setPrimaryHistorySize(newSize)`: the average history and every primary node's history get the new length. */
    method SetPrimaryHistorySize(newSize: nat)
      requires Valid()
      modifies avgPrimary`samples, Histories(primaries)`samples
      ensures avgPrimary.Size() == newSize
      ensures forall u :: 0 <= u < |primaries| ==> primaries[u].history.Size() == newSize
    {
      avgPrimary.Resize(newSize);
      assert Lane(units, PRIMARY) == primaries && Separate(primaries) && avgPrimary !in Histories(primaries) by {
        LaneOfLayer(units, nodes, primaries, PRIMARY);
      }
      ResizeAll(Lane(units, PRIMARY), newSize);
    }

    /** `setAntipodalHistorySize(newSize)`: the same for the antipodal side. */
    method SetAntipodalHistorySize(newSize: nat)
      requires Valid()
      modifies avgAntipodal`samples, Histories(antipodals)`samples
      ensures avgAntipodal.Size() == newSize
      ensures forall u :: 0 <= u < |antipodals| ==> antipodals[u].history.Size() == newSize
    {
      avgAntipodal.Resize(newSize);
      assert Lane(units, ANTIPODAL) == antipodals && Separate(antipodals) && avgAntipodal !in Histories(antipodals) by {
        LaneOfLayer(units, nodes, antipodals, ANTIPODAL);
      }
      ResizeAll(Lane(units, ANTIPODAL), newSize);
    }

    /**
     * `setPrimaryActivityMonitoring(newSize)`: the average history first,
     * then each primary node in unit order; the first exception ends the
     * call. A window wider than the average history changes nothing, and
     * a window of 0 switches monitoring off everywhere. The call passes
     * exactly when every history accepts the window; on a failure, the
     * histories reached record the window unless it is wider than they
     * are, and `done` counts the primary nodes that accepted it.
     */
    method SetPrimaryActivityMonitoring(newSize: nat) returns (r: Outcome, ghost done: nat)
      requires Valid()
      modifies avgPrimary`monitoredWindow, Histories(primaries)`monitoredWindow
      ensures newSize > old(avgPrimary.Size()) ==> r == Fail(InvalidArgument) && avgPrimary.monitoredWindow == old(avgPrimary.monitoredWindow)
      ensures newSize > old(avgPrimary.Size()) ==>
                forall u :: 0 <= u < |primaries| ==> primaries[u].history.monitoredWindow == old(primaries[u].history.monitoredWindow)
      ensures newSize == 0 ==> r == Pass
      ensures r == Pass ==> avgPrimary.monitoredWindow == Window(newSize)
      ensures r == Pass ==> forall u :: 0 <= u < |primaries| ==> primaries[u].history.monitoredWindow == Window(newSize)
      ensures r.Fail? ==> r.error == InvalidArgument || r.error == OutOfRange
      ensures r == Pass <==> avgPrimary.AcceptsWindow(newSize) && forall u :: 0 <= u < |primaries| ==> primaries[u].history.AcceptsWindow(newSize)
      ensures avgPrimary.monitoredWindow == avgPrimary.WindowAfter(old(avgPrimary.monitoredWindow), newSize)
      ensures done <= |primaries| && (!avgPrimary.AcceptsWindow(newSize) ==> done == 0)
      ensures forall u :: 0 <= u < done ==> primaries[u].history.AcceptsWindow(newSize) && primaries[u].history.monitoredWindow == Window(newSize)
      ensures avgPrimary.AcceptsWindow(newSize) && done < |primaries| ==>
                && !primaries[done].history.AcceptsWindow(newSize)
                && primaries[done].history.monitoredWindow == primaries[done].history.WindowAfter(old(primaries[done].history.monitoredWindow), newSize)
      ensures forall u :: 0 <= u < |primaries| && (u > done || !avgPrimary.AcceptsWindow(newSize)) ==>
                primaries[u].history.monitoredWindow == old(primaries[u].history.monitoredWindow)
    {
      assert Lane(units, PRIMARY) == primaries && Separate(primaries) && avgPrimary !in Histories(primaries) by {
        LaneOfLayer(units, nodes, primaries, PRIMARY);
      }
      r, done := SetMonitoring(avgPrimary, Lane(units, PRIMARY), newSize);
    }

    /** `setAntipodalActivityMonitoring(newSize)`: the same for the antipodal side. */
    method SetAntipodalActivityMonitoring(newSize: nat) returns (r: Outcome, ghost done: nat)
      requires Valid()
      modifies avgAntipodal`monitoredWindow, Histories(antipodals)`monitoredWindow
      ensures newSize > old(avgAntipodal.Size()) ==> r == Fail(InvalidArgument) && avgAntipodal.monitoredWindow == old(avgAntipodal.monitoredWindow)
      ensures newSize > old(avgAntipodal.Size()) ==>
                forall u :: 0 <= u < |antipodals| ==> antipodals[u].history.monitoredWindow == old(antipodals[u].history.monitoredWindow)
      ensures newSize == 0 ==> r == Pass
      ensures r == Pass ==> avgAntipodal.monitoredWindow == Window(newSize)
      ensures r == Pass ==> forall u :: 0 <= u < |antipodals| ==> antipodals[u].history.monitoredWindow == Window(newSize)
      ensures r.Fail? ==> r.error == InvalidArgument || r.error == OutOfRange
      ensures r == Pass <==> avgAntipodal.AcceptsWindow(newSize) && forall u :: 0 <= u < |antipodals| ==> antipodals[u].history.AcceptsWindow(newSize)
      ensures avgAntipodal.monitoredWindow == avgAntipodal.WindowAfter(old(avgAntipodal.monitoredWindow), newSize)
      ensures done <= |antipodals| && (!avgAntipodal.AcceptsWindow(newSize) ==> done == 0)
      ensures forall u :: 0 <= u < done ==> antipodals[u].history.AcceptsWindow(newSize) && antipodals[u].history.monitoredWindow == Window(newSize)
      ensures avgAntipodal.AcceptsWindow(newSize) && done < |antipodals| ==>
                && !antipodals[done].history.AcceptsWindow(newSize)
                && antipodals[done].history.monitoredWindow == antipodals[done].history.WindowAfter(old(antipodals[done].history.monitoredWindow), newSize)
      ensures forall u :: 0 <= u < |antipodals| && (u > done || !avgAntipodal.AcceptsWindow(newSize)) ==>
                antipodals[u].history.monitoredWindow == old(antipodals[u].history.monitoredWindow)
    {
      assert Lane(units, ANTIPODAL) == antipodals && Separate(antipodals) && avgAntipodal !in Histories(antipodals) by {
        LaneOfLayer(units, nodes, antipodals, ANTIPODAL);
      }
      r, done := SetMonitoring(avgAntipodal, Lane(units, ANTIPODAL), newSize);
    }

    /**
     * `setExternalStimulus(values)`: false, with nothing changed, unless
     * there is exactly one value per unit; otherwise unit `u`'s primary
     * node takes value `u`.
     */
    method SetExternalStimulus(values: seq<real>) returns (ok: bool)
      requires Valid()
      modifies Members(primaries)`stimulus
      ensures ok <==> |values| == |units|
      ensures !ok ==> unchanged(Members(nodes))
      ensures ok ==> forall u :: 0 <= u < |primaries| ==> primaries[u].stimulus == values[u]
      ensures Valid() && (old(ReadyToCommit()) ==> ReadyToCommit()) && (old(AllInputsReady(nodes)) ==> AllInputsReady(nodes))
    {
      if |values| != |units| {
        return false;
      }
      assert Lane(units, PRIMARY) == primaries && Separate(primaries) by {
        LaneOfLayer(units, nodes, primaries, PRIMARY);
      }
      StimulateLane(Lane(units, PRIMARY), values);
      ok := true;
    }

    /**
     * `calculateNextState()`: every unit in order, and in each unit every
     * node in order, computes its next state; that is every node of the
     * layout in turn, each from the inputs before the step.
     */
    method CalculateNextState(step: OdeStep)
      requires Valid() && AllInputsReady(nodes)
      modifies Members(nodes)`nextOdeState
      ensures forall k :: 0 <= k < |nodes| ==> nodes[k].nextOdeState == step(old(nodes[k].odeState), old(nodes[k].NetInput()))
      ensures (old(ReadyToCommit()) ==> ReadyToCommit()) && unchanged(Histories(nodes)`samples)
    {
      assert Flatten(units) == nodes by {
        FlattenTiled(units, nodes);
      }
      CalculateNodes(Flatten(units), step);
    }

    /**
     * `calculateNextState(values)`: false, with nothing computed, when the
     * stimulus vector has the wrong length; otherwise the stimuli are set
     * and every node computes its next state under them.
     */
    method CalculateNextStateWith(values: seq<real>, step: OdeStep) returns (ok: bool, ghost before: seq<OdeState>, ghost inputs: seq<real>)
      requires Valid() && AllInputsReady(nodes)
      modifies Members(primaries)`stimulus, Members(nodes)`nextOdeState
      ensures ok <==> |values| == |units|
      ensures !ok ==> unchanged(Members(nodes))
      ensures ok ==> forall u :: 0 <= u < |primaries| ==> primaries[u].stimulus == values[u]
      ensures ok ==> forall k :: 0 <= k < |nodes| ==> InputsReady(nodes[k].inbound) && Calculated(nodes[k], step)
      ensures ok ==> old(Snapshotted(nodes, before, inputs)) && SteppedFrom(nodes, before, inputs, step)
    {
      if |values| != |units| {
        return false, [], [];
      }
      Lanes();
      before, inputs := CalculateLayerWith(Flatten(units), Lane(units, PRIMARY), values, step);
      ok := true;
    }

    /** The layout and the two lanes of a valid layer, read through its units. */
    lemma Lanes()
      requires Valid()
      ensures Flatten(units) == nodes && Lane(units, PRIMARY) == primaries && Lane(units, ANTIPODAL) == antipodals && Separate(primaries)
    {
      LanesOfLayer(units, nodes, primaries, antipodals);
    }

    /**
     * `commitNextState()`: every unit commits, then each average history
     * receives exactly one value, the mean of the units' new primary
     * (respectively antipodal) outputs, read back with `get(0)`. The model
     * reads the outputs once all units have committed; a unit's commit
     * writes only its own nodes' histories, so the sums are those of reads
     * made right after each unit. The outputs averaged are returned.
     */
    method CommitNextState(sigmoid: Sigmoid) returns (ghost primaryOuts: seq<real>, ghost antipodalOuts: seq<real>)
      requires Valid() && ReadyToCommit()
      modifies Members(nodes)`odeState, Histories(nodes)`samples, avgPrimary`samples, avgAntipodal`samples
      ensures AfterCommit(nodes, primaries, antipodals, avgPrimary, avgAntipodal, old(Samples(nodes)), old(avgPrimary.samples), old(avgAntipodal.samples), primaryOuts, antipodalOuts, sigmoid)
    {
      Lanes();
      primaryOuts, antipodalOuts := CommitLayer(Flatten(units), Lane(units, PRIMARY), Lane(units, ANTIPODAL), avgPrimary, avgAntipodal, sigmoid);
    }

    /** Every node's history accepts a put and fits in `std::size_t`, and the average histories accept one too. */
    ghost predicate ReadyToCommit()
      reads this`nodes, Histories(nodes)`samples, Histories(nodes)`monitoredWindow
      reads avgPrimary`samples, avgPrimary`monitoredWindow, avgAntipodal`samples, avgAntipodal`monitoredWindow
    {
      && (forall k :: 0 <= k < |nodes| ==> Accepts(nodes[k].history))
      && avgPrimary.CanPut() && avgAntipodal.CanPut()
    }

    /** A valid layer ready for a step, read through its units. */
    lemma Ready()
      requires Valid() && AllInputsReady(nodes) && ReadyToCommit()
      ensures Flatten(units) == nodes && Lane(units, PRIMARY) == primaries && Lane(units, ANTIPODAL) == antipodals
      ensures LayerReady(nodes, primaries, antipodals, avgPrimary, avgAntipodal)
    {
      LanesOfLayer(units, nodes, primaries, antipodals);
    }

    /** `calculateAndCommitNextState()`: every node computes its next state, then the layer commits. */
    method CalculateAndCommitNextState(step: OdeStep, sigmoid: Sigmoid) returns (ghost primaryOuts: seq<real>, ghost antipodalOuts: seq<real>)
      requires Valid() && AllInputsReady(nodes) && ReadyToCommit()
      modifies Members(nodes)`nextOdeState, Members(nodes)`odeState, Histories(nodes)`samples, avgPrimary`samples, avgAntipodal`samples
      ensures forall k :: 0 <= k < |nodes| ==> nodes[k].nextOdeState == step(old(nodes[k].odeState), old(nodes[k].NetInput()))
      ensures AfterCommit(nodes, primaries, antipodals, avgPrimary, avgAntipodal, old(Samples(nodes)), old(avgPrimary.samples), old(avgAntipodal.samples), primaryOuts, antipodalOuts, sigmoid)
    {
      CalculateNextState(step);
      primaryOuts, antipodalOuts := CommitNextState(sigmoid);
    }

    /**
     * `calculateAndCommitNextState(values)`: false, with nothing computed or
     * committed, when the stimulus vector has the wrong length; otherwise
     * `calculateNextState(values)` followed by `commitNextState()`: every
     * node steps from its former state `before[k]` under its new stimulus
     * plus its former other input `inputs[k]`, and the layer commits.
     */
    method CalculateAndCommitNextStateWith(values: seq<real>, step: OdeStep, sigmoid: Sigmoid)
      returns (ok: bool, ghost primaryOuts: seq<real>, ghost antipodalOuts: seq<real>, ghost before: seq<OdeState>, ghost inputs: seq<real>)
      requires Valid() && AllInputsReady(nodes) && ReadyToCommit()
      modifies Members(primaries)`stimulus, Members(nodes)`nextOdeState, Members(nodes)`odeState
      modifies Histories(nodes)`samples, avgPrimary`samples, avgAntipodal`samples
      ensures ok <==> |values| == |units|
      ensures !ok ==> unchanged(Members(nodes)) && unchanged(Histories(nodes)`samples, avgPrimary`samples, avgAntipodal`samples)
      ensures ok ==> forall u :: 0 <= u < |primaries| ==> primaries[u].stimulus == values[u]
      ensures ok ==> old(Snapshotted(nodes, before, inputs))
      ensures ok ==> SteppedFrom(nodes, before, inputs, step)
      ensures ok ==> AfterCommit(nodes, primaries, antipodals, avgPrimary, avgAntipodal, old(Samples(nodes)), old(avgPrimary.samples), old(avgAntipodal.samples), primaryOuts, antipodalOuts, sigmoid)
    {
      if |values| != |units| {
        return false, [], [], [], [];
      }
      Ready();
      var ns, ps, qs := Flatten(units), Lane(units, PRIMARY), Lane(units, ANTIPODAL);
      primaryOuts, antipodalOuts, before, inputs := StepLayerWith(ns, ps, qs, avgPrimary, avgAntipodal, values, step, sigmoid);
      ok := true;
    }

    /**
     * `randomizeK0States(rng)`: unit by unit, and in each unit node by node,
     * every node takes the next draw as its output state.
     */
    method RandomizeK0States(draws: seq<real>)
      requires Valid() && |draws| == |nodes|
      modifies Members(nodes)`odeState
      ensures forall k :: 0 <= k < |nodes| ==> nodes[k].odeState == OdeState(draws[k], old(nodes[k].odeState.dx))
    {
      assert Flatten(units) == nodes by {
        FlattenTiled(units, nodes);
      }
      RandomizeNodes(Flatten(units), draws);
    }
  }

  /**
   * The units of a new layer: `nUnits` new K2 units, laid out one after the
   * other; as for `K2Layer.New`, only the last unit is said to own its nodes.
   */
  method NewUnits(nUnits: nat, config: K2Config) returns (us: seq<K0Collection>, ghost ns: seq<K0>)
    ensures |us| == nUnits && Tiled(us, ns) && Separate(ns)
    ensures forall k :: 0 <= k < |ns| ==> fresh(ns[k]) && fresh(ns[k].history)
    ensures forall u :: 0 <= u < nUnits ==>
              fresh(us[u]) && us[u].name == None && WiredAs(us[u].nodes, K2Table(config))
    ensures forall u, a :: 0 <= u < nUnits && 0 <= a < 4 ==> us[u].InitialState(a, config.k0config)
    ensures nUnits > 0 ==> us[nUnits - 1].OwnsNodes()
  {
    us, ns := [], [];
    while |us| < nUnits
      invariant |us| <= nUnits && Tiled(us, ns) && Separate(ns)
      invariant forall k :: 0 <= k < |ns| ==> fresh(ns[k]) && fresh(ns[k].history)
      invariant forall u :: 0 <= u < |us| ==>
                  fresh(us[u]) && us[u].name == None && WiredAs(us[u].nodes, K2Table(config))
      invariant forall u, a :: 0 <= u < |us| && 0 <= a < 4 ==> us[u].Initial(a, config.k0config)
    {
      var unit := K2Set.New(config, None);
      Append(us, ns, unit);
      us, ns := us + [unit], ns + unit.nodes;
    }
    forall u, a | 0 <= u < nUnits && 0 <= a < 4
      ensures us[u].InitialState(a, config.k0config) && us[u].nodes[a].collection == us[u]
    {
      assert us[u].Initial(a, config.k0config);
    }
  }

  /** A history that accepts a put and whose length fits in `std::size_t`, so `get(0)` reads the newest sample. */
  ghost predicate Accepts(h: ActivationHistory)
    reads h`samples, h`monitoredWindow
  {
    h.CanPut() && h.Size() <= SIZE_T_RANGE
  }

  /** A new unit of four distinct nodes, none of them (nor their histories) already laid out, extends the layout. */
  lemma Append(us: seq<K0Collection>, ns: seq<K0>, c: K0Collection)
    requires Tiled(us, ns) && Separate(ns) && c.Valid() && |c.nodes| == 4
    requires forall k, a :: 0 <= k < |ns| && 0 <= a < 4 ==> ns[k] != c.nodes[a] && ns[k].history != c.nodes[a].history
    ensures Tiled(us + [c], ns + c.nodes) && Separate(ns + c.nodes)
  {
    var us', ns' := us + [c], ns + c.nodes;
    forall u, a | 0 <= u < |us'| && 0 <= a < 4
      ensures us'[u].nodes[a] == ns'[4 * u + a]
    {
      if u < |us| {
        assert us[u].nodes[a] == ns[4 * u + a];
      }
    }
    forall i, j | 0 <= i < j < |ns'|
      ensures Apart(ns', i, j)
    {
      if j >= |ns| && i >= |ns| {
        assert c.nodes[i - |ns|] != c.nodes[j - |ns|];
      } else if j < |ns| {
        assert Apart(ns, i, j);
      }
    }
  }

  /** The outputs `outs` are those the nodes `ps` show, one each: the sigmoid of the output state. */
  ghost predicate Outputs(ps: seq<K0>, outs: seq<real>, sigmoid: Sigmoid)
    reads Members(ps)`odeState, Members(ps)`sigmoidQ
  {
    |outs| == |ps| && forall u :: 0 <= u < |ps| ==> outs[u] == sigmoid(ps[u].odeState.x, ps[u].sigmoidQ)
  }

  /**
   * The layout walked unit by unit is `ns`; the primary and antipodal lanes
   * are `ps` and `qs`, each holding distinct nodes, none of whose histories
   * is the layer's average history.
   */
  lemma LanesOfLayer(us: seq<K0Collection>, ns: seq<K0>, ps: seq<K0>, qs: seq<K0>)
    requires Tiled(us, ns) && Separate(ns) && |ps| == |qs| == |us|
    requires forall u :: 0 <= u < |us| ==> ps[u] == ns[4 * u + PRIMARY] && qs[u] == ns[4 * u + ANTIPODAL]
    ensures Flatten(us) == ns && Lane(us, PRIMARY) == ps && Lane(us, ANTIPODAL) == qs
    ensures Separate(ps) && Separate(qs)
  {
    FlattenTiled(us, ns);
    LaneAt(us, ns, PRIMARY);
    LaneAt(us, ns, ANTIPODAL);
    OffLane(ns, ps, PRIMARY);
    OffLane(ns, qs, ANTIPODAL);
  }

  /** One lane of the layout, walked unit by unit, is `ps`, and its nodes are distinct. */
  lemma LaneOfLayer(us: seq<K0Collection>, ns: seq<K0>, ps: seq<K0>, a: nat)
    requires Tiled(us, ns) && Separate(ns) && |ps| == |us| && a < 4
    requires forall u :: 0 <= u < |us| ==> ps[u] == ns[4 * u + a]
    ensures Lane(us, a) == ps && Separate(ps)
  {
    LaneAt(us, ns, a);
    OffLane(ns, ps, a);
  }

  /**
   * `commitNextState()` on the layout `ns` with primary lane `ps` and
   * antipodal lane `qs`: every node commits, then each average history
   * receives the mean of its lane's newest outputs.
   */
  method CommitLayer(ns: seq<K0>, ps: seq<K0>, qs: seq<K0>, avgPrimary: ActivationHistory, avgAntipodal: ActivationHistory, sigmoid: Sigmoid)
    returns (ghost primaryOuts: seq<real>, ghost antipodalOuts: seq<real>)
    requires Separate(ns) && 0 < |ps| == |qs| && |ns| == 4 * |ps|
    requires forall u :: 0 <= u < |ps| ==> ps[u] == ns[4 * u + PRIMARY] && qs[u] == ns[4 * u + ANTIPODAL]
    requires forall k :: 0 <= k < |ns| ==> Accepts(ns[k].history) && ns[k].history != avgPrimary && ns[k].history != avgAntipodal
    requires avgPrimary != avgAntipodal && avgPrimary.CanPut() && avgAntipodal.CanPut()
    modifies Members(ns)`odeState, Histories(ns)`samples, avgPrimary`samples, avgAntipodal`samples
    ensures AfterCommit(ns, ps, qs, avgPrimary, avgAntipodal, old(Samples(ns)), old(avgPrimary.samples), old(avgAntipodal.samples), primaryOuts, antipodalOuts, sigmoid)
  {
    var primarySum, antipodalSum;
    assert avgPrimary !in Histories(ns) && avgAntipodal !in Histories(ns);
    primarySum, antipodalSum, primaryOuts, antipodalOuts := CommitLanes(ns, ps, qs, sigmoid);
    PutAverages(ns, ps, qs, avgPrimary, avgAntipodal, Average(primarySum, |ps|), Average(antipodalSum, |ps|),
                old(Samples(ns)), primaryOuts, antipodalOuts, sigmoid);
  }

  /** Off its own position in the units, no node of the layout is on the lane. */
  lemma OffLane(ns: seq<K0>, ps: seq<K0>, a: nat)
    requires Separate(ns) && |ns| == 4 * |ps| && a < 4
    requires forall u :: 0 <= u < |ps| ==> ps[u] == ns[4 * u + a]
    ensures Separate(ps)
    ensures forall k :: 0 <= k < |ns| && k % 4 != a ==> ns[k] !in Members(ps)
  {
    forall u, v | 0 <= u < v < |ps|
      ensures Apart(ps, u, v)
    {
      assert Apart(ns, 4 * u + a, 4 * v + a);
    }
    forall k, u | 0 <= k < |ns| && k % 4 != a && 0 <= u < |ps|
      ensures ns[k] != ps[u]
    {
      assert ps[u] == ns[4 * u + a];
      assert (4 * u + a) % 4 == a;
      if k < 4 * u + a {
        assert Apart(ns, k, 4 * u + a);
      } else {
        assert Apart(ns, 4 * u + a, k);
      }
    }
  }

  /** The collections' `calculateNextState()` loop, run over the layout. */
  method CalculateNodes(ns: seq<K0>, step: OdeStep)
    requires Separate(ns) && AllInputsReady(ns)
    modifies Members(ns)`nextOdeState
    ensures forall k :: 0 <= k < |ns| ==> ns[k].nextOdeState == step(old(ns[k].odeState), old(ns[k].NetInput()))
    ensures forall k :: 0 <= k < |ns| ==> InputsReady(ns[k].inbound) && Calculated(ns[k], step)
  {
    SeparateDistinct(ns);
    CalculateAll(ns, step);
  }

  /**
   * The layer's `calculateAndCommitNextState(values)` once the length is
   * checked: lane `ps` takes the stimuli, every node of the layout `ns`
   * computes its next state under them, and the layer commits.
   */
  method StepLayerWith(ns: seq<K0>, ps: seq<K0>, qs: seq<K0>, avgPrimary: ActivationHistory, avgAntipodal: ActivationHistory,
                       values: seq<real>, step: OdeStep, sigmoid: Sigmoid)
    returns (ghost primaryOuts: seq<real>, ghost antipodalOuts: seq<real>, ghost before: seq<OdeState>, ghost inputs: seq<real>)
    requires LayerReady(ns, ps, qs, avgPrimary, avgAntipodal) && |values| == |ps|
    modifies Members(ps)`stimulus, Members(ns)`nextOdeState, Members(ns)`odeState
    modifies Histories(ns)`samples, avgPrimary`samples, avgAntipodal`samples
    ensures forall u :: 0 <= u < |ps| ==> ps[u].stimulus == values[u]
    ensures old(Snapshotted(ns, before, inputs))
    ensures SteppedFrom(ns, before, inputs, step)
    ensures AfterCommit(ns, ps, qs, avgPrimary, avgAntipodal, old(Samples(ns)), old(avgPrimary.samples), old(avgAntipodal.samples), primaryOuts, antipodalOuts, sigmoid)
  {
    before, inputs := CalculateLayerWith(ns, ps, values, step);
    SamplesKept(ns);
    primaryOuts, antipodalOuts := CommitLayerKeeping(ns, ps, qs, avgPrimary, avgAntipodal, sigmoid, values, before, inputs, step);
  }

  /** `CommitLayer` after a step: the stimuli and the computed next states stay as they were. */
  method CommitLayerKeeping(ns: seq<K0>, ps: seq<K0>, qs: seq<K0>, avgPrimary: ActivationHistory, avgAntipodal: ActivationHistory, sigmoid: Sigmoid,
                            ghost values: seq<real>, ghost before: seq<OdeState>, ghost inputs: seq<real>, step: OdeStep)
    returns (ghost primaryOuts: seq<real>, ghost antipodalOuts: seq<real>)
    requires Separate(ns) && 0 < |ps| == |qs| == |values| && |ns| == 4 * |ps|
    requires forall u :: 0 <= u < |ps| ==> ps[u] == ns[4 * u + PRIMARY] && qs[u] == ns[4 * u + ANTIPODAL]
    requires forall k :: 0 <= k < |ns| ==> Accepts(ns[k].history) && ns[k].history != avgPrimary && ns[k].history != avgAntipodal
    requires avgPrimary != avgAntipodal && avgPrimary.CanPut() && avgAntipodal.CanPut()
    requires SteppedFrom(ns, before, inputs, step) && forall u :: 0 <= u < |ps| ==> ps[u].stimulus == values[u]
    modifies Members(ns)`odeState, Histories(ns)`samples, avgPrimary`samples, avgAntipodal`samples
    ensures SteppedFrom(ns, before, inputs, step) && forall u :: 0 <= u < |ps| ==> ps[u].stimulus == values[u]
    ensures AfterCommit(ns, ps, qs, avgPrimary, avgAntipodal, old(Samples(ns)), old(avgPrimary.samples), old(avgAntipodal.samples), primaryOuts, antipodalOuts, sigmoid)
  {
    primaryOuts, antipodalOuts := CommitLayer(ns, ps, qs, avgPrimary, avgAntipodal, sigmoid);
    forall k | 0 <= k < |ns|
      ensures ns[k].nextOdeState == Stepped(step, before[k], ns[k].stimulus, inputs[k])
    {
    }
  }

  /** The samples of the nodes' histories only depend on those histories. */
  twostate lemma SamplesKept(ns: seq<K0>)
    requires unchanged(Histories(ns)`samples)
    ensures Samples(ns) == old(Samples(ns))
  {
  }

  /**
   * The layout a layer step needs: separate nodes tiled four to a unit with
   * the two lanes at their positions, every delayed read in range, and every
   * history (the two average ones of their own) accepting a put.
   */
  ghost predicate LayerReady(ns: seq<K0>, ps: seq<K0>, qs: seq<K0>, avgPrimary: ActivationHistory, avgAntipodal: ActivationHistory)
    reads Members(ns)`inbound, set i, c | 0 <= i < |ns| && c in ns[i].inbound :: c.source.history`samples
    reads Histories(ns)`samples, Histories(ns)`monitoredWindow
    reads avgPrimary`samples, avgPrimary`monitoredWindow, avgAntipodal`samples, avgAntipodal`monitoredWindow
  {
    && Separate(ns) && Separate(ps) && 0 < |ps| == |qs| && |ns| == 4 * |ps|
    && (forall u :: 0 <= u < |ps| ==> ps[u] == ns[4 * u + PRIMARY] && qs[u] == ns[4 * u + ANTIPODAL])
    && AllInputsReady(ns)
    && (forall k :: 0 <= k < |ns| ==> Accepts(ns[k].history) && ns[k].history != avgPrimary && ns[k].history != avgAntipodal)
    && avgPrimary != avgAntipodal && avgPrimary.CanPut() && avgAntipodal.CanPut()
  }

  /**
   * Lane `ps` takes the stimuli, then every node of `ns` computes its next
   * state under them; `before` and `inputs` are the nodes' former states and
   * their inputs other than the stimulus.
   */
  method CalculateLayerWith(ns: seq<K0>, ps: seq<K0>, values: seq<real>, step: OdeStep)
    returns (ghost before: seq<OdeState>, ghost inputs: seq<real>)
    requires Separate(ns) && Separate(ps) && |ps| == |values| && AllInputsReady(ns)
    modifies Members(ps)`stimulus, Members(ns)`nextOdeState
    ensures forall u :: 0 <= u < |ps| ==> ps[u].stimulus == values[u]
    ensures old(Snapshotted(ns, before, inputs))
    ensures SteppedFrom(ns, before, inputs, step)
    ensures forall k :: 0 <= k < |ns| ==> InputsReady(ns[k].inbound) && Calculated(ns[k], step)
  {
    before, inputs := Snapshot(ns);
    StimulateLane(ps, values);
    forall k | 0 <= k < |ns|
      ensures InputsReady(ns[k].inbound) && ns[k].odeState == before[k] && ns[k].NetInput() == ns[k].stimulus + inputs[k]
    {
      DelayedSumUnchanged(ns[k].inbound);
    }
    SeparateDistinct(ns);
    CalculateFrom(ns, step, before, inputs);
  }

  /** `CalculateAll` read against recorded states and inputs: each node steps from its `before` under its stimulus plus its `inputs`. */
  method CalculateFrom(ns: seq<K0>, step: OdeStep, ghost before: seq<OdeState>, ghost inputs: seq<real>)
    requires Distinct(ns) && AllInputsReady(ns) && |before| == |inputs| == |ns|
    requires forall k :: 0 <= k < |ns| ==> ns[k].odeState == before[k] && ns[k].NetInput() == ns[k].stimulus + inputs[k]
    modifies Members(ns)`nextOdeState
    ensures SteppedFrom(ns, before, inputs, step)
    ensures forall k :: 0 <= k < |ns| ==> InputsReady(ns[k].inbound) && Calculated(ns[k], step)
  {
    CalculateAll(ns, step);
    forall k | 0 <= k < |ns|
      ensures ns[k].nextOdeState == Stepped(step, before[k], ns[k].stimulus, inputs[k])
    {
    }
  }

  /** The nodes' states and their inputs other than the stimulus, in order. */
  ghost method Snapshot(ns: seq<K0>) returns (before: seq<OdeState>, inputs: seq<real>)
    requires AllInputsReady(ns)
    ensures Snapshotted(ns, before, inputs)
  {
    before, inputs := [], [];
    while |before| < |ns|
      invariant |before| == |inputs| <= |ns|
      invariant forall k :: 0 <= k < |before| ==> before[k] == ns[k].odeState && inputs[k] == ns[k].noise + DelayedSum(ns[k].inbound)
    {
      var n := ns[|before|];
      before, inputs := before + [n.odeState], inputs + [n.noise + DelayedSum(n.inbound)];
    }
  }

  /** `before` and `inputs` are the nodes' states and their inputs other than the stimulus, in order. */
  ghost predicate Snapshotted(ns: seq<K0>, before: seq<OdeState>, inputs: seq<real>)
    reads Members(ns)`odeState, Members(ns)`noise, Members(ns)`inbound
    reads set i, c | 0 <= i < |ns| && c in ns[i].inbound :: c.source.history`samples
    requires AllInputsReady(ns)
  {
    && |before| == |inputs| == |ns|
    && forall k :: 0 <= k < |ns| ==> before[k] == ns[k].odeState && inputs[k] == ns[k].noise + DelayedSum(ns[k].inbound)
  }

  /** Every node of `ns` holds the step from its state in `before` under its stimulus plus its other input in `inputs`. */
  ghost predicate SteppedFrom(ns: seq<K0>, before: seq<OdeState>, inputs: seq<real>, step: OdeStep)
    reads Members(ns)`nextOdeState, Members(ns)`stimulus
  {
    && |before| == |inputs| == |ns|
    && forall k :: 0 <= k < |ns| ==> ns[k].nextOdeState == Stepped(step, before[k], ns[k].stimulus, inputs[k])
  }

  /** `step` from `s` under the stimulus plus the other input: a value no change to the nodes can affect. */
  ghost function Stepped(step: OdeStep, s: OdeState, stimulus: real, other: real): OdeState
  {
    step(s, stimulus + other)
  }


  /** The collections' `commitNextState()` loop, run over the layout. */
  method CommitNodes(ns: seq<K0>, sigmoid: Sigmoid)
    requires Separate(ns) && forall k :: 0 <= k < |ns| ==> Accepts(ns[k].history)
    modifies Members(ns)`odeState, Histories(ns)`samples
    ensures forall k :: 0 <= k < |ns| ==> Committed(old(ns[k].nextOdeState), old(ns[k].history.samples), ns[k], sigmoid)
  {
    SeparateDistinct(ns);
    CommitAll(ns, sigmoid);
  }

  /** The collections' `randomizeK0States(rng)` loop, run over the layout. */
  method RandomizeNodes(ns: seq<K0>, draws: seq<real>)
    requires Separate(ns) && |draws| == |ns|
    modifies Members(ns)`odeState
    ensures forall k :: 0 <= k < |ns| ==> ns[k].odeState == OdeState(draws[k], old(ns[k].odeState.dx))
  {
    SeparateDistinct(ns);
    RandomizeAll(ns, draws);
  }

  /** The all-pairs lateral wiring of one lane. */
  method ConnectLane(ps: seq<K0>, w: real, d: nat)
    requires Separate(ps)
    modifies Members(ps)`inbound
    ensures forall u :: 0 <= u < |ps| ==> ps[u].inbound == old(ps[u].inbound) + From(ps, u, Others(|ps|, u), w, d)
  {
    ConnectPairs(ps, w, d);
  }

  /** The loop of `setExternalStimulus(values)`: unit `u`'s primary node takes value `u`. */
  method StimulateLane(ps: seq<K0>, values: seq<real>)
    requires Separate(ps) && |values| == |ps|
    modifies Members(ps)`stimulus
    ensures forall u :: 0 <= u < |ps| ==> ps[u].stimulus == values[u]
  {
    SeparateDistinct(ps);
    var i := 0;
    while i < |ps|
      invariant 0 <= i <= |ps|
      invariant forall u :: 0 <= u < i ==> ps[u].stimulus == values[u]
    {
      ps[i].SetExternalStimulus(values[i]);
      i := i + 1;
    }
  }

  /** The samples of the nodes' histories, in order. */
  ghost function Samples(ns: seq<K0>): (r: seq<seq<real>>)
    reads Histories(ns)`samples
    ensures |r| == |ns| && forall k :: 0 <= k < |ns| ==> r[k] == ns[k].history.samples
  {
    if ns == [] then [] else Samples(ns[..|ns| - 1]) + [ns[|ns| - 1].history.samples]
  }

  /**
   * Every node has committed the next state it holds: that state is its
   * output state, and its history is `before[k]` with one sample more, the
   * sigmoid of that state.
   */
  ghost predicate LayerCommitted(ns: seq<K0>, before: seq<seq<real>>, sigmoid: Sigmoid)
    reads Members(ns)`odeState, Members(ns)`nextOdeState, Members(ns)`sigmoidQ, Histories(ns)`samples
  {
    |before| == |ns| && forall k :: 0 <= k < |ns| ==> Committed(ns[k].nextOdeState, before[k], ns[k], sigmoid)
  }

  /**
   * The state `commitNextState()` leaves: every node of `ns` has committed
   * from the histories `before`, the outputs of the lanes `ps` and `qs`
   * are those the nodes show, and each average history has gained the
   * mean of its lane's outputs.
   */
  ghost predicate AfterCommit(ns: seq<K0>, ps: seq<K0>, qs: seq<K0>, avgPrimary: ActivationHistory, avgAntipodal: ActivationHistory,
                              before: seq<seq<real>>, primaryBefore: seq<real>, antipodalBefore: seq<real>,
                              primaryOuts: seq<real>, antipodalOuts: seq<real>, sigmoid: Sigmoid)
    reads Members(ns)`odeState, Members(ns)`nextOdeState, Members(ns)`sigmoidQ, Histories(ns)`samples
    reads Members(ps)`odeState, Members(ps)`sigmoidQ, Members(qs)`odeState, Members(qs)`sigmoidQ, avgPrimary`samples, avgAntipodal`samples
  {
    && LayerCommitted(ns, before, sigmoid)
    && Outputs(ps, primaryOuts, sigmoid) && Outputs(qs, antipodalOuts, sigmoid)
    && Averaged(avgPrimary, avgAntipodal, primaryBefore, antipodalBefore, primaryOuts, antipodalOuts)
  }

  /** Each average history is its former samples with one more: the mean of its lane's outputs. */
  ghost predicate Averaged(avgPrimary: ActivationHistory, avgAntipodal: ActivationHistory, primaryBefore: seq<real>, antipodalBefore: seq<real>,
                           primaryOuts: seq<real>, antipodalOuts: seq<real>)
    reads avgPrimary`samples, avgAntipodal`samples
  {
    && |primaryOuts| > 0 && |antipodalOuts| > 0 && |primaryBefore| > 0 && |antipodalBefore| > 0
    && avgPrimary.samples == Pushed(primaryBefore, Mean(primaryOuts))
    && avgAntipodal.samples == Pushed(antipodalBefore, Mean(antipodalOuts))
  }

  /**
   * The loop of `commitNextState()` without the averages: every node of the
   * layout `ns` commits, and the newest outputs of the primary nodes `ps`
   * and of the antipodal nodes `qs` are added up.
   */
  method CommitLanes(ns: seq<K0>, ps: seq<K0>, qs: seq<K0>, sigmoid: Sigmoid)
    returns (primarySum: real, antipodalSum: real, ghost primaryOuts: seq<real>, ghost antipodalOuts: seq<real>)
    requires Separate(ns) && |ns| == 4 * |ps| && |ps| == |qs|
    requires forall u :: 0 <= u < |ps| ==> ps[u] == ns[4 * u + PRIMARY] && qs[u] == ns[4 * u + ANTIPODAL]
    requires forall k :: 0 <= k < |ns| ==> Accepts(ns[k].history)
    modifies Members(ns)`odeState, Histories(ns)`samples
    ensures forall k :: 0 <= k < |ns| ==> Committed(old(ns[k].nextOdeState), old(ns[k].history.samples), ns[k], sigmoid)
    ensures LayerCommitted(ns, old(Samples(ns)), sigmoid)
    ensures Outputs(ps, primaryOuts, sigmoid) && Outputs(qs, antipodalOuts, sigmoid)
    ensures primarySum == Sum(primaryOuts) && antipodalSum == Sum(antipodalOuts)
  {
    CommitNodes(ns, sigmoid);
    forall u | 0 <= u < |ps|
      ensures ps[u].history.Get(0) == Ok(sigmoid(ps[u].odeState.x, ps[u].sigmoidQ))
      ensures qs[u].history.Get(0) == Ok(sigmoid(qs[u].odeState.x, qs[u].sigmoidQ))
    {
      NewestOfCommitted(ps[u], old(ps[u].nextOdeState), old(ps[u].history.samples), sigmoid);
      NewestOfCommitted(qs[u], old(qs[u].nextOdeState), old(qs[u].history.samples), sigmoid);
    }
    primarySum, antipodalSum, primaryOuts, antipodalOuts := SumNewest(ps, qs);
  }

  /** Once a node has committed, `get(0)` on its history reads the output it committed. */
  lemma NewestOfCommitted(n: K0, next: OdeState, before: seq<real>, sigmoid: Sigmoid)
    requires Committed(next, before, n, sigmoid) && |before| <= SIZE_T_RANGE
    ensures n.history.Get(0) == Ok(sigmoid(next.x, n.sigmoidQ))
  {
    NewestAfterPut(before, sigmoid(next.x, n.sigmoidQ));
  }

  /**
   * The reads of the newest samples in `commitNextState()`: unit by unit,
   * the primary and the antipodal output are read back with `get(0)`
   * (which must succeed: the method is `noexcept`) and added to their
   * running sums. The values read are returned alongside the sums.
   */
  method SumNewest(ps: seq<K0>, qs: seq<K0>)
    returns (primarySum: real, antipodalSum: real, ghost primaryOuts: seq<real>, ghost antipodalOuts: seq<real>)
    requires |ps| == |qs|
    requires forall k :: 0 <= k < |ps| ==> ps[k].history.Get(0).Ok? && qs[k].history.Get(0).Ok?
    ensures |primaryOuts| == |antipodalOuts| == |ps|
    ensures forall k :: 0 <= k < |ps| ==> ps[k].history.Get(0) == Ok(primaryOuts[k]) && qs[k].history.Get(0) == Ok(antipodalOuts[k])
    ensures primarySum == Sum(primaryOuts) && antipodalSum == Sum(antipodalOuts)
  {
    primarySum, antipodalSum, primaryOuts, antipodalOuts := 0.0, 0.0, [], [];
    var i := 0;
    while i < |ps|
      invariant 0 <= i <= |ps| && |primaryOuts| == |antipodalOuts| == i
      invariant forall k :: 0 <= k < i ==> ps[k].history.Get(0) == Ok(primaryOuts[k]) && qs[k].history.Get(0) == Ok(antipodalOuts[k])
      invariant primarySum == Sum(primaryOuts) && antipodalSum == Sum(antipodalOuts)
    {
      var p := ps[i].history.Get(0);
      var q := qs[i].history.Get(0);
      primarySum, antipodalSum := primarySum + p.value, antipodalSum + q.value;
      primaryOuts, antipodalOuts := primaryOuts + [p.value], antipodalOuts + [q.value];
      i := i + 1;
    }
  }

  /**
   * The end of `commitNextState()`: each average history receives its value,
   * and what the nodes' commit left (their states, histories and outputs) stays.
   */
  method PutAverages(ns: seq<K0>, ps: seq<K0>, qs: seq<K0>, avgPrimary: ActivationHistory, avgAntipodal: ActivationHistory,
                     primary: real, antipodal: real, ghost before: seq<seq<real>>, ghost primaryOuts: seq<real>, ghost antipodalOuts: seq<real>,
                     sigmoid: Sigmoid)
    requires avgPrimary != avgAntipodal && avgPrimary.CanPut() && avgAntipodal.CanPut()
    requires avgPrimary !in Histories(ns) && avgAntipodal !in Histories(ns)
    requires LayerCommitted(ns, before, sigmoid) && Outputs(ps, primaryOuts, sigmoid) && Outputs(qs, antipodalOuts, sigmoid)
    modifies avgPrimary`samples, avgAntipodal`samples
    ensures avgPrimary.samples == Pushed(old(avgPrimary.samples), primary)
    ensures avgAntipodal.samples == Pushed(old(avgAntipodal.samples), antipodal)
    ensures LayerCommitted(ns, before, sigmoid) && Outputs(ps, primaryOuts, sigmoid) && Outputs(qs, antipodalOuts, sigmoid)
  {
    var _ := avgPrimary.Put(primary);
    var _ := avgAntipodal.Put(antipodal);
  }

  /** The resizing loop shared by both sides: every node's history gets the new length. */
  method ResizeAll(ns: seq<K0>, newSize: nat)
    requires Separate(ns)
    modifies Histories(ns)`samples
    ensures forall k :: 0 <= k < |ns| ==> ns[k].history.Size() == newSize
  {
    SeparateDistinct(ns);
    var i := 0;
    while i < |ns|
      invariant 0 <= i <= |ns|
      invariant forall k :: 0 <= k < i ==> ns[k].history.Size() == newSize
    {
      ns[i].SetHistorySize(newSize);
      i := i + 1;
    }
  }

  /**
   * The monitoring loop shared by both sides: the average history first,
   * then each node in order, stopping at the first failure. The call
   * passes exactly when every history accepts the window. Each history it
   * reaches records the window unless the window is wider than it, even
   * when it then throws; `done` counts the nodes that accepted it before
   * the call stopped, and the nodes after the one that threw keep their
   * monitoring state.
   */
  method SetMonitoring(avg: ActivationHistory, ns: seq<K0>, newSize: nat) returns (r: Outcome, ghost done: nat)
    requires Separate(ns) && avg !in Histories(ns)
    modifies avg`monitoredWindow, Histories(ns)`monitoredWindow
    ensures newSize > old(avg.Size()) ==> r == Fail(InvalidArgument) && avg.monitoredWindow == old(avg.monitoredWindow)
                                          && forall k :: 0 <= k < |ns| ==> ns[k].history.monitoredWindow == old(ns[k].history.monitoredWindow)
    ensures newSize == 0 ==> r == Pass
    ensures r == Pass ==> avg.monitoredWindow == Window(newSize) && forall k :: 0 <= k < |ns| ==> ns[k].history.monitoredWindow == Window(newSize)
    ensures r.Fail? ==> r.error == InvalidArgument || r.error == OutOfRange
    ensures r == Pass <==> avg.AcceptsWindow(newSize) && forall k :: 0 <= k < |ns| ==> ns[k].history.AcceptsWindow(newSize)
    ensures avg.monitoredWindow == avg.WindowAfter(old(avg.monitoredWindow), newSize)
    ensures done <= |ns| && (!avg.AcceptsWindow(newSize) ==> done == 0)
    ensures forall k :: 0 <= k < done ==> ns[k].history.AcceptsWindow(newSize) && ns[k].history.monitoredWindow == Window(newSize)
    ensures avg.AcceptsWindow(newSize) && done < |ns| ==>
              && !ns[done].history.AcceptsWindow(newSize)
              && ns[done].history.monitoredWindow == ns[done].history.WindowAfter(old(ns[done].history.monitoredWindow), newSize)
    ensures forall k :: 0 <= k < |ns| && (k > done || !avg.AcceptsWindow(newSize)) ==>
              ns[k].history.monitoredWindow == old(ns[k].history.monitoredWindow)
  {
    SeparateDistinct(ns);
    done := 0;
    r := avg.SetActivityMonitoring(newSize);
    if r.Fail? {
      return;
    }
    var i := 0;
    while i < |ns|
      invariant 0 <= i <= |ns| && r == Pass && done == i
      invariant avg.monitoredWindow == Window(newSize) && avg.AcceptsWindow(newSize)
      invariant forall k :: 0 <= k < i ==> ns[k].history.AcceptsWindow(newSize) && ns[k].history.monitoredWindow == Window(newSize)
      invariant forall k :: i <= k < |ns| ==> ns[k].history.monitoredWindow == old(ns[k].history.monitoredWindow)
    {
      r := ns[i].SetActivityMonitoring(newSize);
      if r.Fail? {
        return;
      }
      i := i + 1;
      done := i;
    }
  }

}
