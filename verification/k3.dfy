/**
 * The K3 set, a model of the olfactory system: an input array of K0 nodes
 * (the primary olfactory nerve, PON), a layer of K2 units (the olfactory
 * bulb, OB), two single K2 sets (the anterior olfactory nucleus, AON, and
 * the prepiriform cortex, PC) and one K0 node (the deep pyramid cells,
 * DPC), joined by the lateral (LOT) and medial (MOT) olfactory tracts.
 */
module K3Set {
  import opened Outcomes
  import opened History
  import opened K0Graph
  import opened Wiring
  import opened K2Set
  import opened K2Layers

  /**
   * `K3InterLayerWeights`: the weight and delay of every connection between
   * the parts of a K3, and the scale of the noise injected into the AON.
   * The delay of the DPC-to-OB connection is declared under the same name
   * as its weight; here it has a name of its own.
   */
  datatype K3InterLayerWeights = K3InterLayerWeights(
    wPON_interUnit: real, dPON_interUnit: nat,
    wPON_OB: real, dPON_OB: nat,
    wOB_AON_lot: real, dOB_AON_lot: nat,
    wOB_PC_lot: real, dOB_PC_lot: nat,
    wAON_PON_mot: real, dAON_PON_mot: nat,
    wAON_OB_toAntipodal: real, dAON_OB_toAntipodal: nat,
    wPC_DPC: real, dPC_DPC: nat,
    wDPC_PC: real, dDPC_PC: nat,
    wDPC_OB_toAntipodal: real, dDPC_OB_toAntipodal: nat,
    wAON_noise: real)
  {
    /** `checkWeightsValidity()`: the PC-to-DPC weight negative, every other weight positive. */
    predicate CheckWeightsValidity()
    {
      && Pos(wPON_interUnit) && Pos(wPON_OB) && Pos(wOB_AON_lot) && Pos(wOB_PC_lot)
      && Pos(wAON_PON_mot) && Pos(wAON_OB_toAntipodal) && Neg(wPC_DPC) && Pos(wDPC_PC)
      && Pos(wDPC_OB_toAntipodal) && Pos(wAON_noise)
    }
  }

  /** `pos` and `neg`: strict, so zero is neither. */
  predicate Pos(value: real)
  {
    value > 0.0
  }

  predicate Neg(value: real)
  {
    value < 0.0
  }

  /** `K3InterLayerWeights()`: the default weights and delays, which the constructor asserts are valid. */
  function DefaultWeights(): (w: K3InterLayerWeights)
    ensures w.CheckWeightsValidity()
  {
    K3InterLayerWeights(
      0.10, 1, 1.00, 1, 0.15, 1, 0.60, 1, 0.05, 17, 0.25, 25, -0.05, 1, 0.20, 1, 0.50, 40, 0.10)
  }

  /** The ten weights `checkWeightsValidity` looks at, in its order. */
  function CheckedWeights(w: K3InterLayerWeights): (ws: seq<real>)
    ensures |ws| == 10
  {
    [ w.wPON_interUnit, w.wPON_OB, w.wOB_AON_lot, w.wOB_PC_lot, w.wAON_PON_mot,
      w.wAON_OB_toAntipodal, w.wPC_DPC, w.wDPC_PC, w.wDPC_OB_toAntipodal, w.wAON_noise ]
  }

  /** The sign each checked weight must have: only the PC-to-DPC connection is inhibitory. */
  const POLARITY: seq<real> := [1.0, 1.0, 1.0, 1.0, 1.0, 1.0, -1.0, 1.0, 1.0, 1.0]

  /**
   * The weights are valid exactly when every checked weight, times its
   * polarity, is strictly positive: a zero weight is never valid, and the
   * delays play no part.
   */
  lemma ValidityBySign(w: K3InterLayerWeights)
    ensures w.CheckWeightsValidity() <==> forall i :: 0 <= i < 10 ==> POLARITY[i] * CheckedWeights(w)[i] > 0.0
  {
    var ws := CheckedWeights(w);
    if forall i :: 0 <= i < 10 ==> POLARITY[i] * ws[i] > 0.0 {
      assert POLARITY[0] * ws[0] > 0.0 && POLARITY[1] * ws[1] > 0.0 && POLARITY[2] * ws[2] > 0.0;
      assert POLARITY[3] * ws[3] > 0.0 && POLARITY[4] * ws[4] > 0.0 && POLARITY[5] * ws[5] > 0.0;
      assert POLARITY[6] * ws[6] > 0.0 && POLARITY[7] * ws[7] > 0.0 && POLARITY[8] * ws[8] > 0.0;
      assert POLARITY[9] * ws[9] > 0.0;
    }
  }

  /** A zero weight anywhere makes the weights invalid. */
  lemma ZeroWeightInvalid(w: K3InterLayerWeights, i: nat)
    requires i < 10 && CheckedWeights(w)[i] == 0.0
    ensures !w.CheckWeightsValidity()
  {
    ValidityBySign(w);
    assert POLARITY[i] * CheckedWeights(w)[i] == 0.0;
  }

  /** Two weight sets that differ only in their delays are equally valid. */
  lemma ValidityIgnoresDelays(w: K3InterLayerWeights, w': K3InterLayerWeights)
    requires CheckedWeights(w) == CheckedWeights(w')
    ensures w.CheckWeightsValidity() == w'.CheckWeightsValidity()
  {
    ValidityBySign(w);
    ValidityBySign(w');
  }

  /**
   * `K3Config`: the inter-layer weights, the intra-unit weights of the
   * bulb's units, the AON and the PC, the bulb's two lateral weights
   * (primary, antipodal), the AON-to-PG and PC-to-AON weights and the
   * output history settings the drivers fill in.
   */
  datatype K3Config = K3Config(
    weights: K3InterLayerWeights,
    wOB_intra: K2Config, wAON_intra: K2Config, wPC_intra: K2Config,
    wOB_inter: (real, real),
    wAON_PG_mot: real,
    wPC_AON_toAntipodal: real, dPC_AON_toAntipodal: nat,
    outputActivityMonitoring: nat, outputHistorySize: nat)
  {
    predicate CheckWeightsValidity()
    {
      weights.CheckWeightsValidity()
    }
  }

  /** Connections from each of `sources`, in order, all ending at `target`: a tract converging on one node. */
  ghost function Tract(sources: seq<K0>, target: K0, w: real, d: nat): (r: seq<Connection>)
    ensures |r| == |sources|
  {
    seq(|sources|, k requires 0 <= k < |sources| => Connection(sources[k], target, w, d, None))
  }

  /** The AON's medial-tract connection to a nerve node. */
  ghost function FromAon(pn: K0, aonP: K0, w: K3InterLayerWeights): seq<Connection>
  {
    [Connection(aonP, pn, w.wAON_PON_mot, w.dAON_PON_mot, None)]
  }

  /** The two connections a bulb antipodal node gains: from the AON primary node and from the DPC. */
  ghost function ToAntipodal(q: K0, aonP: K0, dpc: K0, w: K3InterLayerWeights): seq<Connection>
  {
    [ Connection(aonP, q, w.wAON_OB_toAntipodal, w.dAON_OB_toAntipodal, None),
      Connection(dpc, q, w.wDPC_OB_toAntipodal, w.dDPC_OB_toAntipodal, None) ]
  }

  /**
   * The inter-layer connections of units `0..k-1` are in place, on top of
   * the lists `connectLayers` started from: nerve node `j` listens to the
   * AON primary node, bulb antipodal node `j` to the AON primary node and
   * the DPC, and the AON and PC primary nodes to the bulb's primary nodes
   * `0..k-1`, in unit order.
   */
  ghost predicate LinkedUpTo(pon: seq<K0>, obP: seq<K0>, obQ: seq<K0>, aonP: K0, pcP: K0, dpc: K0, w: K3InterLayerWeights,
                             ponBefore: seq<seq<Connection>>, obQBefore: seq<seq<Connection>>,
                             aonBefore: seq<Connection>, pcBefore: seq<Connection>, k: nat)
    reads Members(pon)`inbound, Members(obQ)`inbound, aonP`inbound, pcP`inbound
  {
    && |pon| == |obP| == |obQ| == |ponBefore| == |obQBefore| && k <= |pon|
    && (forall j :: 0 <= j < |pon| ==> pon[j].inbound == ponBefore[j] + (if j < k then FromAon(pon[j], aonP, w) else []))
    && (forall j :: 0 <= j < |obQ| ==> obQ[j].inbound == obQBefore[j] + (if j < k then ToAntipodal(obQ[j], aonP, dpc, w) else []))
    && aonP.inbound == aonBefore + Tract(obP[..k], aonP, w.wOB_AON_lot, w.dOB_AON_lot)
    && pcP.inbound == pcBefore + Tract(obP[..k], pcP, w.wOB_PC_lot, w.dOB_PC_lot)
  }

  /**
   * The nodes `connectLayers` appends to are all different: the nerve's
   * nodes, the bulb's antipodal nodes, the AON's primary and antipodal
   * nodes and the PC's primary node; and none of them is the DPC, which
   * only ever is a source.
   */
  ghost predicate LayersApart(pon: seq<K0>, obQ: seq<K0>, aonP: K0, aonA: K0, pcP: K0, dpc: K0)
  {
    && Separate(pon) && Separate(obQ)
    && (forall i, j :: 0 <= i < |pon| && 0 <= j < |obQ| ==> pon[i] != obQ[j])
    && (forall i :: 0 <= i < |pon| ==> pon[i] !in {aonP, aonA, pcP, dpc})
    && (forall j :: 0 <= j < |obQ| ==> obQ[j] !in {aonP, aonA, pcP, dpc})
    && aonP != aonA && aonP != pcP && aonP != dpc && aonA != pcP && aonA != dpc && pcP != dpc
  }

  /**
   * One pass of the intended `connectLayers`, with the unit taken by
   * reference (`auto& obUnit`): the five connections of unit `k`, on the
   * unit's own nodes; `next` is the unit the loop goes on with.
   */
  method LinkUnit(pon: seq<K0>, obP: seq<K0>, obQ: seq<K0>, aonP: K0, aonA: K0, pcP: K0, dpc: K0, w: K3InterLayerWeights,
                  ghost ponBefore: seq<seq<Connection>>, ghost obQBefore: seq<seq<Connection>>,
                  ghost aonBefore: seq<Connection>, ghost pcBefore: seq<Connection>, k: nat) returns (next: nat)
    requires LayersApart(pon, obQ, aonP, aonA, pcP, dpc) && k < |pon|
    requires LinkedUpTo(pon, obP, obQ, aonP, pcP, dpc, w, ponBefore, obQBefore, aonBefore, pcBefore, k)
    modifies {pon[k], aonP, pcP, obQ[k]}`inbound
    ensures next == k + 1 && LinkedUpTo(pon, obP, obQ, aonP, pcP, dpc, w, ponBefore, obQBefore, aonBefore, pcBefore, next)
  {
    ghost var n := |pon|;
    var pn, p, q := pon[k], obP[k], obQ[k];
    pn.AddInboundConnection(aonP, w.wAON_PON_mot, w.dAON_PON_mot, None);
    aonP.AddInboundConnection(p, w.wOB_AON_lot, w.dOB_AON_lot, None);
    pcP.AddInboundConnection(p, w.wOB_PC_lot, w.dOB_PC_lot, None);
    q.AddInboundConnection(aonP, w.wAON_OB_toAntipodal, w.dAON_OB_toAntipodal, None);
    q.AddInboundConnection(dpc, w.wDPC_OB_toAntipodal, w.dDPC_OB_toAntipodal, None);
    next := k + 1;
    assert obP[..next] == obP[..k] + [p];
    forall j | 0 <= j < n && j != k
      ensures pon[j].inbound == old(pon[j].inbound) && obQ[j].inbound == old(obQ[j].inbound)
    {
      assert Apart(pon, if j < k then j else k, if j < k then k else j);
      assert Apart(obQ, if j < k then j else k, if j < k then k else j);
    }
  }

  /** The loop of `connectLayers`: every unit in turn, each linked by `LinkUnit`. */
  method LinkUnits(pon: seq<K0>, obP: seq<K0>, obQ: seq<K0>, aonP: K0, aonA: K0, pcP: K0, dpc: K0, w: K3InterLayerWeights)
    requires LayersApart(pon, obQ, aonP, aonA, pcP, dpc) && |pon| == |obP| == |obQ|
    modifies Members(pon)`inbound, Members(obQ)`inbound, {aonP, pcP}`inbound
    ensures forall j :: 0 <= j < |pon| ==> pon[j].inbound == old(pon[j].inbound) + FromAon(pon[j], aonP, w)
    ensures forall j :: 0 <= j < |obQ| ==> obQ[j].inbound == old(obQ[j].inbound) + ToAntipodal(obQ[j], aonP, dpc, w)
    ensures aonP.inbound == old(aonP.inbound) + Tract(obP, aonP, w.wOB_AON_lot, w.dOB_AON_lot)
    ensures pcP.inbound == old(pcP.inbound) + Tract(obP, pcP, w.wOB_PC_lot, w.dOB_PC_lot)
  {
    ghost var ponBefore, obQBefore := Inbound(pon), Inbound(obQ);
    var u := 0;
    while u < |pon|
      invariant u <= |pon|
      invariant LinkedUpTo(pon, obP, obQ, aonP, pcP, dpc, w, ponBefore, obQBefore, old(aonP.inbound), old(pcP.inbound), u)
    {
      u := LinkUnit(pon, obP, obQ, aonP, aonA, pcP, dpc, w, ponBefore, obQBefore, old(aonP.inbound), old(pcP.inbound), u);
    }
    assert obP[..u] == obP;
  }

  /** `k` copies of `xs`, one after the other. */
  function Repeat<T>(xs: seq<T>, k: nat): (r: seq<T>)
    ensures |r| == k * |xs|
  {
    if k == 0 then [] else Repeat(xs, k - 1) + xs
  }

  /** `auto obUnit = *obIter`: the K2 copy constructor, on a unit whose sources all lie in `g`. */
  method CopyUnit(unit: K0Collection, ghost g: set<K0>) returns (c: K0Collection)
    requires |unit.nodes| == 4 && unit.Valid() && Members(unit.nodes) <= g && ClosedUnderSources(g)
    ensures fresh(c) && |c.nodes| == 4 && c.Valid()
    ensures forall i :: 0 <= i < 4 ==> fresh(c.nodes[i]) && fresh(c.nodes[i].history)
    ensures StateCopied(unit.nodes[PRIMARY], c.nodes[PRIMARY])
  {
    assert forall i :: 0 <= i < 4 ==> unit.nodes[i] in Members(unit.nodes);
    ghost var m;
    c, m := K0Collection.CopyOf(unit, g);
  }

  /**
   * One pass of `connectLayers` as written: the nerve node `pn` hears the
   * AON's primary node; `unit` is copied onto new nodes, the AON's and the
   * PC's primary nodes hear the copy's primary node `p`, the copy's
   * antipodal node hears the AON's primary node and the DPC, and the copy
   * is destroyed, leaving `p` with no inbound connections.
   */
  method LinkCopiedUnit(pn: K0, unit: K0Collection, aonP: K0, pcP: K0, dpc: K0, w: K3InterLayerWeights, ghost g: set<K0>)
    returns (ghost p: K0)
    requires |unit.nodes| == 4 && unit.Valid() && Members(unit.nodes) <= g && ClosedUnderSources(g)
    requires pn != aonP && pn != pcP && aonP != pcP && pn !in g && aonP !in g && pcP !in g
    modifies {pn, aonP, pcP}`inbound
    ensures pn.inbound == old(pn.inbound) + FromAon(pn, aonP, w)
    ensures aonP.inbound == old(aonP.inbound) + [Connection(p, aonP, w.wOB_AON_lot, w.dOB_AON_lot, None)]
    ensures pcP.inbound == old(pcP.inbound) + [Connection(p, pcP, w.wOB_PC_lot, w.dOB_PC_lot, None)]
    ensures fresh(p) && fresh(p.history) && p.inbound == [] && StateCopied(unit.nodes[PRIMARY], p)
  {
    var obUnit := CopyUnit(unit, g);
    var cp, cq := obUnit.nodes[PRIMARY], obUnit.nodes[ANTIPODAL];
    pn.AddInboundConnection(aonP, w.wAON_PON_mot, w.dAON_PON_mot, None);
    aonP.AddInboundConnection(cp, w.wOB_AON_lot, w.dOB_AON_lot, None);
    pcP.AddInboundConnection(cp, w.wOB_PC_lot, w.dOB_PC_lot, None);
    cq.AddInboundConnection(aonP, w.wAON_OB_toAntipodal, w.dAON_OB_toAntipodal, None);
    cq.AddInboundConnection(dpc, w.wDPC_OB_toAntipodal, w.dDPC_OB_toAntipodal, None);
    obUnit.Destroy();
    p := cp;
  }

  /**
   * `connectLayers(config)` as written. Neither iterator is ever advanced,
   * so the loop keeps working on the first unit and stops only when the
   * nerve is empty. And `auto obUnit = *obIter` copies that unit: the K2
   * copy constructor clones it onto new nodes, the LOT links come from the
   * copy's primary node, the MOT links go to the copy's antipodal node, and
   * the copy's destructor clears its nodes' inbound lists as the pass ends.
   * `fuel` bounds the passes the model runs; `finished` says whether the
   * loop ended, and then the AON's antipodal node is linked to the PC's
   * primary node. `g` is a set of nodes closed under sources holding the
   * first unit (the bulb, for a K3), which the copy clones from;
   * `clones` are the copies' primary nodes, one per pass.
   */
  method ConnectLayersAsWritten(pon: seq<K0>, units: seq<K0Collection>, aonP: K0, aonA: K0, pcP: K0, dpc: K0, c: K3Config,
                                fuel: nat, ghost g: set<K0>)
    returns (finished: bool, ghost clones: seq<K0>)
    requires Separate(pon) && |pon| == |units| && aonP != aonA && aonP != pcP && aonA != pcP
    requires forall j :: 0 <= j < |pon| ==> pon[j] !in {aonP, aonA, pcP}
    requires |units| > 0 ==> |units[0].nodes| == 4 && units[0].Valid() && Members(units[0].nodes) <= g
    requires ClosedUnderSources(g) && Members(pon) !! g && aonP !in g && aonA !in g && pcP !in g
    modifies Members(pon)`inbound, {aonP, aonA, pcP}`inbound
    ensures finished <==> |pon| == 0
    ensures finished ==> aonA.inbound == old(aonA.inbound) + [Connection(pcP, aonA, c.wPC_AON_toAntipodal, c.dPC_AON_toAntipodal, None)]
                         && aonP.inbound == old(aonP.inbound) && pcP.inbound == old(pcP.inbound)
    ensures forall n :: n in g ==> n.inbound == old(n.inbound)
    ensures !finished ==>
              && |clones| == fuel && Separate(clones)
              && pon[0].inbound == old(pon[0].inbound) + Repeat(FromAon(pon[0], aonP, c.weights), fuel)
              && aonP.inbound == old(aonP.inbound) + Tract(clones, aonP, c.weights.wOB_AON_lot, c.weights.dOB_AON_lot)
              && pcP.inbound == old(pcP.inbound) + Tract(clones, pcP, c.weights.wOB_PC_lot, c.weights.dOB_PC_lot)
              && aonA.inbound == old(aonA.inbound)
              && (forall j :: 0 < j < |pon| ==> pon[j].inbound == old(pon[j].inbound))
    ensures !finished ==> forall k :: 0 <= k < fuel ==>
              fresh(clones[k]) && clones[k].inbound == [] && StateCopied(units[0].nodes[PRIMARY], clones[k])
  {
    var w := c.weights;
    var pnIter, obIter, passes := 0, 0, 0;
    clones := [];
    while pnIter != |pon| && passes < fuel
      invariant pnIter == 0 && obIter == 0 && passes <= fuel && |clones| == passes && Separate(clones)
      invariant ClosedUnderSources(g) && forall n :: n in g ==> n.inbound == old(n.inbound)
      invariant |pon| > 0 ==>
                  && pon[0].inbound == old(pon[0].inbound) + Repeat(FromAon(pon[0], aonP, w), passes)
                  && aonP.inbound == old(aonP.inbound) + Tract(clones, aonP, w.wOB_AON_lot, w.dOB_AON_lot)
                  && pcP.inbound == old(pcP.inbound) + Tract(clones, pcP, w.wOB_PC_lot, w.dOB_PC_lot)
      invariant |pon| == 0 ==> aonP.inbound == old(aonP.inbound) && pcP.inbound == old(pcP.inbound)
      invariant |pon| > 0 ==> forall k :: 0 <= k < passes ==>
                  fresh(clones[k]) && fresh(clones[k].history) && clones[k].inbound == [] && StateCopied(units[0].nodes[PRIMARY], clones[k])
      invariant aonA.inbound == old(aonA.inbound)
      invariant forall j :: 0 < j < |pon| ==> pon[j].inbound == old(pon[j].inbound)
    {
      var pnUnit := pon[pnIter];
      ghost var p := LinkCopiedUnit(pnUnit, units[obIter], aonP, pcP, dpc, w, g);
      forall i, j | 0 <= i < j < |clones| + 1
        ensures Apart(clones + [p], i, j)
      {
        if j < |clones| {
          assert Apart(clones, i, j);
        }
      }
      assert Tract(clones + [p], aonP, w.wOB_AON_lot, w.dOB_AON_lot) == Tract(clones, aonP, w.wOB_AON_lot, w.dOB_AON_lot) + Tract([p], aonP, w.wOB_AON_lot, w.dOB_AON_lot);
      assert Tract(clones + [p], pcP, w.wOB_PC_lot, w.dOB_PC_lot) == Tract(clones, pcP, w.wOB_PC_lot, w.dOB_PC_lot) + Tract([p], pcP, w.wOB_PC_lot, w.dOB_PC_lot);
      clones := clones + [p];
      passes := passes + 1;
      forall j | 0 < j < |pon|
        ensures pon[j].inbound == old(pon[j].inbound)
      {
        assert Apart(pon, 0, j);
      }
    }
    finished := pnIter == |pon|;
    if finished {
      aonA.AddInboundConnection(pcP, c.wPC_AON_toAntipodal, c.dPC_AON_toAntipodal, None);
    }
  }

  /**
   * What a bulb node gains after its K2 diagram when `connectPrimaryNodesLaterally`
   * or `connectAntipodalNodesLaterally` accepted the weight: one connection
   * from each other node of its lane, the weight divided among them.
   */
  ghost function Lateral(lane: seq<K0>, u: nat, w: real, accepted: bool): seq<Connection>
    requires u < |lane|
  {
    if accepted then From(lane, u, Others(|lane|, u), LateralWeight(w, |lane|), 0) else []
  }

  /** `Lateral` for every node of a lane. */
  ghost function Laterals(lane: seq<K0>, w: real, accepted: bool): (r: seq<seq<Connection>>)
    ensures |r| == |lane| && forall u :: 0 <= u < |lane| ==> r[u] == Lateral(lane, u, w, accepted)
  {
    seq(|lane|, u requires 0 <= u < |lane| => Lateral(lane, u, w, accepted))
  }

  /** Two lanes of a layout share no node, and each lies within the layout. */
  lemma LanesDisjoint(us: seq<K0Collection>, ns: seq<K0>, a: nat, b: nat)
    requires Tiled(us, ns) && Separate(ns) && a < 4 && b < 4 && a != b
    ensures Members(Lane(us, a)) !! Members(Lane(us, b))
    ensures Members(Lane(us, a)) <= Members(ns)
  {
    LaneAt(us, ns, a);
    LaneAt(us, ns, b);
    OffLane(ns, Lane(us, b), b);
    forall u | 0 <= u < |us|
      ensures Lane(us, a)[u] !in Members(Lane(us, b)) && Lane(us, a)[u] in Members(ns)
    {
      assert (4 * u + a) % 4 == a;
      assert Lane(us, a)[u] == ns[4 * u + a];
    }
  }

  /** A lane lies within the layout. */
  lemma LaneInLayer(us: seq<K0Collection>, ns: seq<K0>, a: nat)
    requires Tiled(us, ns) && a < 4
    ensures Members(Lane(us, a)) <= Members(ns)
  {
    LaneAt(us, ns, a);
    forall u | 0 <= u < |us|
      ensures Lane(us, a)[u] in Members(ns)
    {
      assert Lane(us, a)[u] == ns[4 * u + a];
    }
  }

  /**
   * The constructor's `connectPrimaryNodes(wOB_inter[0])` and
   * `connectAntipodalNodes(wOB_inter[1])` on the bulb, their results
   * ignored: each lane is wired laterally when the sign of its weight
   * allows it.
   */
  method ConnectBulbLaterally(ob: K2Layer, config: K3Config)
    requires ob.Valid()
    modifies Members(ob.primaries)`inbound, Members(ob.antipodals)`inbound
    ensures forall u :: 0 <= u < |ob.primaries| ==>
              ob.primaries[u].inbound == old(ob.primaries[u].inbound) + Lateral(ob.primaries, u, config.wOB_inter.0, config.wOB_inter.0 >= 0.0)
    ensures forall u :: 0 <= u < |ob.antipodals| ==>
              ob.antipodals[u].inbound == old(ob.antipodals[u].inbound) + Lateral(ob.antipodals, u, config.wOB_inter.1, config.wOB_inter.1 <= 0.0)
  {
    LanesOfLayer(ob.units, ob.nodes, ob.primaries, ob.antipodals);
    LanesDisjoint(ob.units, ob.nodes, ANTIPODAL, PRIMARY);
    assert forall u :: 0 <= u < |ob.antipodals| ==> ob.antipodals[u] !in Members(ob.primaries) by {
      assert forall u :: 0 <= u < |ob.antipodals| ==> ob.antipodals[u] in Members(ob.antipodals);
    }
    assert forall u :: 0 <= u < |ob.primaries| ==> ob.primaries[u] !in Members(ob.antipodals) by {
      assert forall u :: 0 <= u < |ob.primaries| ==> ob.primaries[u] in Members(ob.primaries);
    }
    var _ := ob.ConnectPrimaryNodesLaterally(config.wOB_inter.0, 0);
    var _ := ob.ConnectAntipodalNodesLaterally(config.wOB_inter.1, 0);
  }

  /** Each nerve node hears the other nerve nodes with the undivided weight, then the AON's primary node. */
  ghost predicate NerveBuilt(pon: seq<K0>, aonP: K0, c: K3Config)
    reads Members(pon)`inbound
  {
    forall j :: 0 <= j < |pon| ==>
      pon[j].inbound == From(pon, j, Others(|pon|, j), c.weights.wPON_interUnit, DEFAULT_DELAY) + FromAon(pon[j], aonP, c.weights)
  }

  /**
   * Every bulb unit hears its K2 diagram; then its primary node hears the
   * lateral inputs of its lane, and its antipodal node those of its lane,
   * the AON's primary node and the DPC.
   */
  ghost predicate BulbBuilt(units: seq<K0Collection>, obP: seq<K0>, obQ: seq<K0>, aonP: K0, dpc: K0, c: K3Config)
    reads units`nodes, UnitNodes(units)`inbound
  {
    && |obP| == |obQ| == |units| && (forall u :: 0 <= u < |units| ==> |units[u].nodes| == 4)
    && (forall u :: 0 <= u < |units| ==>
          units[u].nodes[PRIMARY].inbound == K2Row(units[u].nodes, PRIMARY, c.wOB_intra) + Lateral(obP, u, c.wOB_inter.0, c.wOB_inter.0 >= 0.0))
    && (forall u, a :: 0 <= u < |units| && 0 < a < 3 ==> units[u].nodes[a].inbound == K2Row(units[u].nodes, a, c.wOB_intra))
    && (forall u :: 0 <= u < |units| ==>
          units[u].nodes[ANTIPODAL].inbound == K2Row(units[u].nodes, ANTIPODAL, c.wOB_intra) + Lateral(obQ, u, c.wOB_inter.1, c.wOB_inter.1 <= 0.0)
                                               + ToAntipodal(obQ[u], aonP, dpc, c.weights))
  }

  /**
   * The AON and the PC hear their K2 diagrams; then their primary nodes
   * hear every bulb primary node, in unit order, and the AON's antipodal
   * node the PC's primary node.
   */
  ghost predicate CoresBuilt(aon: seq<K0>, pc: seq<K0>, obP: seq<K0>, c: K3Config)
    requires |aon| == 4 && |pc| == 4
    reads Members(aon)`inbound, Members(pc)`inbound
  {
    var w := c.weights;
    && aon[PRIMARY].inbound == K2Row(aon, PRIMARY, c.wAON_intra) + Tract(obP, aon[PRIMARY], w.wOB_AON_lot, w.dOB_AON_lot)
    && aon[1].inbound == K2Row(aon, 1, c.wAON_intra) && aon[2].inbound == K2Row(aon, 2, c.wAON_intra)
    && aon[ANTIPODAL].inbound == K2Row(aon, ANTIPODAL, c.wAON_intra)
         + [Connection(pc[PRIMARY], aon[ANTIPODAL], c.wPC_AON_toAntipodal, c.dPC_AON_toAntipodal, None)]
    && pc[PRIMARY].inbound == K2Row(pc, PRIMARY, c.wPC_intra) + Tract(obP, pc[PRIMARY], w.wOB_PC_lot, w.dOB_PC_lot)
    && pc[1].inbound == K2Row(pc, 1, c.wPC_intra) && pc[2].inbound == K2Row(pc, 2, c.wPC_intra) && pc[3].inbound == K2Row(pc, 3, c.wPC_intra)
  }

  /** Every node of the units. */
  ghost function UnitNodes(us: seq<K0Collection>): set<K0>
    reads us`nodes
  {
    set u, a | 0 <= u < |us| && 0 <= a < |us[u].nodes| :: us[u].nodes[a]
  }

  class K3 {
    const primaryOlfactoryNerve: seq<K0>
    const olfactoryBulb: K2Layer
    const anteriorOlfactoryNucleus: K0Collection
    const prepiriformCortex: K0Collection
    const deepPyramidCells: K0

    /**
     * A valid bulb with one nerve node per unit and two four-node K2 sets;
     * no node twice within a part, and no node shared between two parts.
     */
    ghost predicate Valid()
      reads olfactoryBulb`units, olfactoryBulb`nodes, olfactoryBulb`primaries, olfactoryBulb`antipodals, olfactoryBulb.units`nodes
      reads anteriorOlfactoryNucleus`nodes, prepiriformCortex`nodes
    {
      var pon, ob, aon, pc := Members(primaryOlfactoryNerve), Members(olfactoryBulb.nodes), Members(anteriorOlfactoryNucleus.nodes), Members(prepiriformCortex.nodes);
      && olfactoryBulb.Valid() && |primaryOlfactoryNerve| == |olfactoryBulb.units|
      && |anteriorOlfactoryNucleus.nodes| == 4 && |prepiriformCortex.nodes| == 4
      && Separate(primaryOlfactoryNerve) && Separate(anteriorOlfactoryNucleus.nodes) && Separate(prepiriformCortex.nodes)
      && pon !! ob && pon !! aon && pon !! pc && ob !! aon && ob !! pc && aon !! pc
      && deepPyramidCells !in pon + ob + aon + pc
    }

    /** The nodes `connectLayers` appends to are apart. */
    lemma ValidLayersApart()
      requires Valid()
      ensures LayersApart(primaryOlfactoryNerve, olfactoryBulb.antipodals, anteriorOlfactoryNucleus.nodes[PRIMARY],
                          anteriorOlfactoryNucleus.nodes[ANTIPODAL], prepiriformCortex.nodes[PRIMARY], deepPyramidCells)
    {
      var ob := olfactoryBulb;
      var pon, aon, pc := primaryOlfactoryNerve, anteriorOlfactoryNucleus.nodes, prepiriformCortex.nodes;
      LaneOfLayer(ob.units, ob.nodes, ob.antipodals, ANTIPODAL);
      LanesDisjoint(ob.units, ob.nodes, ANTIPODAL, PRIMARY);
      assert Apart(aon, PRIMARY, ANTIPODAL);
      assert aon[PRIMARY] in Members(aon) && aon[ANTIPODAL] in Members(aon) && pc[PRIMARY] in Members(pc);
      forall i | 0 <= i < |pon|
        ensures pon[i] in Members(pon)
      {
      }
    }

    /** Every node the constructor's wiring appends to, lane by lane, is outside the other lanes and parts it touches. */
    lemma ValidWiringApart()
      requires Valid()
      ensures var pon, obP, obQ := primaryOlfactoryNerve, olfactoryBulb.primaries, olfactoryBulb.antipodals;
        var aonP, aonA, pcP := anteriorOlfactoryNucleus.nodes[PRIMARY], anteriorOlfactoryNucleus.nodes[ANTIPODAL], prepiriformCortex.nodes[PRIMARY];
        && |obP| == |obQ| == |pon| && Separate(obP) && Separate(obQ)
        && (forall u :: 0 <= u < |obP| ==> obP[u] !in Members(pon) && obP[u] !in Members(obQ) && obP[u] !in {aonP, aonA, pcP})
        && (forall u :: 0 <= u < |obQ| ==> obQ[u] !in Members(pon) && obQ[u] !in Members(obP) && obQ[u] !in {aonP, aonA, pcP})
        && (forall j :: 0 <= j < |pon| ==> pon[j] !in Members(obP) && pon[j] !in Members(obQ) && pon[j] !in {aonP, aonA, pcP})
        && aonP !in Members(pon) && aonP !in Members(obP) && aonP !in Members(obQ)
        && aonA !in Members(pon) && aonA !in Members(obP) && aonA !in Members(obQ)
        && pcP !in Members(pon) && pcP !in Members(obP) && pcP !in Members(obQ)
        && aonP != aonA && aonP != pcP && aonA != pcP
    {
      var ob := olfactoryBulb;
      var pon, aon, pc := primaryOlfactoryNerve, anteriorOlfactoryNucleus.nodes, prepiriformCortex.nodes;
      LanesOfLayer(ob.units, ob.nodes, ob.primaries, ob.antipodals);
      LanesDisjoint(ob.units, ob.nodes, ANTIPODAL, PRIMARY);
      LaneInLayer(ob.units, ob.nodes, PRIMARY);
      assert Apart(aon, PRIMARY, ANTIPODAL);
      assert aon[PRIMARY] in Members(aon) && aon[ANTIPODAL] in Members(aon) && pc[PRIMARY] in Members(pc);
      forall i | 0 <= i < |pon|
        ensures pon[i] in Members(pon)
      {
      }
    }

    /** The middle nodes of the bulb's units lie outside every node the constructor's wiring appends to. */
    lemma ValidMiddleUntouched()
      requires Valid()
      ensures var pon, units, obP, obQ := primaryOlfactoryNerve, olfactoryBulb.units, olfactoryBulb.primaries, olfactoryBulb.antipodals;
        var aonP, aonA, pcP := anteriorOlfactoryNucleus.nodes[PRIMARY], anteriorOlfactoryNucleus.nodes[ANTIPODAL], prepiriformCortex.nodes[PRIMARY];
        forall u, a :: 0 <= u < |units| && 0 < a < 3 ==>
          && units[u].nodes[a] !in Members(pon) && units[u].nodes[a] !in Members(obP) && units[u].nodes[a] !in Members(obQ)
          && units[u].nodes[a] != aonP && units[u].nodes[a] != aonA && units[u].nodes[a] != pcP
    {
      var ob := olfactoryBulb;
      var aon, pc := anteriorOlfactoryNucleus.nodes, prepiriformCortex.nodes;
      OffLane(ob.nodes, ob.primaries, PRIMARY);
      OffLane(ob.nodes, ob.antipodals, ANTIPODAL);
      assert aon[PRIMARY] in Members(aon) && aon[ANTIPODAL] in Members(aon) && pc[PRIMARY] in Members(pc);
      forall u, a | 0 <= u < |ob.units| && 0 < a < 3
        ensures ob.units[u].nodes[a] in Members(ob.nodes) && ob.units[u].nodes[a] !in Members(ob.primaries) && ob.units[u].nodes[a] !in Members(ob.antipodals)
      {
        assert ob.units[u].nodes[a] == ob.nodes[4 * u + a];
        assert (4 * u + a) % 4 == a;
      }
    }

    /** The AON's and the PC's other nodes and the DPC lie outside every node the constructor's wiring appends to. */
    lemma ValidOthersUntouched()
      requires Valid()
      ensures var pon, obP, obQ := primaryOlfactoryNerve, olfactoryBulb.primaries, olfactoryBulb.antipodals;
        var aon, pc := anteriorOlfactoryNucleus.nodes, prepiriformCortex.nodes;
        && (forall n :: n in [aon[1], aon[2], pc[1], pc[2], pc[3], deepPyramidCells] ==>
              n !in Members(pon) && n !in Members(obP) && n !in Members(obQ))
        && aon[1] !in {aon[PRIMARY], aon[ANTIPODAL], pc[PRIMARY]} && aon[2] !in {aon[PRIMARY], aon[ANTIPODAL], pc[PRIMARY]}
        && pc[1] !in {aon[PRIMARY], aon[ANTIPODAL], pc[PRIMARY]} && pc[2] !in {aon[PRIMARY], aon[ANTIPODAL], pc[PRIMARY]}
        && pc[3] !in {aon[PRIMARY], aon[ANTIPODAL], pc[PRIMARY]} && deepPyramidCells !in {aon[PRIMARY], aon[ANTIPODAL], pc[PRIMARY]}
    {
      var ob := olfactoryBulb;
      var aon, pc := anteriorOlfactoryNucleus.nodes, prepiriformCortex.nodes;
      LanesOfLayer(ob.units, ob.nodes, ob.primaries, ob.antipodals);
      LaneInLayer(ob.units, ob.nodes, PRIMARY);
      LaneInLayer(ob.units, ob.nodes, ANTIPODAL);
      assert Apart(aon, PRIMARY, 1) && Apart(aon, PRIMARY, 2) && Apart(aon, 1, ANTIPODAL) && Apart(aon, 2, ANTIPODAL);
      assert Apart(pc, PRIMARY, 1) && Apart(pc, PRIMARY, 2) && Apart(pc, PRIMARY, 3);
      assert aon[PRIMARY] in Members(aon) && aon[1] in Members(aon) && aon[2] in Members(aon) && aon[ANTIPODAL] in Members(aon);
      assert pc[PRIMARY] in Members(pc) && pc[1] in Members(pc) && pc[2] in Members(pc) && pc[3] in Members(pc);
    }

    /** Every part as its own constructor left it: K2 diagrams in the bulb, the AON and the PC, no connections elsewhere. */
    ghost predicate Pristine(config: K3Config)
      requires Valid()
      reads olfactoryBulb`units, olfactoryBulb`nodes, olfactoryBulb`primaries, olfactoryBulb`antipodals, olfactoryBulb.units`nodes
      reads anteriorOlfactoryNucleus`nodes, prepiriformCortex`nodes
      reads Members(primaryOlfactoryNerve)`inbound, Members(olfactoryBulb.nodes)`inbound
      reads Members(anteriorOlfactoryNucleus.nodes)`inbound, Members(prepiriformCortex.nodes)`inbound, deepPyramidCells`inbound
    {
      var units := olfactoryBulb.units;
      && (forall k :: 0 <= k < |primaryOlfactoryNerve| ==> primaryOlfactoryNerve[k].inbound == [])
      && (forall u :: 0 <= u < |units| ==> WiredAs(units[u].nodes, K2Table(config.wOB_intra)))
      && WiredAs(anteriorOlfactoryNucleus.nodes, K2Table(config.wAON_intra))
      && WiredAs(prepiriformCortex.nodes, K2Table(config.wPC_intra))
      && deepPyramidCells.inbound == []
    }

    /**
     * The constructor after its checks, with `connectLayers` advancing its
     * iterators: the nerve's lateral connections, the bulb's two lateral
     * wirings (whose results it ignores), then `connectLayers`. Each nerve
     * node gains the other nerve nodes, then the AON's primary node; each
     * bulb primary node its lateral inputs, when the sign of the weight
     * allowed them; each bulb antipodal node its lateral inputs, then the
     * AON's primary node and the DPC; the AON's and the PC's primary nodes
     * every bulb primary node, in unit order; the AON's antipodal node the
     * PC's primary node. No other node changes.
     */
    method Wire(config: K3Config)
      requires Valid()
      modifies Members(primaryOlfactoryNerve)`inbound, Members(olfactoryBulb.primaries)`inbound, Members(olfactoryBulb.antipodals)`inbound
      modifies {anteriorOlfactoryNucleus.nodes[PRIMARY], anteriorOlfactoryNucleus.nodes[ANTIPODAL], prepiriformCortex.nodes[PRIMARY]}`inbound
      ensures forall j :: 0 <= j < |primaryOlfactoryNerve| ==>
                primaryOlfactoryNerve[j].inbound == old(primaryOlfactoryNerve[j].inbound)
                  + From(primaryOlfactoryNerve, j, Others(|primaryOlfactoryNerve|, j), config.weights.wPON_interUnit, DEFAULT_DELAY)
                  + FromAon(primaryOlfactoryNerve[j], anteriorOlfactoryNucleus.nodes[PRIMARY], config.weights)
      ensures forall u :: 0 <= u < |olfactoryBulb.primaries| ==>
                olfactoryBulb.primaries[u].inbound == old(olfactoryBulb.primaries[u].inbound)
                  + Lateral(olfactoryBulb.primaries, u, config.wOB_inter.0, config.wOB_inter.0 >= 0.0)
      ensures forall u :: 0 <= u < |olfactoryBulb.antipodals| ==>
                olfactoryBulb.antipodals[u].inbound == old(olfactoryBulb.antipodals[u].inbound)
                  + Lateral(olfactoryBulb.antipodals, u, config.wOB_inter.1, config.wOB_inter.1 <= 0.0)
                  + ToAntipodal(olfactoryBulb.antipodals[u], anteriorOlfactoryNucleus.nodes[PRIMARY], deepPyramidCells, config.weights)
      ensures anteriorOlfactoryNucleus.nodes[PRIMARY].inbound == old(anteriorOlfactoryNucleus.nodes[PRIMARY].inbound)
                + Tract(olfactoryBulb.primaries, anteriorOlfactoryNucleus.nodes[PRIMARY], config.weights.wOB_AON_lot, config.weights.dOB_AON_lot)
      ensures prepiriformCortex.nodes[PRIMARY].inbound == old(prepiriformCortex.nodes[PRIMARY].inbound)
                + Tract(olfactoryBulb.primaries, prepiriformCortex.nodes[PRIMARY], config.weights.wOB_PC_lot, config.weights.dOB_PC_lot)
      ensures anteriorOlfactoryNucleus.nodes[ANTIPODAL].inbound == old(anteriorOlfactoryNucleus.nodes[ANTIPODAL].inbound)
                + [Connection(prepiriformCortex.nodes[PRIMARY], anteriorOlfactoryNucleus.nodes[ANTIPODAL],
                              config.wPC_AON_toAntipodal, config.dPC_AON_toAntipodal, None)]
    {
      ValidWiringApart();
      ConnectPrimaryOlfactoryNerveLaterally(config.weights.wPON_interUnit, DEFAULT_DELAY);
      ConnectBulbLaterally(olfactoryBulb, config);
      ConnectLayers(config);
    }

    /**
     * The K3 is wired as its constructor leaves it: each nerve node hears
     * the other nerve nodes, then the AON's primary node; every bulb unit,
     * the AON and the PC hear their K2 diagrams followed by what the
     * constructor added (the lateral bulb links, and for an antipodal node
     * the AON and DPC links; the bulb's primary lane
     * for the AON's and the PC's primary nodes, and the PC's primary node
     * for the AON's antipodal node); the DPC hears nothing.
     */
    ghost predicate Built(config: K3Config)
      reads olfactoryBulb`units, olfactoryBulb`primaries, olfactoryBulb`antipodals, olfactoryBulb.units`nodes
      reads anteriorOlfactoryNucleus`nodes, prepiriformCortex`nodes
      reads Members(primaryOlfactoryNerve)`inbound, UnitNodes(olfactoryBulb.units)`inbound
      reads Members(anteriorOlfactoryNucleus.nodes)`inbound, Members(prepiriformCortex.nodes)`inbound, deepPyramidCells`inbound
    {
      var aon, pc := anteriorOlfactoryNucleus.nodes, prepiriformCortex.nodes;
      && |aon| == 4 && |pc| == 4
      && NerveBuilt(primaryOlfactoryNerve, aon[PRIMARY], config)
      && BulbBuilt(olfactoryBulb.units, olfactoryBulb.primaries, olfactoryBulb.antipodals, aon[PRIMARY], deepPyramidCells, config)
      && CoresBuilt(aon, pc, olfactoryBulb.primaries, config)
      && deepPyramidCells.inbound == []
    }

    /** A pristine bulb, lane by lane: every node hears its row of the K2 diagram of its unit. */
    lemma PristineLanes(config: K3Config)
      requires Valid() && Pristine(config)
      ensures var units, obP, obQ := olfactoryBulb.units, olfactoryBulb.primaries, olfactoryBulb.antipodals;
        && (forall u :: 0 <= u < |units| ==> obP[u] == units[u].nodes[PRIMARY] && obP[u].inbound == K2Row(units[u].nodes, PRIMARY, config.wOB_intra))
        && (forall u, a :: 0 <= u < |units| && 0 < a < 3 ==> units[u].nodes[a].inbound == K2Row(units[u].nodes, a, config.wOB_intra))
        && (forall u :: 0 <= u < |units| ==> obQ[u] == units[u].nodes[ANTIPODAL] && obQ[u].inbound == K2Row(units[u].nodes, ANTIPODAL, config.wOB_intra))
    {
      var units, t := olfactoryBulb.units, K2Table(config.wOB_intra);
      LanesOfLayer(units, olfactoryBulb.nodes, olfactoryBulb.primaries, olfactoryBulb.antipodals);
      forall u, a | 0 <= u < |units| && 0 <= a < 4
        ensures units[u].nodes[a].inbound == K2Row(units[u].nodes, a, config.wOB_intra)
      {
        assert WiredAs(units[u].nodes, t);
      }
    }

    /** A pristine AON and PC, node by node. */
    lemma PristineCores(config: K3Config)
      requires Valid() && Pristine(config)
      ensures var aon, pc := anteriorOlfactoryNucleus.nodes, prepiriformCortex.nodes;
        && aon[0].inbound == K2Row(aon, 0, config.wAON_intra) && aon[1].inbound == K2Row(aon, 1, config.wAON_intra)
        && aon[2].inbound == K2Row(aon, 2, config.wAON_intra) && aon[3].inbound == K2Row(aon, 3, config.wAON_intra)
        && pc[0].inbound == K2Row(pc, 0, config.wPC_intra) && pc[1].inbound == K2Row(pc, 1, config.wPC_intra)
        && pc[2].inbound == K2Row(pc, 2, config.wPC_intra) && pc[3].inbound == K2Row(pc, 3, config.wPC_intra)
    {
    }

    /**
     * The constructor's wiring with `connectLayers` corrected (each unit
     * linked once, by reference), from the K2 diagrams alone to the built K3.
     */
    method Build(config: K3Config)
      requires Valid() && Pristine(config)
      modifies Members(primaryOlfactoryNerve)`inbound, Members(olfactoryBulb.primaries)`inbound, Members(olfactoryBulb.antipodals)`inbound
      modifies {anteriorOlfactoryNucleus.nodes[PRIMARY], anteriorOlfactoryNucleus.nodes[ANTIPODAL], prepiriformCortex.nodes[PRIMARY]}`inbound
      ensures Valid() && Built(config)
    {
      PristineLanes(config);
      PristineCores(config);
      ValidMiddleUntouched();
      ValidOthersUntouched();
      Wire(config);
    }

    /**
     * `K3(olfactoryBulbNumUnits, config)`: the bulb, the AON, the PC and the
     * DPC are built first, so a bulb of no units fails before the weights
     * are checked; weights that fail `checkWeightsValidity` fail with
     * `invalid_argument`; otherwise the nerve gets one new node per unit
     * and the K3 is wired as `Built` says, with `connectLayers` corrected:
     * as written, that loop never ends (see `ConnectLayersAsWritten`).
     */
    static method New(n: nat, config: K3Config) returns (r: Result<K3>)
      ensures r.Err? <==> n == 0 || !config.CheckWeightsValidity()
      ensures r.Err? ==> r.error == InvalidArgument
      ensures r.Ok? ==> fresh(r.value) && r.value.Valid() && |r.value.primaryOlfactoryNerve| == n && r.value.Built(config)
    {
      var made := K2Layer.New(n, config.wOB_intra);
      if made.Err? {
        return Err(InvalidArgument);
      }
      var ob := made.value;
      var aon := K2Set.New(config.wAON_intra, None);
      var pc := K2Set.New(config.wPC_intra, None);
      var dpc := new K0(DEFAULT_K0_CONFIG);
      if !config.CheckWeightsValidity() {
        return Err(InvalidArgument);
      }
      var k3 := Assemble(n, config, ob, aon, pc, dpc);
      r := Ok(k3);
    }

    constructor Of(pon: seq<K0>, ob: K2Layer, aon: K0Collection, pc: K0Collection, dpc: K0)
      ensures primaryOlfactoryNerve == pon && olfactoryBulb == ob && anteriorOlfactoryNucleus == aon
      ensures prepiriformCortex == pc && deepPyramidCells == dpc
    {
      primaryOlfactoryNerve := pon;
      olfactoryBulb := ob;
      anteriorOlfactoryNucleus := aon;
      prepiriformCortex := pc;
      deepPyramidCells := dpc;
    }

    /**
     * `connectPrimaryOlfactoryNerveLaterally(weight, delay)`: every nerve
     * node listens to every other one, with the weight as given.
     */
    method ConnectPrimaryOlfactoryNerveLaterally(weight: real, delay: nat)
      requires Separate(primaryOlfactoryNerve)
      modifies Members(primaryOlfactoryNerve)`inbound
      ensures forall k :: 0 <= k < |primaryOlfactoryNerve| ==>
                primaryOlfactoryNerve[k].inbound == old(primaryOlfactoryNerve[k].inbound)
                  + From(primaryOlfactoryNerve, k, Others(|primaryOlfactoryNerve|, k), weight, delay)
    {
      ConnectPairs(primaryOlfactoryNerve, weight, delay);
    }

    /**
     * `connectLayers(config)`, with the iterators advanced and the unit
     * taken by reference: unit by unit, the five connections between the
     * nerve, the bulb, the AON, the PC and the DPC; then, once, the AON's
     * antipodal node listens to the PC's primary node.
     */
    method ConnectLayers(config: K3Config)
      requires Valid()
      modifies Members(primaryOlfactoryNerve)`inbound, Members(olfactoryBulb.antipodals)`inbound
      modifies {anteriorOlfactoryNucleus.nodes[PRIMARY], anteriorOlfactoryNucleus.nodes[ANTIPODAL], prepiriformCortex.nodes[PRIMARY]}`inbound
      ensures forall j :: 0 <= j < |primaryOlfactoryNerve| ==>
                primaryOlfactoryNerve[j].inbound == old(primaryOlfactoryNerve[j].inbound)
                  + FromAon(primaryOlfactoryNerve[j], anteriorOlfactoryNucleus.nodes[PRIMARY], config.weights)
      ensures forall j :: 0 <= j < |olfactoryBulb.antipodals| ==>
                olfactoryBulb.antipodals[j].inbound == old(olfactoryBulb.antipodals[j].inbound)
                  + ToAntipodal(olfactoryBulb.antipodals[j], anteriorOlfactoryNucleus.nodes[PRIMARY], deepPyramidCells, config.weights)
      ensures anteriorOlfactoryNucleus.nodes[PRIMARY].inbound == old(anteriorOlfactoryNucleus.nodes[PRIMARY].inbound)
                + Tract(olfactoryBulb.primaries, anteriorOlfactoryNucleus.nodes[PRIMARY], config.weights.wOB_AON_lot, config.weights.dOB_AON_lot)
      ensures prepiriformCortex.nodes[PRIMARY].inbound == old(prepiriformCortex.nodes[PRIMARY].inbound)
                + Tract(olfactoryBulb.primaries, prepiriformCortex.nodes[PRIMARY], config.weights.wOB_PC_lot, config.weights.dOB_PC_lot)
      ensures anteriorOlfactoryNucleus.nodes[ANTIPODAL].inbound == old(anteriorOlfactoryNucleus.nodes[ANTIPODAL].inbound)
                + [Connection(prepiriformCortex.nodes[PRIMARY], anteriorOlfactoryNucleus.nodes[ANTIPODAL],
                              config.wPC_AON_toAntipodal, config.dPC_AON_toAntipodal, None)]
    {
      ValidLayersApart();
      var units := olfactoryBulb.units;
      var pon, obP, obQ := primaryOlfactoryNerve, Lane(units, PRIMARY), Lane(units, ANTIPODAL);
      assert obP == olfactoryBulb.primaries && obQ == olfactoryBulb.antipodals by {
        LanesOfLayer(units, olfactoryBulb.nodes, olfactoryBulb.primaries, olfactoryBulb.antipodals);
      }
      var aonP, aonA, pcP := anteriorOlfactoryNucleus.nodes[PRIMARY], anteriorOlfactoryNucleus.nodes[ANTIPODAL], prepiriformCortex.nodes[PRIMARY];
      LinkUnits(pon, obP, obQ, aonP, aonA, pcP, deepPyramidCells, config.weights);
      aonA.AddInboundConnection(pcP, config.wPC_AON_toAntipodal, config.dPC_AON_toAntipodal, None);
    }
  }

  /**
   * The rest of the constructor, with `connectLayers` corrected: the
   * nerve's new nodes, then the wiring, on parts built apart.
   */
  method Assemble(n: nat, config: K3Config, ob: K2Layer, aon: K0Collection, pc: K0Collection, dpc: K0) returns (k3: K3)
    requires ob.Valid() && |ob.units| == n && forall u :: 0 <= u < n ==> WiredAs(ob.units[u].nodes, K2Table(config.wOB_intra))
    requires |aon.nodes| == 4 && aon.Valid() && WiredAs(aon.nodes, K2Table(config.wAON_intra))
    requires |pc.nodes| == 4 && pc.Valid() && WiredAs(pc.nodes, K2Table(config.wPC_intra))
    requires dpc.inbound == []
    requires Members(ob.nodes) !! Members(aon.nodes) && Members(ob.nodes) !! Members(pc.nodes) && Members(aon.nodes) !! Members(pc.nodes)
    requires dpc !in Members(ob.nodes) + Members(aon.nodes) + Members(pc.nodes)
    modifies Members(ob.primaries)`inbound, Members(ob.antipodals)`inbound, {aon.nodes[PRIMARY], aon.nodes[ANTIPODAL], pc.nodes[PRIMARY]}`inbound
    ensures fresh(k3) && k3.Valid() && k3.Built(config)
    ensures |k3.primaryOlfactoryNerve| == n
    ensures k3.olfactoryBulb == ob && k3.anteriorOlfactoryNucleus == aon && k3.prepiriformCortex == pc && k3.deepPyramidCells == dpc
  {
    var pon := NewNerve(n);
    k3 := new K3.Of(pon, ob, aon, pc, dpc);
    k3.Build(config);
  }

  /** The nerve's nodes: `n` new nodes with the default settings and no connections. */
  method NewNerve(n: nat) returns (pon: seq<K0>)
    ensures |pon| == n && Separate(pon)
    ensures forall k :: 0 <= k < n ==> fresh(pon[k]) && fresh(pon[k].history) && pon[k].inbound == []
  {
    pon := [];
    while |pon| < n
      invariant |pon| <= n && Separate(pon)
      invariant forall k :: 0 <= k < |pon| ==> fresh(pon[k]) && fresh(pon[k].history) && pon[k].inbound == []
    {
      var node := new K0(DEFAULT_K0_CONFIG);
      forall i, j | 0 <= i < j < |pon| + 1
        ensures Apart(pon + [node], i, j)
      {
        if j < |pon| {
          assert Apart(pon, i, j);
        }
      }
      pon := pon + [node];
    }
  }

  /** The inbound lists of the nodes, in order. */
  ghost function Inbound(ns: seq<K0>): (r: seq<seq<Connection>>)
    reads Members(ns)`inbound
    ensures |r| == |ns| && forall k :: 0 <= k < |ns| ==> r[k] == ns[k].inbound
  {
    if ns == [] then [] else Inbound(ns[..|ns| - 1]) + [ns[|ns| - 1].inbound]
  }
}
