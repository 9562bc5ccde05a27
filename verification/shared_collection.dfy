/**
 * The K0Collection of the shared-node generation before names and
 * configurations were added: nodes are shared between the collection and
 * whoever else refers to them, and an empty collection is allowed. Its
 * copy constructor merges separately cloned subgraphs with
 * `std::map::insert`, which never overwrites a key.
 *
 * The nodes and the per-node loops are those of K0Graph.
 */
module SharedCollection {
  import opened Outcomes
  import opened K0Graph

  /**
   * `oldToNew.insert(extension.begin(), extension.end())`: every key of
   * `ext` missing from `m` is added with its value; keys already in `m`
   * keep their old value.
   */
  function MergeKeep(m: map<K0, K0>, ext: map<K0, K0>): (r: map<K0, K0>)
    ensures r.Keys == m.Keys + ext.Keys
    ensures Extends(m, r)
    ensures forall k :: k in ext && k !in m ==> r[k] == ext[k]
  {
    map k | k in m.Keys + ext.Keys :: if k in m then m[k] else ext[k]
  }

  /** The mapping after merging the clone maps in order, starting from none. */
  ghost function MergeAll(exts: seq<map<K0, K0>>): map<K0, K0>
  {
    if exts == [] then map[] else MergeKeep(MergeAll(exts[..|exts| - 1]), exts[|exts| - 1])
  }

  /** Every value of an earlier clone map differs from every value of a later one. */
  ghost predicate SeparateClones(exts: seq<map<K0, K0>>)
  {
    forall j1, j2, k1, k2 :: 0 <= j1 < j2 < |exts| && k1 in exts[j1] && k2 in exts[j2] ==> exts[j1][k1] != exts[j2][k2]
  }

  /** A clone map as `cloneSubgraph()` returns it: wired within itself, with distinct clones. */
  ghost predicate CloneMap(e: map<K0, K0>)
    reads e.Keys`inbound, e.Values`inbound
  {
    ClonesWired(map[], e, {}) && ClonesDistinct(map[], e)
  }

  /** Merging two maps of copied clones yields one. */
  lemma MergeKeepCopied(m: map<K0, K0>, ext: map<K0, K0>)
    requires ClonesCopied(map[], m) && ClonesCopied(map[], ext)
    ensures ClonesCopied(map[], MergeKeep(m, ext))
  {
  }

  /**
   * One pass of the copy constructor's loop, in terms of the clone map `ext`
   * it made: none when `node` is mapped already, otherwise a map holding
   * `node` whose keys are in `g`.
   */
  ghost predicate MergeStep(before: map<K0, K0>, ext: map<K0, K0>, node: K0, g: set<K0>)
  {
    if node in before then ext == map[] else node in ext && NewKeysIn(map[], ext, g)
  }

  /** The first `n` passes of the loop over `nodes` made the clone maps `exts[1..n+1]`. */
  ghost predicate MergeSteps(exts: seq<map<K0, K0>>, nodes: seq<K0>, gs: seq<set<K0>>, n: nat)
    requires n < |exts| && n <= |nodes| && n <= |gs|
  {
    forall k :: 0 <= k < n ==> MergeStep(MergeAll(exts[..k + 1]), exts[k + 1], nodes[k], gs[k])
  }

  lemma MergeStepsExtend(exts: seq<map<K0, K0>>, ext: map<K0, K0>, nodes: seq<K0>, gs: seq<set<K0>>, n: nat)
    requires |exts| == n + 1 && n < |nodes| && n < |gs|
    requires MergeSteps(exts, nodes, gs, n)
    requires MergeStep(MergeAll(exts), ext, nodes[n], gs[n])
    ensures MergeSteps(exts + [ext], nodes, gs, n + 1)
    ensures MergeAll(exts + [ext]) == MergeKeep(MergeAll(exts), ext)
  {
    var exts' := exts + [ext];
    assert exts'[..n + 1] == exts;
    forall k | 0 <= k < n + 1
      ensures MergeStep(MergeAll(exts'[..k + 1]), exts'[k + 1], nodes[k], gs[k])
    {
      if k < n {
        assert exts'[..k + 1] == exts[..k + 1];
      }
    }
  }

  /**
   * The loop body of the copy constructor as written: a node missing from
   * the mapping has its subgraph cloned into a new map, which is merged
   * with `insert`.
   */
  method MergeMissing(oldToNew: map<K0, K0>, node: K0, ghost g: set<K0>) returns (m: map<K0, K0>, ext: map<K0, K0>)
    requires node in g && ClosedUnderSources(g)
    ensures MergeStep(oldToNew, ext, node, g) && m == MergeKeep(oldToNew, ext) && node in m
    ensures CloneMap(ext) && ClonesCopied(map[], ext)
    ensures forall k :: k in ext ==> fresh(ext[k])
  {
    m, ext := oldToNew, map[];
    if node !in oldToNew {
      ext := node.CloneSubgraph(g);
      m := MergeKeep(oldToNew, ext);
    } else {
      assert MergeKeep(oldToNew, map[]) == oldToNew;
    }
  }

  /** What the copy constructor's loop keeps after its first `i` passes (the clone maps `exts`, the mapping `m`). */
  ghost predicate MergedSoFar(m: map<K0, K0>, exts: seq<map<K0, K0>>, nodes: seq<K0>, gs: seq<set<K0>>, i: nat)
    requires |exts| == i + 1 && i <= |nodes| && i <= |gs|
    reads set j, k | 0 <= j < |exts| && k in exts[j].Keys :: k, set j, k | 0 <= j < |exts| && k in exts[j].Values :: k
    reads m.Keys, m.Values, set k | k in m.Keys :: k.history, set v | v in m.Values :: v.history
  {
    && m == MergeAll(exts) && SeparateClones(exts) && ClonesCopied(map[], m)
    && (forall j :: 0 <= j < |exts| ==> CloneMap(exts[j]))
    && MergeSteps(exts, nodes, gs, i)
  }

  /**
   * One pass of the loop as written (`MergeMissing`), with what it keeps:
   * the new clone map is the next entry of `exts`, and its clones are new.
   */
  method MergeNext(m: map<K0, K0>, ghost exts: seq<map<K0, K0>>, nodes: seq<K0>, ghost gs: seq<set<K0>>, i: nat)
    returns (m': map<K0, K0>, ext: map<K0, K0>)
    requires |exts| == i + 1 && i < |nodes| && |gs| == |nodes|
    requires nodes[i] in gs[i] && ClosedUnderSources(gs[i])
    requires MergedSoFar(m, exts, nodes, gs, i)
    ensures MergedSoFar(m', exts + [ext], nodes, gs, i + 1)
    ensures Extends(m, m') && nodes[i] in m'
    ensures forall k :: k in ext ==> fresh(ext[k])
  {
    m', ext := MergeMissing(m, nodes[i], gs[i]);
    MergeKeepCopied(m, ext);
    MergeStepsExtend(exts, ext, nodes, gs, i);
    SeparateClonesExtend(exts, ext);
  }

  /**
   * The copy constructor's clone-and-merge pass over a non-empty node list:
   * the clone of the first node's subgraph, then each node's merged in turn.
   */
  method CloneAll(nodes: seq<K0>, ghost gs: seq<set<K0>>)
    returns (m: map<K0, K0>, clones: seq<K0>, ghost exts: seq<map<K0, K0>>)
    requires |nodes| > 0 && |gs| == |nodes|
    requires forall i :: 0 <= i < |nodes| ==> nodes[i] in gs[i] && ClosedUnderSources(gs[i])
    ensures |clones| == |nodes|
    ensures forall i :: 0 <= i < |nodes| ==> nodes[i] in m && clones[i] == m[nodes[i]]
    ensures |exts| == |nodes| + 1 && MergedSoFar(m, exts, nodes, gs, |nodes|)
    ensures nodes[0] in exts[0] && NewKeysIn(map[], exts[0], gs[0])
  {
    var e0 := nodes[0].CloneSubgraph(gs[0]);
    m, clones, exts := MergeEach(e0, nodes, gs);
  }

  /**
   * The loop of the copy constructor as written, after the primary node's
   * clone map `e0`: every node still missing is cloned on its own and merged
   * in; the clones are listed in the order of `nodes`.
   */
  method MergeEach(e0: map<K0, K0>, nodes: seq<K0>, ghost gs: seq<set<K0>>)
    returns (m: map<K0, K0>, clones: seq<K0>, ghost exts: seq<map<K0, K0>>)
    requires |gs| == |nodes|
    requires forall i :: 0 <= i < |nodes| ==> nodes[i] in gs[i] && ClosedUnderSources(gs[i])
    requires CloneMap(e0) && ClonesCopied(map[], e0)
    ensures |exts| == |nodes| + 1 && exts[0] == e0
    ensures MergedSoFar(m, exts, nodes, gs, |nodes|)
    ensures |clones| == |nodes|
    ensures forall i :: 0 <= i < |nodes| ==> nodes[i] in m && clones[i] == m[nodes[i]]
  {
    exts := [e0];
    assert exts[..0] == [];
    m := MergeKeep(map[], e0);
    clones := [];
    var i := 0;
    while i < |nodes|
      invariant 0 <= i <= |nodes| && |clones| == i && |exts| == i + 1 && exts[0] == e0
      invariant MergedSoFar(m, exts, nodes, gs, i)
      invariant forall k :: 0 <= k < i ==> nodes[k] in m && clones[k] == m[nodes[k]]
    {
      ghost var before := m;
      var ext;
      m, ext := MergeNext(m, exts, nodes, gs, i);
      exts := exts + [ext];
      ClonesListed(nodes, clones, before, m, i);
      clones := clones + [m[nodes[i]]];
      i := i + 1;
    }
  }

  /** The clone of the next node joins the list; the mapping only grew, so the earlier entries still match. */
  lemma ClonesListed(nodes: seq<K0>, clones: seq<K0>, before: map<K0, K0>, m: map<K0, K0>, i: nat)
    requires i < |nodes| && |clones| == i && Extends(before, m) && nodes[i] in m
    requires forall k :: 0 <= k < i ==> nodes[k] in before && clones[k] == before[nodes[k]]
    ensures forall k :: 0 <= k < i + 1 ==> nodes[k] in m && (clones + [m[nodes[i]]])[k] == m[nodes[k]]
  {
  }

  class K0Collection {
    var nodes: seq<K0>

    ghost predicate Valid()
      reads this
    {
      Distinct(nodes)
    }

    /** A collection over the given nodes. */
    constructor Of(members: seq<K0>)
      ensures nodes == members
    {
      nodes := members;
    }

    /**
     * `K0Collection(nNodes)`: `nNodes` new unconnected nodes outside any
     * collection; zero nodes is allowed.
     */
    constructor (nNodes: nat)
      ensures Valid() && |nodes| == nNodes
      ensures forall i :: 0 <= i < nNodes ==> fresh(nodes[i]) && fresh(nodes[i].history)
      ensures forall i :: 0 <= i < nNodes ==>
                nodes[i].inbound == [] && nodes[i].collection == null
    {
      var ns: seq<K0> := [];
      var i := 0;
      while i < nNodes
        invariant 0 <= i <= nNodes && |ns| == i && Distinct(ns)
        invariant forall k :: 0 <= k < i ==> fresh(ns[k]) && fresh(ns[k].history)
        invariant forall k :: 0 <= k < i ==> ns[k].inbound == [] && ns[k].collection == null
      {
        var n := new K0(DEFAULT_K0_CONFIG);
        ns := ns + [n];
        i := i + 1;
      }
      nodes := ns;
    }

    /**
     * The copy constructor as written: the primary node's subgraph is
     * cloned; then each node still missing from the mapping has its own
     * subgraph cloned into a separate map, which is merged without
     * overwriting; the copy lists the mapped clones in order.
     *
     * `exts` are the clone maps in the order they were made (the primary's
     * first; an empty map for a node already mapped) and `gs[i]` is a node
     * set closed under sources that holds node `i`. An empty collection
     * has no primary node: out_of_range.
     */
    static method CopyOf(other: K0Collection, ghost gs: seq<set<K0>>)
      returns (r: Result<K0Collection>, ghost m: map<K0, K0>, ghost exts: seq<map<K0, K0>>)
      requires |gs| == |other.nodes|
      requires forall i :: 0 <= i < |other.nodes| ==> other.nodes[i] in gs[i] && ClosedUnderSources(gs[i])
      ensures |other.nodes| == 0 <==> r.Err?
      ensures r.Err? ==> r.error == OutOfRange
      ensures r.Ok? ==> fresh(r.value) && |r.value.nodes| == |other.nodes|
      ensures r.Ok? ==> forall i :: 0 <= i < |other.nodes| ==> other.nodes[i] in m && r.value.nodes[i] == m[other.nodes[i]]
      ensures r.Ok? ==> |exts| == |other.nodes| + 1 && MergedSoFar(m, exts, other.nodes, gs, |other.nodes|)
      ensures r.Ok? ==> other.nodes[0] in exts[0] && NewKeysIn(map[], exts[0], gs[0])
    {
      if |other.nodes| == 0 {
        return Err(OutOfRange), map[], [];
      }
      var clones;
      m, clones, exts := CloneAll(other.nodes, gs);
      var c := new K0Collection.Of(clones);
      r := Ok(c);
    }

    /** The destructor: every node is left with no inbound connections. */
    method Destroy()
      requires Valid()
      modifies Members(nodes)`inbound
      ensures forall i :: 0 <= i < |nodes| ==> nodes[i].inbound == []
    {
      ClearAll(nodes);
    }

    /** `node(index)`: out_of_range past the end. */
    function Node(index: nat): (r: Result<K0>)
      reads this
      ensures r.Ok? <==> index < |nodes|
      ensures r.Ok? ==> r.value == nodes[index]
      ensures r.Err? ==> r.error == OutOfRange
    {
      if index < |nodes| then Ok(nodes[index]) else Err(OutOfRange)
    }

    function Size(): (n: nat)
      reads this
      ensures n == |nodes|
    {
      |nodes|
    }

    /** `setExternalStimulus`: the primary node is `node(0)`, which throws on an empty collection. */
    method SetExternalStimulus(s: real) returns (r: Outcome)
      modifies Primary(nodes)`stimulus
      ensures r == Pass <==> |nodes| > 0
      ensures r != Pass ==> r == Fail(OutOfRange)
      ensures r == Pass ==> nodes[0].stimulus == s
    {
      var primary := Node(0);
      if primary.Err? {
        return Fail(OutOfRange);
      }
      primary.value.SetExternalStimulus(s);
      r := Pass;
    }

    /** `calculateNextState()`: each node's next state, from the current inputs. */
    method CalculateNextState(step: OdeStep)
      requires Valid() && AllInputsReady(nodes)
      modifies Members(nodes)`nextOdeState
      ensures forall i :: 0 <= i < |nodes| ==> nodes[i].nextOdeState == step(old(nodes[i].odeState), old(nodes[i].NetInput()))
    {
      CalculateAll(nodes, step);
    }

    /** `calculateNextState(stimulus)`: throws before any step when there is no primary node. */
    method CalculateNextStateWith(s: real, step: OdeStep) returns (r: Outcome)
      requires Valid() && AllInputsReady(nodes)
      modifies Primary(nodes)`stimulus, Members(nodes)`nextOdeState
      ensures r == Pass <==> |nodes| > 0
      ensures r != Pass ==> r == Fail(OutOfRange)
      ensures r == Pass ==> nodes[0].stimulus == s
      ensures r == Pass ==> nodes[0].nextOdeState == step(old(nodes[0].odeState), s + old(nodes[0].noise + DelayedSum(nodes[0].inbound)))
      ensures forall i :: 0 < i < |nodes| ==> nodes[i].nextOdeState == step(old(nodes[i].odeState), old(nodes[i].NetInput()))
    {
      if |nodes| == 0 {
        return Fail(OutOfRange);
      }
      CalculateAllWith(nodes, s, step);
      r := Pass;
    }

    /** `commitNextState()`: every node commits exactly once. */
    method CommitNextState(sigmoid: Sigmoid)
      requires Valid() && AllCanPut(nodes)
      modifies Members(nodes)`odeState, Histories(nodes)`samples
      ensures forall i :: 0 <= i < |nodes| ==> Committed(old(nodes[i].nextOdeState), old(nodes[i].history.samples), nodes[i], sigmoid)
    {
      CommitAll(nodes, sigmoid);
    }

    /** `calculateAndCommitNextState()`: a whole step of every node. */
    method CalculateAndCommitNextState(step: OdeStep, sigmoid: Sigmoid)
      requires Valid() && AllInputsReady(nodes) && AllCanPut(nodes)
      modifies Members(nodes)`odeState, Members(nodes)`nextOdeState, Histories(nodes)`samples
      ensures forall i :: 0 <= i < |nodes| ==>
                && nodes[i].nextOdeState == step(old(nodes[i].odeState), old(nodes[i].NetInput()))
                && Committed(nodes[i].nextOdeState, old(nodes[i].history.samples), nodes[i], sigmoid)
    {
      StepAll(nodes, step, sigmoid);
    }

    /** `calculateAndCommitNextState(stimulus)`: nothing happens when there is no primary node. */
    method CalculateAndCommitNextStateWith(s: real, step: OdeStep, sigmoid: Sigmoid) returns (r: Outcome)
      requires Valid() && AllInputsReady(nodes) && AllCanPut(nodes)
      modifies Primary(nodes)`stimulus, Members(nodes)`odeState, Members(nodes)`nextOdeState, Histories(nodes)`samples
      ensures r == Pass <==> |nodes| > 0
      ensures r != Pass ==> r == Fail(OutOfRange)
      ensures r == Pass ==> nodes[0].stimulus == s
      ensures r == Pass ==> nodes[0].nextOdeState == step(old(nodes[0].odeState), s + old(nodes[0].noise + DelayedSum(nodes[0].inbound)))
      ensures forall i :: 0 < i < |nodes| ==> nodes[i].nextOdeState == step(old(nodes[i].odeState), old(nodes[i].NetInput()))
      ensures r == Pass ==> forall i :: 0 <= i < |nodes| ==> Committed(nodes[i].nextOdeState, old(nodes[i].history.samples), nodes[i], sigmoid)
    {
      if |nodes| == 0 {
        return Fail(OutOfRange);
      }
      StepAllWith(nodes, s, step, sigmoid);
      r := Pass;
    }
  }

  /**
   * Copying a two-node collection whose second node listens to the first:
   * the primary's clone map holds only the first node, so the second is
   * cloned on its own together with a second clone of the first, and the
   * merge keeps the first clone. The copied second node then listens to a
   * node that is not in the copy, while the original listens to its own
   * primary node.
   */
  method MergedCopyMisWires() returns (a: K0, b: K0, copy: K0Collection)
    ensures b.inbound == [Connection(a, b, 1.0, DEFAULT_DELAY, None)]
    ensures |copy.nodes| == 2 && |copy.nodes[1].inbound| == 1
    ensures copy.nodes[1].inbound[0].source != copy.nodes[0]
    ensures copy.nodes[1].inbound[0].source != copy.nodes[1]
  {
    a := new K0(DEFAULT_K0_CONFIG);
    b := new K0(DEFAULT_K0_CONFIG);
    b.AddInboundConnection(a, 1.0, DEFAULT_DELAY, None);
    var original := new K0Collection.Of([a, b]);
    var r, m, exts := K0Collection.CopyOf(original, [{a}, {a, b}]);
    copy := r.value;
    CopiedSourceOutside(m, exts, a, b);
    assert original.nodes[0] == a && original.nodes[1] == b;
    var c0, c1 := copy.nodes[0], copy.nodes[1];
    assert c0 == m[a] && c1 == m[b];
  }

  /**
   * In the two-node example, the second node's clone comes from the third
   * clone map, and its connection from that map's own clone of the first
   * node, which is neither kept clone.
   */
  lemma CopiedSourceOutside(m: map<K0, K0>, exts: seq<map<K0, K0>>, a: K0, b: K0)
    requires |exts| == 3 && a != b && b.inbound == [Connection(a, b, 1.0, DEFAULT_DELAY, None)]
    requires a in exts[0] && NewKeysIn(map[], exts[0], {a})
    requires MergedSoFar(m, exts, [a, b], [{a}, {a, b}], 2)
    ensures a in m && b in m && |m[b].inbound| == 1
    ensures m[b].inbound[0].source != m[a] && m[b].inbound[0].source != m[b]
  {
    TwoNodeMerges(exts, a, b);
    var e2 := exts[2];
    assert CloneMap(e2);
    assert Wired(b, e2[b], e2);
    assert e2[b].inbound[0].source == e2[a];
  }

  /** The merges of the two-node example: the first node keeps its first clone, the second comes from the third map. */
  lemma TwoNodeMerges(exts: seq<map<K0, K0>>, a: K0, b: K0)
    requires |exts| == 3 && a != b
    requires a in exts[0] && NewKeysIn(map[], exts[0], {a})
    requires MergeSteps(exts, [a, b], [{a}, {a, b}], 2)
    ensures exts[1] == map[] && b in exts[2]
    ensures a in MergeAll(exts) && MergeAll(exts)[a] == exts[0][a]
    ensures b in MergeAll(exts) && MergeAll(exts)[b] == exts[2][b]
  {
    var nodes, gs := [a, b], [{a}, {a, b}];
    assert MergeStep(MergeAll(exts[..0 + 1]), exts[0 + 1], nodes[0], gs[0]);
    assert MergeStep(MergeAll(exts[..1 + 1]), exts[1 + 1], nodes[1], gs[1]);
    assert exts[..1][..0] == [] && exts[..2][..1] == exts[..1] && exts[..2] == exts[..|exts| - 1];
    var m1 := MergeAll(exts[..1]);
    var p1 := exts[..1];
    assert p1[..|p1| - 1] == [] && p1[|p1| - 1] == exts[0];
    assert MergeAll(p1[..|p1| - 1]) == map[];
    assert m1 == MergeKeep(MergeAll(p1[..|p1| - 1]), p1[|p1| - 1]);
    assert m1 == MergeKeep(map[], exts[0]);
    assert m1.Keys == {a} && m1[a] == exts[0][a];
    assert exts[1] == map[];
    var m2 := MergeAll(exts[..2]);
    assert m2 == MergeKeep(m1, exts[1]);
    assert m2.Keys == {a} && m2[a] == exts[0][a];
  }

  lemma SeparateClonesExtend(exts: seq<map<K0, K0>>, ext: map<K0, K0>)
    requires SeparateClones(exts)
    requires forall j, k1, k2 :: 0 <= j < |exts| && k1 in exts[j] && k2 in ext ==> exts[j][k1] != ext[k2]
    ensures SeparateClones(exts + [ext])
  {
  }
}
