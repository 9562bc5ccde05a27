# K-sets: a verified model of the simulator's core and its fitness driver

The K-set simulator builds networks of Freeman K-sets and steps them in
discrete time.

- **K0 node.** A K0 node integrates its net input with a second-order ODE.
  - The net input is the external stimulus, plus the noise, plus the weighted
    and delayed outputs of the nodes it listens to.
  - The node keeps a ring of its most recent outputs, its activation history.
  - The history can also monitor the variance over a window.
- **Collections.** A K0 collection is a list of nodes.
  - A K1 is two mutually connected nodes.
  - A K2 is four nodes wired in a fixed excitatory/inhibitory diagram.
- **K2 layer.** A K2 layer is a row of K2 units.
  - Lateral connections link the primary nodes to each other, and likewise the
    antipodal nodes.
  - The layer also records the mean output of each lane.
- **K3.** A K3 chains three stages: the primary olfactory nerve, the olfactory
  bulb (a K2 layer), and the AON and PC cores. It adds one deep pyramidal
  cell.
- **Front ends.** Two command-line front ends read a set of inter-layer weights
  from their arguments. They check the weights' signs and drive a five-phase
  rest/stimulus procedure.
- **Fitness driver.** A Python driver runs the front end as a subprocess. It
  parses its CSV output and scores the weights.

The model follows the code, one Dafny module per source component:

| module | file | models |
|---|---|---|
| `Outcomes` | outcomes.dfy | the `Result`/`Outcome`/`Option` values that stand for C++ exceptions and Python errors |
| `History` | history.dfy | `ActivationHistory`: a class over a `seq<real>` ring with `size_t` index wrap-around |
| `K0Graph` | k0.dfy | the `K0` node class, its connections, the depth-first subgraph clone, and the named `K0Collection` of shared nodes |
| `SharedCollection` | shared_collection.dfy | the earlier shared-node `K0Collection`, whose copy merges separately cloned maps |
| `ValueCollection` | value_collection.dfy | the earliest by-value `K0Collection` and its K1 with delays |
| `K1Set`, `K2Set` | k1.dfy, k2.dfy | the K1 and K2 wiring diagrams |
| `Wiring` | wiring.dfy | wiring tables, and the all-pairs lateral loop |
| `K2Layers` | k2layer.dfy | `K2Layer` |
| `K3Set` | k3.dfy | `K3InterLayerWeights`, and `K3` construction and wiring |
| `TestParam`, `LegacyTestParam` | testparam.dfy, legacy_testparam.dfy | argument parsing, the seed generator, and the stimulation schedule |
| `GridSearch` | gridsearch.dfy | `K3Model` of the fitness driver: output parsing, sub-scores and the score memo |

A C++ exception or a Python error becomes an `Err`/`Fail` result naming
its kind. A `noexcept` function that would throw (which ends the program)
gets a precondition instead. So does an `assert`: those that guard a
constructor, and those of `parseArgs` (`TestParam.ParseArgs`,
`LegacyTestParam.ParseArgs`).
Floating point is modelled by `real`. The ODE step, the sigmoid, `strtof`,
`std::seed_seq::generate` and the numpy and scipy numerics are
function-valued parameters.

## Model

| member | source | states |
|---|---|---|
| History.WrappedIndex | src/ksets/activationhistory.cpp:21 | the ring index `size - offset - 1` computed in `size_t` always lands in the unsigned range |
| History.GetIn | src/ksets/activationhistory.cpp:20-23 | `get` succeeds exactly when the wrapped index falls inside the history |
| History.GetInBounds | src/ksets/activationhistory.cpp:20-23 | for realistic sizes, `get(offset)` succeeds iff `offset < size`, and then returns the sample `offset` steps before the newest |
| History.Pushed | src/ksets/activationhistory.cpp:13-18 | a push keeps the length, drops the oldest sample, shifts the rest by one and puts the new value last |
| History.GetAfterPut | src/ksets/activationhistory.cpp:13-23 | after a put, `get(0)` is the new value, `get(k+1)` is the former `get(k)`, and offsets past the end fail |
| History.NewestAfterPut | src/ksets/activationhistory.cpp:13-23 | the newest sample after a put is the value put, for every size up to the `size_t` range |
| History.ActivationHistory.constructor | src/ksets/activationhistory.cpp:9-11 | a new history holds `historySize` zeros and monitors nothing |
| History.ActivationHistory.Copy | src/ksets/k0.cpp:39 | the copied history has the same samples and the same monitoring window |
| History.ActivationHistory.Put | src/ksets/activationhistory.cpp:13-18 | succeeds iff monitoring is off or `get(window + 1)` can be read; otherwise `out_of_range` with the samples unchanged; on success the samples are pushed |
| History.ActivationHistory.InitMonitoring | src/ksets/activationhistory.cpp:25-31 | starting to monitor window `w` succeeds iff the sample `w` back (or the newest, for `w = 1`) exists |
| History.ActivationHistory.SetActivityMonitoring | src/ksets/activationhistory.cpp:33-43 | a window wider than the history is `invalid_argument` and leaves monitoring as it was; 0 turns monitoring off; otherwise the window is recorded, with `initMonitoring`'s outcome |
| History.InitMonitoringOutcome | src/ksets/activationhistory.cpp:33-43 | enabling a window `0 < w <= size` succeeds iff `w == 1` or `w < size`: a window equal to the size is recorded and then throws |
| History.AcceptsWindowBySize | src/ksets/activationhistory.cpp:25-43 | for realistic sizes, `setActivityMonitoring(w)` returns without throwing iff `w` is 0, smaller than the size, or 1 on a one-sample history |
| History.PutFailsForWideWindows | src/ksets/activationhistory.cpp:48-56 | the put-time read `get(w+1)` succeeds iff `w + 2 <= size`, so a monitored history rejects every put once the window reaches `size - 1` |
| History.ActivationHistory.Resize | src/ksets/k2layer.cpp:43 | resizing gives the new length and keeps the monitoring window |
| History.ActivationHistory.VarianceOver | src/ksets/activationhistory.cpp:80-87 | a window below 2 has variance zero; otherwise the estimate exists whenever the window's samples can be read, and the only failure is `out_of_range` |
| History.ActivationHistory.Variance | src/ksets/activationhistory.cpp:74-78 | without monitoring it is a `runtime_error`; otherwise it is the variance over the monitored window |
| History.ActivationHistory.StdDevOver | src/ksets/activationhistory.cpp:106-111 | the standard deviation is zero below window 2, and exists exactly when the variance does |
| History.ActivationHistory.StdDev | src/ksets/activationhistory.cpp:100-104 | without monitoring it is a `runtime_error`; otherwise it is the standard deviation over the monitored window |
| K0Graph.Rk4 | src/ksets/k0.cpp:178-206 | one RK4 step of the node's ODE leaves a state unchanged iff the state is at rest at its input `(u, 0)` |
| K0Graph.PerturbWeight | src/ksets/k0.cpp:11-17 | a perturbation is applied iff it keeps the weight's sign bit; a rejected one changes nothing; either way the sign bit is kept |
| K0Graph.PerturbationsKeepSign | src/ksets/k0.cpp:11-17 | any sequence of perturbations keeps a connection's sign bit |
| K0Graph.DelayedSumUnchanged | src/ksets/k0.cpp:127-133 | the weighted delayed input depends only on the sources' histories |
| K0Graph.K0.constructor | src/ksets/k0.cpp:32-33 | a new node has a fresh zero history of the configured size, the configured sigmoid `q`, rest state, no stimulus, no noise, no inputs and no collection |
| K0Graph.K0.InCollection | src/ksets/k0.cpp:35-36 | as the plain constructor, plus the owning collection and the id |
| K0Graph.K0.Copy | src/ksets/k0.cpp:38-48 | a copy has the original's states, stimulus, sigmoid `q`, id and history (in a fresh object), but no inbound connections, no collection and no noise engine |
| K0Graph.K0.SetHistorySize | src/ksets/k0.cpp:67-69 | the node's history takes the new size |
| K0Graph.K0.SetActivityMonitoring | src/ksets/k0.cpp:71-73 | the history's monitoring contract, on the node's history |
| K0Graph.K0.SetCollection | src/ksets/k0.cpp:75-77 | the node points at the new owner |
| K0Graph.K0.SetId | src/ksets/k0.cpp:79-81 | the node takes the id |
| K0Graph.K0.AddInboundConnection | src/ksets/k0.cpp:135-142 | exactly one connection is appended, from the source to this node, with the given weight, delay and tag |
| K0Graph.K0.ClearInboundConnections | src/ksets/k0.cpp:144-146 | no inbound connections remain |
| K0Graph.K0.DelayedOutput | src/ksets/k0.cpp:152-154 | the output `delay` steps back is the history's sample at that offset |
| K0Graph.K0.CurrentOutput | src/ksets/k0.cpp:148-150 | the current output is the newest sample |
| K0Graph.K0.SetExternalStimulus | src/ksets/k0.cpp:156-158 | the stimulus takes the new value |
| K0Graph.K0.SetRngEngine | src/ksets/k0.cpp:160-163 | after an engine is attached, the noise is its first draw |
| K0Graph.K0.AdvanceNoise | src/ksets/k0.cpp:165-176 | advancing succeeds iff an engine is attached (otherwise `logic_error` with the noise unchanged) and takes the next draw |
| K0Graph.K0.RandomizeState | src/ksets/k0.cpp:236-238 | the output part of the ODE state takes the draw; the derivative is kept |
| K0Graph.K0.NetInputUnchanged | src/ksets/k0.cpp:127-133 | the net input depends only on the stimulus, the noise, the connections and the sources' histories |
| K0Graph.K0.CalculateNetInput | src/ksets/k0.cpp:127-133 | the loop's sum is the net input: stimulus, plus noise, plus each source's delayed output times its weight |
| K0Graph.K0.CalculateNextState | src/ksets/k0.cpp:189-206 | the next state is one ODE step from the current state under the net input; nothing else changes |
| K0Graph.K0.CalculateNextStateWith | src/ksets/k0.cpp:208-211 | the new stimulus is set first, and then the next state is computed under it |
| K0Graph.K0.CommitNextState | src/ksets/k0.cpp:223-230 | the next state becomes the state, and the history gains its sigmoid output |
| K0Graph.K0.CalculateAndCommitNextState | src/ksets/k0.cpp:213-216 | one full step: the state becomes the ODE step of the old state under the old net input, and its output is pushed |
| K0Graph.K0.CalculateAndCommitNextStateWith | src/ksets/k0.cpp:218-221 | one full step under the new stimulus |
| K0Graph.K0.CloneSubgraph | src/ksets/k0.cpp:98-102 | the map covers this node, and its keys lie in `g`, a ghost set of nodes closed under sources that holds this node; every clone is a fresh copy of its original, wired through the map as the original is, and distinct from the others |
| K0Graph.K0.CloneSubgraphInto | src/ksets/k0.cpp:104-106 | as above (keys added only from `g`), extending the given partial map without changing its entries |
| K0Graph.DoCloneSubgraph | src/ksets/k0.cpp:85-95 | the depth-first clone extends the map with the current node, adding only nodes of the source-closed set `g`, keeping the clones copied, wired and distinct |
| K0Graph.CloneAndLink | src/ksets/k0.cpp:88-94 | one inbound connection is cloned: its source is mapped, and the clone gains the mapped connection |
| K0Graph.MapSource | src/ksets/k0.cpp:89-92 | the connection's source is cloned if missing, so it ends up in the map |
| K0Graph.WiredPrefixExtends | src/ksets/k0.cpp:88-94 | connections already cloned stay correct as the map grows |
| K0Graph.ClonesWiredCompose | src/ksets/k0.cpp:85-95 | wiring established by earlier and by later clones composes |
| K0Graph.ClonesWiredClose | src/ksets/k0.cpp:85-95 | once the current node's clone is fully wired, every clone in the map is |
| K0Graph.ClonesCopiedCompose | src/ksets/k0.cpp:85-95 | copied state is kept as the map grows |
| K0Graph.ClonesStart | src/ksets/k0.cpp:86-87 | adding the current node's fresh copy starts a valid extension |
| K0Graph.CloneIfMissing | src/ksets/k0.cpp:259-260 | a node missing from the map has its subgraph cloned into the map; a mapped node leaves it as is |
| K0Graph.CloneEach | src/ksets/k0.cpp:258-262 | the copy loop: every node is mapped, and the copy lists their clones in order |
| K0Graph.ClearAll | src/ksets/k0.cpp:265-268 | every node loses its inbound connections |
| K0Graph.CalculateAll | src/ksets/k0.cpp:293-296 | every node computes its next state from the old states and histories |
| K0Graph.CalculateAllWith | src/ksets/k0.cpp:298-301 | as above, after the primary node's stimulus is set |
| K0Graph.CommitAll | src/ksets/k0.cpp:303-306 | every node commits its next state and pushes its output |
| K0Graph.StepAll | src/ksets/k0.cpp:308-311 | every node computes and then commits |
| K0Graph.StepAllWith | src/ksets/k0.cpp:313-316 | as above, after the primary node's stimulus is set |
| K0Graph.RandomizeAll | src/ksets/k0.cpp:318-321 | each node's output state takes its own draw |
| K0Graph.K0Collection.New | src/ksets/k0.cpp:247-254 | zero nodes is `invalid_argument`; otherwise there are `n` fresh distinct nodes with the configuration, the name, ids `0..n-1` and this collection as owner |
| K0Graph.K0Collection.InitNodes | src/ksets/k0.cpp:240-245 | zero is `invalid_argument` with nothing added; otherwise `n` fresh nodes with ids from 0 are appended after the existing ones |
| K0Graph.K0Collection.CopyOf | src/ksets/k0.cpp:256-263 | the copy has as many nodes, node `i` is the clone of node `i`, every clone listens to the clones of its original's sources, and clones are fresh and distinct |
| K0Graph.K0Collection.Node | src/ksets/k0.cpp:270-276 | `node(i)` is node `i` iff `i < size`, otherwise `out_of_range` |
| K0Graph.K0Collection.UpdateNodeCollectionReferenceAndId | src/ksets/k0.cpp:282-287 | node `i` gets id `i` and this collection as owner |
| K0Graph.K0Collection.Destroy | src/ksets/k0.cpp:265-268 | the destructor leaves every node without inbound connections |
| K0Graph.K0Collection.SetExternalStimulus | src/ksets/k0.cpp:289-291 | only the primary node's stimulus is set |
| K0Graph.K0Collection.CalculateNextState | src/ksets/k0.cpp:293-296 | every node's next state is computed from the old states |
| K0Graph.K0Collection.CalculateNextStateWith | src/ksets/k0.cpp:298-301 | the primary node steps under the new stimulus, and the others under their net input |
| K0Graph.K0Collection.CommitNextState | src/ksets/k0.cpp:303-306 | every node commits and pushes its output |
| K0Graph.K0Collection.CalculateAndCommitNextState | src/ksets/k0.cpp:308-311 | every node computes from the old states, then commits |
| K0Graph.K0Collection.CalculateAndCommitNextStateWith | src/ksets/k0.cpp:313-316 | one full step under the new stimulus at the primary node |
| K0Graph.K0Collection.RandomizeK0States | src/ksets/k0.cpp:318-321 | node `i`'s output state takes draw `i` |
| SharedCollection.MergeKeep | src/ksets/k0collection.cpp:15 | `insert` adds exactly the missing keys and never overwrites an existing entry |
| SharedCollection.MergeKeepCopied | src/ksets/k0collection.cpp:13-16 | merging keeps every clone a copy of its original |
| SharedCollection.MergeStepsExtend | src/ksets/k0collection.cpp:12-18 | every merge step only extends the map |
| SharedCollection.MergeMissing | src/ksets/k0collection.cpp:13-16 | one loop step: a node already mapped leaves the map alone; a missing one is cloned separately and merged |
| SharedCollection.MergeNext | src/ksets/k0collection.cpp:12-18 | the loop's merged map advances by one node |
| SharedCollection.CloneAll | src/ksets/k0collection.cpp:11-18 | after the loop, every node is mapped and the clones are listed in order |
| SharedCollection.MergeEach | src/ksets/k0collection.cpp:12-18 | each node's clone comes from the first clone map that held it |
| SharedCollection.K0Collection.constructor | src/ksets/k0collection.cpp:5-8 | `n` fresh, unconnected, distinct nodes; zero is allowed |
| SharedCollection.K0Collection.CopyOf | src/ksets/k0collection.cpp:10-19 | an empty collection is `out_of_range`; otherwise node `i` of the copy is the merged map's entry for node `i` |
| SharedCollection.MergedCopyMisWires | src/ksets/k0collection.cpp:10-19 | copying two nodes where the second listens to the first gives a copy whose second node listens to a node that is in neither position of the copy |
| SharedCollection.CopiedSourceOutside | src/ksets/k0collection.cpp:13-16 | in that example, the kept clone of the second node listens to the separate map's own clone of the first |
| SharedCollection.TwoNodeMerges | src/ksets/k0collection.cpp:11-16 | in that example, the first node keeps its first clone and the second node's clone comes from its own map |
| SharedCollection.K0Collection.Destroy | src/ksets/k0collection.cpp:21-24 | every node loses its inbound connections |
| SharedCollection.K0Collection.Node | src/ksets/k0collection.cpp:26-32 | `node(i)` is node `i` iff `i < size`, otherwise `out_of_range` |
| SharedCollection.K0Collection.Size | src/ksets/k0collection.cpp:34-36 | the number of nodes |
| SharedCollection.K0Collection.SetExternalStimulus | src/ksets/k0collection.cpp:38-40 | sets the primary node's stimulus; an empty collection is `out_of_range` |
| SharedCollection.K0Collection.CalculateNextState | src/ksets/k0collection.cpp:42-45 | every node's next state is computed from the old states |
| SharedCollection.K0Collection.CalculateNextStateWith | src/ksets/k0collection.cpp:47-50 | as above after setting the stimulus; an empty collection is `out_of_range` |
| SharedCollection.K0Collection.CommitNextState | src/ksets/k0collection.cpp:52-55 | every node commits and pushes its output |
| SharedCollection.K0Collection.CalculateAndCommitNextState | src/ksets/k0collection.cpp:57-60 | every node computes, then commits |
| SharedCollection.K0Collection.CalculateAndCommitNextStateWith | src/ksets/k0collection.cpp:62-65 | one full step under the new stimulus; an empty collection is `out_of_range` before anything changes |
| ValueCollection.K0Collection.constructor | include/ksets/k0collection.hpp:10 | `n` distinct nodes, each a default node with a zero history |
| ValueCollection.K0Collection.Node | src/k0collection.cpp:5-11 | `node(i)` is node `i` iff `i < size`, otherwise `out_of_range` |
| ValueCollection.K0Collection.SetExternalStimulus | src/k0collection.cpp:13-15 | sets the primary node's stimulus; an empty collection is `out_of_range` |
| ValueCollection.K0Collection.CalculateNextState | src/k0collection.cpp:17-20 | every node's next state is computed from the old states |
| ValueCollection.K0Collection.CalculateNextStateWith | src/k0collection.cpp:22-25 | the stimulus is set first, then every node computes; an empty collection is `out_of_range` |
| ValueCollection.K0Collection.CommitNextState | src/k0collection.cpp:27-30 | every node commits and pushes its output |
| ValueCollection.K0Collection.CalculateAndCommitNextState | src/k0collection.cpp:32-35 | every node computes, then commits |
| ValueCollection.K0Collection.CalculateAndCommitNextStateWith | src/k0collection.cpp:37-40 | one full step under the new stimulus; an empty collection is `out_of_range` |
| ValueCollection.NewK1 | src/k1.cpp:5-15 | two fresh nodes wired to each other with the given weights and delays, whatever their signs |
| K1Set.K1Mutual | src/ksets/k1.cpp:15-16 | in the K1 diagram, each of the two nodes listens only to the other |
| K1Set.New | src/ksets/k1.cpp:9-17 | weights of different sign bits are `invalid_argument`; otherwise a fresh two-node collection wired as the K1 diagram |
| K1Set.K1Wired | src/ksets/k1.cpp:15-16 | the two connections the constructor adds are exactly the K1 diagram |
| K1Set.SecondaryNode | include/ksets/k1.hpp:14-15 | the secondary node is `node(1)` |
| K1Set.Copy | src/ksets/k1.cpp:19 | a copy of a K1 is a fresh K1 with the same diagram and copied states |
| Wiring.WiredClosed | src/ksets/k0.cpp:256-263 | a collection wired as a table draws every source from among its own nodes, as the copy needs |
| Wiring.CopyKeepsWiring | src/ksets/k0.cpp:256-263 | a clone-by-clone copy of a collection wired as a table is wired as the same table |
| Wiring.CopyWired | src/ksets/k0.cpp:256-263 | copying a collection gives fresh copied nodes wired as the original's table |
| Wiring.Others | src/ksets/k2layer.cpp:21-26 | each lane position hears `n - 1` others, never itself |
| Wiring.OthersExactlyOnce | src/ksets/k2layer.cpp:21-26 | the all-pairs loop connects every other position exactly once, in increasing order |
| Wiring.ConnectPairs | src/ksets/k2layer.cpp:21-26 | after the loop, node `k` has gained one connection from each other node, in index order, with the weight and delay |
| K2Set.ConfigOf | include/ksets/k2.hpp:15-19 | the array constructor packs the four weights in order, whatever `checkWeights` says |
| K2Set.K2SignsFollowSources | include/ksets/k2.hpp:21-23 | `checkWeights` holds iff every edge of the K2 diagram carries the sign of its source (nodes 0 and 1 excitatory, 2 and 3 inhibitory); no edge is a self-loop |
| K2Set.New | src/ksets/k2.cpp:7-23 | four fresh nodes with the configuration, wired as the K2 diagram |
| K2Set.Connect | src/ksets/k2.cpp:10-22 | the ten connections of the diagram, and no others, are added to four unconnected nodes |
| K2Set.K2Wired | src/ksets/k2.cpp:10-22 | the constructor's per-node connection lists are exactly the K2 diagram |
| K2Set.AntipodalNode | include/ksets/k2.hpp:47-48 | the antipodal node is `node(3)` |
| K2Set.Copy | src/ksets/k2.cpp:25 | a copy of a K2 is a fresh K2 with the same diagram and copied states |
| K2Layers.FlattenTiled | src/ksets/k2layer.cpp:14-15 | a layer's node layout is its units' nodes, in unit order |
| K2Layers.Lane | include/ksets/k2layer.hpp:66-78 | lane `a` holds node `a` of every unit, in unit order |
| K2Layers.LaneAt | include/ksets/k2layer.hpp:66-78 | lane `a`'s unit `u` is node `4u + a` of the layout |
| K2Layers.WeightSumConstant | src/ksets/k2layer.cpp:20 | connections of equal weight sum to their count times that weight |
| K2Layers.LateralInputTotal | src/ksets/k2layer.cpp:18-28 | dividing by `size - 1` makes each node's lateral inputs, `n - 1` of them, sum to the given weight |
| K2Layers.SumWithin | src/ksets/k2layer.cpp:99-109 | a sum of `n` values within bounds lies within `n` times the bounds |
| K2Layers.MeanWithin | src/ksets/k2layer.cpp:99-109 | the lane average recorded at commit lies between the smallest and largest output |
| K2Layers.K2Layer.New | src/ksets/k2layer.cpp:5-16 | zero units is `invalid_argument`; otherwise `n` fresh K2 units wired as the diagram, their nodes in the initial state with ids 0..3, the last unit's nodes pointing at it, and two zeroed average histories of the configured size |
| K2Layers.K2Layer.Size | src/ksets/k2layer.cpp:74-76 | the number of units |
| K2Layers.K2Layer.Unit | src/ksets/k2layer.cpp:78-84 | `unit(i)` is unit `i` iff `i < size`, otherwise `out_of_range` |
| K2Layers.K2Layer.ConnectPrimaryNodesLaterally | src/ksets/k2layer.cpp:18-28 | accepted iff the weight is not negative; a rejection changes nothing; otherwise each primary node hears every other at the weight divided by `size - 1` |
| K2Layers.K2Layer.ConnectAntipodalNodesLaterally | src/ksets/k2layer.cpp:30-40 | accepted iff the weight is not positive; otherwise as the primary lane |
| K2Layers.K2Layer.SetPrimaryHistorySize | src/ksets/k2layer.cpp:42-46 | the primary average and every primary node take the new size |
| K2Layers.K2Layer.SetAntipodalHistorySize | src/ksets/k2layer.cpp:48-52 | the antipodal average and every antipodal node take the new size |
| K2Layers.K2Layer.SetPrimaryActivityMonitoring | src/ksets/k2layer.cpp:54-58 | passes iff the average and every primary history accept the window; a window wider than the average is `invalid_argument` before any node changes; the average records any window that fits it; on a failure at node k, nodes before k monitor the window, node k records it unless it is too wide, and later nodes keep their state |
| K2Layers.K2Layer.SetAntipodalActivityMonitoring | src/ksets/k2layer.cpp:60-64 | the same for the antipodal lane, including the state after a failure part-way |
| K2Layers.K2Layer.SetExternalStimulus | src/ksets/k2layer.cpp:86-88 | accepted iff one value per unit is given; a rejection changes nothing; otherwise unit `u`'s primary node takes value `u` |
| K2Layers.K2Layer.CalculateNextState | src/ksets/k2layer.cpp:90-93 | every node's next state is computed from the old states; no history changes |
| K2Layers.K2Layer.CalculateNextStateWith | src/ksets/k2layer.cpp:95-97 | accepted iff one value per unit is given; a rejection changes no node; otherwise unit `u`'s primary node takes value `u`, and every node's next state is the ODE step from its former state under its new stimulus plus the noise and delayed lateral sum it had before the call |
| K2Layers.K2Layer.CommitNextState | src/ksets/k2layer.cpp:99-109 | every node commits; each average history gains the mean of its lane's new outputs |
| K2Layers.K2Layer.CalculateAndCommitNextState | src/ksets/k2layer.cpp:111-114 | every node computes from the old states, then the layer commits as above |
| K2Layers.K2Layer.CalculateAndCommitNextStateWith | src/ksets/k2layer.cpp:116-118 | accepted iff one value per unit is given; a rejection changes no node; otherwise unit `u`'s primary node takes value `u`, every node's next state is the ODE step from its former state under its new stimulus plus its former other input, and the layer then commits as `CommitNextState` |
| K2Layers.K2Layer.RandomizeK0States | src/ksets/k2layer.cpp:120-123 | node `k` of the layout takes draw `k` |
| K2Layers.NewUnits | src/ksets/k2layer.cpp:14-15 | `n` fresh K2 units whose nodes are all distinct and in the initial state, the last unit's nodes pointing at it |
| K2Layers.Append | src/ksets/k2layer.cpp:15 | appending a unit of fresh nodes keeps the layout distinct |
| K2Layers.LanesOfLayer | include/ksets/k2layer.hpp:66-78 | the primary and antipodal lanes are lanes of the layout with distinct nodes |
| K2Layers.LaneOfLayer | include/ksets/k2layer.hpp:66-78 | any lane of a distinct layout is distinct |
| K2Layers.OffLane | src/ksets/k2layer.cpp:99-109 | nodes of other positions are not in a lane |
| K2Layers.CommitLayer | src/ksets/k2layer.cpp:99-109 | the commit loop plus the averages |
| K2Layers.CommitLanes | src/ksets/k2layer.cpp:100-106 | every node commits, and the lane sums are the sums of the newest outputs |
| K2Layers.NewestOfCommitted | src/ksets/k2layer.cpp:103-104 | `get(0)` of a committed node is its new output |
| K2Layers.SumNewest | src/ksets/k2layer.cpp:103-104 | the lane sums are the sums of every unit's `get(0)` |
| K2Layers.PutAverages | src/ksets/k2layer.cpp:107-108 | each average history gains its value, and the committed nodes and lane outputs are left as they were |
| K2Layers.CalculateLayerWith | src/ksets/k2layer.cpp:86-97 | the primary lane takes the values, and each node steps from its former state under its new stimulus plus its former noise and delayed lateral sum |
| K2Layers.StepLayerWith | src/ksets/k2layer.cpp:116-118 | the stepped layer under the values, and then the commit of every node and of both averages |
| K2Layers.Snapshot | src/ksets/k2layer.cpp:95-97 | records each node's state and other input before the stimuli change |
| K2Layers.CalculateNodes | src/ksets/k2layer.cpp:90-93 | every node of the layout computes its next state |
| K2Layers.CommitNodes | src/ksets/k2layer.cpp:100-106 | every node of the layout commits |
| K2Layers.RandomizeNodes | src/ksets/k2layer.cpp:120-123 | node `k` takes draw `k` |
| K2Layers.ConnectLane | src/ksets/k2layer.cpp:21-26 | each lane node hears every other in order |
| K2Layers.StimulateLane | include/ksets/k2layer.hpp:66-78 | lane node `u` takes value `u` |
| K2Layers.ResizeAll | src/ksets/k2layer.cpp:44-45 | every node's history takes the size |
| K2Layers.SetMonitoring | src/ksets/k2layer.cpp:54-58 | passes iff every history accepts the window; stops at the first history that throws, which records the window unless it is too wide; the histories before it monitor the window and those after it are unchanged |
| K3Set.DefaultWeights | include/ksets/k3.hpp:9-85 | the default inter-layer weights pass the validity check |
| K3Set.CheckedWeights | include/ksets/k3.hpp:92-96 | the validity check reads ten weights |
| K3Set.ValidityBySign | include/ksets/k3.hpp:92-96 | the weights are valid iff each checked weight has its prescribed strict sign |
| K3Set.ZeroWeightInvalid | include/ksets/k3.hpp:98-99 | a zero checked weight makes the set invalid |
| K3Set.ValidityIgnoresDelays | include/ksets/k3.hpp:92-96 | validity depends only on the ten checked weights, never on the delays or other weights |
| K3Set.Tract | src/ksets/k3.cpp:40-57 | a tract has one connection per source |
| K3Set.LinkUnit | src/ksets/k3.cpp:40-57 | with the unit taken by reference, one unit's five connections are added to its own nodes and the earlier units stay linked |
| K3Set.LinkUnits | src/ksets/k3.cpp:34-59 | with the iterators advanced, every nerve node hears the AON, every bulb antipodal node the AON and the DPC, and the AON and PC primaries each bulb primary, in unit order |
| K3Set.Repeat | src/ksets/k3.cpp:34-59 | repeating a list `k` times multiplies its length by `k` |
| K3Set.CopyUnit | src/ksets/k3.cpp:37 | `auto obUnit = *obIter` runs the K2 copy constructor: four fresh nodes with fresh histories, the primary one a state copy of the unit's primary node |
| K3Set.LinkCopiedUnit | src/ksets/k3.cpp:36-58 | one pass as written: the nerve node hears the AON; the AON and PC primaries each hear the fresh copy's primary node, which is left with no inbound connections once the copy is destroyed |
| K3Set.ConnectLayersAsWritten | src/ksets/k3.cpp:31-65 | the loop ends iff the nerve is empty; otherwise, after any number of passes, nerve node 0 hears the AON once per pass, the AON and PC primaries hear one distinct fresh orphan copy per pass, no node of the bulb gains a connection, and the AON antipodal link is never made |
| K3Set.Laterals | src/ksets/k2layer.cpp:18-40 | one lateral list per lane node |
| K3Set.LanesDisjoint | src/ksets/k3.cpp:17-18 | the bulb's primary and antipodal lanes share no node and lie in the layer |
| K3Set.LaneInLayer | src/ksets/k3.cpp:17-18 | a lane lies in the layer |
| K3Set.ConnectBulbLaterally | src/ksets/k3.cpp:17-18 | the bulb's primary lane is linked at the excitatory lateral weight if that is accepted, and the antipodal lane at the inhibitory one |
| K3Set.K3.ValidLayersApart | src/ksets/k3.cpp:5-20 | the nerve, the bulb's antipodal lane, the AON, the PC and the DPC are separate nodes |
| K3Set.K3.ValidWiringApart | src/ksets/k3.cpp:5-20 | every node that wiring touches is distinct from the others |
| K3Set.K3.ValidMiddleUntouched | src/ksets/k3.cpp:5-20 | the bulb units' middle nodes are outside every wired lane |
| K3Set.K3.ValidOthersUntouched | src/ksets/k3.cpp:5-20 | the cores' other nodes and the DPC are outside the wired lanes |
| K3Set.K3.Wire | src/ksets/k3.cpp:16-19 | the constructor's wiring: nerve laterals then AON feedback, bulb laterals, the bulb antipodal feedback, the two tracts to the AON and PC, and PC to AON antipodal (with `connectLayers` corrected; see Findings, k3.cpp:34-59 and :37) |
| K3Set.K3.PristineLanes | src/ksets/k3.cpp:7 | before wiring, every bulb node has just its K2 diagram's inputs |
| K3Set.K3.PristineCores | src/ksets/k3.cpp:8-9 | before wiring, the AON and PC nodes have just their diagrams' inputs |
| K3Set.K3.Build | src/ksets/k3.cpp:14-19 | wiring a fresh K3 leaves every node with its diagram's inputs followed by exactly the K3 connections (with `connectLayers` corrected; see Findings, k3.cpp:34-59 and :37) |
| K3Set.K3.New | src/ksets/k3.cpp:5-20 | zero units or invalid weights is `invalid_argument`; otherwise a fresh K3 with `n` nerve nodes, fully built (with `connectLayers` corrected; see Findings, k3.cpp:34-59 and :37) |
| K3Set.K3.ConnectPrimaryOlfactoryNerveLaterally | src/ksets/k3.cpp:22-29 | each nerve node hears every other at the undivided weight, in index order |
| K3Set.K3.ConnectLayers | src/ksets/k3.cpp:31-65 | with the loop advancing: each unit gets its five connections, the tracts are in unit order, and the AON antipodal node hears the PC primary once |
| K3Set.Assemble | src/ksets/k3.cpp:5-20 | from separate parts, a fresh K3 that is fully built (with `connectLayers` corrected; see Findings, k3.cpp:34-59 and :37) |
| K3Set.NewNerve | src/ksets/k3.cpp:14-15 | `n` fresh, separate, unconnected nerve nodes |
| K3Set.Inbound | src/ksets/k3.cpp:31-65 | the inbound lists of a lane, in order |
| TestParam.Assign | src/paramsearch/testparam.cpp:68-96 | assigning a field sets that field and only that field |
| TestParam.Extensionality | src/paramsearch/testparam.cpp:68-96 | configurations that agree on every field and on everything else are equal |
| TestParam.ArgvConfigFields | src/paramsearch/testparam.cpp:68-96 | argument `k + 1` lands in the `k`-th listed field; unlisted fields and the rest of the configuration keep their base values |
| TestParam.AgreeOnFields | src/paramsearch/testparam.cpp:68-96 | agreement on the listed and on the unlisted fields is agreement on all |
| TestParam.ArgsLayout | src/paramsearch/testparam.cpp:21-36 | the ten arguments feed ten different fields, covering every field |
| TestParam.ParsedValidity | src/paramsearch/testparam.cpp:98 | the parsed configuration is valid iff OB-AON, OB-PC, AON-OB, DPC-OB and DPC-PC are positive, PC-DPC is negative, and the four defaults left alone are valid |
| TestParam.ParseArgs | src/paramsearch/testparam.cpp:60-101 | the parsed configuration: output monitoring off, an output history of 5000 steps, argument `k + 1` in field `k`, and valid |
| TestParam.Generated | src/paramsearch/testparam.cpp:38-52 | each refill generates 32 seeds |
| TestParam.SeedGenerator.constructor | src/paramsearch/testparam.cpp:38-52 | a new generator has drawn nothing and refilled nothing |
| TestParam.SeedGenerator.Next | src/paramsearch/testparam.cpp:38-52 | draw `n` is seed `(n - 1) mod 32` of the generated batch; a refill happens on the first draw and on every 32nd after |
| TestParam.OneHot | src/paramsearch/testparam.cpp:103-124 | the pattern is 1 at the stimulated unit and 0 elsewhere |
| TestParam.ScheduleShape | src/paramsearch/testparam.cpp:103-124 | five phases of 1000 ms each, rest in phases 0, 2 and 4, each stimulus pattern one per unit summing to 1, for 5000 ms in all |
| TestParam.UniformDuration | src/paramsearch/testparam.cpp:103-124 | phases of 1000 ms last 1000 ms each |
| TestParam.OneHotSum | src/paramsearch/testparam.cpp:103-124 | a one-hot pattern sums to 1 |
| TestParam.DoSimulation | src/paramsearch/testparam.cpp:103-124 | the procedure's loop produces exactly the schedule whose shape is stated above |
| LegacyTestParam.ArgsLayout | src/testparam.cpp:17-29 | eight arguments feed eight different fields; only DPC-PC and PC-DPC are left out |
| LegacyTestParam.DpcWeightsKept | src/testparam.cpp:59-81 | the DPC-PC and PC-DPC weights keep their defaults |
| LegacyTestParam.ParsedValidity | src/testparam.cpp:83 | from valid defaults, the result is valid iff OB-AON, OB-PC, AON-OB and DPC-OB are positive |
| LegacyTestParam.ParseArgs | src/testparam.cpp:53-86 | argument `k + 1` lands in field `k`, and the result is valid |
| GridSearch.StripLeft | src/paramsearch/gridsearch.py:131 | a suffix of the input that starts with a non-space, after only spaces |
| GridSearch.StripRight | src/paramsearch/gridsearch.py:131 | a prefix of the input that ends with a non-space, before only spaces |
| GridSearch.Split | src/paramsearch/gridsearch.py:131 | at least one part, none containing the separator, and joining them gives the input back |
| GridSearch.ExtendFirstPart | src/paramsearch/gridsearch.py:131 | prefixing a non-separator to the first part keeps the parts separator-free and prefixes the join |
| GridSearch.JoinHead | src/paramsearch/gridsearch.py:131 | the join starts with the first part |
| GridSearch.SplitJoin | src/paramsearch/gridsearch.py:131 | splitting a join of separator-free parts gives the parts back |
| GridSearch.Lines | src/paramsearch/gridsearch.py:131 | the output has at least one line |
| GridSearch.PrintedIsJoin | src/paramsearch/testparam.cpp:126-132 | newline-terminated lines are their join plus a final newline |
| GridSearch.JoinSnoc | src/paramsearch/gridsearch.py:131 | a join with one more part adds a separator and that part |
| GridSearch.OutputLines | src/paramsearch/gridsearch.py:130-131 | the lines read back from printed lines, none blank at the ends, are the lines printed |
| GridSearch.StripPrinted | src/paramsearch/gridsearch.py:130-131 | stripping printed output removes exactly the final newline |
| GridSearch.JoinLast | src/paramsearch/gridsearch.py:131 | the join ends with the last part |
| GridSearch.SumSquaresSign | src/paramsearch/gridsearch.py:75-79 | a sum of squares is never negative, and is zero iff every term is |
| GridSearch.PositiveProduct | src/paramsearch/gridsearch.py:78 | the product of two numbers of the same strict sign is positive |
| GridSearch.Square | src/paramsearch/gridsearch.py:78 | a square is never negative, and positive for a non-zero number |
| GridSearch.ScoreRestingNormal | src/paramsearch/gridsearch.py:81-86 | the bonus is 50 iff the p-value is at most 0.05, otherwise 0 |
| GridSearch.ScoreRestingNormalAntitone | src/paramsearch/gridsearch.py:81-86 | a smaller p-value never scores less |
| GridSearch.Segment | src/paramsearch/gridsearch.py:138 | each of the five segments is a fifth of the row |
| GridSearch.RestingColumnAt | src/paramsearch/gridsearch.py:139 | resting column `j` is a definite column of the row |
| GridSearch.RestingColumnsAreRestPhases | src/paramsearch/gridsearch.py:138-139 | the concatenated columns are exactly the columns recorded in the procedure's rest phases, each once |
| GridSearch.RunWithParamsAsWritten | src/paramsearch/gridsearch.py:118-133 | the sentinel is returned iff the return code is positive; parsed output is rectangular |
| GridSearch.RunWithParams | src/paramsearch/gridsearch.py:118-133 | the sentinel is returned iff the return code is non-zero; parsed output is rectangular |
| GridSearch.Rows | src/paramsearch/gridsearch.py:132 | one row per line, each parsed by `fromstring` |
| GridSearch.Parse | src/paramsearch/gridsearch.py:131-133 | succeeds iff the rows have equal lengths, giving those rows; otherwise `ValueError` |
| GridSearch.AbortNotCaught | src/paramsearch/gridsearch.py:124 | a process that aborted (code -6) is parsed as output as written, and is a failure when corrected; when its empty output reads as no numbers, `calc_score` as written raises `ValueError` where the corrected one scores minus infinity |
| GridSearch.SentinelNeverScored | src/paramsearch/gridsearch.py:136-148 | on the sentinel, `calc_score` as written raises where the corrected one scores minus infinity; otherwise the two agree |
| GridSearch.Calc | src/paramsearch/gridsearch.py:136-148 | minus infinity iff the run failed; a finite score iff the output is a matrix divisible into five whose averaged resting series has at least 8 samples (`fft` raises on an empty series, `normaltest` below 8); errors on output are `ValueError` |
| GridSearch.K3Model.constructor | src/paramsearch/gridsearch.py:45-56 | the model's tuple is the ten weights in argument order; nothing is cached and nothing has run |
| GridSearch.K3Model.ToTuple | src/paramsearch/gridsearch.py:61-73 | element `k` is the weight of the simulator's argument `k + 1` |
| GridSearch.K3Model.ScoreMinimizeWeights | src/paramsearch/gridsearch.py:75-79 | the score is minus the sum of squared weights: never positive, and zero iff every weight is zero |
| GridSearch.K3Model.CalcScore | src/paramsearch/gridsearch.py:136-148 | corrected `calc_score()`: minus infinity iff the return code is non-zero; the only error is `ValueError`, raised on output that is not a matrix, does not split into five, or leaves fewer than 8 resting samples |
| GridSearch.K3Model.CalcScoreAsWritten | src/paramsearch/gridsearch.py:118-148 | `calc_score()` as written: a positive return code raises `AttributeError`, minus infinity is never the score, a zero code scores as corrected, and a negative code scores the output as if the run had succeeded |
| GridSearch.K3Model.ScoreAsWritten | src/paramsearch/gridsearch.py:150-153 | a stored score that is `None` or zero is recomputed by `calc_score` as written (one more run), and stored unless it raised; any other is returned as is |
| GridSearch.K3Model.Score | src/paramsearch/gridsearch.py:150-153 | the score is computed once (one run) and then always returned from the store |
| GridSearch.Command | src/paramsearch/gridsearch.py:119-120 | the program followed by one argument per weight, in order |
| GridSearch.CommandRoundTrip | src/paramsearch/gridsearch.py:119-120 | the front end parses the driver's command into a configuration whose every field is the corresponding model weight, up to float conversion |
| GridSearch.ExampleModelValid | src/paramsearch/gridsearch.py:155-157 | the example model's weights parse into a valid configuration |
| GridSearch.ZeroScoreRecomputed | src/paramsearch/gridsearch.py:150-153 | for any model whose score is exactly 0, two calls of `score` run the simulator twice as written and once when corrected, and both store 0 |
| GridSearch.ZeroModelScore | src/paramsearch/gridsearch.py:136-148 | the score is the weight penalty plus the normality bonus minus the spread: all-zero weights, 40 columns per line, p-value 1 and spread 0 give exactly 0 |
| GridSearch.UniformRows | src/paramsearch/gridsearch.py:131-133 | output whose every line reads as `w` numbers parses to a matrix `w` wide |
| GridSearch.RestingColumns | src/paramsearch/gridsearch.py:138-139 | a row's resting columns number three fifths of its width |

## Left out

- Floating-point arithmetic. Weights, states and outputs are reals. Reals have
  no negative zero, so the sign-bit tests on weights cannot tell -0.0 from 0.0:
  `K1Set.New` accepts the weights (0.0, -0.0), which the source rejects, and
  `K0Graph.Connection.PerturbWeight` treats a weight of -0.0 as positive, so it
  accepts a non-negative perturbation of it that the source rejects as a sign
  change.
  - The ODE step and the sigmoid are parameters of the step methods.
  - `K0Graph.Rk4` writes the RK4 step out, but the methods do not fix it.
- The variance and standard deviation arithmetic. `History.ActivationHistory.VarianceOver`
  and `StdDevOver` state only when a value exists. The running sums are left
  out: they are floating point.
- The FFT, `normaltest`, `np.std`, `np.log` and `np.fromstring` of the fitness
  driver. They are parameters. Their `ValueError` on a resting series shorter
  than 8 samples, the empty one included, is modelled by `Scorable`; no other
  exception of theirs is.
  - `score_resting_spectrum_pink_noise` is one of these parameters: its value is a
    floating-point spread.
  - `score_amp_modulation_40_100_hz` is unfinished and never called.
- Process I/O: the subprocess call, the CSV output (`writeCsv`, `writeToStdout`)
  and the iteration count derived from the procedure duration.
  - The driver receives a completed process: a return code and its standard output.
  - `main`, `src/main.cpp` and `src/paramsearch/search.py` are not part of this model.
- `std::random_device`, and the engines behind the noise and state draws.
  - Draws are parameters.
  - `TestParam.SeedGenerator.Next`: `std::seed_seq::generate` is a deterministic
    function of the seed, so the model states which batch entry each draw returns.
- `K0::swap`, the move and assignment operators, and `K0::repr`. They move or
  print state and add no behaviour.
- `History.ActivationHistory.Resize`: `ActivationHistory::resize` is not part of
  this model. Only the new length is stated.
- `K3Config` is not part of this model. Its fields are inferred from how
  `k3.cpp` and both front ends use it.
- The definition of the connection tag type is not part of this model. A tag is
  an opaque optional value.
- The K3 constructor.
  - The header declares it with a signature that differs from the definition.
    The model follows the definition.
  - The definition calls `connectPrimaryNodes`, `connectAntipodalNodes` and
    `connectPrimaryOlfactoryNerveLaterally` with the weight alone. The model
    reads these as the lateral connections of `src/ksets/k2layer.cpp` and
    `src/ksets/k3.cpp:22-29`, with the default delay 0.
  - The initial rest iterations of the procedure are not modelled.
  - The seed generator's arguments are not modelled.
- The legacy front end's unused `HISTORY_SIZE_MS` constant.
- `K2Layers.K2Layer.New` and `K2Layers.NewUnits` do not say that the earlier
  units' nodes point at their unit. `units.emplace_back` may grow the vector, and
  then it copies the earlier units with the K2 copy constructor, whose nodes have
  no collection reference. Which units are copied depends on the vector's growth.
- `K3Set.ConnectLayersAsWritten`: each pass's copy also clones every node the
  unit reaches through its sources (the rest of the bulb, through the lateral
  links). The contract names only the copy's primary nodes and says that no
  bulb node changes; the other clones are unreachable once the copy is destroyed.
- The deep pyramidal cell is built from the argument `olfactoryBulbNumUnits + 1`.
  That argument fits none of the node constructors shown, so the cell is
  modelled as a node with the default configuration.
- `SharedCollection.K0Collection.constructor`: each node is built from its index
  `i`. That generation's K0 constructors are not part of this model, so the
  contract does not say what `i` sets.
- `np.array` of rows of different lengths: NumPy from 1.24 on raises
  `ValueError`, and the model follows that.
- An `assert` is modelled as a precondition, in constructors and in
  `parseArgs` alike: a release build compiles it away.

## Findings

| source | as written | input that shows it | evidently intended | confidence | as-written member | corrected member |
|---|---|---|---|---|---|---|
| src/ksets/k3.cpp:34-59 | the loop over the nerve, bulb primary and bulb antipodal iterators never advances them | any K3 with at least one unit: nerve node 0 and a new copy of bulb unit 0 are linked on every pass, and the constructor never returns | advance all three iterators, so each unit is linked once and the loop ends | high, not executed | K3Set.ConnectLayersAsWritten | K3Set.K3.ConnectLayers |
| src/ksets/k3.cpp:37 | `auto obUnit = *obIter` copies the bulb unit: the K2 copy constructor clones it onto new nodes, and the copy is destroyed at the end of the pass | any K3 with at least one unit: the MOT links go to the copy's antipodal node and are cleared with it, the AON and PC hear a clone that never steps, and the bulb gains no connection | take the unit by reference (`auto& obUnit = *obIter`) | high, not executed | K3Set.ConnectLayersAsWritten | K3Set.K3.ConnectLayers |
| src/paramsearch/gridsearch.py:124 | `proc.returncode > 0` treats only positive codes as failures | the simulator aborting, from a failed assertion or from the uncaught `invalid_argument` that invalid weights raise: return code -6 (SIGABRT), and its output is parsed as data; empty output then raises `ValueError` in `fft` instead of scoring minus infinity | any non-zero return code is a failure | high, not executed | GridSearch.AbortNotCaught | GridSearch.RunWithParams |
| src/paramsearch/gridsearch.py:126 | the failure sentinel `-inf` is handed to `np.split(..., axis=1)` | any failed run: splitting a float along axis 1 raises, so the lowest score is never returned | a failed run scores minus infinity | high, not executed | GridSearch.SentinelNeverScored | GridSearch.Calc |
| src/paramsearch/gridsearch.py:151 | `if not self.cached_score` treats a stored 0 as missing | any model whose score is exactly 0.0: every call runs the simulator again | compute once, testing `is None` | medium, not executed | GridSearch.ZeroScoreRecomputed | GridSearch.K3Model.Score |
| src/ksets/k0collection.cpp:13-16 | each node not yet mapped is cloned with its whole subgraph into a separate map, and `insert` keeps earlier entries | two nodes where node 1 listens to node 0 and node 0 hears nothing: node 1's copy listens to a second clone of node 0 that is not in the copy | clone into the shared map, as `src/ksets/k0.cpp:259-260` later does | high, not executed | SharedCollection.MergedCopyMisWires | K0Graph.K0Collection.CopyOf |
