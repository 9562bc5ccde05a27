/**
 * Wiring diagrams of K0 collections: which node listens to which, with what
 * weight and delay, stated by node index. The K sets built on collections
 * (K1, K2) have fixed diagrams; a layer or an input array links every
 * ordered pair of its nodes; and the copy constructor of a collection,
 * which clones connection subgraphs, reproduces the diagram on new nodes.
 */
module Wiring {
  import opened Outcomes
  import opened History
  import opened K0Graph

  /** An inbound connection by index: from node `from` of the same sequence. */
  datatype Edge = Edge(from: nat, weight: real, delay: nat)

  /** The untagged connections a table row describes, all ending at `ns[k]`. */
  ghost function Edges(ns: seq<K0>, k: nat, row: seq<Edge>): seq<Connection>
    requires k < |ns| && forall j :: 0 <= j < |row| ==> row[j].from < |ns|
  {
    seq(|row|, j requires 0 <= j < |row| => Connection(ns[row[j].from], ns[k], row[j].weight, row[j].delay, None))
  }

  /** Node `k`'s inbound list is exactly row `k` of the table, for every node. */
  ghost predicate WiredAs(ns: seq<K0>, table: seq<seq<Edge>>)
    reads Members(ns)`inbound
  {
    && |table| == |ns|
    && (forall k, j :: 0 <= k < |table| && 0 <= j < |table[k]| ==> table[k][j].from < |ns|)
    && forall k :: 0 <= k < |ns| ==> ns[k].inbound == Edges(ns, k, table[k])
  }

  /**
   * Node `k`'s inbound list is row `k` of the table followed by `extra[k]`:
   * a fixed diagram that later wiring has extended.
   */
  ghost predicate WiredWith(ns: seq<K0>, table: seq<seq<Edge>>, extra: seq<seq<Connection>>)
    reads Members(ns)`inbound
  {
    && |table| == |ns| == |extra|
    && (forall k, j :: 0 <= k < |table| && 0 <= j < |table[k]| ==> table[k][j].from < |ns|)
    && forall k :: 0 <= k < |ns| ==> ns[k].inbound == Edges(ns, k, table[k]) + extra[k]
  }

  /** A diagram with nothing appended yet. */
  lemma WiredAsWith(ns: seq<K0>, table: seq<seq<Edge>>)
    requires WiredAs(ns, table)
    ensures WiredWith(ns, table, seq(|ns|, _ => []))
  {
    forall k | 0 <= k < |ns|
      ensures ns[k].inbound == Edges(ns, k, table[k]) + []
    {
      assert Edges(ns, k, table[k]) + [] == Edges(ns, k, table[k]);
    }
  }

  /** A wired collection reaches no node outside itself. */
  lemma WiredClosed(ns: seq<K0>, table: seq<seq<Edge>>)
    requires WiredAs(ns, table)
    ensures ClosedUnderSources(Members(ns))
  {
    forall n, j | n in Members(ns) && 0 <= j < |n.inbound|
      ensures n.inbound[j].source in Members(ns)
    {
      var k :| 0 <= k < |ns| && ns[k] == n;
      assert n.inbound[j].source == ns[table[k][j].from];
    }
  }

  /**
   * Cloning keeps the diagram: when every original node is mapped to its
   * copy by a map whose clones are wired like their originals, the copies
   * carry the same table.
   */
  lemma CopyKeepsWiring(orig: seq<K0>, copy: seq<K0>, m: map<K0, K0>, table: seq<seq<Edge>>)
    requires WiredAs(orig, table) && |copy| == |orig|
    requires forall i :: 0 <= i < |orig| ==> orig[i] in m && copy[i] == m[orig[i]]
    requires ClonesWired(map[], m, {})
    ensures WiredAs(copy, table)
  {
    forall k | 0 <= k < |copy|
      ensures copy[k].inbound == Edges(copy, k, table[k])
    {
      assert Wired(orig[k], m[orig[k]], m);
      forall j | 0 <= j < |table[k]|
        ensures copy[k].inbound[j] == Edges(copy, k, table[k])[j]
      {
        assert orig[k].inbound[j] == Edges(orig, k, table[k])[j];
      }
    }
  }

  /**
   * The copy constructor applied to a collection with a fixed diagram: the
   * copy has new nodes carrying the originals' state and the same diagram.
   */
  method CopyWired(other: K0Collection, ghost table: seq<seq<Edge>>) returns (c: K0Collection)
    requires |other.nodes| > 0 && WiredAs(other.nodes, table)
    ensures fresh(c) && |c.nodes| == |other.nodes| && WiredAs(c.nodes, table)
    ensures forall i :: 0 <= i < |c.nodes| ==> fresh(c.nodes[i]) && fresh(c.nodes[i].history)
    ensures forall i :: 0 <= i < |c.nodes| ==> StateCopied(other.nodes[i], c.nodes[i])
    ensures other.Valid() ==> c.Valid()
  {
    WiredClosed(other.nodes, table);
    ghost var m;
    c, m := K0Collection.CopyOf(other, Members(other.nodes));
    CopyKeepsWiring(other.nodes, c.nodes, m, table);
  }

  /** `lo, lo + 1, ..., hi - 1`. */
  function Range(lo: nat, hi: nat): (r: seq<nat>)
    requires lo <= hi
    ensures |r| == hi - lo && forall t :: 0 <= t < |r| ==> r[t] == lo + t
  {
    seq(hi - lo, t => lo + t)
  }

  /** The indices below `n` other than `k`, ascending. */
  function Others(n: nat, k: nat): (r: seq<nat>)
    requires k < n
    ensures |r| == n - 1 && forall t :: 0 <= t < |r| ==> r[t] < n && r[t] != k
  {
    Range(0, k) + Range(k + 1, n)
  }

  /** Each index other than `k` appears once in `Others(n, k)`, in ascending order, and `k` does not. */
  lemma OthersExactlyOnce(n: nat, k: nat)
    requires k < n
    ensures forall j :: j in Others(n, k) <==> 0 <= j < n && j != k
    ensures forall s, t :: 0 <= s < t < n - 1 ==> Others(n, k)[s] < Others(n, k)[t]
  {
    var r, a, b := Others(n, k), Range(0, k), Range(k + 1, n);
    forall j | j in r
      ensures j < n && j != k
    {
      var t :| 0 <= t < |r| && r[t] == j;
      if t < k {
        assert r[t] == a[t];
      } else {
        assert r[t] == b[t - k];
      }
    }
    forall j: nat | j < n && j != k
      ensures j in r
    {
      if j < k {
        assert r[j] == a[j] == j;
      } else {
        assert r[k + (j - k - 1)] == b[j - k - 1] == j;
      }
    }
  }

  /** The connections from `ns[idx[t]]` to `ns[k]` with weight `w` and delay `d`, in the order of `idx`. */
  ghost function From(ns: seq<K0>, k: nat, idx: seq<nat>, w: real, d: nat): seq<Connection>
    requires k < |ns| && forall t :: 0 <= t < |idx| ==> idx[t] < |ns|
  {
    seq(|idx|, t requires 0 <= t < |idx| => Connection(ns[idx[t]], ns[k], w, d, None))
  }

  /**
   * The sources node `k` of `n` has been given once the pair loop has
   * linked every pair `(a, b)` with `a < i1`, and `(i1, b)` with `b < i2`.
   */
  function Linked(n: nat, i1: nat, i2: nat, k: nat): (r: seq<nat>)
    requires i1 < i2 <= n + 1 && (i2 <= n || i1 == n) && k < n
    ensures forall t :: 0 <= t < |r| ==> r[t] < n
  {
    if k < i1 then Others(n, k)
    else if k == i1 then Range(0, i1) + Range(i1 + 1, i2)
    else if k < i2 then Range(0, i1 + 1)
    else Range(0, i1)
  }

  /** Every node has gained, after its list `before[k]`, the connections `Linked(n, i1, i2, k)`. */
  ghost predicate LinkedSoFar(ns: seq<K0>, before: seq<seq<Connection>>, w: real, d: nat, i1: nat, i2: nat)
    requires |before| == |ns| && i1 < i2 <= |ns| + 1 && (i2 <= |ns| || i1 == |ns|)
    reads Members(ns)`inbound
  {
    forall k :: 0 <= k < |ns| ==> ns[k].inbound == before[k] + From(ns, k, Linked(|ns|, i1, i2, k), w, d)
  }

  lemma FromAppend(ns: seq<K0>, k: nat, idx: seq<nat>, j: nat, w: real, d: nat)
    requires k < |ns| && j < |ns| && forall t :: 0 <= t < |idx| ==> idx[t] < |ns|
    ensures From(ns, k, idx + [j], w, d) == From(ns, k, idx, w, d) + [Connection(ns[j], ns[k], w, d, None)]
  {
  }

  /** Linking pair `(i1, i2)` moves the loop state one pair on. */
  lemma LinkedStep(n: nat, i1: nat, i2: nat, k: nat)
    requires i1 < i2 < n && k < n
    ensures k == i1 ==> Linked(n, i1, i2 + 1, k) == Linked(n, i1, i2, k) + [i2]
    ensures k == i2 ==> Linked(n, i1, i2 + 1, k) == Linked(n, i1, i2, k) + [i1]
    ensures k != i1 && k != i2 ==> Linked(n, i1, i2 + 1, k) == Linked(n, i1, i2, k)
  {
    if k == i1 {
      assert Range(i1 + 1, i2 + 1) == Range(i1 + 1, i2) + [i2];
    } else if k == i2 {
      assert Range(0, i1 + 1) == Range(0, i1) + [i1];
    }
  }

  /** Finishing the inner loop for `i1` is starting it for `i1 + 1`. */
  lemma LinkedNext(n: nat, i1: nat, k: nat)
    requires i1 < n && k < n
    ensures Linked(n, i1, n, k) == Linked(n, i1 + 1, i1 + 2, k)
  {
    if k == i1 + 1 {
      assert Range(i1 + 2, i1 + 2) == [];
    }
  }

  /** One pass of the inner loop: node `i1` listens to node `i2` and back; `next` is where the loop goes on. */
  method LinkPair(ns: seq<K0>, ghost before: seq<seq<Connection>>, w: real, d: nat, i1: nat, i2: nat) returns (next: nat)
    requires Separate(ns) && |before| == |ns| && i1 < i2 < |ns|
    requires LinkedSoFar(ns, before, w, d, i1, i2)
    modifies {ns[i1]}`inbound, {ns[i2]}`inbound
    ensures next == i2 + 1 && LinkedSoFar(ns, before, w, d, i1, next)
  {
    var a, b := ns[i1], ns[i2];
    assert Apart(ns, i1, i2);
    a.AddInboundConnection(b, w, d, None);
    b.AddInboundConnection(a, w, d, None);
    forall k | 0 <= k < |ns|
      ensures ns[k].inbound == before[k] + From(ns, k, Linked(|ns|, i1, i2 + 1, k), w, d)
    {
      LinkedStep(|ns|, i1, i2, k);
      if k != i1 && k != i2 {
        assert Apart(ns, if k < i1 then k else i1, if k < i1 then i1 else k);
        assert Apart(ns, if k < i2 then k else i2, if k < i2 then i2 else k);
      }
      if k == i1 {
        FromAppend(ns, k, Linked(|ns|, i1, i2, k), i2, w, d);
      } else if k == i2 {
        FromAppend(ns, k, Linked(|ns|, i1, i2, k), i1, w, d);
      }
    }
    next := i2 + 1;
  }

  /** The inner loop for `i1`: node `i1` and each later node listen to each other. */
  method LinkFrom(ns: seq<K0>, ghost before: seq<seq<Connection>>, w: real, d: nat, i1: nat)
    requires Separate(ns) && |before| == |ns| && i1 < |ns|
    requires LinkedSoFar(ns, before, w, d, i1, i1 + 1)
    modifies Members(ns)`inbound
    ensures LinkedSoFar(ns, before, w, d, i1 + 1, i1 + 2)
  {
    var i2 := i1 + 1;
    while i2 < |ns|
      invariant i1 < i2 <= |ns|
      invariant LinkedSoFar(ns, before, w, d, i1, i2)
    {
      i2 := LinkPair(ns, before, w, d, i1, i2);
    }
    LinkedSoFarNext(ns, before, w, d, i1);
  }

  lemma LinkedSoFarNext(ns: seq<K0>, before: seq<seq<Connection>>, w: real, d: nat, i1: nat)
    requires |before| == |ns| && i1 < |ns|
    requires LinkedSoFar(ns, before, w, d, i1, |ns|)
    ensures LinkedSoFar(ns, before, w, d, i1 + 1, i1 + 2)
  {
    forall k | 0 <= k < |ns|
      ensures Linked(|ns|, i1, |ns|, k) == Linked(|ns|, i1 + 1, i1 + 2, k)
    {
      LinkedNext(|ns|, i1, k);
    }
  }

  /**
   * The all-pairs loop of the lateral connections (two nested iterators,
   * the inner starting after the outer): every node gains one connection
   * from each other node, with the same weight and delay, in ascending
   * order of the source's index.
   */
  method ConnectPairs(ns: seq<K0>, w: real, d: nat)
    requires Separate(ns)
    modifies Members(ns)`inbound
    ensures forall k :: 0 <= k < |ns| ==> ns[k].inbound == old(ns[k].inbound) + From(ns, k, Others(|ns|, k), w, d)
  {
    ghost var before := seq(|ns|, k requires 0 <= k < |ns| reads Members(ns) => ns[k].inbound);
    forall k | 0 <= k < |ns|
      ensures ns[k].inbound == before[k] + From(ns, k, Linked(|ns|, 0, 1, k), w, d)
    {
      assert Linked(|ns|, 0, 1, k) == [];
    }
    var i1 := 0;
    while i1 < |ns|
      invariant 0 <= i1 <= |ns|
      invariant LinkedSoFar(ns, before, w, d, i1, i1 + 1)
    {
      LinkFrom(ns, before, w, d, i1);
      i1 := i1 + 1;
    }
  }
}
