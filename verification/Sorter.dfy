/**
 * The incremental topological sorter that sm-client drives: the standard library's
 * graphlib.TopologicalSorter, whose node table the TopologicalSorter2 subclass reads.
 * First its state as a value, with the invariant that explains the counters; then the
 * object itself, each method proved against the value.
 */
module Sorters {
  import opened Graphs
  import opened Wrappers

  const NODE_OUT := -1
  const NODE_DONE := -2

  datatype Sorter = Sorter(graph: Graph, npred: map<Service, int>, ready: seq<Service>, passedOut: nat, finished: nat)

  // ---------------------------------------------------------------- operations on the value

  function GetReady(s: Sorter): Sorter {
    s.(npred := map n | n in s.npred :: if n in s.ready then NODE_OUT else s.npred[n],
       ready := [],
       passedOut := s.passedOut + |s.ready|)
  }

  /** One decrement per occurrence; a counter that reaches zero makes its node ready. */
  function Release(npred: map<Service, int>, ready: seq<Service>, succs: seq<Service>): (r: (map<Service, int>,
                   seq<Service>))
    requires forall n :: n in succs ==> n in npred
    ensures r.0.Keys == npred.Keys
    decreases |succs|
  {
    if succs == [] then (npred, ready) else
      var left := npred[succs[0]] - 1;
      Release(npred[succs[0] := left], if left == 0 then ready + [succs[0]] else ready, succs[1..])
  }

  predicate CanFinish(s: Sorter, node: Service) {
    && node in s.npred && node in s.graph.succ
    && s.npred[node] == NODE_OUT
    && forall n | n in s.graph.succ[node] :: n in s.npred
  }

  function Finish(s: Sorter, node: Service): Sorter
    requires CanFinish(s, node)
  {
    var r := Release(s.npred[node := NODE_DONE], s.ready, s.graph.succ[node]);
    s.(npred := r.0, ready := r.1, finished := s.finished + 1)
  }

  predicate CanProgress(s: Sorter) {
    s.finished < s.passedOut || s.ready != []
  }

  // ---------------------------------------------------------------- the invariant

  /** What the counter of n must hold when `out` has been passed out and `fin` is done. */
  ghost function Counter(g: Graph, out: set<Service>, fin: set<Service>, n: Service): int
    requires ValidGraph(g)
  {
    if n in fin then NODE_DONE else if n in out then NODE_OUT else Pending(g, g.keys, n, fin)
  }

  ghost predicate PredsFinished(g: Graph, n: Service, fin: set<Service>) {
    forall p :: Edge(g, p, n) ==> p in fin
  }

  ghost predicate CountersRight(s: Sorter, out: set<Service>, fin: set<Service>)
    requires ValidGraph(s.graph)
  {
    && s.npred.Keys == s.graph.succ.Keys
    && (forall n :: n in s.npred ==> s.npred[n] == Counter(s.graph, out, fin, n))
  }

  ghost predicate ReadyRight(s: Sorter, out: set<Service>, fin: set<Service>) {
    && Distinct(s.ready)
    && (forall n :: n in s.ready <==> n in s.graph.succ && n !in out + fin && PredsFinished(s.graph, n, fin))
  }

  ghost predicate SorterInv(s: Sorter, out: set<Service>, fin: set<Service>) {
    && ValidGraph(s.graph)
    && out !! fin && out + fin <= s.graph.succ.Keys
    && CountersRight(s, out, fin)
    && ReadyRight(s, out, fin)
    && s.passedOut == |out| + |fin| && s.finished == |fin|
    && (forall n :: n in out + fin ==> PredsFinished(s.graph, n, fin))
  }

  lemma CounterZero(g: Graph, out: set<Service>, fin: set<Service>, n: Service)
    requires ValidGraph(g) && n in g.succ
    ensures Counter(g, out, fin, n) == 0 <==> n !in out + fin && PredsFinished(g, n, fin)
  {
    PendingZero(g, g.keys, n, fin);
  }

  lemma DistinctCardinality(s: seq<Service>)
    requires Distinct(s)
    ensures |Elements(s)| == |s|
  {
    if s == [] {
    } else {
      DistinctCardinality(s[1..]);
      assert Elements(s) == {s[0]} + Elements(s[1..]);
    }
  }

  lemma GetReadyCounters(s: Sorter, out: set<Service>, fin: set<Service>)
    requires SorterInv(s, out, fin)
    ensures CountersRight(GetReady(s), out + Elements(s.ready), fin)
  {
    var out' := out + Elements(s.ready);
    forall n | n in s.npred
      ensures GetReady(s).npred[n] == Counter(s.graph, out', fin, n)
    {
      assert s.npred[n] == Counter(s.graph, out, fin, n);
    }
  }

  lemma GetReadyKeepsInv(s: Sorter, out: set<Service>, fin: set<Service>)
    requires SorterInv(s, out, fin)
    ensures SorterInv(GetReady(s), out + Elements(s.ready), fin)
  {
    var out' := out + Elements(s.ready);
    GetReadyCounters(s, out, fin);
    DistinctCardinality(s.ready);
    assert out !! Elements(s.ready);
    assert |out'| == |out| + |Elements(s.ready)|;
    assert ReadyRight(GetReady(s), out', fin) by {
      forall n | n in s.graph.succ && PredsFinished(s.graph, n, fin)
        ensures n in out' + fin
      {}
    }
  }

  /** What releasing a list of successors does to the counters and the ready list. */
  ghost predicate Released(npred: map<Service, int>, ready: seq<Service>, succs: seq<Service>,
                           npred': map<Service, int>, ready': seq<Service>) {
    && npred'.Keys == npred.Keys
    && (forall n :: n in npred ==> npred'[n] == npred[n] - multiset(succs)[n])
    && Distinct(ready')
    && (forall n :: n in ready' <==> n in ready || (n in succs && n in npred' && npred'[n] == 0))
  }

  ghost predicate Releasable(npred: map<Service, int>, ready: seq<Service>, succs: seq<Service>) {
    Distinct(ready) && forall n :: n in succs ==> n in npred && n !in ready && npred[n] >= multiset(succs)[n]
  }

  lemma ReleaseOne(npred: map<Service, int>, ready: seq<Service>, h: Service, t: seq<Service>)
    requires Releasable(npred, ready, [h] + t)
    ensures var left := npred[h] - 1;
            Releasable(npred[h := left], if left == 0 then ready + [h] else ready, t)
  {}

  lemma ReleasedOne(npred: map<Service, int>, ready: seq<Service>, h: Service, t: seq<Service>,
                    npred': map<Service, int>, ready': seq<Service>)
    requires Releasable(npred, ready, [h] + t)
    requires var left := npred[h] - 1;
             Released(npred[h := left], if left == 0 then ready + [h] else ready, t, npred', ready')
    ensures Released(npred, ready, [h] + t, npred', ready')
  {}

  lemma ReleaseUnfolds(npred: map<Service, int>, ready: seq<Service>, h: Service, t: seq<Service>)
    requires forall n :: n in [h] + t ==> n in npred
    ensures forall n :: n in t ==> n in npred
    ensures var left := npred[h] - 1;
            Release(npred, ready, [h] + t) == Release(npred[h := left], if left == 0 then ready + [h] else ready, t)
  {}

  lemma ReleasableIsKnown(npred: map<Service, int>, ready: seq<Service>, succs: seq<Service>)
    requires Releasable(npred, ready, succs)
    ensures forall n :: n in succs ==> n in npred
    ensures succs == [] ==> Released(npred, ready, succs, npred, ready)
  {}

  /** Release subtracts every occurrence and appends exactly the nodes that reach zero, each once. */
  lemma {:induction false} ReleaseSpec(npred: map<Service, int>, ready: seq<Service>, succs: seq<Service>)
    requires Releasable(npred, ready, succs)
    ensures forall n :: n in succs ==> n in npred
    ensures Released(npred, ready, succs, Release(npred, ready, succs).0, Release(npred, ready, succs).1)
    decreases |succs|
  {
    hide Releasable, Released;
    ReleasableIsKnown(npred, ready, succs);
    if succs == [] {
    } else {
      var h, t := succs[0], succs[1..];
      assert succs == [h] + t;
      var left := npred[h] - 1;
      var ready' := if left == 0 then ready + [h] else ready;
      ReleaseUnfolds(npred, ready, h, t);
      ReleaseOne(npred, ready, h, t);
      ReleaseSpec(npred[h := left], ready', t);
      var r := Release(npred[h := left], ready', t);
      ReleasedOne(npred, ready, h, t, r.0, r.1);
    }
  }

  lemma SuccessorsStillWait(s: Sorter, out: set<Service>, fin: set<Service>, node: Service, n: Service)
    requires SorterInv(s, out, fin) && node in out && n in s.graph.succ[node]
    ensures n !in out + fin && n in s.npred && n !in s.ready
    ensures s.npred[n] >= multiset(s.graph.succ[node])[n]
  {
    assert Edge(s.graph, node, n);
    PendingFinish(s.graph, s.graph.keys, n, fin, node);
  }

  lemma PassedOutCanFinish(s: Sorter, out: set<Service>, fin: set<Service>, node: Service)
    requires SorterInv(s, out, fin) && node in out
    ensures CanFinish(s, node) && Releasable(s.npred[node := NODE_DONE], s.ready, s.graph.succ[node])
  {
    hide Pending, PredsFinished;
    forall n | n in s.graph.succ[node]
      ensures n !in out + fin && n in s.npred && n !in s.ready && s.npred[n] >= multiset(s.graph.succ[node])[n]
    {
      SuccessorsStillWait(s, out, fin, node, n);
    }
  }

  lemma ReleaseOfDone(s: Sorter, out: set<Service>, fin: set<Service>, node: Service)
    requires SorterInv(s, out, fin) && node in out
    ensures CanFinish(s, node)
    ensures var s' := Finish(s, node);
            && s'.npred.Keys == s.npred.Keys
            && (forall n :: n in s.npred ==>
                  s'.npred[n] == s.npred[node := NODE_DONE][n] - multiset(s.graph.succ[node])[n])
            && Distinct(s'.ready)
            && (forall n :: n in s'.ready <==> n in s.ready || (n in s.graph.succ[node] && s'.npred[n] == 0))
  {
    hide SorterInv, Releasable, Release;
    PassedOutCanFinish(s, out, fin, node);
    ReleaseSpec(s.npred[node := NODE_DONE], s.ready, s.graph.succ[node]);
  }

  lemma CounterAfterDone(g: Graph, out: set<Service>, fin: set<Service>, node: Service, n: Service)
    requires ValidGraph(g) && node in out && out !! fin && out <= g.succ.Keys
    requires node !in g.succ[node]
    requires n in g.succ[node] ==> n !in out + fin
    ensures Counter(g, out - {node}, fin + {node}, n)
         == (if n == node then NODE_DONE else Counter(g, out, fin, n)) - multiset(g.succ[node])[n]
  {
    PendingFinish(g, g.keys, n, fin, node);
  }

  lemma DoneCounters(s: Sorter, out: set<Service>, fin: set<Service>, node: Service)
    requires SorterInv(s, out, fin) && node in out
    ensures CanFinish(s, node)
    ensures CountersRight(Finish(s, node), out - {node}, fin + {node})
  {
    hide Counter, Pending, PredsFinished, ReadyRight, Finish;
    ReleaseOfDone(s, out, fin, node);
    FinishKeepsGraph(s, node);
    var g, s' := s.graph, Finish(s, node);
    forall n | n in g.succ[node]
      ensures n !in out + fin
    {
      SuccessorsStillWait(s, out, fin, node, n);
    }
    forall n | n in s.npred
      ensures s'.npred[n] == Counter(g, out - {node}, fin + {node}, n)
    {
      CounterAfterDone(g, out, fin, node, n);
    }
  }

  lemma ReadyAfterDone(g: Graph, out: set<Service>, fin: set<Service>, node: Service, n: Service)
    requires ValidGraph(g) && node in out && out !! fin && n in g.succ && node in g.succ
    ensures (Counter(g, out - {node}, fin + {node}, n) == 0 && n in g.succ[node])
            || (n !in out + fin && PredsFinished(g, n, fin))
            <==> n !in (out - {node}) + (fin + {node}) && PredsFinished(g, n, fin + {node})
  {
    CounterZero(g, out - {node}, fin + {node}, n);
    if n !in g.succ[node] { assert !Edge(g, node, n); }
  }

  lemma DoneReady(s: Sorter, out: set<Service>, fin: set<Service>, node: Service)
    requires SorterInv(s, out, fin) && node in out
    requires CanFinish(s, node) && CountersRight(Finish(s, node), out - {node}, fin + {node})
    requires Distinct(Finish(s, node).ready)
    requires forall n :: n in Finish(s, node).ready <==>
                         n in s.ready || (n in s.graph.succ[node] && Finish(s, node).npred[n] == 0)
    ensures ReadyRight(Finish(s, node), out - {node}, fin + {node})
  {
    hide Finish, Counter, PredsFinished;
    var s', out', fin' := Finish(s, node), out - {node}, fin + {node};
    assert s'.graph == s.graph by { FinishKeepsGraph(s, node); }
    forall n | n in s.graph.succ
      ensures n in s'.ready <==> n !in out' + fin' && PredsFinished(s.graph, n, fin')
    {
      ReadyAfterDone(s.graph, out, fin, node, n);
      assert s'.npred[n] == Counter(s.graph, out', fin', n);
    }
  }

  lemma FinishKeepsGraph(s: Sorter, node: Service)
    requires CanFinish(s, node)
    ensures Finish(s, node).graph == s.graph
    ensures Finish(s, node).passedOut == s.passedOut && Finish(s, node).finished == s.finished + 1
  {}

  /** `done` on a passed-out node is always accepted and keeps the counters exact. */
  lemma DoneKeepsInv(s: Sorter, out: set<Service>, fin: set<Service>, node: Service)
    requires SorterInv(s, out, fin) && node in out
    ensures CanFinish(s, node)
    ensures SorterInv(Finish(s, node), out - {node}, fin + {node})
  {
    hide CountersRight, ReadyRight, CanFinish, Finish, ValidGraph;
    ReleaseOfDone(s, out, fin, node);
    DoneCounters(s, out, fin, node);
    DoneReady(s, out, fin, node);
    FinishKeepsGraph(s, node);
    assert (out - {node}) + (fin + {node}) == out + fin;
    assert |out - {node}| == |out| - 1 && |fin + {node}| == |fin| + 1;
  }

  /** Nothing is active only when every node of an acyclic graph is done. */
  lemma InactiveMeansFinished(s: Sorter, out: set<Service>, fin: set<Service>)
    requires SorterInv(s, out, fin) && !CanProgress(s) && !Cyclic(s.graph)
    ensures out == {} && fin == s.graph.succ.Keys
  {
    assert |out| == 0;
    var rest := s.graph.succ.Keys - fin;
    if rest != {} {
      var n := AcyclicHasSource(s.graph, rest);
      assert false;
    }
  }

  // ---------------------------------------------------------------- building the graph

  function WithNode(g: Graph, n: Service): Graph {
    if n in g.succ then g else Graph(g.keys + [n], g.succ[n := []])
  }

  function WithEdge(g: Graph, p: Service, n: Service): Graph
    requires p in g.succ
  {
    g.(succ := g.succ[p := g.succ[p] + [n]])
  }

  /** `add(n, p)`: both enter the table if they are new, and n is appended to the successors of p. */
  function WithAfter(g: Graph, n: Service, p: Service): Graph {
    WithEdge(WithNode(WithNode(g, n), p), p, n)
  }

  lemma {:induction false} PendingOfSameSucc(g: Graph, g': Graph, ks: seq<Service>, n: Service)
    requires forall k :: k in ks ==> k in g.succ && k in g'.succ && g'.succ[k] == g.succ[k]
    ensures Pending(g', ks, n, {}) == Pending(g, ks, n, {})
  {
    if ks == [] {
    } else {
      PendingOfSameSucc(g, g', ks[..|ks| - 1], n);
    }
  }

  lemma NodeIsValid(g: Graph, x: Service)
    requires ValidGraph(g)
    ensures ValidGraph(WithNode(g, x)) && x in WithNode(g, x).succ
  {}

  lemma PendingWithNode(g: Graph, x: Service, n: Service)
    requires ValidGraph(g) && ValidGraph(WithNode(g, x))
    ensures Pending(WithNode(g, x), WithNode(g, x).keys, n, {}) == Pending(g, g.keys, n, {})
  {
    if x !in g.succ {
      var g' := WithNode(g, x);
      var last := |g'.keys| - 1;
      assert g'.keys[last] == x && g'.keys[..last] == g.keys;
      hide ValidGraph;
      calc {
        Pending(g', g'.keys, n, {});
      ==
        Pending(g', g.keys, n, {}) + multiset(g'.succ[x])[n];
      ==
        Pending(g', g.keys, n, {});
      == { PendingOfSameSucc(g, g', g.keys, n); }
        Pending(g, g.keys, n, {});
      }
    }
  }

  lemma {:induction false} PendingAppend(g: Graph, ks: seq<Service>, p: Service, x: Service, n: Service)
    requires p in g.succ
    requires Distinct(ks) && forall k :: k in ks ==> k in g.succ
    ensures Pending(WithEdge(g, p, x), ks, n, {}) == Pending(g, ks, n, {}) + (if p in ks && n == x then 1 else 0)
  {
    if ks == [] {
    } else {
      PendingAppend(g, ks[..|ks| - 1], p, x, n);
      assert forall k :: k in ks <==> k in ks[..|ks| - 1] || k == ks[|ks| - 1];
    }
  }

  /** Before `prepare`, every counter is the number of edge occurrences into its node. */
  ghost predicate Counts(g: Graph, npred: map<Service, int>) {
    && ValidGraph(g) && npred.Keys == g.succ.Keys
    && (forall n :: n in npred ==> npred[n] == Pending(g, g.keys, n, {}))
  }

  function WithZero(npred: map<Service, int>, n: Service): map<Service, int> {
    if n in npred then npred else npred[n := 0]
  }

  function WithOneMore(npred: map<Service, int>, n: Service): map<Service, int>
    requires n in npred
  {
    npred[n := npred[n] + 1]
  }

  lemma NewNodeHasNone(g: Graph, x: Service)
    requires ValidGraph(g) && x !in g.succ
    ensures Pending(g, g.keys, x, {}) == 0
  {
    PendingZero(g, g.keys, x, {});
  }

  lemma CountWithNode(g: Graph, npred: map<Service, int>, x: Service, n: Service)
    requires Counts(g, npred) && x !in g.succ && n in WithZero(npred, x) && ValidGraph(WithNode(g, x))
    ensures WithZero(npred, x)[n] == Pending(WithNode(g, x), WithNode(g, x).keys, n, {})
  {
    PendingWithNode(g, x, n);
    NewNodeHasNone(g, x);
    hide ValidGraph, Pending, WithNode;
  }

  lemma CountsWithNode(g: Graph, npred: map<Service, int>, x: Service)
    requires Counts(g, npred)
    ensures Counts(WithNode(g, x), WithZero(npred, x))
  {
    NodeIsValid(g, x);
    if x !in g.succ {
      hide Pending;
      forall n | n in WithZero(npred, x)
        ensures WithZero(npred, x)[n] == Pending(WithNode(g, x), WithNode(g, x).keys, n, {})
      {
        CountWithNode(g, npred, x, n);
      }
    }
  }

  /** An edge added twice is counted twice. */
  lemma CountsWithEdge(g: Graph, npred: map<Service, int>, p: Service, node: Service)
    requires Counts(g, npred) && node in g.succ && p in g.succ
    ensures Counts(WithEdge(g, p, node), WithOneMore(npred, node))
  {
    var g', npred' := WithEdge(g, p, node), WithOneMore(npred, node);
    forall n | n in npred'
      ensures npred'[n] == Pending(g', g'.keys, n, {})
    {
      PendingAppend(g, g.keys, p, node, n);
    }
  }

  // ---------------------------------------------------------------- the cycle search

  /** The nodes of rest that no node of rest precedes. */
  function Sources(g: Graph, rest: set<Service>): set<Service> {
    set n | n in rest && !exists p | p in rest :: Edge(g, p, n)
  }

  ghost predicate PeeledTo(g: Graph, rest: set<Service>, rank: map<Service, nat>, level: nat) {
    && rest <= g.succ.Keys && rank.Keys == g.succ.Keys - rest
    && (forall n :: n in rank ==> rank[n] < level)
    && (forall p, n :: n in rank && Edge(g, p, n) ==> p in rank && rank[p] < rank[n])
  }

  lemma PeelStep(g: Graph, rest: set<Service>, rank: map<Service, nat>, level: nat)
    requires PeeledTo(g, rest, rank, level)
    ensures PeeledTo(g, rest - Sources(g, rest), rank + map n | n in Sources(g, rest) :: level, level + 1)
  {}

  lemma NoSourcesIsStuck(g: Graph, rest: set<Service>)
    requires Sources(g, rest) == {} && rest != {}
    ensures Cyclic(g)
  {
    forall n | n in rest
      ensures HasPred(g, n, rest)
    {
      assert n !in Sources(g, rest);
    }
    StuckMeansCycle(g, rest);
  }

  // ---------------------------------------------------------------- orders

  /** Every edge between listed nodes goes forward. */
  ghost predicate Forward(g: Graph, order: seq<Service>) {
    forall i, j :: 0 <= i < |order| && 0 <= j < |order| && Edge(g, order[i], order[j]) ==> i < j
  }

  /** Every node once, and every edge forward. */
  ghost predicate TopoOrder(g: Graph, order: seq<Service>) {
    Distinct(order) && (forall n :: n in order <==> n in g.succ) && Forward(g, order)
  }

  /** The nodes whose counter is zero, in order. */
  function Zeros(npred: map<Service, int>, ks: seq<Service>): seq<Service> {
    if ks == [] then []
    else if ks[0] in npred && npred[ks[0]] == 0 then [ks[0]] + Zeros(npred, ks[1..])
    else Zeros(npred, ks[1..])
  }

  /** The state in which `prepare` leaves the graph. */
  ghost function Fresh(g: Graph): Sorter
    requires ValidGraph(g)
  {
    var npred := map n | n in g.succ :: Pending(g, g.keys, n, {}) as int;
    Sorter(g, npred, Zeros(npred, g.keys), 0, 0)
  }

  lemma ZerosStep(npred: map<Service, int>, ks: seq<Service>, i: nat)
    requires i < |ks| && ks[i] in npred
    ensures Zeros(npred, ks[i..]) == (if npred[ks[i]] == 0 then [ks[i]] else []) + Zeros(npred, ks[i + 1..])
  {
    assert ks[i..][0] == ks[i] && ks[i..][1..] == ks[i + 1..];
  }

  lemma ZerosEnd(npred: map<Service, int>, ks: seq<Service>)
    ensures Zeros(npred, ks[|ks|..]) == []
  {}

  lemma {:induction false} ZerosMembers(npred: map<Service, int>, ks: seq<Service>)
    requires Distinct(ks)
    ensures Distinct(Zeros(npred, ks))
    ensures forall n :: n in Zeros(npred, ks) <==> n in ks && n in npred && npred[n] == 0
  {
    if ks == [] {
    } else {
      ZerosMembers(npred, ks[1..]);
      assert ks == [ks[0]] + ks[1..] && ks[0] !in ks[1..];
    }
  }

  lemma FreshKeepsInv(g: Graph)
    requires ValidGraph(g)
    ensures SorterInv(Fresh(g), {}, {}) && Fresh(g).graph == g
  {
    var s := Fresh(g);
    ZerosMembers(s.npred, g.keys);
    assert CountersRight(s, {}, {}) by { hide ValidGraph, Pending; }
    assert ReadyRight(s, {}, {}) by {
      hide Pending, Zeros, PredsFinished;
      forall n | n in g.succ
        ensures s.npred[n] == 0 <==> PredsFinished(g, n, {})
      {
        CounterZero(g, {}, {}, n);
      }
    }
  }

  lemma CountsAreFresh(g: Graph, npred: map<Service, int>)
    requires Counts(g, npred)
    ensures ValidGraph(g) && forall k :: k in g.keys ==> k in npred
    ensures Fresh(g) == Sorter(g, npred, Zeros(npred, g.keys), 0, 0)
  {}

  lemma InvIsValid(s: Sorter, out: set<Service>, fin: set<Service>)
    requires SorterInv(s, out, fin)
    ensures ValidGraph(s.graph)
  {}

  /** `done` on each node of the batch in turn. */
  function FinishAll(s: Sorter, batch: seq<Service>): Sorter
    decreases |batch|
  {
    if batch == [] || !CanFinish(s, batch[0]) then s else FinishAll(Finish(s, batch[0]), batch[1..])
  }

  /** What the sorter hands out in so many rounds if every batch is finished before the next. */
  function Drain(s: Sorter, rounds: nat): seq<Service>
    decreases rounds
  {
    if rounds == 0 || !CanProgress(s) then [] else s.ready + Drain(FinishAll(GetReady(s), s.ready), rounds - 1)
  }

  /** The order of static_order: a function of the node table, and no other of its topological orders. */
  ghost function OrderOf(g: Graph): seq<Service>
    requires ValidGraph(g)
  {
    Drain(Fresh(g), |g.keys|)
  }

  lemma BatchGoesForward(g: Graph, order: seq<Service>, batch: seq<Service>, fin: set<Service>)
    requires Distinct(order) && Forward(g, order) && Elements(order) == fin
    requires Distinct(batch) && Elements(batch) !! fin
    requires forall n :: n in Elements(batch) + fin ==> PredsFinished(g, n, fin)
    ensures Distinct(order + batch) && Forward(g, order + batch)
    ensures Elements(order + batch) == fin + Elements(batch)
  {
    var all := order + batch;
    forall i, j | 0 <= i < |all| && 0 <= j < |all| && Edge(g, all[i], all[j])
      ensures i < j
    {
      assert all[j] in Elements(batch) + fin;
      assert all[i] in fin;
    }
    forall i, j | 0 <= i < j < |all|
      ensures all[i] != all[j]
    {
      if i < |order| <= j { assert all[i] in fin && all[j] in Elements(batch); }
    }
  }

  /** Handing out when nothing is passed out: the batch is not empty while progress is possible. */
  lemma ReadyIsProgress(s: Sorter, fin: set<Service>)
    requires SorterInv(s, {}, fin) && CanProgress(s)
    ensures s.ready != [] && Elements(s.ready) !! fin && Distinct(s.ready)
    ensures forall n :: n in Elements(s.ready) + fin ==> PredsFinished(s.graph, n, fin)
    ensures Elements(s.ready) <= s.graph.succ.Keys
  {}

  // ---------------------------------------------------------------- the object

  class TopologicalSorter {
    var keys: seq<Service>
    var succ: map<Service, seq<Service>>
    var npred: map<Service, int>
    var ready: seq<Service>
    var npassedout: nat
    var nfinished: nat

    function G(): Graph
      reads this
    {
      Graph(keys, succ)
    }

    function State(): Sorter
      reads this
    {
      Sorter(G(), npred, ready, npassedout, nfinished)
    }

    /** Not prepared yet. */
    ghost predicate Built()
      reads this
    {
      Counts(G(), npred) && ready == [] && npassedout == 0 && nfinished == 0
    }

    constructor ()
      ensures Built() && G() == EMPTY_GRAPH
    {
      keys, succ, npred, ready, npassedout, nfinished := [], map[], map[], [], 0, 0;
    }

    constructor Copy(other: TopologicalSorter)
      ensures State() == other.State()
    {
      keys, succ, npred := other.keys, other.succ, other.npred;
      ready, npassedout, nfinished := other.ready, other.npassedout, other.nfinished;
    }

    /** add(node) */
    method Add(node: Service)
      requires Built()
      modifies this
      ensures Built() && G() == WithNode(old(G()), node)
    {
      CountsWithNode(G(), npred, node);
      if node !in succ {
        keys, succ, npred := keys + [node], succ[node := []], npred[node := 0];
      }
    }

    /** add(node, pred) */
    method AddAfter(node: Service, pred: Service)
      requires Built()
      modifies this
      ensures Built() && G() == WithAfter(old(G()), node, pred)
    {
      Add(node);
      Add(pred);
      CountEdge(pred, node);
    }

    method CountEdge(pred: Service, node: Service)
      requires Built() && pred in succ && node in succ
      modifies this
      ensures Built() && G() == WithEdge(old(G()), pred, node)
    {
      CountsWithEdge(G(), npred, pred, node);
      npred := npred[node := npred[node] + 1];
      succ := succ[pred := succ[pred] + [node]];
    }

    /** Peels off the sources again and again; what cannot be peeled holds a cycle. */
    method FindCycle() returns (found: bool)
      requires ValidGraph(G())
      ensures found <==> Cyclic(G())
    {
      var rest := succ.Keys;
      ghost var rank: map<Service, nat>, level: nat := map[], 0;
      while Sources(G(), rest) != {}
        invariant PeeledTo(G(), rest, rank, level)
        decreases rest
      {
        PeelStep(G(), rest, rank, level);
        rank := rank + map n | n in Sources(G(), rest) :: level;
        rest, level := rest - Sources(G(), rest), level + 1;
      }
      found := rest != {};
      if found {
        NoSourcesIsStuck(G(), rest);
      } else {
        RankedIsAcyclic(G(), rank);
      }
    }

    /** False stands for the library's CycleError. */
    method Prepare() returns (acyclic: bool)
      requires Built()
      modifies this`ready
      ensures acyclic <==> !Cyclic(G())
      ensures SorterInv(State(), {}, {}) && State() == Fresh(G())
    {
      hide Cyclic, SorterInv, Counts, Fresh, Zeros;
      CountsAreFresh(G(), npred);
      CollectReady();
      FreshKeepsInv(G());
      var found := FindCycle();
      acyclic := !found;
    }

    method CollectReady()
      requires forall k :: k in keys ==> k in npred
      modifies this`ready
      ensures ready == Zeros(npred, keys)
    {
      hide Zeros;
      var collected: seq<Service> := [];
      assert keys[0..] == keys;
      for i := 0 to |keys|
        invariant collected + Zeros(npred, keys[i..]) == Zeros(npred, keys)
      {
        assert keys[i] in keys;
        ZerosStep(npred, keys, i);
        if npred[keys[i]] == 0 { collected := collected + [keys[i]]; }
      }
      ZerosEnd(npred, keys);
      ready := collected;
    }

    method IsActive() returns (active: bool)
      ensures active == CanProgress(State())
    {
      active := nfinished < npassedout || ready != [];
    }

    method TakeReady() returns (batch: seq<Service>)
      requires forall n :: n in ready ==> n in npred
      modifies this
      ensures batch == old(ready) && State() == GetReady(old(State()))
    {
      batch := ready;
      for i := 0 to |batch|
        invariant npred.Keys == old(npred).Keys
        invariant forall n :: n in npred ==> npred[n] == if n in batch[..i] then NODE_OUT else old(npred)[n]
        invariant G() == old(G()) && npassedout == old(npassedout) && nfinished == old(nfinished)
      {
        npred := npred[batch[i] := NODE_OUT];
      }
      assert batch[..|batch|] == batch;
      ready, npassedout := [], npassedout + |batch|;
    }

    method MarkDone(node: Service)
      requires CanFinish(State(), node)
      modifies this
      ensures State() == Finish(old(State()), node)
    {
      npred := npred[node := NODE_DONE];
      var succs := succ[node];
      for i := 0 to |succs|
        invariant forall n :: n in succs ==> n in npred
        invariant Release(npred, ready, succs[i..]) == Release(old(npred)[node := NODE_DONE], old(ready), succs)
        invariant G() == old(G()) && npassedout == old(npassedout) && nfinished == old(nfinished)
      {
        assert succs[i..][1..] == succs[i + 1..];
        npred := npred[succs[i] := npred[succs[i]] - 1];
        if npred[succs[i]] == 0 { ready := ready + [succs[i]]; }
      }
      nfinished := nfinished + 1;
    }

    /** TopologicalSorter2.successors: a scan of the node table. */
    method Successors(node: Service) returns (r: Option<seq<Service>>)
      requires ValidGraph(G())
      ensures r == if node in succ then Some(succ[node]) else None
    {
      for i := 0 to |keys|
        invariant node !in keys[..i]
      {
        if keys[i] == node { return Some(succ[keys[i]]); }
      }
      r := None;
    }

    /** done(*batch) on everything that was just passed out. */
    method MarkAllDone(batch: seq<Service>, ghost fin: set<Service>)
      requires Distinct(batch) && SorterInv(State(), Elements(batch), fin)
      modifies this
      ensures SorterInv(State(), {}, fin + Elements(batch)) && G() == old(G())
      ensures State() == FinishAll(old(State()), batch)
    {
      hide SorterInv, CanFinish;
      SplitEnds(batch, fin);
      for i := 0 to |batch|
        invariant SorterInv(State(), Elements(batch[i..]), fin + Elements(batch[..i])) && G() == old(G())
        invariant FinishAll(State(), batch[i..]) == FinishAll(old(State()), batch)
      {
        MarkStep(State(), batch, i, fin);
        assert batch[i..][0] == batch[i] && batch[i..][1..] == batch[i + 1..];
        MarkDone(batch[i]);
      }
    }

    /** static_order: prepare, then hand out and finish batch after batch.  False stands for CycleError. */
    method StaticOrder() returns (acyclic: bool, order: seq<Service>)
      requires Built()
      modifies this
      ensures G() == old(G())
      ensures acyclic <==> !Cyclic(G())
      ensures if acyclic then TopoOrder(G(), order) && order == OrderOf(G()) else order == []
    {
      hide SorterInv, Counts, Cyclic, OrderSoFar, TopoOrder, Fresh, FinishAll, CanProgress, Distinct;
      order := [];
      acyclic := Prepare();
      if !acyclic { return; }
      InvIsValid(State(), {}, {});
      ghost var fin: set<Service>, g: Graph, rounds: nat := {}, G(), |G().keys|;
      OrderBegins(g);
      var active := IsActive();
      while active
        invariant OrderSoFar(State(), fin, rounds, order) && G() == g && active == CanProgress(State())
        decreases rounds
      {
        OrderGoesOn(State(), fin, rounds, order);
        var batch := TakeReady();
        order := order + batch;
        MarkAllDone(batch, fin);
        fin, rounds := fin + Elements(batch), rounds - 1;
        active := IsActive();
      }
      OrderEnds(State(), fin, rounds, order);
    }
  }

  /** The order up to some batch, with what is still to come. */
  ghost predicate OrderSoFar(s: Sorter, fin: set<Service>, rounds: nat, order: seq<Service>) {
    && SorterInv(s, {}, fin)
    && Distinct(order) && Forward(s.graph, order) && Elements(order) == fin
    && |s.graph.succ.Keys - fin| <= rounds
    && order + Drain(s, rounds) == OrderOf(s.graph)
  }

  lemma OrderBegins(g: Graph)
    requires ValidGraph(g) && SorterInv(Fresh(g), {}, {})
    ensures OrderSoFar(Fresh(g), {}, |g.keys|, [])
  {
    hide SorterInv, Drain;
    DistinctCardinality(g.keys);
    assert g.succ.Keys - {} == Elements(g.keys);
  }

  /** One round: its batch extends the order, and one round less is enough for the rest. */
  lemma OrderGoesOn(s: Sorter, fin: set<Service>, rounds: nat, order: seq<Service>)
    requires OrderSoFar(s, fin, rounds, order) && CanProgress(s)
    ensures rounds > 0
    ensures forall n :: n in s.ready ==> n in s.npred
    ensures Distinct(s.ready) && SorterInv(GetReady(s), Elements(s.ready), fin)
    ensures var s' := FinishAll(GetReady(s), s.ready);
            SorterInv(s', {}, fin + Elements(s.ready)) && s'.graph == s.graph
            ==> OrderSoFar(s', fin + Elements(s.ready), rounds - 1, order + s.ready)
  {
    hide SorterInv, Forward, Distinct, FinishAll, CanProgress, OrderOf, PredsFinished, GetReady, Drain;
    OrderExtends(s, fin, order);
    FewerLeft(s.graph.succ.Keys, fin, Elements(s.ready));
    DrainStep(s, rounds, order);
  }

  lemma OrderExtends(s: Sorter, fin: set<Service>, order: seq<Service>)
    requires SorterInv(s, {}, fin) && CanProgress(s)
    requires Distinct(order) && Forward(s.graph, order) && Elements(order) == fin
    ensures forall n :: n in s.ready ==> n in s.npred
    ensures Distinct(s.ready) && SorterInv(GetReady(s), Elements(s.ready), fin)
    ensures Distinct(order + s.ready) && Forward(s.graph, order + s.ready)
    ensures Elements(order + s.ready) == fin + Elements(s.ready)
    ensures Elements(s.ready) != {} && Elements(s.ready) <= s.graph.succ.Keys && Elements(s.ready) !! fin
  {
    hide SorterInv, Forward, Distinct, CanProgress, PredsFinished, GetReady;
    ReadyIsProgress(s, fin);
    GetReadyKeepsInv(s, {}, fin);
    ReadyKnown(s, fin);
    BatchGoesForward(s.graph, order, s.ready, fin);
    assert {} + Elements(s.ready) == Elements(s.ready);
    assert s.ready[0] in Elements(s.ready);
  }

  lemma DrainStep(s: Sorter, rounds: nat, order: seq<Service>)
    requires CanProgress(s) && rounds > 0
    ensures order + Drain(s, rounds) == order + s.ready + Drain(FinishAll(GetReady(s), s.ready), rounds - 1)
  {}

  lemma {:induction false} FinishAllKeepsInv(s: Sorter, batch: seq<Service>, fin: set<Service>)
    requires Distinct(batch) && SorterInv(s, Elements(batch), fin)
    ensures SorterInv(FinishAll(s, batch), {}, fin + Elements(batch)) && FinishAll(s, batch).graph == s.graph
    decreases |batch|
  {
    hide SorterInv, CanFinish, Finish;
    if batch == [] {
      assert fin + Elements(batch) == fin && Elements(batch) == {};
    } else {
      var rest := batch[1..];
      assert batch == [batch[0]] + rest && batch[0] !in rest;
      assert Elements(batch) - {batch[0]} == Elements(rest);
      DoneKeepsInv(s, Elements(batch), fin, batch[0]);
      FinishKeepsGraph(s, batch[0]);
      FinishAllKeepsInv(Finish(s, batch[0]), rest, fin + {batch[0]});
      assert fin + {batch[0]} + Elements(rest) == fin + Elements(batch);
    }
  }

  lemma {:induction false} DrainIsTopo(s: Sorter, fin: set<Service>, rounds: nat, order: seq<Service>)
    requires OrderSoFar(s, fin, rounds, order) && !Cyclic(s.graph)
    ensures TopoOrder(s.graph, OrderOf(s.graph))
    decreases rounds
  {
    hide OrderSoFar, SorterInv, Distinct, TopoOrder, OrderOf, Drain, FinishAll, GetReady, CanProgress, Cyclic;
    if !CanProgress(s) {
      OrderEnds(s, fin, rounds, order);
    } else {
      OrderGoesOn(s, fin, rounds, order);
      FinishAllKeepsInv(GetReady(s), s.ready, fin);
      assert GetReady(s).graph == s.graph by { GetReadyKeepsGraph(s); }
      DrainIsTopo(FinishAll(GetReady(s), s.ready), fin + Elements(s.ready), rounds - 1, order + s.ready);
    }
  }

  lemma GetReadyKeepsGraph(s: Sorter)
    ensures GetReady(s).graph == s.graph
  {}

  /** The order of an acyclic graph has every node once and every edge forward. */
  lemma OrderIsTopo(g: Graph)
    requires ValidGraph(g) && !Cyclic(g)
    ensures TopoOrder(g, OrderOf(g))
  {
    hide SorterInv, TopoOrder, OrderOf, Cyclic;
    FreshKeepsInv(g);
    OrderBegins(g);
    DrainIsTopo(Fresh(g), {}, |g.keys|, []);
  }

  lemma FewerLeft(all: set<Service>, fin: set<Service>, batch: set<Service>)
    requires batch != {} && batch <= all && batch !! fin
    ensures |all - (fin + batch)| < |all - fin|
  {
    assert all - fin == (all - (fin + batch)) + batch;
  }

  lemma OrderEnds(s: Sorter, fin: set<Service>, rounds: nat, order: seq<Service>)
    requires OrderSoFar(s, fin, rounds, order) && !CanProgress(s) && !Cyclic(s.graph)
    ensures TopoOrder(s.graph, order) && order == OrderOf(s.graph)
  {
    hide SorterInv, Forward, Distinct, OrderOf, CanProgress, Cyclic;
    InactiveMeansFinished(s, {}, fin);
    assert order + [] == order;
  }

  lemma SplitEnds(batch: seq<Service>, fin: set<Service>)
    ensures batch[0..] == batch && fin + Elements(batch[..0]) == fin
    ensures Elements(batch[|batch|..]) == {} && batch[..|batch|] == batch
  {}

  lemma MarkStep(s: Sorter, batch: seq<Service>, i: nat, fin: set<Service>)
    requires i < |batch| && Distinct(batch)
    requires SorterInv(s, Elements(batch[i..]), fin + Elements(batch[..i]))
    ensures CanFinish(s, batch[i])
    ensures SorterInv(Finish(s, batch[i]), Elements(batch[i + 1..]), fin + Elements(batch[..i + 1]))
    ensures Finish(s, batch[i]).graph == s.graph
  {
    hide SorterInv;
    SplitAt(batch, i);
    DoneKeepsInv(s, Elements(batch[i..]), fin + Elements(batch[..i]), batch[i]);
    assert fin + Elements(batch[..i]) + {batch[i]} == fin + Elements(batch[..i + 1]);
  }

  lemma ReadyKnown(s: Sorter, fin: set<Service>)
    requires SorterInv(s, {}, fin)
    ensures forall n :: n in s.ready ==> n in s.npred
  {}

  lemma SplitAt(batch: seq<Service>, i: nat)
    requires i < |batch| && Distinct(batch)
    ensures Elements(batch[i..]) - {batch[i]} == Elements(batch[i + 1..])
    ensures Elements(batch[..i + 1]) == Elements(batch[..i]) + {batch[i]}
    ensures batch[i] in Elements(batch[i..])
  {}
}
