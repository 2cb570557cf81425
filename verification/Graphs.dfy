/**
 * Dependency graphs between services: a multigraph stored, as the sorter of
 * sm-client stores it, by the successor list of every node.  Paths, ancestors,
 * cycles, and the count of edges that still hold a node back.
 */
module Graphs {
  /** A service name.  The programs only ever compare names for equality. */
  datatype Service = Service(name: string)

  /** `keys` is the insertion order of the nodes; an edge added twice occurs twice in `succ`. */
  datatype Graph = Graph(keys: seq<Service>, succ: map<Service, seq<Service>>)

  const EMPTY_GRAPH := Graph([], map[])

  ghost predicate Distinct<T>(s: seq<T>) {
    forall i, j :: 0 <= i < j < |s| ==> s[i] != s[j]
  }

  ghost predicate ValidGraph(g: Graph) {
    && Distinct(g.keys)
    && (forall k :: k in g.keys <==> k in g.succ)
    && (forall k, n :: k in g.succ && n in g.succ[k] ==> n in g.succ)
  }

  /** n must not start before p has finished. */
  predicate Edge(g: Graph, p: Service, n: Service) {
    p in g.succ && n in g.succ[p]
  }

  ghost predicate HasPred(g: Graph, n: Service, among: set<Service>) {
    exists p :: p in among && Edge(g, p, n)
  }

  function Elements<T>(s: seq<T>): set<T> {
    set x | x in s
  }

  // ---------------------------------------------------------------- paths

  ghost predicate Path(g: Graph, a: Service, via: seq<Service>, b: Service)
    decreases |via|
  {
    if via == [] then Edge(g, a, b) else Edge(g, a, via[0]) && Path(g, via[0], via[1..], b)
  }

  /** a is a proper ancestor of b. */
  ghost predicate Ancestor(g: Graph, a: Service, b: Service) {
    exists via :: Path(g, a, via, b)
  }

  ghost predicate Cyclic(g: Graph) {
    exists a :: Ancestor(g, a, a)
  }

  lemma {:induction false} PathConcat(g: Graph, a: Service, v: seq<Service>, b: Service, w: seq<Service>, c: Service)
    requires Path(g, a, v, b) && Path(g, b, w, c)
    ensures Path(g, a, v + [b] + w, c)
    decreases |v|
  {
    if v == [] {
      assert ([] + [b] + w)[1..] == w;
    } else {
      PathConcat(g, v[0], v[1..], b, w, c);
      assert (v + [b] + w)[1..] == v[1..] + [b] + w;
    }
  }

  lemma AncestorTransitive(g: Graph, a: Service, b: Service, c: Service)
    requires Ancestor(g, a, b) && Ancestor(g, b, c)
    ensures Ancestor(g, a, c)
  {
    var v :| Path(g, a, v, b);
    var w :| Path(g, b, w, c);
    PathConcat(g, a, v, b, w, c);
  }

  lemma EdgeIsAncestor(g: Graph, a: Service, b: Service)
    requires Edge(g, a, b)
    ensures Ancestor(g, a, b)
  {
    assert Path(g, a, [], b);
  }

  /** The last step of a path, singled out. */
  lemma {:induction false} PathLastEdge(g: Graph, a: Service, via: seq<Service>, c: Service) returns (b: Service)
    requires Path(g, a, via, c)
    ensures Edge(g, b, c) && (b == a || Ancestor(g, a, b))
    decreases |via|
  {
    if via == [] {
      b := a;
    } else {
      b := PathLastEdge(g, via[0], via[1..], c);
      EdgeIsAncestor(g, a, via[0]);
      if b != via[0] { AncestorTransitive(g, a, via[0], b); }
    }
  }

  // ---------------------------------------------------------------- acyclicity

  /** A rank that grows along every edge. */
  ghost predicate Ranked(g: Graph, rank: map<Service, nat>) {
    && (forall k :: k in g.succ ==> k in rank)
    && (forall p, n :: Edge(g, p, n) ==> n in rank && rank[p] < rank[n])
  }

  lemma {:induction false} RankGrowsAlongPath(g: Graph, rank: map<Service, nat>, a: Service, via: seq<Service>,
                                              b: Service)
    requires Ranked(g, rank) && Path(g, a, via, b)
    ensures a in rank && b in rank && rank[a] < rank[b]
    decreases |via|
  {
    if via == [] {
    } else {
      RankGrowsAlongPath(g, rank, via[0], via[1..], b);
      assert Edge(g, a, via[0]);
    }
  }

  lemma RankedIsAcyclic(g: Graph, rank: map<Service, nat>)
    requires Ranked(g, rank)
    ensures !Cyclic(g)
  {
    forall a, via | Path(g, a, via, a)
      ensures false
    {
      RankGrowsAlongPath(g, rank, a, via, a);
    }
  }

  lemma AncestorsOfHead(g: Graph, seen: set<Service>, head: Service, p: Service)
    requires forall t :: t in seen ==> t == head || Ancestor(g, head, t)
    requires Ancestor(g, p, head)
    ensures forall t :: t in seen + {p} ==> t == p || Ancestor(g, p, t)
  {
    hide Ancestor;
    forall t | t in seen && t != head && t != p
      ensures Ancestor(g, p, t)
    {
      AncestorTransitive(g, p, head, t);
    }
  }

  /** Walking backwards inside a set in which every node has a predecessor must close a cycle. */
  lemma {:induction false} ChaseBack(g: Graph, u: set<Service>, seen: set<Service>, head: Service)
    requires forall n :: n in u ==> HasPred(g, n, u)
    requires head in seen && seen <= u
    requires forall t :: t in seen ==> t == head || Ancestor(g, head, t)
    ensures Cyclic(g)
    decreases u - seen
  {
    hide Ancestor, Edge;
    var p :| p in u && Edge(g, p, head);
    EdgeIsAncestor(g, p, head);
    if p in seen {
      if p != head { AncestorTransitive(g, head, p, head); }
    } else {
      AncestorsOfHead(g, seen, head, p);
      ChaseBack(g, u, seen + {p}, p);
    }
  }

  lemma StuckMeansCycle(g: Graph, u: set<Service>)
    requires u != {} && forall n :: n in u ==> HasPred(g, n, u)
    ensures Cyclic(g)
  {
    var h :| h in u;
    ChaseBack(g, u, {h}, h);
  }

  /** In an acyclic graph every non-empty set of nodes has one without a predecessor in the set. */
  lemma AcyclicHasSource(g: Graph, u: set<Service>) returns (n: Service)
    requires !Cyclic(g) && u != {}
    ensures n in u && !HasPred(g, n, u)
  {
    if forall n :: n in u ==> HasPred(g, n, u) {
      StuckMeansCycle(g, u);
      assert false;
    }
    n :| n in u && !HasPred(g, n, u);
  }

  // ---------------------------------------------------------------- pending edges

  /** How many edges into n come from nodes of ks outside fin, each occurrence counted. */
  ghost function Pending(g: Graph, ks: seq<Service>, n: Service, fin: set<Service>): nat
    requires forall k :: k in ks ==> k in g.succ
  {
    if ks == [] then 0 else
      var k := ks[|ks| - 1];
      Pending(g, ks[..|ks| - 1], n, fin) + (if k in fin then 0 else multiset(g.succ[k])[n])
  }

  lemma {:induction false} PendingZero(g: Graph, ks: seq<Service>, n: Service, fin: set<Service>)
    requires forall k :: k in ks ==> k in g.succ
    ensures Pending(g, ks, n, fin) == 0 <==> forall p :: p in ks && Edge(g, p, n) ==> p in fin
  {
    if ks == [] {
    } else {
      var k := ks[|ks| - 1];
      PendingZero(g, ks[..|ks| - 1], n, fin);
      assert forall p :: p in ks <==> p in ks[..|ks| - 1] || p == k;
    }
  }

  lemma {:induction false} PendingSame(g: Graph, ks: seq<Service>, n: Service, fin: set<Service>, p: Service)
    requires forall k :: k in ks ==> k in g.succ
    requires p !in ks
    ensures Pending(g, ks, n, fin + {p}) == Pending(g, ks, n, fin)
  {
    if ks == [] {
    } else {
      PendingSame(g, ks[..|ks| - 1], n, fin, p);
    }
  }

  /** Finishing p releases exactly the occurrences of n in its successor list. */
  lemma {:induction false} PendingFinish(g: Graph, ks: seq<Service>, n: Service, fin: set<Service>, p: Service)
    requires Distinct(ks) && forall k :: k in ks ==> k in g.succ
    requires p in ks && p !in fin
    ensures Pending(g, ks, n, fin + {p}) == Pending(g, ks, n, fin) - multiset(g.succ[p])[n]
  {
    var k := ks[|ks| - 1];
    if k == p {
      PendingSame(g, ks[..|ks| - 1], n, fin, p);
    } else {
      PendingFinish(g, ks[..|ks| - 1], n, fin, p);
    }
  }
}
