/**
 * Planning: the services of one or both sites are merged into one dependency table, the table
 * is turned into a graph, and the graph is ordered.
 */
module Prepare {
  import opened Graphs
  import opened Sorters
  import opened Wrappers
  import opened Schedules
  import opened Engine
  import opened Cluster

  // ---------------------------------------------------------------- which services take part

  /** Python's `in` between two strings. */
  predicate Substring(a: string, b: string)
    decreases |b|
  {
    a <= b || (b != "" && Substring(a, b[1..]))
  }

  /** It occurs at some place. */
  lemma {:induction false} SubstringIff(a: string, b: string)
    ensures Substring(a, b) <==> exists i :: 0 <= i <= |b| && a <= b[i..]
    decreases |b|
  {
    if a <= b || b == "" {
      assert b[0..] == b;
    } else {
      SubstringIff(a, b[1..]);
      forall i | 0 <= i < |b|
        ensures b[1..][i..] == b[i + 1..]
      {
      }
      if i :| 0 <= i <= |b| && a <= b[i..] {
        assert i > 0 by { assert b[0..] == b; }
        assert a <= b[1..][i - 1..];
      }
      if i :| 0 <= i <= |b[1..]| && a <= b[1..][i..] {
        assert a <= b[i + 1..];
      }
    }
  }

  /** An empty `run` selects every service. */
  datatype Selection = Selection(mod: string, run: seq<Service>, ignored: seq<Service>)

  predicate Included(conf: ServiceConf, s: Service, f: Selection) {
    Substring(conf.mod, f.mod) && (f.run == [] || s in f.run) && s !in f.ignored
  }

  // ---------------------------------------------------------------- merging the sites

  datatype Deps = Deps(before: seq<Service>, after: seq<Service>)

  /** The dependency table, with its insertion order. */
  datatype Table = Table(keys: seq<Service>, deps: map<Service, Deps>)

  const EMPTY_TABLE := Table([], map[])

  function NotIn(ds: seq<Service>, have: seq<Service>): seq<Service> {
    if ds == [] then []
    else if ds[0] in have then NotIn(ds[1..], have) else [ds[0]] + NotIn(ds[1..], have)
  }

  /** The additions are computed against the list before the addition, so duplicates inside one site's list stay. */
  function MergeService(m: Table, s: Service, conf: ServiceConf): Table {
    var d := if s in m.deps then m.deps[s] else Deps([], []);
    Table(if s in m.deps then m.keys else m.keys + [s],
          m.deps[s := Deps(d.before + NotIn(conf.before, d.before), d.after + NotIn(conf.after, d.after))])
  }

  function MergeOrder(m: Table, site: SiteState, order: seq<Service>, f: Selection): Table
    decreases |order|
  {
    if order == [] then m
    else MergeOrder(if order[0] in site.services && Included(site.services[order[0]], order[0], f)
                    then MergeService(m, order[0], site.services[order[0]]) else m,
                    site, order[1..], f)
  }

  function MergeSites(m: Table, c: ClusterState, sites: seq<Site>, f: Selection): Table
    decreases |sites|
  {
    if sites == [] then m
    else
      var m' := if sites[0] in c.at then MergeOrder(m, c.at[sites[0]], c.at[sites[0]].order, f) else m;
      MergeSites(m', c, sites[1..], f)
  }

  method DepsToAdd(ds: seq<Service>, have: seq<Service>) returns (r: seq<Service>)
    ensures r == NotIn(ds, have)
  {
    r := [];
    for i := 0 to |ds|
      invariant r + NotIn(ds[i..], have) == NotIn(ds, have)
    {
      assert ds[i..][0] == ds[i] && ds[i..][1..] == ds[i + 1..];
      if ds[i] !in have { r := r + [ds[i]]; }
    }
  }

  method MergeSite(m: Table, site: SiteState, f: Selection) returns (r: Table)
    ensures r == MergeOrder(m, site, site.order, f)
  {
    r := m;
    for i := 0 to |site.order|
      invariant MergeOrder(r, site, site.order[i..], f) == MergeOrder(m, site, site.order, f)
    {
      var s := site.order[i];
      assert site.order[i..][0] == s && site.order[i..][1..] == site.order[i + 1..];
      if s !in site.services || !Substring(site.services[s].mod, f.mod) { continue; }
      if (f.run != [] && s !in f.run) || s in f.ignored { continue; }
      var d := if s in r.deps then r.deps[s] else Deps([], []);
      var before := DepsToAdd(site.services[s].before, d.before);
      var after := DepsToAdd(site.services[s].after, d.after);
      r := Table(if s in r.deps then r.keys else r.keys + [s],
                 r.deps[s := Deps(d.before + before, d.after + after)]);
    }
  }

  method MergeServices(c: ClusterState, sites: seq<Site>, f: Selection) returns (m: Table)
    ensures m == MergeSites(EMPTY_TABLE, c, sites, f)
  {
    m := EMPTY_TABLE;
    for i := 0 to |sites|
      invariant MergeSites(m, c, sites[i..], f) == MergeSites(EMPTY_TABLE, c, sites, f)
    {
      assert sites[i..][0] == sites[i] && sites[i..][1..] == sites[i + 1..];
      if sites[i] in c.at { m := MergeSite(m, c.at[sites[i]], f); }
    }
  }

  // ---------------------------------------------------------------- the graph

  predicate HasFirst(ds: seq<Service>, d: Service) {
    ds != [] && ds[0] == d
  }

  /** The edges the table asks for: only the first entry of each list counts, and only if it takes part. */
  predicate Wants(m: Table, p: Service, n: Service) {
    && p in m.deps && n in m.deps
    && (HasFirst(m.deps[n].after, p) || HasFirst(m.deps[p].before, n))
  }

  function AddService(g: Graph, m: Table, s: Service): Graph
    requires s in m.deps
  {
    var d := m.deps[s];
    var g1 := WithNode(g, s);
    var g2 := if d.after != [] && d.after[0] in m.deps then WithAfter(g1, s, d.after[0]) else g1;
    if d.before != [] && d.before[0] in m.deps then WithAfter(g2, d.before[0], s) else g2
  }

  function BuildFrom(g: Graph, m: Table, ks: seq<Service>): Graph
    requires forall k :: k in ks ==> k in m.deps
    decreases |ks|
  {
    if ks == [] then g else BuildFrom(AddService(g, m, ks[0]), m, ks[1..])
  }

  ghost predicate ValidTable(m: Table) {
    Distinct(m.keys) && forall k :: k in m.keys <==> k in m.deps
  }

  function GraphOf(m: Table): Graph
    requires forall k :: k in m.keys ==> k in m.deps
  {
    BuildFrom(EMPTY_GRAPH, m, m.keys)
  }

  method BuildAfterBeforeGraph(m: Table) returns (ts: TopologicalSorter)
    requires ValidTable(m)
    ensures fresh(ts) && ts.Built() && ts.G() == GraphOf(m)
  {
    hide Counts, AddService, BuildFrom;
    ts := new TopologicalSorter();
    assert m.keys[0..] == m.keys;
    for i := 0 to |m.keys|
      invariant fresh(ts) && ts.Built()
      invariant BuildFrom(ts.G(), m, m.keys[i..]) == GraphOf(m)
    {
      BuildUnfolds(ts.G(), m, i);
      AddServiceTo(ts, m, m.keys[i]);
    }
    BuildEnds(ts.G(), m);
  }

  lemma BuildUnfolds(g: Graph, m: Table, i: nat)
    requires ValidTable(m) && i < |m.keys|
    ensures BuildFrom(g, m, m.keys[i..]) == BuildFrom(AddService(g, m, m.keys[i]), m, m.keys[i + 1..])
  {
    hide AddService;
    assert m.keys[i..][0] == m.keys[i] && m.keys[i..][1..] == m.keys[i + 1..];
  }

  lemma BuildEnds(g: Graph, m: Table)
    ensures BuildFrom(g, m, m.keys[|m.keys|..]) == g
  {}

  method AddServiceTo(ts: TopologicalSorter, m: Table, s: Service)
    requires ts.Built() && s in m.deps
    modifies ts
    ensures ts.Built() && ts.G() == AddService(old(ts.G()), m, s)
  {
    hide Counts, WithNode, WithAfter;
    var d := m.deps[s];
    ts.Add(s);
    if d.after != [] && d.after[0] in m.deps { ts.AddAfter(s, d.after[0]); }
    if d.before != [] && d.before[0] in m.deps { ts.AddAfter(d.before[0], s); }
  }

  /** s contributes the edge from p to n. */
  predicate Contributes(m: Table, s: Service, p: Service, n: Service) {
    Wants(m, p, n) && ((s == n && HasFirst(m.deps[n].after, p)) || (s == p && HasFirst(m.deps[p].before, n)))
  }

  lemma NodeKeepsEdges(g: Graph, x: Service, p: Service, n: Service)
    ensures Edge(WithNode(g, x), p, n) <==> Edge(g, p, n)
    ensures WithNode(g, x).succ.Keys == g.succ.Keys + {x}
  {}

  lemma AfterAddsEdge(g: Graph, x: Service, y: Service, p: Service, n: Service)
    ensures Edge(WithAfter(g, x, y), p, n) <==> Edge(g, p, n) || (p == y && n == x)
    ensures WithAfter(g, x, y).succ.Keys == g.succ.Keys + {x, y}
  {}

  lemma ServiceAddsEdges(g: Graph, m: Table, s: Service, p: Service, n: Service)
    requires s in m.deps
    ensures Edge(AddService(g, m, s), p, n) <==> Edge(g, p, n) || Contributes(m, s, p, n)
    ensures g.succ.Keys + {s} <= AddService(g, m, s).succ.Keys
    ensures g.succ.Keys <= m.deps.Keys ==> AddService(g, m, s).succ.Keys <= m.deps.Keys
  {
    hide WithAfter, WithNode, Edge;
    var d, g1 := m.deps[s], WithNode(g, s);
    NodeKeepsEdges(g, s, p, n);
    var g2 := if d.after != [] && d.after[0] in m.deps then WithAfter(g1, s, d.after[0]) else g1;
    if d.after != [] { AfterAddsEdge(g1, s, d.after[0], p, n); }
    if d.before != [] { AfterAddsEdge(g2, d.before[0], s, p, n); }
  }

  lemma {:induction false} BuildAddsEdges(g: Graph, m: Table, ks: seq<Service>, p: Service, n: Service)
    requires forall k :: k in ks ==> k in m.deps
    ensures Edge(BuildFrom(g, m, ks), p, n) <==> Edge(g, p, n) || exists s :: s in ks && Contributes(m, s, p, n)
    ensures g.succ.Keys + Elements(ks) <= BuildFrom(g, m, ks).succ.Keys
    ensures g.succ.Keys <= m.deps.Keys ==> BuildFrom(g, m, ks).succ.Keys <= m.deps.Keys
    decreases |ks|
  {
    hide Edge, Contributes, AddService;
    if ks == [] {
    } else {
      ServiceAddsEdges(g, m, ks[0], p, n);
      BuildAddsEdges(AddService(g, m, ks[0]), m, ks[1..], p, n);
      assert forall s :: s in ks <==> s == ks[0] || s in ks[1..];
      assert Elements(ks) == {ks[0]} + Elements(ks[1..]);
    }
  }

  /** The graph has the included services as nodes and exactly the wanted edges. */
  lemma GraphIsWanted(m: Table)
    requires ValidTable(m)
    ensures GraphOf(m).succ.Keys == m.deps.Keys
    ensures forall p, n :: Edge(GraphOf(m), p, n) <==> Wants(m, p, n)
  {
    hide Edge, AddService, BuildFrom;
    assert m.deps.Keys == Elements(m.keys);
    BuildAddsEdges(EMPTY_GRAPH, m, m.keys, Service(""), Service(""));
    forall p, n
      ensures Edge(GraphOf(m), p, n) <==> Wants(m, p, n)
    {
      BuildAddsEdges(EMPTY_GRAPH, m, m.keys, p, n);
      assert !Edge(EMPTY_GRAPH, p, n) by { NoEdges(p, n); }
      if Wants(m, p, n) {
        assert Contributes(m, if HasFirst(m.deps[n].after, p) then n else p, p, n);
      }
    }
  }

  lemma NoEdges(p: Service, n: Service)
    ensures !Edge(EMPTY_GRAPH, p, n)
  {}

  // ---------------------------------------------------------------- the integrity check

  predicate AllIn(ds: seq<Service>, m: Table) {
    forall d | d in ds :: d in m.deps
  }

  /** Every listed dependency, not only the first of each list, takes part. */
  predicate DepsIncluded(m: Table) {
    forall k | k in m.deps :: AllIn(m.deps[k].before, m) && AllIn(m.deps[k].after, m)
  }

  function Missing(ds: seq<Service>, m: Table): seq<Service> {
    if ds == [] then [] else if ds[0] in m.deps then Missing(ds[1..], m) else [ds[0]] + Missing(ds[1..], m)
  }

  lemma {:induction false} MissingNone(ds: seq<Service>, m: Table)
    ensures Missing(ds, m) == [] <==> AllIn(ds, m)
  {
    if ds == [] {
    } else {
      MissingNone(ds[1..], m);
      assert forall d :: d in ds <==> d == ds[0] || d in ds[1..];
    }
  }

  /** The code records a service's missing `before` entries only if it has no missing `after` entries. */
  function WrongDeps(m: Table, k: Service): Deps
    requires k in m.deps
  {
    var after := Missing(m.deps[k].after, m);
    Deps(if after == [] then Missing(m.deps[k].before, m) else [], after)
  }

  method MissingDeps(ds: seq<Service>, m: Table) returns (r: seq<Service>)
    ensures r == Missing(ds, m)
  {
    r := [];
    for i := 0 to |ds|
      invariant r + Missing(ds[i..], m) == Missing(ds, m)
    {
      assert ds[i..][0] == ds[i] && ds[i..][1..] == ds[i + 1..];
      if ds[i] !in m.deps { r := r + [ds[i]]; }
    }
  }

  method AfterBeforeCheck(m: Table) returns (wrong: map<Service, Deps>)
    requires ValidTable(m)
    ensures forall k :: k in wrong <==> k in m.deps && WrongDeps(m, k) != Deps([], [])
    ensures forall k :: k in wrong ==> wrong[k] == WrongDeps(m, k)
  {
    wrong := map[];
    for i := 0 to |m.keys|
      invariant forall k :: k in wrong <==> k in m.keys[..i] && WrongDeps(m, k) != Deps([], [])
      invariant forall k :: k in wrong ==> wrong[k] == WrongDeps(m, k)
    {
      var k := m.keys[i];
      assert k !in m.keys[..i];
      var after := MissingDeps(m.deps[k].after, m);
      if after != [] { wrong := wrong[k := Deps([], after)]; }
      var before := MissingDeps(m.deps[k].before, m);
      if before != [] && k !in wrong { wrong := wrong[k := Deps(before, [])]; }
    }
  }

  lemma NothingWrong(m: Table)
    ensures DepsIncluded(m) <==> forall k :: k in m.deps ==> WrongDeps(m, k) == Deps([], [])
  {
    forall k | k in m.deps
      ensures WrongDeps(m, k) == Deps([], []) <==> AllIn(m.deps[k].before, m) && AllIn(m.deps[k].after, m)
    {
      MissingNone(m.deps[k].after, m);
      MissingNone(m.deps[k].before, m);
    }
  }

  // ---------------------------------------------------------------- make_ordered_services_to_process

  /** The dependency table a plan is made from. */
  function TableOf(c: ClusterState, sites: seq<Site>, f: Selection): (m: Table)
    ensures ValidTable(m)
  {
    MergeSitesValid(EMPTY_TABLE, c, sites, f);
    MergeSites(EMPTY_TABLE, c, sites, f)
  }

  lemma {:induction false} MergeOrderValid(m: Table, site: SiteState, order: seq<Service>, f: Selection)
    requires ValidTable(m)
    ensures ValidTable(MergeOrder(m, site, order, f))
    decreases |order|
  {
    if order == [] {
    } else {
      MergeOrderValid(if order[0] in site.services && Included(site.services[order[0]], order[0], f)
                      then MergeService(m, order[0], site.services[order[0]]) else m, site, order[1..], f);
    }
  }

  lemma {:induction false} MergeSitesValid(m: Table, c: ClusterState, sites: seq<Site>, f: Selection)
    requires ValidTable(m)
    ensures ValidTable(MergeSites(m, c, sites, f))
    decreases |sites|
  {
    if sites == [] {
    } else {
      var m' := if sites[0] in c.at then MergeOrder(m, c.at[sites[0]], c.at[sites[0]].order, f) else m;
      if sites[0] in c.at { MergeOrderValid(m, c.at[sites[0]], c.at[sites[0]].order, f); }
      MergeSitesValid(m', c, sites[1..], f);
    }
  }

  lemma {:induction false} BuildIsValid(g: Graph, m: Table, ks: seq<Service>)
    requires ValidGraph(g) && forall k :: k in ks ==> k in m.deps
    ensures ValidGraph(BuildFrom(g, m, ks))
    decreases |ks|
  {
    hide ValidGraph, AddService;
    if ks == [] {
    } else {
      AddServiceIsValid(g, m, ks[0]);
      BuildIsValid(AddService(g, m, ks[0]), m, ks[1..]);
    }
  }

  lemma AddServiceIsValid(g: Graph, m: Table, s: Service)
    requires ValidGraph(g) && s in m.deps
    ensures ValidGraph(AddService(g, m, s))
  {
    hide ValidGraph, WithAfter;
    var d := m.deps[s];
    var g1 := WithNode(g, s);
    NodeIsValid(g, s);
    var g2 := if d.after != [] && d.after[0] in m.deps then WithAfter(g1, s, d.after[0]) else g1;
    if d.after != [] { AfterIsValid(g1, s, d.after[0]); }
    if d.before != [] { AfterIsValid(g2, d.before[0], s); }
  }

  lemma AfterIsValid(g: Graph, x: Service, y: Service)
    requires ValidGraph(g)
    ensures ValidGraph(WithAfter(g, x, y))
  {
    NodeIsValid(g, x);
    NodeIsValid(WithNode(g, x), y);
    var g' := WithNode(WithNode(g, x), y);
    assert forall n :: n in g'.succ[y] + [x] <==> n in g'.succ[y] || n == x;
  }

  /** The graph of a plan. */
  function PlannedGraph(c: ClusterState, sites: seq<Site>, f: Selection): (g: Graph)
    ensures ValidGraph(g)
  {
    BuildIsValid(EMPTY_GRAPH, TableOf(c, sites, f), TableOf(c, sites, f).keys);
    GraphOf(TableOf(c, sites, f))
  }

  ghost function PlannedSorter(c: ClusterState, sites: seq<Site>, f: Selection): Sorter {
    Fresh(PlannedGraph(c, sites, f))
  }

  ghost function PlannedOrder(c: ClusterState, sites: seq<Site>, f: Selection): seq<Service> {
    OrderOf(PlannedGraph(c, sites, f))
  }

  /** The plan for the given sites: an order, whether it has no issue at all, and a prepared sorter. */
  method MakeOrderedServicesToProcess(c: ClusterState, sites: seq<Site>, f: Selection)
      returns (order: seq<Service>, clean: bool, ts: Option<TopologicalSorter>)
    ensures ts.None? <==> Cyclic(PlannedGraph(c, sites, f))
    ensures ts.None? ==> order == [] && !clean
    ensures ts.Some? ==> fresh(ts.value) && Prepared(ts.value.State())
    ensures ts.Some? ==> ts.value.State() == PlannedSorter(c, sites, f)
    ensures ts.Some? ==> order == PlannedOrder(c, sites, f) && TopoOrder(ts.value.G(), order)
    ensures ts.Some? ==> (clean <==> DepsIncluded(TableOf(c, sites, f)))
  {
    hide Counts, Cyclic, TopoOrder, SorterInv, DepsIncluded, GraphOf, MergeSites, MergeOrder, Fresh, OrderOf;
    var m := MergeServices(c, sites, f);
    assert m == TableOf(c, sites, f);
    var first := BuildAfterBeforeGraph(m);
    var acyclic;
    acyclic, order := first.StaticOrder();
    if !acyclic { return [], false, None; }
    var wrong := AfterBeforeCheck(m);
    NothingWrong(m);
    clean := wrong == map[];
    assert clean <==> forall k :: k !in wrong;
    var sorter := BuildAfterBeforeGraph(m);
    acyclic := sorter.Prepare();
    ts := Some(sorter);
  }

  // ---------------------------------------------------------------- what the order means

  predicate TakesPartAt(c: ClusterState, site: Site, f: Selection, s: Service) {
    Has(c, site, s) && Included(ConfOf(c, site, s), s, f)
  }

  predicate TakesPart(c: ClusterState, sites: seq<Site>, f: Selection, s: Service) {
    exists site | site in sites :: TakesPartAt(c, site, f, s)
  }

  lemma {:induction false} MergeOrderKeys(m: Table, site: SiteState, order: seq<Service>, f: Selection)
    ensures forall s :: s in MergeOrder(m, site, order, f).deps <==>
              s in m.deps || (s in order && s in site.services && Included(site.services[s], s, f))
    decreases |order|
  {
    if order == [] {
    } else {
      var s := order[0];
      MergeOrderKeys(if s in site.services && Included(site.services[s], s, f)
                     then MergeService(m, s, site.services[s]) else m, site, order[1..], f);
    }
  }

  lemma MergeSiteKeys(m: Table, c: ClusterState, site: Site, f: Selection)
    requires ValidCluster(c) && site in c.at
    ensures forall s :: s in MergeOrder(m, c.at[site], c.at[site].order, f).deps <==>
              s in m.deps || TakesPartAt(c, site, f, s)
  {
    hide Included, MergeOrder;
    MergeOrderKeys(m, c.at[site], c.at[site].order, f);
  }

  lemma {:induction false} MergeSitesKeys(m: Table, c: ClusterState, sites: seq<Site>, f: Selection)
    requires ValidCluster(c)
    ensures forall s :: s in MergeSites(m, c, sites, f).deps <==> s in m.deps || TakesPart(c, sites, f, s)
    decreases |sites|
  {
    hide Included, MergeOrder, ValidCluster;
    if sites == [] {
    } else {
      var site := sites[0];
      if site in c.at { MergeSiteKeys(m, c, site, f); }
      MergeSitesKeys(if site in c.at then MergeOrder(m, c.at[site], c.at[site].order, f) else m, c, sites[1..], f);
      assert sites == [site] + sites[1..];
      assert forall s :: TakesPart(c, sites, f, s) <==> TakesPartAt(c, site, f, s) || TakesPart(c, sites[1..], f, s);
    }
  }

  /**
   * The returned order is a permutation of the participating services that respects every first `after` and first
   * `before` entry naming a participating service; there is no plan exactly when those entries form a cycle.
   */
  lemma PlanIsOrdered(c: ClusterState, sites: seq<Site>, f: Selection, order: seq<Service>)
    requires ValidCluster(c) && TopoOrder(PlannedGraph(c, sites, f), order)
    ensures Distinct(order) && forall s :: s in order <==> TakesPart(c, sites, f, s)
    ensures forall s :: s in order <==>
              exists site :: site in sites && Has(c, site, s) && Substring(ConfOf(c, site, s).mod, f.mod)
                && (f.run == [] || s in f.run) && s !in f.ignored
    ensures var m := TableOf(c, sites, f);
            forall i, j :: 0 <= i < |order| && 0 <= j < |order| && Wants(m, order[i], order[j]) ==> i < j
  {
    hide Edge, GraphOf, ValidCluster, TakesPart, Cyclic;
    GraphIsWanted(TableOf(c, sites, f));
    MergeSitesKeys(EMPTY_TABLE, c, sites, f);
    forall s { TakesPartIff(c, sites, f, s); }
  }

  lemma TakesPartIff(c: ClusterState, sites: seq<Site>, f: Selection, s: Service)
    ensures TakesPart(c, sites, f, s) <==>
            exists site :: site in sites && Has(c, site, s) && Substring(ConfOf(c, site, s).mod, f.mod)
              && (f.run == [] || s in f.run) && s !in f.ignored
  {
    hide Substring;
  }

  /** Some participating site lists d among the before, or the after, of s. */
  predicate Lists(c: ClusterState, sites: seq<Site>, f: Selection, s: Service, d: Service, before: bool) {
    exists site | site in sites :: ListedBy(c, site, f, s, d, before)
  }

  predicate InTable(m: Table, s: Service, d: Service, before: bool) {
    s in m.deps && d in if before then m.deps[s].before else m.deps[s].after
  }

  lemma {:induction false} NotInMembers(ds: seq<Service>, have: seq<Service>)
    ensures forall d :: d in NotIn(ds, have) <==> d in ds && d !in have
  {
    if ds == [] {
    } else {
      NotInMembers(ds[1..], have);
      assert forall d :: d in ds <==> d == ds[0] || d in ds[1..];
    }
  }

  lemma MergeServiceAdds(m: Table, x: Service, conf: ServiceConf, s: Service, d: Service, before: bool)
    ensures InTable(MergeService(m, x, conf), s, d, before) <==>
            InTable(m, s, d, before) || (s == x && d in if before then conf.before else conf.after)
  {
    var old0 := if x in m.deps then m.deps[x] else Deps([], []);
    NotInMembers(conf.before, old0.before);
    NotInMembers(conf.after, old0.after);
  }

  lemma {:induction false} MergeOrderAdds(m: Table, site: SiteState, order: seq<Service>, f: Selection, s: Service,
                                          d: Service, before: bool)
    ensures InTable(MergeOrder(m, site, order, f), s, d, before) <==>
            InTable(m, s, d, before)
            || (s in order && s in site.services && Included(site.services[s], s, f)
                && d in if before then site.services[s].before else site.services[s].after)
    decreases |order|
  {
    hide InTable, MergeService, Included;
    if order == [] {
    } else {
      var x := order[0];
      var takes := x in site.services && Included(site.services[x], x, f);
      if takes { MergeServiceAdds(m, x, site.services[x], s, d, before); }
      MergeOrderAdds(if takes then MergeService(m, x, site.services[x]) else m, site, order[1..], f, s, d, before);
      assert s in order <==> s == x || s in order[1..];
    }
  }

  predicate ListedBy(c: ClusterState, site: Site, f: Selection, s: Service, d: Service, before: bool) {
    TakesPartAt(c, site, f, s) && d in if before then ConfOf(c, site, s).before else ConfOf(c, site, s).after
  }

  lemma MergeSiteAdds(m: Table, c: ClusterState, site: Site, f: Selection, s: Service, d: Service, before: bool)
    requires site in c.at && ValidSite(c.at[site])
    ensures InTable(MergeOrder(m, c.at[site], c.at[site].order, f), s, d, before) <==>
            InTable(m, s, d, before) || ListedBy(c, site, f, s, d, before)
  {
    hide InTable, Included, MergeOrder;
    MergeOrderAdds(m, c.at[site], c.at[site].order, f, s, d, before);
  }

  lemma {:induction false} MergeSitesAdds(m: Table, c: ClusterState, sites: seq<Site>, f: Selection, s: Service,
                                          d: Service, before: bool)
    requires ValidCluster(c)
    ensures InTable(MergeSites(m, c, sites, f), s, d, before) <==>
              InTable(m, s, d, before) || Lists(c, sites, f, s, d, before)
    decreases |sites|
  {
    hide InTable, MergeOrder, ListedBy;
    if sites == [] {
    } else {
      var site := sites[0];
      if site in c.at {
        MergeSiteAdds(m, c, site, f, s, d, before);
      } else {
        UnknownSiteLists(c, site, f, s, d, before);
      }
      var m' := if site in c.at then MergeOrder(m, c.at[site], c.at[site].order, f) else m;
      MergeSitesAdds(m', c, sites[1..], f, s, d, before);
      assert sites == [site] + sites[1..];
    }
  }

  lemma UnknownSiteLists(c: ClusterState, site: Site, f: Selection, s: Service, d: Service, before: bool)
    requires site !in c.at
    ensures !ListedBy(c, site, f, s, d, before)
  {}

  /** The merged dependencies of a service are the union of those of the sites it takes part on. */
  lemma MergeIsUnion(c: ClusterState, sites: seq<Site>, f: Selection, s: Service, d: Service, before: bool)
    requires ValidCluster(c)
    ensures InTable(TableOf(c, sites, f), s, d, before) <==> Lists(c, sites, f, s, d, before)
  {
    MergeSitesAdds(EMPTY_TABLE, c, sites, f, s, d, before);
  }

  // ---------------------------------------------------------------- merge transparency

  /** The same dependencies, as sets. */
  predicate SameDeps(a: ServiceConf, b: ServiceConf) {
    Elements(a.before) == Elements(b.before) && Elements(a.after) == Elements(b.after)
  }

  /** Wherever the service takes part it has the same dependencies: what the consistency check compares. */
  ghost predicate Agree(c: ClusterState, sites: seq<Site>, f: Selection, s: Service) {
    forall a, b :: a in sites && b in sites && TakesPartAt(c, a, f, s) && TakesPartAt(c, b, f, s) ==>
      SameDeps(ConfOf(c, a, s), ConfOf(c, b, s))
  }

  lemma {:induction false} NotInNothing(ds: seq<Service>)
    ensures NotIn(ds, []) == ds
  {
    if ds == [] {
    } else {
      NotInNothing(ds[1..]);
    }
  }

  lemma {:induction false} NotInAll(ds: seq<Service>, have: seq<Service>)
    requires Elements(ds) <= Elements(have)
    ensures NotIn(ds, have) == []
  {
    if ds == [] {
    } else {
      assert ds[0] in Elements(ds);
      assert Elements(ds[1..]) <= Elements(ds);
      NotInAll(ds[1..], have);
    }
  }

  /** The table holds the lists of this site for every participating service. */
  ghost predicate Holds(m: Table, site: SiteState, services: seq<Service>, f: Selection) {
    forall s :: s in services && s in site.services && Included(site.services[s], s, f) ==>
      s in m.deps && m.deps[s] == Deps(site.services[s].before, site.services[s].after)
  }

  lemma SplitHead(done: seq<Service>, order: seq<Service>)
    requires order != [] && Distinct(done + order)
    ensures order[0] !in done && order[0] !in order[1..]
    ensures done + order == (done + [order[0]]) + order[1..]
  {
    assert (done + order)[|done|] == order[0];
    assert forall i :: 0 <= i < |done| ==> (done + order)[i] == done[i];
    assert forall i :: 1 <= i < |order| ==> (done + order)[|done| + i] == order[i];
  }

  lemma HoldsOneMore(m: Table, site: SiteState, done: seq<Service>, s: Service, f: Selection)
    requires Holds(m, site, done, f) && s !in done && s !in m.deps
    ensures var takes := s in site.services && Included(site.services[s], s, f);
            var m' := if takes then MergeService(m, s, site.services[s]) else m;
            Holds(m', site, done + [s], f) && m'.deps.Keys <= m.deps.Keys + {s}
  {
    hide Included, NotIn;
    if s in site.services {
      var conf := site.services[s];
      NotInNothing(conf.before);
      NotInNothing(conf.after);
      assert [] + conf.before == conf.before && [] + conf.after == conf.after;
      assert MergeService(m, s, conf).deps == m.deps[s := Deps(conf.before, conf.after)];
    }
  }

  lemma {:induction false} FirstSiteHolds(m: Table, site: SiteState, done: seq<Service>, order: seq<Service>,
                                          f: Selection)
    requires Distinct(done + order) && Holds(m, site, done, f)
    requires forall s :: s in order ==> s !in m.deps
    ensures Holds(MergeOrder(m, site, order, f), site, done + order, f)
    decreases |order|
  {
    hide Holds, Included, MergeService, Distinct;
    if order == [] {
      assert done + order == done;
    } else {
      var s := order[0];
      SplitHead(done, order);
      HoldsOneMore(m, site, done, s, f);
      var takes := s in site.services && Included(site.services[s], s, f);
      FirstSiteHolds(if takes then MergeService(m, s, site.services[s]) else m, site, done + [s], order[1..], f);
    }
  }

  /** Merging a service whose dependencies are already there changes nothing. */
  lemma MergeAgain(m: Table, s: Service, conf: ServiceConf)
    requires s in m.deps
    requires Elements(conf.before) <= Elements(m.deps[s].before) && Elements(conf.after) <= Elements(m.deps[s].after)
    ensures MergeService(m, s, conf) == m
  {
    NotInAll(conf.before, m.deps[s].before);
    NotInAll(conf.after, m.deps[s].after);
    assert m.deps[s].before + [] == m.deps[s].before && m.deps[s].after + [] == m.deps[s].after;
    assert m.deps[s := m.deps[s]] == m.deps;
  }

  /** Whatever takes part at b takes part at a, with at least the same dependencies. */
  ghost predicate Covers(c: ClusterState, a: Site, b: Site, f: Selection) {
    forall s :: TakesPartAt(c, b, f, s) ==>
      && TakesPartAt(c, a, f, s)
      && Elements(ConfOf(c, b, s).before) <= Elements(ConfOf(c, a, s).before)
      && Elements(ConfOf(c, b, s).after) <= Elements(ConfOf(c, a, s).after)
  }

  lemma {:induction false} OtherSiteAddsNothing(m: Table, c: ClusterState, a: Site, b: Site, order: seq<Service>,
                                                f: Selection)
    requires a in c.at && b in c.at && ValidSite(c.at[a])
    requires Covers(c, a, b, f) && Holds(m, c.at[a], c.at[a].order, f)
    ensures MergeOrder(m, c.at[b], order, f) == m
    decreases |order|
  {
    hide Included;
    if order == [] {
    } else {
      var s := order[0];
      if s in c.at[b].services && Included(c.at[b].services[s], s, f) {
        assert TakesPartAt(c, b, f, s);
        MergeAgain(m, s, c.at[b].services[s]);
      }
      OtherSiteAddsNothing(m, c, a, b, order[1..], f);
    }
  }

  lemma {:induction false} OtherSitesAddNothing(m: Table, c: ClusterState, a: Site, rest: seq<Site>, f: Selection)
    requires a in c.at && ValidSite(c.at[a]) && Holds(m, c.at[a], c.at[a].order, f)
    requires forall b :: b in rest ==> Covers(c, a, b, f)
    ensures MergeSites(m, c, rest, f) == m
    decreases |rest|
  {
    hide Covers, Holds, ValidSite, MergeOrder;
    if rest == [] {
    } else {
      if rest[0] in c.at { OtherSiteAddsNothing(m, c, a, rest[0], c.at[rest[0]].order, f); }
      OtherSitesAddNothing(m, c, a, rest[1..], f);
    }
  }

  /** If the first site covers the others, its table is the merged one. */
  lemma FirstSiteIsEnough(c: ClusterState, sites: seq<Site>, f: Selection)
    requires ValidCluster(c) && sites != [] && sites[0] in c.conf
    requires forall b :: b in sites ==> Covers(c, sites[0], b, f)
    ensures TableOf(c, sites, f) == TableOf(c, sites[..1], f)
  {
    hide Covers;
    var a := sites[0];
    var m := MergeOrder(EMPTY_TABLE, c.at[a], c.at[a].order, f);
    assert [] + c.at[a].order == c.at[a].order;
    FirstSiteHolds(EMPTY_TABLE, c.at[a], [], c.at[a].order, f);
    OtherSitesAddNothing(m, c, a, sites[1..], f);
    hide MergeOrder, ValidCluster, Holds;
    assert MergeSites(EMPTY_TABLE, c, sites, f) == m;
    var one := sites[..1];
    assert one[0] == a && one[1..] == [];
    assert MergeSites(EMPTY_TABLE, c, one, f) == MergeSites(m, c, one[1..], f) == m;
  }

  /**
   * When the sites agree, the merged table, and with it the sorter, the order and the flag, are those of the first
   * site alone, if and only if every participating service takes part there.
   */
  lemma MergeTransparentIff(c: ClusterState, sites: seq<Site>, f: Selection)
    requires ValidCluster(c) && sites != [] && sites[0] in c.conf
    requires forall s :: TakesPart(c, sites, f, s) ==> Agree(c, sites, f, s)
    ensures TableOf(c, sites, f) == TableOf(c, sites[..1], f)
            <==> forall s :: TakesPart(c, sites, f, s) ==> TakesPartAt(c, sites[0], f, s)
    ensures TableOf(c, sites, f) == TableOf(c, sites[..1], f) ==>
              && PlannedSorter(c, sites, f) == PlannedSorter(c, sites[..1], f)
              && PlannedOrder(c, sites, f) == PlannedOrder(c, sites[..1], f)
  {
    hide ValidCluster, TakesPartAt, MergeSites, GraphOf, Fresh, OrderOf;
    if forall s :: TakesPart(c, sites, f, s) ==> TakesPartAt(c, sites[0], f, s) {
      forall b | b in sites
        ensures Covers(c, sites[0], b, f)
      {
        AgreeingSiteCovers(c, sites, b, f);
      }
      FirstSiteIsEnough(c, sites, f);
    }
    MergeSitesKeys(EMPTY_TABLE, c, sites, f);
    MergeSitesKeys(EMPTY_TABLE, c, sites[..1], f);
    assert forall s :: TakesPart(c, sites[..1], f, s) <==> TakesPartAt(c, sites[0], f, s);
  }

  lemma AgreeingSiteCovers(c: ClusterState, sites: seq<Site>, b: Site, f: Selection)
    requires sites != [] && b in sites
    requires forall s :: TakesPart(c, sites, f, s) ==> Agree(c, sites, f, s) && TakesPartAt(c, sites[0], f, s)
    ensures Covers(c, sites[0], b, f)
  {}
}
