/** The checks that decide whether a procedure may start, and what acceptance establishes for the run. */
module Validation {
  import opened Graphs
  import opened Sorters
  import opened Wrappers
  import opened Results
  import opened Engine
  import opened Flow
  import opened Cluster
  import opened Workers
  import opened Prepare
  import opened Safety

  const DEFAULT_MODULE := "stateful"

  // ---------------------------------------------------------------- existence and consistency

  predicate AllAt(c: ClusterState, services: seq<Service>, site: Site) {
    forall s | s in services :: Has(c, site, s)
  }

  predicate AllExist(c: ClusterState, services: seq<Service>, sites: seq<Site>) {
    forall site | site in sites :: AllAt(c, services, site)
  }

  method CheckServicesOnSites(c: ClusterState, services: seq<Service>, sites: seq<Site>) returns (ok: bool)
    ensures ok == AllExist(c, services, sites)
  {
    ok := true;
    for i := 0 to |sites|
      invariant ok == AllExist(c, services, sites[..i])
    {
      hide Has;
      ghost var before := ok;
      for k := 0 to |services|
        invariant ok == (before && AllAt(c, services[..k], sites[i]))
      {
        assert services[..k + 1] == services[..k] + [services[k]];
        if !Has(c, sites[i], services[k]) { ok := false; }
      }
      assert services[..|services|] == services;
      assert sites[..i + 1] == sites[..i] + [sites[i]];
    }
    assert sites[..|sites|] == sites;
  }

  ghost predicate PairwiseSameDeps(c: ClusterState, sites: seq<Site>, s: Service) {
    forall a, b :: a in sites && b in sites && Has(c, a, s) && Has(c, b, s) ==>
      SameDeps(ConfOf(c, a, s), ConfOf(c, b, s))
  }

  /**
   * Each site is only compared with the first one that has the service; acceptance is nevertheless pairwise equality.
   */
  method ServiceConsistent(c: ClusterState, s: Service, sites: seq<Site>) returns (ok: bool)
    ensures ok <==> PairwiseSameDeps(c, sites, s)
  {
    ok := true;
    var compare: Option<Site> := None;
    for i := 0 to |sites|
      invariant compare.None? ==> ok && forall a :: a in sites[..i] ==> !Has(c, a, s)
      invariant compare.Some? ==> compare.value in sites[..i] && Has(c, compare.value, s)
      invariant compare.Some? ==>
        (ok <==> forall b :: b in sites[..i] && Has(c, b, s) ==> SameDeps(ConfOf(c, compare.value, s), ConfOf(c, b, s)))
    {
      hide SameDeps, Has;
      assert sites[..i + 1] == sites[..i] + [sites[i]];
      if !Has(c, sites[i], s) { continue; }
      if compare.None? {
        compare := Some(sites[i]);
        assert SameDeps(ConfOf(c, sites[i], s), ConfOf(c, sites[i], s)) by { SameAsItself(ConfOf(c, sites[i], s)); }
        continue;
      }
      var first, other := ConfOf(c, compare.value, s), ConfOf(c, sites[i], s);
      SameDepsIff(first, other);
      if Elements(first.before) != Elements(other.before) { ok := false; }
      if Elements(first.after) != Elements(other.after) { ok := false; }
    }
    assert sites[..|sites|] == sites;
  }

  lemma SameAsItself(a: ServiceConf)
    ensures SameDeps(a, a)
  {}

  lemma SameDepsIff(a: ServiceConf, b: ServiceConf)
    ensures SameDeps(a, b) <==> Elements(a.before) == Elements(b.before) && Elements(a.after) == Elements(b.after)
  {}

  method CheckDepsConsistency(c: ClusterState, services: seq<Service>, sites: seq<Site>) returns (ok: bool)
    ensures ok <==> forall s :: s in services ==> PairwiseSameDeps(c, sites, s)
  {
    ok := true;
    for i := 0 to |services|
      invariant ok <==> forall s :: s in services[..i] ==> PairwiseSameDeps(c, sites, s)
    {
      hide PairwiseSameDeps;
      assert services[..i + 1] == services[..i] + [services[i]];
      var same := ServiceConsistent(c, services[i], sites);
      ok := ok && same;
    }
    assert services[..|services|] == services;
  }

  ghost predicate PairwiseSameSequence(c: ClusterState, sites: seq<Site>, s: Service) {
    forall a, b :: a in sites && b in sites && Has(c, a, s) && Has(c, b, s) ==>
      ConfOf(c, a, s).sequence == ConfOf(c, b, s).sequence
  }

  // ---------------------------------------------------------------- acceptance of a move and of a stop

  /** What planning left for a module. */
  datatype ModulePlan = ModulePlan(order: seq<Service>, clean: bool, planned: bool)

  ghost predicate PlanOf(c: ClusterState, sites: seq<Site>, f: Selection, plan: ModulePlan) {
    && (plan.planned <==> !Cyclic(PlannedGraph(c, sites, f)))
    && (if plan.planned
        then plan.order == PlannedOrder(c, sites, f) && (plan.clean <==> DepsIncluded(TableOf(c, sites, f)))
        else plan.order == [] && !plan.clean)
  }

  function ModuleAt(c: ClusterState, site: Site, s: Service): string {
    if Has(c, site, s) then ConfOf(c, site, s).mod else DEFAULT_MODULE
  }

  function OfModule(c: ClusterState, site: Site, run: seq<Service>, mod: string): seq<Service> {
    if run == [] then []
    else if ModuleAt(c, site, run[0]) == mod then [run[0]] + OfModule(c, site, run[1..], mod)
    else OfModule(c, site, run[1..], mod)
  }

  lemma {:induction false} OfModuleMembers(c: ClusterState, site: Site, run: seq<Service>, mod: string)
    ensures forall s :: s in OfModule(c, site, run, mod) <==> s in run && ModuleAt(c, site, s) == mod
  {
    if run == [] {
    } else {
      OfModuleMembers(c, site, run[1..], mod);
      assert forall s :: s in run <==> s == run[0] || s in run[1..];
    }
  }

  /** The services a module is validated with; with --run-services, by their module on the first available site. */
  function ServicesToValidate(c: ClusterState, run: seq<Service>, mod: string, plan: ModulePlan): seq<Service> {
    if run == [] then plan.order
    else if AvailableSites(c) == [] then [] else OfModule(c, AvailableSites(c)[0], run, mod)
  }

  /** The list that validate_operation starts with. */
  method MakeListToValidate(c: ClusterState, run: seq<Service>, mod: string, plan: ModulePlan)
      returns (services: seq<Service>)
    ensures services == ServicesToValidate(c, run, mod, plan)
    ensures run != [] && AvailableSites(c) != [] ==>
              var first := AvailableSites(c)[0];
              forall s :: s in services <==>
                s in run && mod == if Has(c, first, s) then ConfOf(c, first, s).mod else "stateful"
  {
    if run == [] { return plan.order; }
    var available := GetAvailableSites(c);
    if available == [] { return []; }
    var first := available[0];
    services := [];
    for i := 0 to |run|
      invariant services + OfModule(c, first, run[i..], mod) == OfModule(c, first, run, mod)
    {
      assert run[i..][0] == run[i] && run[i..][1..] == run[i + 1..];
      var m := if Has(c, first, run[i]) then ConfOf(c, first, run[i]).mod else "stateful";
      if m == mod { services := services + [run[i]]; }
    }
    OfModuleMembers(c, first, run, mod);
  }

  ghost predicate MoveAccepted(c: ClusterState, services: seq<Service>, plan: ModulePlan) {
    && (forall site :: site in c.conf ==> Available(c, site))
    && AllExist(c, services, c.conf)
    && plan.clean
    && (forall s :: s in services ==>
          PairwiseSameDeps(c, AvailableSites(c), s) && PairwiseSameSequence(c, AvailableSites(c), s))
  }

  ghost predicate StopAccepted(c: ClusterState, site: Site, plan: ModulePlan) {
    Available(c, Opposite(c, site)) && (plan.clean || (plan.planned && plan.order != []))
  }

  /** What validation of a one-site command asks for, apart from the state restrictions. */
  ghost predicate SiteAccepted(c: ClusterState, site: Site, services: seq<Service>, plan: ModulePlan) {
    Available(c, site) && AllAt(c, services, site) && plan.clean
  }

  /** Module names as the substring filter needs them: a service's module fits a configured one only by equality. */
  ghost predicate ModulesApart(c: ClusterState, modules: seq<string>) {
    forall site, s, m :: Has(c, site, s) && m in modules && Substring(ConfOf(c, site, s).mod, m) ==>
      ConfOf(c, site, s).mod == m
  }

  ghost predicate MoveValidated(c: ClusterState, modules: seq<string>, run: seq<Service>, ignored: seq<Service>) {
    forall m :: m in modules ==> ModuleMoveValidated(c, m, run, ignored)
  }

  ghost predicate ModuleMoveValidated(c: ClusterState, m: string, run: seq<Service>, ignored: seq<Service>) {
    exists plan ::
      && PlanOf(c, AvailableSites(c), Selection(m, run, ignored), plan)
      && MoveAccepted(c, ServicesToValidate(c, run, m, plan), plan)
  }

  /** Every service of every module's plan can be looked up on both sites, and both are available. */
  ghost predicate LookupsSafe(c: ClusterState, modules: seq<string>, run: seq<Service>, ignored: seq<Service>) {
    forall m, s :: m in modules && TakesPart(c, AvailableSites(c), Selection(m, run, ignored), s) ==> OnBothSites(c, s)
  }

  lemma AllAvailable(c: ClusterState)
    requires ValidCluster(c) && forall site :: site in c.conf ==> Available(c, site)
    ensures AvailableSites(c) == c.conf
  {
    hide Available, ValidSite;
    var a, b := c.conf[0], c.conf[1];
    assert c.conf == [a, b] && c.conf[1..] == [b] && [b][1..] == [];
    assert Filter(c, [b]) == [b];
    assert [a] + [b] == [a, b];
  }

  lemma PlannedOrderIsTopo(c: ClusterState, sites: seq<Site>, f: Selection)
    requires !Cyclic(PlannedGraph(c, sites, f))
    ensures TopoOrder(PlannedGraph(c, sites, f), PlannedOrder(c, sites, f))
  {
    hide Cyclic, TopoOrder, OrderOf, GraphOf;
    OrderIsTopo(PlannedGraph(c, sites, f));
  }

  lemma ListedIsOnBoth(c: ClusterState, m: string, run: seq<Service>, ignored: seq<Service>, s: Service)
    requires ValidCluster(c) && ModuleMoveValidated(c, m, run, ignored)
    requires if run == [] then TakesPart(c, c.conf, Selection(m, run, ignored), s)
             else s in run && ModuleAt(c, c.conf[0], s) == m
    ensures OnBothSites(c, s)
  {
    hide PlannedGraph, PlannedOrder, TableOf, Cyclic, TopoOrder, DepsIncluded, TakesPart, Available, ValidSite;
    hide PairwiseSameDeps, PairwiseSameSequence;
    var f := Selection(m, run, ignored);
    var plan :| PlanOf(c, AvailableSites(c), f, plan) && MoveAccepted(c, ServicesToValidate(c, run, m, plan), plan);
    AllAvailable(c);
    if run == [] {
      PlannedOrderIsTopo(c, c.conf, f);
      PlanIsOrdered(c, c.conf, f, plan.order);
    } else {
      OfModuleMembers(c, c.conf[0], run, m);
    }
    assert s in ServicesToValidate(c, run, m, plan);
  }

  /** With the default module in the flow, validation of a move discharges every lookup of the run. */
  lemma MoveDischargesLookups(c: ClusterState, modules: seq<string>, run: seq<Service>, ignored: seq<Service>)
    requires ValidCluster(c) && ModulesApart(c, modules) && MoveValidated(c, modules, run, ignored)
    requires run == [] || DEFAULT_MODULE in modules
    ensures LookupsSafe(c, modules, run, ignored)
  {
    hide ModuleMoveValidated, OnBothSites, ValidCluster, Substring, Available;
    forall m, s | m in modules && TakesPart(c, AvailableSites(c), Selection(m, run, ignored), s)
      ensures OnBothSites(c, s)
    {
      assert ModuleMoveValidated(c, m, run, ignored);
      ValidatedMeansAvailable(c, m, run, ignored);
      if run == [] {
        ListedIsOnBoth(c, m, run, ignored, s);
      } else {
        var first := c.conf[0];
        var site :| site in c.conf && TakesPartAt(c, site, Selection(m, run, ignored), s);
        assert ConfOf(c, site, s).mod == m;
        if Has(c, first, s) && ConfOf(c, first, s).mod !in modules {
          OnEverySite(c, m, run, ignored, s, site);
        } else {
          ListedIsOnBoth(c, ModuleAt(c, first, s), run, ignored, s);
        }
      }
    }
  }

  lemma ValidatedMeansAvailable(c: ClusterState, m: string, run: seq<Service>, ignored: seq<Service>)
    requires ValidCluster(c) && ModuleMoveValidated(c, m, run, ignored)
    ensures AvailableSites(c) == c.conf && |c.conf| == 2
    ensures forall site :: site in c.conf ==> Available(c, site)
  {
    hide PlanOf, Available, ValidSite, PairwiseSameDeps, PairwiseSameSequence;
    AllAvailable(c);
  }

  lemma OnEverySite(c: ClusterState, m: string, run: seq<Service>, ignored: seq<Service>, s: Service, site: Site)
    requires ValidCluster(c) && ModuleMoveValidated(c, m, run, ignored)
    requires Has(c, c.conf[0], s) && site in c.conf && Has(c, site, s) && site != c.conf[0]
    ensures OnBothSites(c, s)
  {
    hide ModuleMoveValidated, Available, ValidSite;
    ValidatedMeansAvailable(c, m, run, ignored);
  }

  /**
   * A service that takes part on both sites was compared, also when --run-services picks by the first site's module.
   */
  lemma ParticipantsAgree(c: ClusterState, f: Selection, plan: ModulePlan, s: Service)
    requires ValidCluster(c) && AvailableSites(c) == c.conf && (f.run != [] ==> ModulesApart(c, [f.mod]))
    requires PlanOf(c, c.conf, f, plan) && MoveAccepted(c, ServicesToValidate(c, f.run, f.mod, plan), plan)
    ensures Agree(c, c.conf, f, s)
  {
    hide PlannedGraph, PlannedOrder, TableOf, DepsIncluded, Cyclic, TopoOrder, Substring, Available, ValidSite;
    hide AllExist, PairwiseSameSequence;
    if TakesPartAt(c, c.conf[0], f, s) && TakesPartAt(c, c.conf[1], f, s) {
      if f.run == [] {
        PlannedOrderIsTopo(c, c.conf, f);
        PlanIsOrdered(c, c.conf, f, plan.order);
        assert TakesPart(c, c.conf, f, s);
      } else {
        assert f.mod in [f.mod] && ConfOf(c, c.conf[0], s).mod == f.mod;
        OfModuleMembers(c, c.conf[0], f.run, f.mod);
      }
      assert s in ServicesToValidate(c, f.run, f.mod, plan);
      assert PairwiseSameDeps(c, c.conf, s);
    } else {
      SameAsItselfAt(c, f, s);
    }
  }

  lemma SameAsItselfAt(c: ClusterState, f: Selection, s: Service)
    requires ValidCluster(c) && !(TakesPartAt(c, c.conf[0], f, s) && TakesPartAt(c, c.conf[1], f, s))
    ensures Agree(c, c.conf, f, s)
  {
    hide ValidSite, TakesPartAt;
  }

  /**
   * After an accepted move the merged plan of a module is that of the first site alone, if and only if the first site
   * knows all of the plan's services under this module; modules are not compared.
   */
  lemma AcceptedMergeIsTransparentIff(c: ClusterState, f: Selection, plan: ModulePlan)
    requires ValidCluster(c) && PlanOf(c, AvailableSites(c), f, plan) && (f.run != [] ==> ModulesApart(c, [f.mod]))
    requires MoveAccepted(c, ServicesToValidate(c, f.run, f.mod, plan), plan)
    ensures TableOf(c, AvailableSites(c), f) == TableOf(c, AvailableSites(c)[..1], f)
            <==> forall s :: s in plan.order ==> TakesPartAt(c, c.conf[0], f, s)
    ensures TableOf(c, AvailableSites(c), f) == TableOf(c, AvailableSites(c)[..1], f)
            ==> plan.order == PlannedOrder(c, AvailableSites(c)[..1], f)
  {
    hide PlannedGraph, PlannedOrder, TableOf, DepsIncluded, Cyclic, TopoOrder, Included, Available, ValidSite, AllExist;
    hide PairwiseSameSequence, PairwiseSameDeps, ModulesApart, Agree, ServicesToValidate;
    AllAvailable(c);
    PlannedOrderIsTopo(c, c.conf, f);
    PlanIsOrdered(c, c.conf, f, plan.order);
    forall s | TakesPart(c, c.conf, f, s)
      ensures Agree(c, c.conf, f, s)
    {
      ParticipantsAgree(c, f, plan, s);
    }
    MergeTransparentIff(c, c.conf, f);
  }

  // ---------------------------------------------------------------- the validators

  method SequenceConsistent(c: ClusterState, s: Service, sites: seq<Site>) returns (ok: bool)
    ensures ok <==> PairwiseSameSequence(c, sites, s)
  {
    var compare: Option<Site> := None;
    for i := 0 to |sites|
      invariant compare.None? ==> forall a :: a in sites[..i] ==> !Has(c, a, s)
      invariant compare.Some? ==> compare.value in sites[..i] && Has(c, compare.value, s)
      invariant compare.Some? ==> forall b :: b in sites[..i] && Has(c, b, s) ==>
                  ConfOf(c, compare.value, s).sequence == ConfOf(c, b, s).sequence
    {
      hide Has;
      assert sites[..i + 1] == sites[..i] + [sites[i]];
      if !Has(c, sites[i], s) { continue; }
      if compare.None? {
        compare := Some(sites[i]);
        continue;
      }
      if ConfOf(c, compare.value, s).sequence != ConfOf(c, sites[i], s).sequence {
        assert compare.value in sites && sites[i] in sites;
        return false;
      }
    }
    assert sites[..|sites|] == sites;
    ok := true;
  }

  method CheckSequenceConsistency(c: ClusterState, services: seq<Service>, sites: seq<Site>) returns (ok: bool)
    ensures ok <==> forall s :: s in services ==> PairwiseSameSequence(c, sites, s)
  {
    ok := true;
    for i := 0 to |services|
      invariant ok <==> forall s :: s in services[..i] ==> PairwiseSameSequence(c, sites, s)
    {
      hide PairwiseSameSequence;
      assert services[..i + 1] == services[..i] + [services[i]];
      var same := SequenceConsistent(c, services[i], sites);
      ok := ok && same;
    }
    assert services[..|services|] == services;
  }

  /** An issue with the dependencies is forgiven to a stop that still has something to do. */
  method CheckDepIssue(cmd: Cmd, plan: ModulePlan) returns (ok: bool)
    ensures ok <==> plan.clean || (cmd == StopCmd && plan.planned && plan.order != [])
  {
    if !plan.clean {
      if cmd == StopCmd && plan.planned && plan.order != [] { return true; }
      return false;
    }
    ok := true;
  }

  /** validate_move_operation; false stands for NotValid. */
  method ValidateMoveOperation(c: ClusterState, services: seq<Service>, plan: ModulePlan) returns (ok: bool)
    requires ValidCluster(c)
    ensures ok <==> MoveAccepted(c, services, plan)
  {
    hide AllExist, PairwiseSameDeps, PairwiseSameSequence, ValidSite;
    var available := GetAvailableSites(c);
    if !Available(c, c.conf[0]) || !Available(c, c.conf[1]) { return false; }
    ok := CheckServicesOnSites(c, services, c.conf);
    if !ok { return; }
    ok := CheckDepIssue(MoveCmd, plan);
    if !ok { return; }
    ok := CheckDepsConsistency(c, services, available);
    if !ok { return; }
    ok := CheckSequenceConsistency(c, services, available);
  }

  /** validate_stop_operation: inconsistencies are only warned about. */
  method ValidateStopOperation(c: ClusterState, site: Site, services: seq<Service>, plan: ModulePlan) returns (ok: bool)
    ensures ok <==> StopAccepted(c, site, plan)
  {
    var available := GetAvailableSites(c);
    var _ := CheckDepsConsistency(c, services, available);
    var _ := CheckSequenceConsistency(c, services, available);
    if !Available(c, Opposite(c, site)) { return false; }
    ok := CheckDepIssue(StopCmd, plan);
  }

  // ---------------------------------------------------------------- exactly when lookups are discharged

  /** For this flow and these --run-services, acceptance discharges the lookups whatever the cluster. */
  ghost predicate Discharges(modules: seq<string>, run: seq<Service>, ignored: seq<Service>) {
    forall c :: ValidCluster(c) && ModulesApart(c, modules) && MoveValidated(c, modules, run, ignored)
      ==> LookupsSafe(c, modules, run, ignored)
  }

  const LEFT := Site("left")
  const RIGHT := Site("right")

  /** Only the right site knows s. */
  function OneSided(s: Service, mod: string): ClusterState {
    ClusterState([LEFT, RIGHT], map[
      LEFT := SiteState(true, [], map[]),
      RIGHT := SiteState(true, [s], map[s := ServiceConf(mod, [], [], [], ["up"], None)])], 200)
  }

  lemma OneSidedIsValid(s: Service, mod: string)
    ensures ValidCluster(OneSided(s, mod)) && AvailableSites(OneSided(s, mod)) == [LEFT, RIGHT]
    ensures forall site, x :: Has(OneSided(s, mod), site, x) <==> site == RIGHT && x == s
    ensures ConfOf(OneSided(s, mod), RIGHT, s) == ServiceConf(mod, [], [], [], ["up"], None)
  {
    var c := OneSided(s, mod);
    assert LEFT.name[0] != RIGHT.name[0];
    AllAvailable(c);
  }

  lemma OneSidedTable(s: Service, mod: string, f: Selection)
    ensures var m := TableOf(OneSided(s, mod), [LEFT, RIGHT], f);
            m == EMPTY_TABLE || m == Table([s], map[s := Deps([], [])])
  {
    hide Substring;
    var c := OneSided(s, mod);
    OneSidedIsValid(s, mod);
    var r := c.at[RIGHT];
    var m := if Included(r.services[s], s, f) then MergeService(EMPTY_TABLE, s, r.services[s]) else EMPTY_TABLE;
    var none: seq<Service> := [];
    assert none + NotIn(none, none) == none && r.services[s] == ServiceConf(mod, none, none, [], ["up"], None);
    assert MergeService(EMPTY_TABLE, s, r.services[s]) == Table([s], map[s := Deps([], [])]);
    assert [s][1..] == [] && [LEFT, RIGHT][1..] == [RIGHT] && [RIGHT][1..] == [];
    assert MergeOrder(EMPTY_TABLE, r, [s], f) == MergeOrder(m, r, [], f);
    assert MergeSites(EMPTY_TABLE, c, [RIGHT], f) == MergeSites(m, c, [], f);
  }

  lemma NoWantsNoCycle(m: Table)
    requires ValidTable(m) && forall p, n :: !Wants(m, p, n)
    ensures !Cyclic(GraphOf(m))
  {
    hide Edge, Wants, GraphOf;
    GraphIsWanted(m);
    if Cyclic(GraphOf(m)) {
      var a :| Ancestor(GraphOf(m), a, a);
      var via :| Path(GraphOf(m), a, via, a);
      var b := PathLastEdge(GraphOf(m), a, via, a);
      assert false;
    }
  }

  lemma OneSidedIsValidated(s: Service, modules: seq<string>, run: seq<Service>, ignored: seq<Service>)
    requires modules != [] && DEFAULT_MODULE !in modules && run != []
    ensures MoveValidated(OneSided(s, modules[0]), modules, run, ignored)
  {
    hide MergeSites, MergeOrder, Cyclic, GraphOf, OrderOf, Fresh, Substring;
    var c := OneSided(s, modules[0]);
    OneSidedIsValid(s, modules[0]);
    forall m | m in modules
      ensures ModuleMoveValidated(c, m, run, ignored)
    {
      var f := Selection(m, run, ignored);
      OneSidedTable(s, modules[0], f);
      var t := TableOf(c, [LEFT, RIGHT], f);
      NoWantsNoCycle(t);
      var plan := ModulePlan(PlannedOrder(c, AvailableSites(c), f), true, true);
      OfModuleMembers(c, LEFT, run, m);
      assert PlanOf(c, AvailableSites(c), f, plan) && MoveAccepted(c, ServicesToValidate(c, run, m, plan), plan);
    }
  }

  lemma SubstringOfItself(a: string)
    ensures Substring(a, a)
  {}

  /** With --run-services, acceptance discharges the lookups exactly when the flow names the default module. */
  lemma DischargesIff(modules: seq<string>, run: seq<Service>, ignored: seq<Service>)
    requires modules != [] && (run != [] ==> run[0] !in ignored)
    requires forall m, m' :: m in modules && m' in modules && Substring(m, m') ==> m == m'
    ensures Discharges(modules, run, ignored) <==> run == [] || DEFAULT_MODULE in modules
  {
    hide ValidCluster, MoveValidated, LookupsSafe, Substring;
    if run == [] || DEFAULT_MODULE in modules {
      forall c | ValidCluster(c) && ModulesApart(c, modules) && MoveValidated(c, modules, run, ignored)
        ensures LookupsSafe(c, modules, run, ignored)
      {
        MoveDischargesLookups(c, modules, run, ignored);
      }
    } else {
      var s := run[0];
      var c := OneSided(s, modules[0]);
      OneSidedIsValid(s, modules[0]);
      OneSidedIsValidated(s, modules, run, ignored);
      OneSidedIsUnsafe(s, modules, run, ignored);
      assert ModulesApart(c, modules);
    }
  }

  lemma OneSidedIsUnsafe(s: Service, modules: seq<string>, run: seq<Service>, ignored: seq<Service>)
    requires modules != [] && s in run && s !in ignored
    ensures !LookupsSafe(OneSided(s, modules[0]), modules, run, ignored)
  {
    hide Substring;
    var c := OneSided(s, modules[0]);
    OneSidedIsValid(s, modules[0]);
    SubstringOfItself(modules[0]);
    assert Included(ConfOf(c, RIGHT, s), s, Selection(modules[0], run, ignored));
    assert TakesPart(c, AvailableSites(c), Selection(modules[0], run, ignored), s);
    assert LEFT in c.conf && !Has(c, LEFT, s);
    assert modules[0] in modules && !OnBothSites(c, s);
  }

  /**
   * A service of the plan of both available sites, or of the surviving site alone, never dies of a missing key in a
   * stop.
   */
  lemma StopDischargesLookups(c: ClusterState, site: Site, f: Selection, sites: seq<Site>, s: Service)
    requires ValidCluster(c) && site in c.conf && forall x :: x in sites ==> x in c.conf
    requires TakesPart(c, sites, f, s)
    ensures SequenceKnown(c, s, false, site)
  {}

  /**
   * After a validated move every worker of every entry ends with a response; none dies of a missing key.  In a two-site
   * entry it has both sites to work on, in the order the sequence of its service on the named site begins with, unless
   * that begins with no mode at all, which validation does not check: then it has none.
   */
  lemma MoveWorkersEnd(c: ClusterState, modules: seq<string>, run: seq<Service>, ignored: seq<Service>,
                       m: string, s: Service, states: seq<Mode>, site: Site, force: bool, sites: Sites)
    requires ValidCluster(c) && site in c.conf && LookupsSafe(c, modules, run, ignored)
    requires m in modules && TakesPart(c, AvailableSites(c), Selection(m, run, ignored), s)
    ensures RunWorker(c, MoveCmd, states, site, force, sites, s).Ended?
    ensures var a, b, q := Target(Opposite(c, site), Standby), Target(site, Active), SequenceAt(c, site, s);
            && Opposite(c, site) in c.conf && Opposite(c, site) != site
            && RunWorker(c, MoveCmd, [], site, force, sites, s) ==
               Ended(RunTargets(
                 Job(c, s, true, site, force, sites),
                 if q == [] || q[0] == "standby" then [a, b] else if q[0] == "active" then [b, a] else [],
                 FAILED))
  {
    hide ValidSite, TakesPart, Available, RunTargets, RunOneSite, DrSequence;
    assert OnBothSites(c, s);
    OppositeIsInvolution(c, site);
    SwitchoverTargets(c, s, site);
  }
}
