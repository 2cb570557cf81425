/**
 * From planning and validation to the end of the run: the flow that sm-client builds, the scripts
 * its workers follow in any world, and what the two procedures then guarantee.
 */
module EndToEnd {
  import opened Graphs
  import opened Sorters
  import opened Wrappers
  import opened Results
  import opened Engine
  import opened Schedules
  import opened Flow
  import opened Cluster
  import opened Workers
  import opened Prepare
  import opened Safety
  import opened Validation

  // ---------------------------------------------------------------- planning

  /** The sites a plan is made from: the named one for a one-site command, all available ones otherwise. */
  function PlanSites(c: ClusterState, cmd: Cmd, site: Site): seq<Site> {
    if IsDr(cmd) then AvailableSites(c) else [site]
  }

  /** A stop that cannot be planned for all of them falls back to the surviving site alone. */
  ghost function SitesOfPlan(c: ClusterState, cmd: Cmd, site: Site, f: Selection): seq<Site> {
    if cmd == StopCmd && Cyclic(PlannedGraph(c, PlanSites(c, cmd, site), f)) then [Opposite(c, site)]
    else PlanSites(c, cmd, site)
  }

  /** The planning step of a module. */
  method PlanModule(c: ClusterState, cmd: Cmd, site: Site, f: Selection)
      returns (order: seq<Service>, clean: bool, ts: Option<TopologicalSorter>, sites: seq<Site>)
    ensures sites == SitesOfPlan(c, cmd, site, f)
    ensures PlanOf(c, sites, f, ModulePlan(order, clean, ts.Some?))
    ensures clean <==> ts.Some? && DepsIncluded(TableOf(c, sites, f))
    ensures order == if ts.Some? then PlannedOrder(c, sites, f) else []
    ensures ts.Some? ==> fresh(ts.value) && Prepared(ts.value.State()) && ts.value.State() == PlannedSorter(c, sites, f)
  {
    hide Cyclic, PlannedGraph, PlannedOrder, PlannedSorter, TableOf, SorterInv, TopoOrder, DepsIncluded, Filter;
    sites := [site];
    if cmd == MoveCmd || cmd == StopCmd { sites := GetAvailableSites(c); }
    order, clean, ts := MakeOrderedServicesToProcess(c, sites, f);
    if ts.None? && cmd == StopCmd {
      sites := [Opposite(c, site)];
      order, clean, ts := MakeOrderedServicesToProcess(c, sites, f);
    }
  }

  /** get_module_services */
  function ModuleServices(site: SiteState, order: seq<Service>, mod: string): seq<Service> {
    if order == [] then []
    else if order[0] in site.services && site.services[order[0]].mod == mod && mod != ""
    then [order[0]] + ModuleServices(site, order[1..], mod)
    else ModuleServices(site, order[1..], mod)
  }

  lemma {:induction false} ModuleServicesMembers(site: SiteState, order: seq<Service>, mod: string)
    ensures forall s :: s in ModuleServices(site, order, mod) <==>
              s in order && s in site.services && site.services[s].mod == mod && mod != ""
  {
    if order == [] {
    } else {
      ModuleServicesMembers(site, order[1..], mod);
      assert forall s :: s in order <==> s == order[0] || s in order[1..];
    }
  }

  /** Entry i is about module mods[i], as it was planned for the procedure. */
  ghost predicate PlannedFlow(p: Procedure, flow: seq<Entry>, mods: seq<string>, run: seq<Service>,
                              ignored: seq<Service>)
  {
    && |mods| == |flow| && AllPrepared(flow)
    && (forall i :: 0 <= i < |flow| ==> PlannedEntry(p, flow[i], Selection(mods[i], run, ignored)))
  }

  ghost predicate PlannedEntry(p: Procedure, e: Entry, f: Selection) {
    && e.sorter == PlannedSorter(p.c, SitesOfPlan(p.c, p.cmd, p.site, f), f)
    && e.members == FirstSiteMembers(p.c, f.mod)
  }

  /**
   * What the flow marks as skipped for a module it no longer executes: all its services on the first available site.
   */
  function FirstSiteMembers(c: ClusterState, mod: string): seq<Service> {
    if AvailableSites(c) == [] || AvailableSites(c)[0] !in c.at then []
    else ModuleServices(c.at[AvailableSites(c)[0]], c.at[AvailableSites(c)[0]].order, mod)
  }

  /** get_module_services, of the first available site; the flow never comes to it without one. */
  method GetModuleServices(c: ClusterState, mod: string) returns (services: seq<Service>)
    requires ValidCluster(c) && AvailableSites(c) != []
    ensures services == FirstSiteMembers(c, mod)
    ensures forall s :: s in services <==>
              Has(c, AvailableSites(c)[0], s) && ConfOf(c, AvailableSites(c)[0], s).mod == mod && mod != ""
  {
    hide Distinct;
    var available := GetAvailableSites(c);
    var site := c.at[available[0]];
    services := [];
    for i := 0 to |site.order|
      invariant services + ModuleServices(site, site.order[i..], mod) == ModuleServices(site, site.order, mod)
    {
      var s := site.order[i];
      assert site.order[i..][0] == s && site.order[i..][1..] == site.order[i + 1..];
      if site.services[s].mod != "" && mod == site.services[s].mod { services := services + [s]; }
    }
    ModuleServicesMembers(site, site.order, mod);
  }

  /** The service takes part in the plan of the procedure. */
  ghost predicate InPlan(p: Procedure, f: Selection, s: Service) {
    TakesPart(p.c, SitesOfPlan(p.c, p.cmd, p.site, f), f, s)
  }

  /** The nodes of a planned entry are the services that take part. */
  lemma PlannedNodes(p: Procedure, e: Entry, f: Selection)
    requires ValidCluster(p.c) && PlannedEntry(p, e, f)
    ensures forall s :: s in e.sorter.graph.succ <==> InPlan(p, f, s)
  {
    hide ValidCluster, MergeSites, TakesPart, Edge, SitesOfPlan, ModuleServices, GraphOf, Pending;
    var sites := SitesOfPlan(p.c, p.cmd, p.site, f);
    GraphIsWanted(TableOf(p.c, sites, f));
    MergeSitesKeys(EMPTY_TABLE, p.c, sites, f);
  }

  // ---------------------------------------------------------------- every world has a run

  function OutcomeIn(p: Procedure, states: seq<Mode>, sites: Sites, s: Service): Outcome {
    match WorkerOf(p, states, sites, s)
    case Ended(o) => o
    case KeyError => Outcome([], FAILED)
  }

  function ScriptIn(p: Procedure, world: World, i: nat, e: Entry): Script {
    map s | s in e.sorter.graph.succ :: OutcomeIn(p, e.states, world(i, s), s)
  }

  /** The flow with the scripts of a world. */
  function InWorld(p: Procedure, world: World, flow: seq<Entry>): (r: seq<Entry>)
    ensures |r| == |flow|
    ensures forall i :: 0 <= i < |flow| ==> r[i] == flow[i].(script := ScriptIn(p, world, i, flow[i]))
  {
    seq(|flow|, i requires 0 <= i < |flow| => flow[i].(script := ScriptIn(p, world, i, flow[i])))
  }

  lemma InWorldIsFromWorkers(p: Procedure, world: World, flow: seq<Entry>)
    requires forall i: nat, s :: i < |flow| && s in flow[i].sorter.graph.succ ==>
               WorkerOf(p, flow[i].states, world(i, s), s).Ended?
    ensures FromWorkers(p, world, InWorld(p, world, flow))
  {}

  /** The modules of the flow were validated for a switchover, with the default module among them. */
  ghost predicate ValidatedMove(p: Procedure, flow: seq<Entry>, mods: seq<string>, run: seq<Service>,
                                ignored: seq<Service>)
  {
    && p.cmd == MoveCmd && ValidCluster(p.c) && p.site in p.c.conf
    && PlannedFlow(p, flow, mods, run, ignored)
    && ModulesApart(p.c, mods) && MoveValidated(p.c, mods, run, ignored)
    && (run == [] || DEFAULT_MODULE in mods)
  }

  lemma ValidatedNodes(p: Procedure, flow: seq<Entry>, mods: seq<string>, run: seq<Service>, ignored: seq<Service>,
                       i: nat, s: Service)
    requires ValidatedMove(p, flow, mods, run, ignored) && i < |flow| && s in flow[i].sorter.graph.succ
    ensures OnBothSites(p.c, s) && TakesPart(p.c, AvailableSites(p.c), Selection(mods[i], run, ignored), s)
  {
    hide ValidCluster, MoveValidated, ModulesApart, AllPrepared, OnBothSites, PlannedEntry, TakesPart, Filter;
    MoveDischargesLookups(p.c, mods, run, ignored);
    PlannedNodes(p, flow[i], Selection(mods[i], run, ignored));
    assert mods[i] in mods;
  }

  /** In a validated switchover no worker dies: whatever the sites do, the run has scripts, and it completes. */
  lemma EveryWorldHasARun(p: Procedure, world: World, flow: seq<Entry>, mods: seq<string>, run: seq<Service>,
                          ignored: seq<Service>)
      returns (lists: Lists, log: seq<Stamped>)
    requires ValidatedMove(p, flow, mods, run, ignored)
    ensures FromWorkers(p, world, InWorld(p, world, flow)) && AllPrepared(InWorld(p, world, flow))
    ensures Run(p.cmd, InWorld(p, world, flow), lists, log)
  {
    hide MoveValidated, ModulesApart, Prepared, OnBothSites, PlannedEntry, Run, FromWorkers, RunTargets, RunOneSite;
    hide ValidSite, TakesPart;
    forall i: nat, s | i < |flow| && s in flow[i].sorter.graph.succ
      ensures WorkerOf(p, flow[i].states, world(i, s), s).Ended?
    {
      ValidatedNodes(p, flow, mods, run, ignored, i, s);
      BothSitesKnown(p.c, s, p.site);
    }
    InWorldIsFromWorkers(p, world, flow);
    lists, log := RunExists(p.cmd, InWorld(p, world, flow));
  }

  /** The workers of a one-site command never look up an absent key. */
  lemma EveryWorldHasASiteRun(p: Procedure, world: World, flow: seq<Entry>) returns (lists: Lists, log: seq<Stamped>)
    requires !IsDr(p.cmd) && AllPrepared(flow)
    ensures FromWorkers(p, world, InWorld(p, world, flow)) && AllPrepared(InWorld(p, world, flow))
    ensures Run(p.cmd, InWorld(p, world, flow), lists, log)
  {
    hide Prepared, Run, FromWorkers, RunOneSite;
    InWorldIsFromWorkers(p, world, flow);
    lists, log := RunExists(p.cmd, InWorld(p, world, flow));
  }

  lemma BothSitesKnown(c: ClusterState, s: Service, site: Site)
    requires OnBothSites(c, s) && site in c.conf
    ensures SequenceKnown(c, s, true, site)
  {}

  /** Switchover safety with everything that planning and validation establish discharged. */
  lemma ValidatedSwitchoverIsSafe(p: Procedure, world: World, flow: seq<Entry>, mods: seq<string>, run: seq<Service>,
                                  ignored: seq<Service>, lists: Lists, log: seq<Stamped>,
                                  k: nat, j: nat, s: Service, c: Command)
    requires ValidatedMove(p, flow, mods, run, ignored)
    requires FromWorkers(p, world, flow) && Run(p.cmd, flow, lists, log)
    requires k < |log| && log[k] == At(j, Sent(s, c)) && j < |flow| && flow[j].states == []
    ensures var a, b := Target(Opposite(p.c, p.site), Standby), Target(p.site, Active);
            var q := SequenceAt(p.c, p.site, s);
            if q == [] || q[0] == "standby" then Exchanges(p, world(j, s), log, j, s, a, b)
            else q[0] == "active" && Exchanges(p, world(j, s), log, j, s, b, a)
  {
    hide ValidCluster, MoveValidated, ModulesApart, Prepared, OnBothSites, PlannedEntry, Run, RunWorker, EntryCommands;
    hide Exchanges, TakesPart, SequenceAt;
    SentByNode(p.cmd, flow, lists, log, k, j, s, c);
    ValidatedNodes(p, flow, mods, run, ignored, j, s);
    SwitchoverSafety(p, world, flow, lists, log, k, j, s, c);
  }

  /** Neither the sentinel message nor a refusal that reports the health up. */
  predicate IsPlain(c: ClusterState, s: Service, t: Target, a: Answer) {
    ReplyTo(c, s, t, a).message != NOT_EXIST && (a.Refused? ==> ReplyTo(c, s, t, a).healthz != "up")
  }

  /**
   * In plain circumstances it is safe outright: no --force, only the health `up` allowed, and a plain answer from the
   * site that goes first.
   */
  lemma PlainSwitchoverIsSafe(p: Procedure, world: World, flow: seq<Entry>, mods: seq<string>, run: seq<Service>,
                              ignored: seq<Service>, lists: Lists, log: seq<Stamped>, j: nat, s: Service)
    requires ValidatedMove(p, flow, mods, run, ignored) && !p.force && OnlyUp(p.c, s)
    requires FromWorkers(p, world, flow) && Run(p.cmd, flow, lists, log)
    requires j < |flow| && flow[j].states == []
    ensures var a, b := Target(Opposite(p.c, p.site), Standby), Target(p.site, Active);
            var q := SequenceAt(p.c, p.site, s);
            && (q == [] || q[0] == "standby") && IsPlain(p.c, s, a, world(j, s)(a.site))
               ==> ExchangedInOrder(log, j, s, a, b)
    ensures var a, b := Target(Opposite(p.c, p.site), Standby), Target(p.site, Active);
            var q := SequenceAt(p.c, p.site, s);
            q != [] && q[0] == "active" && IsPlain(p.c, s, b, world(j, s)(b.site)) ==> ExchangedInOrder(log, j, s, b, a)
  {
    hide ValidCluster, MoveValidated, ModulesApart, Prepared, PlannedEntry, Run, RunWorker, ReplyTo, OnlyUp;
    hide FromWorkers, Misleads, TakesPart, ConfirmedBefore, SequenceAt;
    var a, b := Target(Opposite(p.c, p.site), Standby), Target(p.site, Active);
    if IsPlain(p.c, s, a, world(j, s)(a.site)) { PlainAnswersDoNotMislead(p.c, s, a, p.site, world(j, s)(a.site)); }
    if IsPlain(p.c, s, b, world(j, s)(b.site)) { PlainAnswersDoNotMislead(p.c, s, b, p.site, world(j, s)(b.site)); }
    if k, c :| 0 <= k < |log| && log[k] == At(j, Sent(s, c)) {
      ValidatedSwitchoverIsSafe(p, world, flow, mods, run, ignored, lists, log, k, j, s, c);
    }
  }

  // ---------------------------------------------------------------- good answers are enough

  /** The site's answer shows the service done, in the mode, and up. */
  predicate Shows(c: ClusterState, s: Service, t: Target, sites: Sites) {
    Confirms(ReplyTo(c, s, t, sites(t.site)), t.mode)
  }

  predicate KnownOrder(q: seq<string>) {
    q == [] || q[0] == "standby" || q[0] == "active"
  }

  /** What an entry of a switchover sends a service, by the states of the entry and the sequence on the named site. */
  ghost predicate MoveSends(p: Procedure, states: seq<Mode>, s: Service, commands: seq<Command>) {
    var a, b := Target(Opposite(p.c, p.site), Standby), Target(p.site, Active);
    var q := SequenceAt(p.c, p.site, s);
    && (states == [] && (q == [] || q[0] == "standby") ==> TargetsOf(commands) == [a, b])
    && (states == [] && q != [] && q[0] == "active" ==> TargetsOf(commands) == [b, a])
    && (states == [Standby, Disable] ==> TargetsOf(commands) == [a])
    && (states == [Active] ==> TargetsOf(commands) == [b])
  }

  lemma ShownIsDone(c: ClusterState, s: Service, t: Target, refusalSite: Site, force: bool, sites: Sites)
    requires Shows(c, s, t, sites)
    ensures var x := Judge(c, s, t, refusalSite, force, false, sites(t.site));
            x.verdict.IsOk() && VerdictClass(x.verdict) == Done && x.site == t.site && x.mode == t.mode
  {
    hide ReplyTo, Misleads;
    OkMeansConfirmedIff(c, s, t, refusalSite, force, sites(t.site));
  }

  /** One command that succeeds, or two. */
  lemma CommandsSucceed(x: Command, y: Command)
    requires VerdictClass(x.verdict) == Done && VerdictClass(y.verdict) == Done
    ensures Succeeds(Outcome([x], x.verdict)) && Succeeds(Outcome([x] + [y], y.verdict))
  {
    AfterOne(x);
    AfterTwo(x, y);
  }

  lemma MovePairSucceeds(p: Procedure, s: Service, sites: Sites, t0: Target, t1: Target)
    requires Has(p.c, t0.site, s) && Available(p.c, t0.site) && Has(p.c, t1.site, s) && Available(p.c, t1.site)
    requires Shows(p.c, s, t0, sites) && Shows(p.c, s, t1, sites)
    ensures var o := RunTargets(Job(p.c, s, true, p.site, p.force, sites), [t0, t1], FAILED);
            Succeeds(o) && TargetsOf(o.commands) == [t0, t1]
  {
    hide Has, Available, RunTargets, Judge, Shows, Succeeds, TargetsOf;
    var j := Job(p.c, s, true, p.site, p.force, sites);
    ShownIsDone(p.c, s, t0, p.site, p.force, sites);
    ShownIsDone(p.c, s, t1, p.site, p.force, sites);
    var x, y := JudgeAt(j, t0), JudgeAt(j, t1);
    TwoTargets(j, t0, t1, FAILED);
    OneTarget(j, t1, x.verdict);
    CommandsSucceed(x, y);
    TargetsOfTwo(x, y);
  }

  lemma MoveWorkerSucceeds(p: Procedure, states: seq<Mode>, sites: Sites, s: Service, o: Outcome)
    requires p.cmd == MoveCmd && ValidCluster(p.c) && p.site in p.c.conf && OnBothSites(p.c, s) && ValidStates(states)
    requires states == [] ==> KnownOrder(SequenceAt(p.c, p.site, s))
    requires Shows(p.c, s, Target(Opposite(p.c, p.site), Standby), sites)
    requires Shows(p.c, s, Target(p.site, Active), sites)
    requires WorkerOf(p, states, sites, s) == Ended(o)
    ensures Succeeds(o) && MoveSends(p, states, s, o.commands)
  {
    hide Has, Available, RunTargets, Judge, Shows, Succeeds, ValidCluster, OnBothSites, DrSequence, TargetsOf;
    hide SequenceAt;
    var a, b := Target(Opposite(p.c, p.site), Standby), Target(p.site, Active);
    SwitchoverTargets(p.c, s, p.site);
    BothKnown(p.c, s, p.site);
    MovePairSucceeds(p, s, sites, a, b);
    MovePairSucceeds(p, s, sites, b, a);
    ShownIsDone(p.c, s, a, a.site, p.force, sites);
    ShownIsDone(p.c, s, b, b.site, p.force, sites);
    var x := Judge(p.c, s, a, a.site, p.force, false, sites(a.site));
    var y := Judge(p.c, s, b, b.site, p.force, false, sites(b.site));
    CommandsSucceed(x, y);
    CommandsSucceed(y, x);
    TargetsOfOne(x);
    TargetsOfOne(y);
  }

  /**
   * A validated switchover in which every site's answer shows the service in its new role succeeds: both commands go
   * out in the configured order, every planned service ends done, and nothing fails, warns or is skipped.
   */
  lemma ConfirmedMoveSucceeds(p: Procedure, world: World, flow: seq<Entry>, mods: seq<string>, run: seq<Service>,
                              ignored: seq<Service>, lists: Lists, log: seq<Stamped>)
    requires ValidatedMove(p, flow, mods, run, ignored)
    requires FromWorkers(p, world, flow) && Run(p.cmd, flow, lists, log)
    requires forall j: nat, s :: j < |flow| && s in flow[j].sorter.graph.succ ==>
               && ValidStates(flow[j].states) && (flow[j].states == [] ==> KnownOrder(SequenceAt(p.c, p.site, s)))
               && Shows(p.c, s, Target(Opposite(p.c, p.site), Standby), world(j, s))
               && Shows(p.c, s, Target(p.site, Active), world(j, s))
    ensures lists.failed == [] && lists.skipped == [] && lists.warned == []
    ensures forall j: nat, s :: j < |flow| && s in flow[j].sorter.graph.succ ==>
              s in lists.done && MoveSends(p, flow[j].states, s, EntryCommands(log, j, s))
  {
    hide ValidCluster, MoveValidated, ModulesApart, Prepared, PlannedEntry, OnBothSites, Run, RunWorker, EntryCommands;
    hide TakesPart, Shows, KnownOrder, MoveSends, Succeeds, ValidStates, Reached, EntryFails, Doomed;
    forall j: nat, s | j < |flow| && s in flow[j].sorter.graph.succ
      ensures Succeeds(OutcomeOf(flow[j].script, s))
      ensures MoveSends(p, flow[j].states, s, OutcomeOf(flow[j].script, s).commands)
    {
      ValidatedNodes(p, flow, mods, run, ignored, j, s);
      MoveWorkerSucceeds(p, flow[j].states, world(j, s), s, OutcomeOf(flow[j].script, s));
    }
    assert AllSucceed(flow);
    SuccessfulRun(p.cmd, flow, lists, log);
    RunCommands(p.cmd, flow, lists, log);
    forall j: nat, s | j < |flow| && s in flow[j].sorter.graph.succ
      ensures Executed(p.cmd, flow, j) && !Doomed(flow[j].sorter.graph, flow[j].script, s)
    {
      AncestorsSucceed(flow, j, s);
      SuccessReaches(p.cmd, flow, j);
    }
  }

  /** Without failures a switchover or failover gets to every entry. */
  lemma SuccessReaches(cmd: Cmd, flow: seq<Entry>, j: nat)
    requires IsDr(cmd) && AllPrepared(flow) && AllSucceed(flow) && j < |flow|
    ensures Executed(cmd, flow, j)
  {
    hide Prepared, EntryFails, Doomed, AllSucceed, Reached;
    forall i | 0 <= i < j
      ensures !EntryFails(flow[i])
    {
      AncestorsSucceed(flow, i, Service(""));
    }
    ReachedIfOpen(cmd, flow, j);
  }

  /** A one-site command whose site's answers show the commanded mode succeeds in every entry it executes. */
  lemma ConfirmedSiteRunSucceeds(p: Procedure, world: World, flow: seq<Entry>, mods: seq<string>, run: seq<Service>,
                                 ignored: seq<Service>, lists: Lists, log: seq<Stamped>, mode: Mode)
    requires !IsDr(p.cmd) && IsModeOf(p.cmd, mode) && ValidCluster(p.c) && PlannedFlow(p, flow, mods, run, ignored)
    requires FromWorkers(p, world, flow) && Run(p.cmd, flow, lists, log)
    requires forall j: nat, s :: j < |flow| && s in flow[j].sorter.graph.succ ==>
               Shows(p.c, s, Target(p.site, mode), world(j, s))
    ensures lists.failed == [] && lists.skipped == [] && lists.warned == []
    ensures forall j: nat, s :: Executed(p.cmd, flow, j) && s in flow[j].sorter.graph.succ ==>
              s in lists.done && TargetsOf(EntryCommands(log, j, s)) == [Target(p.site, mode)]
  {
    hide ValidCluster, Prepared, PlannedEntry, Run, RunWorker, EntryCommands, Shows, Succeeds, Reached, EntryFails;
    hide Doomed, TargetsOf, Included;
    forall j: nat, s | j < |flow| && s in flow[j].sorter.graph.succ
      ensures Succeeds(OutcomeOf(flow[j].script, s))
      ensures TargetsOf(OutcomeOf(flow[j].script, s).commands) == [Target(p.site, mode)]
    {
      PlannedNodes(p, flow[j], Selection(mods[j], run, ignored));
      SiteWorkerSucceeds(p, flow[j].states, world(j, s), s, OutcomeOf(flow[j].script, s), mode);
    }
    assert AllSucceed(flow);
    SuccessfulRun(p.cmd, flow, lists, log);
    RunCommands(p.cmd, flow, lists, log);
    forall j: nat, s | Executed(p.cmd, flow, j) && s in flow[j].sorter.graph.succ
      ensures !Doomed(flow[j].sorter.graph, flow[j].script, s)
    {
      AncestorsSucceed(flow, j, s);
    }
  }

  lemma SiteWorkerSucceeds(p: Procedure, states: seq<Mode>, sites: Sites, s: Service, o: Outcome, mode: Mode)
    requires !IsDr(p.cmd) && IsModeOf(p.cmd, mode) && Has(p.c, p.site, s) && Shows(p.c, s, Target(p.site, mode), sites)
    requires WorkerOf(p, states, sites, s) == Ended(o)
    ensures Succeeds(o) && TargetsOf(o.commands) == [Target(p.site, mode)]
  {
    hide Has, Judge, Shows, Succeeds, TargetsOf;
    var t := Target(p.site, mode);
    ShownIsDone(p.c, s, t, t.site, p.force, sites);
    var x := Judge(p.c, s, t, t.site, p.force, false, sites(t.site));
    CommandsSucceed(x, x);
    TargetsOfOne(x);
  }

  /** Only nodes of executed entries are sent anything. */
  lemma SentByNode(cmd: Cmd, flow: seq<Entry>, lists: Lists, log: seq<Stamped>, k: nat, j: nat, s: Service, c: Command)
    requires AllPrepared(flow) && Run(cmd, flow, lists, log)
    requires k < |log| && log[k] == At(j, Sent(s, c))
    ensures j < |flow| && s in flow[j].sorter.graph.succ && c in OutcomeOf(flow[j].script, s).commands
  {
    hide Run, Prepared, EntryCommands, Doomed, Reached;
    RunCommands(cmd, flow, lists, log);
    CommandInEntry(log, k, j, s, c);
  }

  // ---------------------------------------------------------------- failover

  /**
   * Every module was validated for a failover with its plan; the states are those the configuration check lets
   * through.
   */
  ghost predicate ValidatedStop(p: Procedure, flow: seq<Entry>, mods: seq<string>, run: seq<Service>,
                                ignored: seq<Service>)
  {
    && p.cmd == StopCmd && ValidCluster(p.c) && p.site in p.c.conf
    && PlannedFlow(p, flow, mods, run, ignored)
    && (forall m :: m in mods ==> ModuleStopValidated(p, Selection(m, run, ignored)))
    && (forall i :: 0 <= i < |flow| ==> ValidStates(flow[i].states))
  }

  ghost predicate ModuleStopValidated(p: Procedure, f: Selection) {
    exists plan :: PlanOf(p.c, SitesOfPlan(p.c, p.cmd, p.site, f), f, plan) && StopAccepted(p.c, p.site, plan)
  }

  lemma {:induction false} FilterIsPart(c: ClusterState, sites: seq<Site>)
    ensures forall x :: x in Filter(c, sites) ==> x in sites
    decreases |sites|
  {
    if sites == [] {
    } else {
      FilterIsPart(c, sites[1..]);
    }
  }

  lemma PlanSitesAreConfigured(p: Procedure, f: Selection)
    requires ValidCluster(p.c) && p.site in p.c.conf
    ensures forall x :: x in SitesOfPlan(p.c, p.cmd, p.site, f) ==> x in p.c.conf
  {
    hide Cyclic, PlannedGraph, ValidSite, Available;
    FilterIsPart(p.c, p.c.conf);
  }

  /** No worker of a stop dies of a missing key, planned for both sites or by the fallback: every world has a run. */
  lemma EveryWorldHasAStop(p: Procedure, world: World, flow: seq<Entry>, mods: seq<string>, run: seq<Service>,
                           ignored: seq<Service>)
      returns (lists: Lists, log: seq<Stamped>)
    requires p.cmd == StopCmd && ValidCluster(p.c) && p.site in p.c.conf && PlannedFlow(p, flow, mods, run, ignored)
    ensures FromWorkers(p, world, InWorld(p, world, flow)) && AllPrepared(InWorld(p, world, flow))
    ensures Run(p.cmd, InWorld(p, world, flow), lists, log)
  {
    hide Prepared, PlannedEntry, Run, FromWorkers, RunTargets, RunOneSite, ValidCluster, TakesPart, SequenceKnown;
    hide SitesOfPlan;
    forall i: nat, s | i < |flow| && s in flow[i].sorter.graph.succ
      ensures WorkerOf(p, flow[i].states, world(i, s), s).Ended?
    {
      var f := Selection(mods[i], run, ignored);
      PlannedNodes(p, flow[i], f);
      PlanSitesAreConfigured(p, f);
      StopDischargesLookups(p.c, p.site, f, SitesOfPlan(p.c, p.cmd, p.site, f), s);
    }
    InWorldIsFromWorkers(p, world, flow);
    lists, log := RunExists(p.cmd, InWorld(p, world, flow));
  }

  lemma ValidatedStopIsReady(p: Procedure, flow: seq<Entry>, mods: seq<string>, run: seq<Service>,
                             ignored: seq<Service>)
    requires ValidatedStop(p, flow, mods, run, ignored) && flow != []
    ensures StopReady(p, flow)
  {
    hide PlanOf, PlannedEntry, Prepared, ValidStates, Available, SitesOfPlan, ValidCluster;
    assert mods[0] in mods;
  }

  /**
   * Failover tolerance with everything that planning and validation establish discharged: exactly the services fail
   * that an executed entry fails, and without an unknown head each of them had its activation refused.
   */
  lemma ValidatedFailoverIsTolerant(p: Procedure, world: World, flow: seq<Entry>, mods: seq<string>, run: seq<Service>,
                                    ignored: seq<Service>, lists: Lists, log: seq<Stamped>, s: Service)
    requires ValidatedStop(p, flow, mods, run, ignored)
    requires FromWorkers(p, world, flow) && Run(p.cmd, flow, lists, log)
    ensures s in lists.failed <==> exists j: nat :: FailsIn(p, world, flow, j, s)
    ensures s in lists.failed && !UnknownHead(p.c, s, false, p.site) ==>
              exists j: nat :: RefusedActivation(p, EntryCommands(log, j, s))
  {
    hide PlannedEntry, Prepared, FromWorkers, EntryCommands, RefusedActivation, StopReady, UnknownHead, Reached, Doomed;
    hide ModuleStopValidated;
    if flow == [] {
      assert lists == NO_RESULTS;
    } else {
      hide Run;
      ValidatedStopIsReady(p, flow, mods, run, ignored);
      FailoverFailsExactly(p, world, flow, lists, log, s);
      if s in lists.failed { FailoverFailsOnlyByActivation(p, world, flow, lists, log, s); }
    }
  }

  /**
   * A validated failover in which the survivor's answers show the services active succeeds, whatever the passivated
   * site does: with known sequences nothing fails and nothing is skipped.
   */
  lemma ConfirmedFailoverSucceeds(p: Procedure, world: World, flow: seq<Entry>, mods: seq<string>, run: seq<Service>,
                                  ignored: seq<Service>, lists: Lists, log: seq<Stamped>)
    requires ValidatedStop(p, flow, mods, run, ignored)
    requires FromWorkers(p, world, flow) && Run(p.cmd, flow, lists, log)
    requires forall j: nat, s :: j < |flow| && s in flow[j].sorter.graph.succ ==>
               && (flow[j].states == [] ==> KnownOrder(StopOrder(p.c, s, p.site)))
               && Shows(p.c, s, Target(Opposite(p.c, p.site), Active), world(j, s))
    ensures lists.failed == [] && lists.skipped == []
  {
    hide PlannedEntry, Prepared, FromWorkers, EntryCommands, StopReady, UnknownHead, Reached, Doomed, KnownOrder;
    hide ModuleStopValidated, Run, ValidStates, Shows, ActivationFails, StopOrder, RunWorker, ValidCluster, Covered;
    RunConserves(p.cmd, flow, lists, log);
    if lists.failed != [] {
      var s := lists.failed[0];
      ValidatedFailoverIsTolerant(p, world, flow, mods, run, ignored, lists, log, s);
      var j: nat :| FailsIn(p, world, flow, j, s);
      ShownDoesNotFail(p, flow[j].states, s, world(j, s));
    }
  }

  lemma ShownDoesNotFail(p: Procedure, states: seq<Mode>, s: Service, sites: Sites)
    requires states == [] ==> KnownOrder(StopOrder(p.c, s, p.site))
    requires Shows(p.c, s, Target(Opposite(p.c, p.site), Active), sites)
    ensures !StopFails(p, states, s, sites)
  {
    hide ReplyTo, StopOrder, Misleads;
    StopSequence(p.c, s, p.site);
  }
}
