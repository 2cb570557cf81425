/**
 * Inputs on which the code falls short of what it promises.  Each is planned, accepted by validation, and run to its
 * end; what the sites answer does not matter unless it is said.
 */
module Scenarios {
  import opened Graphs
  import opened Sorters
  import opened Wrappers
  import opened Results
  import opened Engine
  import opened Schedules
  import opened Flow
  import opened Cluster
  import opened Workers
  import opened Prepare
  import opened Safety
  import opened Validation
  import opened EndToEnd
  import opened Restrictions
  import opened Conservation
  import opened DryRun

  // ---------------------------------------------------------------- planning without dependencies

  ghost predicate NoDeps(c: ClusterState) {
    && ValidCluster(c)
    && forall site, s :: Has(c, site, s) ==> ConfOf(c, site, s).before == [] && ConfOf(c, site, s).after == []
  }

  lemma NoDepsIsValid(c: ClusterState)
    requires NoDeps(c)
    ensures ValidCluster(c)
  {}

  lemma NoDepsNoEdges(c: ClusterState, sites: seq<Site>, f: Selection)
    requires NoDeps(c)
    ensures forall a, b :: !Edge(PlannedGraph(c, sites, f), a, b)
    ensures !Cyclic(PlannedGraph(c, sites, f)) && DepsIncluded(TableOf(c, sites, f))
  {
    hide ValidCluster, TableOf, GraphOf, Edge, Included;
    var m := TableOf(c, sites, f);
    forall s | s in m.deps
      ensures m.deps[s].before == [] && m.deps[s].after == []
    {
      if m.deps[s].before != [] { MergeIsUnion(c, sites, f, s, m.deps[s].before[0], true); }
      if m.deps[s].after != [] { MergeIsUnion(c, sites, f, s, m.deps[s].after[0], false); }
    }
    GraphIsWanted(m);
    NoWantsNoCycle(m);
  }

  ghost function CleanPlan(c: ClusterState, sites: seq<Site>, f: Selection): ModulePlan {
    ModulePlan(PlannedOrder(c, sites, f), true, true)
  }

  lemma EasyPlan(c: ClusterState, sites: seq<Site>, f: Selection)
    requires NoDeps(c)
    ensures PlanOf(c, sites, f, CleanPlan(c, sites, f)) && Prepared(PlannedSorter(c, sites, f))
    ensures forall s :: s in PlannedOrder(c, sites, f) <==> TakesPart(c, sites, f, s)
    ensures forall a, b :: !Edge(PlannedSorter(c, sites, f).graph, a, b)
  {
    hide Cyclic, PlannedGraph, PlannedOrder, TableOf, DepsIncluded, Edge, SorterInv, Fresh, TopoOrder, TakesPart;
    hide ValidCluster;
    NoDepsNoEdges(c, sites, f);
    FreshKeepsInv(PlannedGraph(c, sites, f));
    PlannedOrderIsTopo(c, sites, f);
    PlanIsOrdered(c, sites, f, PlannedOrder(c, sites, f));
  }

  lemma NoEdgesNotDoomed(g: Graph, script: Script, s: Service)
    requires forall a, b :: !Edge(g, a, b)
    ensures !Doomed(g, script, s)
  {
    hide Edge;
    forall a, via | Path(g, a, via, s)
      ensures false
    {
      var b := PathLastEdge(g, a, via, s);
    }
  }

  ghost function PlannedAs(p: Procedure, states: seq<Mode>, f: Selection): Entry {
    Entry(states, PlannedSorter(p.c, SitesOfPlan(p.c, p.cmd, p.site, f), f), FirstSiteMembers(p.c, f.mod), map[])
  }

  /** The flow with these modules and states, as it is planned. */
  ghost function FlowOf(p: Procedure, run: seq<Service>, mods: seq<string>, states: seq<seq<Mode>>): (flow: seq<Entry>)
    requires |states| == |mods|
    ensures |flow| == |mods|
    ensures forall i :: 0 <= i < |mods| ==> flow[i] == PlannedAs(p, states[i], Selection(mods[i], run, []))
  {
    seq(|mods|, i requires 0 <= i < |mods| => PlannedAs(p, states[i], Selection(mods[i], run, [])))
  }

  ghost function Scenario(p: Procedure, world: World, run: seq<Service>, mods: seq<string>, states: seq<seq<Mode>>):
      (flow: seq<Entry>)
    requires |states| == |mods|
    ensures |flow| == |mods|
  {
    InWorld(p, world, FlowOf(p, run, mods, states))
  }

  lemma FlowIsPlanned(p: Procedure, run: seq<Service>, mods: seq<string>, states: seq<seq<Mode>>)
    requires NoDeps(p.c) && |states| == |mods|
    ensures PlannedFlow(p, FlowOf(p, run, mods, states), mods, run, [])
  {
    hide NoDeps, PlannedSorter, Prepared, FirstSiteMembers, PlanOf, Edge, SitesOfPlan, TakesPart;
    forall i | 0 <= i < |mods|
      ensures Prepared(PlannedAs(p, states[i], Selection(mods[i], run, [])).sorter)
    {
      var f := Selection(mods[i], run, []);
      EasyPlan(p.c, SitesOfPlan(p.c, p.cmd, p.site, f), f);
    }
  }

  lemma ScenarioIsPlanned(p: Procedure, world: World, run: seq<Service>, mods: seq<string>, states: seq<seq<Mode>>)
    requires NoDeps(p.c) && |states| == |mods|
    ensures PlannedFlow(p, Scenario(p, world, run, mods, states), mods, run, [])
    ensures forall i :: 0 <= i < |mods| ==> Scenario(p, world, run, mods, states)[i].states == states[i]
  {
    hide NoDeps, Prepared, PlannedEntry, ScriptIn, PlannedAs;
    FlowIsPlanned(p, run, mods, states);
    forall i | 0 <= i < |mods|
      ensures Scenario(p, world, run, mods, states)[i].states == states[i]
      ensures PlannedEntry(p, Scenario(p, world, run, mods, states)[i], Selection(mods[i], run, []))
      ensures Prepared(Scenario(p, world, run, mods, states)[i].sorter)
    {
      ScriptAlone(p, FlowOf(p, run, mods, states)[i], ScriptIn(p, world, i, FlowOf(p, run, mods, states)[i]),
                  Selection(mods[i], run, []));
      StatesAlone(p, states[i], Selection(mods[i], run, []));
    }
  }

  /** A run of the scenario. */
  ghost predicate RunsAs(p: Procedure, world: World, run: seq<Service>, mods: seq<string>, states: seq<seq<Mode>>,
                         lists: Lists, log: seq<Stamped>)
    requires |states| == |mods|
  {
    var flow := Scenario(p, world, run, mods, states);
    PlannedFlow(p, flow, mods, run, []) && FromWorkers(p, world, flow) && Run(p.cmd, flow, lists, log)
  }

  lemma SiteScenarioRuns(p: Procedure, world: World, run: seq<Service>, mods: seq<string>, states: seq<seq<Mode>>)
      returns (lists: Lists, log: seq<Stamped>)
    requires NoDeps(p.c) && !IsDr(p.cmd) && |states| == |mods|
    ensures RunsAs(p, world, run, mods, states, lists, log)
  {
    hide NoDeps, Run, FromWorkers, Prepared, PlannedEntry, InWorld;
    FlowIsPlanned(p, run, mods, states);
    ScenarioIsPlanned(p, world, run, mods, states);
    lists, log := EveryWorldHasASiteRun(p, world, FlowOf(p, run, mods, states));
  }

  lemma StopScenarioRuns(p: Procedure, world: World, run: seq<Service>, mods: seq<string>, states: seq<seq<Mode>>)
      returns (lists: Lists, log: seq<Stamped>)
    requires NoDeps(p.c) && p.cmd == StopCmd && p.site in p.c.conf && |states| == |mods|
    ensures RunsAs(p, world, run, mods, states, lists, log)
  {
    hide NoDeps, Run, FromWorkers, Prepared, PlannedEntry, InWorld;
    NoDepsIsValid(p.c);
    FlowIsPlanned(p, run, mods, states);
    ScenarioIsPlanned(p, world, run, mods, states);
    lists, log := EveryWorldHasAStop(p, world, FlowOf(p, run, mods, states), mods, run, []);
  }

  lemma ScriptAlone(p: Procedure, e: Entry, script: Script, f: Selection)
    requires PlannedEntry(p, e, f)
    ensures PlannedEntry(p, e.(script := script), f)
  {}

  lemma StatesAlone(p: Procedure, states: seq<Mode>, f: Selection)
    ensures PlannedAs(p, states, f).states == states
  {}

  /** The first entry of a scenario, if it is executed at all, sends its services what their workers send. */
  lemma FirstEntrySends(p: Procedure, world: World, run: seq<Service>, mods: seq<string>, states: seq<seq<Mode>>,
                        lists: Lists, log: seq<Stamped>, s: Service)
    requires NoDeps(p.c) && |states| == |mods| > 0 && !Breaks(p.cmd, states[0]) && !Passes(p.cmd, states[0])
    requires Run(p.cmd, Scenario(p, world, run, mods, states), lists, log)
    requires InPlan(p, Selection(mods[0], run, []), s)
    ensures EntryCommands(log, 0, s) == OutcomeIn(p, states[0], world(0, s), s).commands
  {
    hide NoDeps, Run, Prepared, EntryCommands, InPlan, PlannedSorter, SitesOfPlan, FirstSiteMembers, PlanOf, Doomed;
    hide OutcomeIn, Edge, TakesPart, Scenario;
    var flow, f := Scenario(p, world, run, mods, states), Selection(mods[0], run, []);
    ScenarioIsPlanned(p, world, run, mods, states);
    RunCommands(p.cmd, flow, lists, log);
    NoDepsIsValid(p.c);
    PlannedNodes(p, flow[0], f);
    FirstScript(p, world, run, mods, states, s);
    FirstIsNotDoomed(p, world, run, mods, states, s);
  }

  lemma FirstIsNotDoomed(p: Procedure, world: World, run: seq<Service>, mods: seq<string>, states: seq<seq<Mode>>,
                         s: Service)
    requires NoDeps(p.c) && |states| == |mods| > 0
    ensures var e := Scenario(p, world, run, mods, states)[0]; !Doomed(e.sorter.graph, e.script, s)
  {
    hide NoDeps, Prepared, PlannedSorter, SitesOfPlan, PlanOf, Doomed, Edge, TakesPart, Scenario, FirstSiteMembers;
    var e, f := Scenario(p, world, run, mods, states)[0], Selection(mods[0], run, []);
    ScenarioIsPlanned(p, world, run, mods, states);
    EasyPlan(p.c, SitesOfPlan(p.c, p.cmd, p.site, f), f);
    NoEdgesNotDoomed(e.sorter.graph, e.script, s);
  }

  lemma FirstScript(p: Procedure, world: World, run: seq<Service>, mods: seq<string>, states: seq<seq<Mode>>,
                    s: Service)
    requires |states| == |mods| > 0 && s in Scenario(p, world, run, mods, states)[0].sorter.graph.succ
    ensures OutcomeOf(Scenario(p, world, run, mods, states)[0].script, s) == OutcomeIn(p, states[0], world(0, s), s)
  {
    hide OutcomeIn, PlannedSorter, SitesOfPlan, FirstSiteMembers;
  }

  // ---------------------------------------------------------------- one service on both sites

  const S := Service("s")

  /** The default module, which every flow that gets past planning names. */
  const ONE_MODULE := [DEFAULT_MODULE]

  function Settings(mod: string, sequence: seq<string>): ServiceConf {
    ServiceConf(mod, [], [], sequence, ["up"], None)
  }

  function Pair(left: ServiceConf, right: ServiceConf): ClusterState {
    ClusterState([LEFT, RIGHT], map[
      LEFT := SiteState(true, [S], map[S := left]), RIGHT := SiteState(true, [S], map[S := right])], 200)
  }

  lemma PairIsValid(l: string, r: string, sequence: seq<string>)
    ensures var c := Pair(Settings(l, sequence), Settings(r, sequence));
            && NoDeps(c) && AvailableSites(c) == [LEFT, RIGHT] && LEFT != RIGHT
            && (forall site, x :: Has(c, site, x) <==> (site == LEFT || site == RIGHT) && x == S)
            && (forall site :: Available(c, site) <==> site == LEFT || site == RIGHT)
            && ConfOf(c, LEFT, S) == Settings(l, sequence) && ConfOf(c, RIGHT, S) == Settings(r, sequence)
  {
    var c := Pair(Settings(l, sequence), Settings(r, sequence));
    assert LEFT.name[0] != RIGHT.name[0];
    assert ValidCluster(c);
    AllAvailable(c);
  }

  /** The services whose module on the right site is the default one are those of its plan there. */
  lemma RightTakesPart(l: string, sequence: seq<string>, run: seq<Service>)
    requires run == [] || run == [S]
    ensures var c := Pair(Settings(l, sequence), Settings(DEFAULT_MODULE, sequence));
            var f := Selection(DEFAULT_MODULE, run, []);
            && TakesPartAt(c, RIGHT, f, S)
            && (forall x :: TakesPart(c, [RIGHT], f, x) <==> x == S)
            && (forall x :: TakesPart(c, [LEFT, RIGHT], f, x) <==> x == S)
  {
    hide Substring;
    PairIsValid(l, DEFAULT_MODULE, sequence);
    SubstringOfItself(DEFAULT_MODULE);
    var c, f := Pair(Settings(l, sequence), Settings(DEFAULT_MODULE, sequence)), Selection(DEFAULT_MODULE, run, []);
    assert TakesPartAt(c, RIGHT, f, S) && RIGHT in [RIGHT] && RIGHT in [LEFT, RIGHT];
  }

  /** A standby run on the right site. */
  function StandbyOnRight(l: string): Procedure {
    Procedure(Pair(Settings(l, []), Settings(DEFAULT_MODULE, [])), StandbyCmd, RIGHT, false)
  }

  /** What the proofs below use of it. */
  lemma StandbyFacts(l: string)
    ensures var p := StandbyOnRight(l);
            && p.cmd == StandbyCmd && p.site == RIGHT && !p.force && NoDeps(p.c) && ValidCluster(p.c)
            && p.site in p.c.conf && Opposite(p.c, p.site) == LEFT && LEFT != RIGHT
            && AvailableSites(p.c) == [LEFT, RIGHT]
  {
    PairIsValid(l, DEFAULT_MODULE, []);
  }

  lemma StandbyPlanIsAccepted(l: string, run: seq<Service>)
    requires run == [] || run == [S]
    ensures var p, f := StandbyOnRight(l), Selection(DEFAULT_MODULE, run, []);
            PlanAccepted(p, f, CleanPlan(p.c, [RIGHT], f)) && InPlan(p, f, S)
  {
    hide NoDeps, PlanOf, TakesPart, TakesPartAt, Prepared, PlannedSorter, PlannedOrder;
    var p, f := StandbyOnRight(l), Selection(DEFAULT_MODULE, run, []);
    PairIsValid(l, DEFAULT_MODULE, []);
    RightTakesPart(l, [], run);
    EasyPlan(p.c, [RIGHT], f);
    OfModuleMembers(p.c, LEFT, run, DEFAULT_MODULE);
  }

  lemma StandbyIsSent(l: string, run: seq<Service>, world: World) returns (lists: Lists, log: seq<Stamped>, k: nat)
    requires run == [] || run == [S]
    ensures RunsAs(StandbyOnRight(l), world, run, ONE_MODULE, [[]], lists, log)
    ensures k < |log| && log[k].event.Sent? && log[k].event.service == S
  {
    hide NoDeps, Run, FromWorkers, PlannedFlow, EntryCommands, InPlan, PlanAccepted, Scenario, StandbyOnRight;
    hide OutcomeIn;
    var p := StandbyOnRight(l);
    StandbyFacts(l);
    lists, log := SiteScenarioRuns(p, world, run, ONE_MODULE, [[]]);
    StandbyPlanIsAccepted(l, run);
    FirstEntrySends(p, world, run, ONE_MODULE, [[]], lists, log, S);
    StandbyWorkerSends(l, world(0, S));
    k := CommandIsLogged(log, 0, S, EntryCommands(log, 0, S)[0]);
  }

  lemma StandbyWorkerSends(l: string, sites: Sites)
    ensures OutcomeIn(StandbyOnRight(l), [], sites, S).commands != []
  {
    hide Judge;
    PairIsValid(l, DEFAULT_MODULE, []);
  }

  // ---------------------------------------------------------------- state restrictions

  const STANDBY_ELSEWHERE := map[LEFT := "standby", RIGHT := "active"]

  /**
   * With --run-services a planned service is not checked if the first site has it under a module that the flow does
   * not name.  The command is accepted and takes the service into the forbidden state: in standby on both sites.
   */
  lemma UncheckedServiceEndsForbidden(world: World) returns (lists: Lists, log: seq<Stamped>, k: nat)
    ensures var p := StandbyOnRight("x"); CommandAccepted(p, NotWithStandby(p), ONE_MODULE, [S], [], StandbyOnly(S))
    ensures RunsAs(StandbyOnRight("x"), world, [S], ONE_MODULE, [[]], lists, log)
    ensures k < |log| && log[k].event.Sent? && log[k].event.service == S
    ensures var p := StandbyOnRight("x");
            Forbidden(p.c.conf, NotWithStandby(p), S, StateAfter(log, S, STANDBY_ELSEWHERE))
  {
    hide NoDeps, RunsAs, PlanAccepted, Permits, Forbidden, InPlan, StateAfter, StandbyOnRight, ServicesToValidate;
    StandbyPlanIsAccepted("x", [S]);
    NothingToCheck();
    lists, log, k := StandbyIsSent("x", [S], world);
    EndsInStandbyTwice("x", world, [S], lists, log, k);
  }

  /** The list that is checked is empty. */
  lemma NothingToCheck()
    ensures var f := Selection(DEFAULT_MODULE, [S], []);
            forall plan, s :: s !in ServicesToValidate(StandbyOnRight("x").c, f.run, f.mod, plan)
  {
    PairIsValid("x", DEFAULT_MODULE, []);
    OfModuleMembers(StandbyOnRight("x").c, LEFT, [S], DEFAULT_MODULE);
    assert "x"[0] != DEFAULT_MODULE[0];
  }

  lemma EndsInStandbyTwice(l: string, world: World, run: seq<Service>, lists: Lists, log: seq<Stamped>, k: nat)
    requires RunsAs(StandbyOnRight(l), world, run, ONE_MODULE, [[]], lists, log)
    requires k < |log| && log[k].event.Sent? && log[k].event.service == S
    ensures var p := StandbyOnRight(l);
            Forbidden(p.c.conf, NotWithStandby(p), S, StateAfter(log, S, STANDBY_ELSEWHERE))
  {
    hide NoDeps, Run, FromWorkers, PlannedEntry, Prepared, Forbidden, Scenario, NotWithStandby, StateAfter;
    hide StandbyOnRight;
    var p := StandbyOnRight(l);
    StandbyFacts(l);
    FinalState(p, world, Scenario(p, world, run, ONE_MODULE, [[]]), lists, log, S, STANDBY_ELSEWHERE, k);
    NotWithStandbyForbids(p, S, "standby");
  }

  /** Every service answers, without a mode. */
  function NoMode(): Service -> Poll {
    x => Poll(true, ModeOnly(""))
  }

  /**
   * Although the service is checked, an answer without a recognised mode passes; the site is really in standby, and the
   * run takes the service into the forbidden state.
   */
  lemma UnrecognisedEndsForbidden(world: World) returns (lists: Lists, log: seq<Stamped>, k: nat)
    ensures var p := StandbyOnRight(DEFAULT_MODULE); CommandAccepted(p, NotWithStandby(p), ONE_MODULE, [], [], NoMode())
    ensures RunsAs(StandbyOnRight(DEFAULT_MODULE), world, [], ONE_MODULE, [[]], lists, log)
    ensures k < |log| && log[k].event.Sent? && log[k].event.service == S
    ensures var p := StandbyOnRight(DEFAULT_MODULE);
            Forbidden(p.c.conf, NotWithStandby(p), S, StateAfter(log, S, STANDBY_ELSEWHERE))
  {
    hide NoDeps, ValidCluster, RunsAs, PlanAccepted, Permits, Forbidden, InPlan, StateAfter, StandbyOnRight;
    hide ServicesToValidate;
    var p := StandbyOnRight(DEFAULT_MODULE);
    StandbyFacts(DEFAULT_MODULE);
    StandbyPlanIsAccepted(DEFAULT_MODULE, []);
    forall s
      ensures Permits(p.c, NotWithStandby(p), p.site, p.cmd, s, NoMode()(s))
    {
      UnrecognisedIsPermitted(p.c, NotWithStandby(p), p.site, p.cmd, s, NoMode()(s));
    }
    lists, log, k := StandbyIsSent(DEFAULT_MODULE, [], world);
    EndsInStandbyTwice(DEFAULT_MODULE, world, [], lists, log, k);
  }

  // ---------------------------------------------------------------- the dry run

  const TWICE := [DEFAULT_MODULE, DEFAULT_MODULE]

  /**
   * An ['active'] entry before another one: the plan of the second prints the standby of the service, the run stops
   * before it and sends nothing.
   */
  lemma PlannedIsNotExecuted(world: World) returns (lists: Lists, log: seq<Stamped>)
    ensures CommandAccepted(StandbyOnRight(DEFAULT_MODULE), map[], TWICE, [], [], NoMode())
    ensures RunsAs(StandbyOnRight(DEFAULT_MODULE), world, [], TWICE, [[Active], []], lists, log)
    ensures var p := StandbyOnRight(DEFAULT_MODULE);
            var e := Scenario(p, world, [], TWICE, [[Active], []])[1];
            && Planned(p.cmd, e.states) && S in e.sorter.graph.succ
            && PlannedTargets(p.c, p.cmd, e.states, p.site, S) == [Target(RIGHT, Standby)]
    ensures !BreaksLast(StandbyCmd, Scenario(StandbyOnRight(DEFAULT_MODULE), world, [], TWICE, [[Active], []]))
    ensures EntryCommands(log, 1, S) == []
  {
    hide NoDeps, Run, FromWorkers, PlannedEntry, Prepared, PlanAccepted, Permits, InPlan, Scenario, EntryCommands;
    hide StandbyOnRight, ServicesToValidate, ValidCluster;
    var p := StandbyOnRight(DEFAULT_MODULE);
    var flow := Scenario(p, world, [], TWICE, [[Active], []]);
    StandbyFacts(DEFAULT_MODULE);
    StandbyPlanIsAccepted(DEFAULT_MODULE, []);
    NothingRestricted(p);
    lists, log := SiteScenarioRuns(p, world, [], TWICE, [[Active], []]);
    ScenarioIsPlanned(p, world, [], TWICE, [[Active], []]);
    assert PlannedEntry(p, flow[1], Selection(TWICE[1], [], []));
    PlannedNodes(p, flow[1], Selection(DEFAULT_MODULE, [], []));
    RunCommands(p.cmd, flow, lists, log);
    assert Breaks(p.cmd, flow[0].states) && !Breaks(p.cmd, flow[1].states);
    assert !Executed(p.cmd, flow, 1);
  }

  lemma NothingRestricted(p: Procedure)
    ensures forall s :: Permits(p.c, map[], p.site, p.cmd, s, NoMode()(s))
  {}

  // ---------------------------------------------------------------- merging

  /** An accepted move whose merged plan has a service that the plan of the first site does not have. */
  lemma MergedPlanDiffers()
    ensures var c, f := Pair(Settings("x", []), Settings(DEFAULT_MODULE, [])), Selection(DEFAULT_MODULE, [], []);
            var plan := CleanPlan(c, [LEFT, RIGHT], f);
            && PlanOf(c, AvailableSites(c), f, plan) && MoveAccepted(c, plan.order, plan) && S in plan.order
            && TableOf(c, AvailableSites(c), f) != TableOf(c, [LEFT], f) && S !in PlannedOrder(c, [LEFT], f)
  {
    hide NoDeps, PlanOf, TakesPart, TakesPartAt, Prepared, PlannedSorter, PlannedOrder, TableOf, ValidSite;
    var c, f := Pair(Settings("x", []), Settings(DEFAULT_MODULE, [])), Selection(DEFAULT_MODULE, [], []);
    var plan := CleanPlan(c, [LEFT, RIGHT], f);
    PairIsValid("x", DEFAULT_MODULE, []);
    RightTakesPart("x", [], []);
    EasyPlan(c, [LEFT, RIGHT], f);
    EasyPlan(c, [LEFT], f);
    NotOnTheLeft();
    PairIsConsistent("x", DEFAULT_MODULE);
    assert PlannedOrder(c, [LEFT, RIGHT], f) != PlannedOrder(c, [LEFT], f);
    OrderOfTable(c, [LEFT, RIGHT], [LEFT], f);
  }

  lemma OrderOfTable(c: ClusterState, sites: seq<Site>, sites': seq<Site>, f: Selection)
    ensures TableOf(c, sites, f) == TableOf(c, sites', f) ==> PlannedOrder(c, sites, f) == PlannedOrder(c, sites', f)
  {
    hide TableOf, GraphOf, OrderOf;
  }

  lemma NotOnTheLeft()
    ensures var c, f := Pair(Settings("x", []), Settings(DEFAULT_MODULE, [])), Selection(DEFAULT_MODULE, [], []);
            !TakesPart(c, [LEFT], f, S)
  {
    hide Substring;
    PairIsValid("x", DEFAULT_MODULE, []);
    LetterNotInside('x', DEFAULT_MODULE);
  }

  lemma {:induction false} LetterNotInside(letter: char, b: string)
    requires letter !in b
    ensures !Substring([letter], b)
    decreases |b|
  {
    if b == "" {
    } else {
      LetterNotInside(letter, b[1..]);
      assert b[0] in b;
    }
  }

  lemma PairIsConsistent(l: string, r: string)
    ensures var c := Pair(Settings(l, []), Settings(r, []));
            forall s :: PairwiseSameDeps(c, c.conf, s) && PairwiseSameSequence(c, c.conf, s)
  {
    PairIsValid(l, r, []);
  }

  // ---------------------------------------------------------------- a sequence that begins with no mode

  /** The failover to the right site, with the sequence ["up"] on both. */
  function StopWithSequenceUp(): Procedure {
    Procedure(Pair(Settings(DEFAULT_MODULE, ["up"]), Settings(DEFAULT_MODULE, ["up"])), StopCmd, LEFT, false)
  }

  lemma StopFacts()
    ensures var p := StopWithSequenceUp();
            p.cmd == StopCmd && p.site == LEFT && NoDeps(p.c) && ValidCluster(p.c) && p.site in p.c.conf
  {
    PairIsValid(DEFAULT_MODULE, DEFAULT_MODULE, ["up"]);
  }

  /** It is validated, whatever the sites would answer it fails the service, and it sends nothing. */
  lemma SequenceUpFailsUnasked(world: World) returns (lists: Lists, log: seq<Stamped>)
    ensures RunsAs(StopWithSequenceUp(), world, [], ONE_MODULE, [[]], lists, log)
    ensures var p := StopWithSequenceUp();
            ValidatedStop(p, Scenario(p, world, [], ONE_MODULE, [[]]), ONE_MODULE, [], [])
    ensures S in lists.failed && forall j: nat :: EntryCommands(log, j, S) == []
  {
    hide NoDeps, Run, FromWorkers, PlannedFlow, Scenario, EntryCommands, ModuleStopValidated, FailsIn;
    hide RefusedActivation, ValidCluster, StopWithSequenceUp, InPlan, UnknownHead;
    var p, flow := StopWithSequenceUp(), Scenario(StopWithSequenceUp(), world, [], ONE_MODULE, [[]]);
    StopFacts();
    StopIsValidated();
    lists, log := StopScenarioRuns(p, world, [], ONE_MODULE, [[]]);
    ScenarioIsPlanned(p, world, [], ONE_MODULE, [[]]);
    UpFailsInFirst(world);
    ValidatedFailoverIsTolerant(p, world, flow, ONE_MODULE, [], [], lists, log, S);
    UpSendsNothing(world, lists, log);
  }

  lemma StopIsValidated()
    ensures var p, f := StopWithSequenceUp(), Selection(DEFAULT_MODULE, [], []);
            ModuleStopValidated(p, f) && SitesOfPlan(p.c, p.cmd, p.site, f) == [LEFT, RIGHT] && InPlan(p, f, S)
  {
    hide NoDeps, TakesPart, TakesPartAt, Prepared, PlannedSorter, PlannedOrder, PlannedGraph, Cyclic, TableOf;
    hide DepsIncluded;
    var p, f := StopWithSequenceUp(), Selection(DEFAULT_MODULE, [], []);
    PairIsValid(DEFAULT_MODULE, DEFAULT_MODULE, ["up"]);
    RightTakesPart(DEFAULT_MODULE, ["up"], []);
    EasyPlan(p.c, [LEFT, RIGHT], f);
    var plan := CleanPlan(p.c, [LEFT, RIGHT], f);
    assert PlanOf(p.c, SitesOfPlan(p.c, p.cmd, p.site, f), f, plan) && StopAccepted(p.c, p.site, plan);
  }

  lemma UpIsUnknown()
    ensures UnknownHead(StopWithSequenceUp().c, S, false, LEFT) && SequenceKnown(StopWithSequenceUp().c, S, false, LEFT)
  {
    PairIsValid(DEFAULT_MODULE, DEFAULT_MODULE, ["up"]);
    assert "up"[0] != "standby"[0] && "up"[0] != "active"[0];
  }

  lemma UpFailsInFirst(world: World)
    ensures FailsIn(StopWithSequenceUp(), world, Scenario(StopWithSequenceUp(), world, [], ONE_MODULE, [[]]), 0, S)
  {
    hide NoDeps, ValidCluster, Prepared, PlannedEntry, SitesOfPlan, PlanOf, Doomed, Edge, TakesPart, Scenario, InPlan;
    hide ModuleStopValidated, StopWithSequenceUp, PlannedSorter, UnknownHead;
    var p, f := StopWithSequenceUp(), Selection(DEFAULT_MODULE, [], []);
    var flow := Scenario(p, world, [], ONE_MODULE, [[]]);
    StopFacts();
    ScenarioIsPlanned(p, world, [], ONE_MODULE, [[]]);
    StopIsValidated();
    assert PlannedEntry(p, flow[0], Selection(ONE_MODULE[0], [], []));
    PlannedNodes(p, flow[0], f);
    FirstIsNotDoomed(p, world, [], ONE_MODULE, [[]], S);
    UpIsUnknown();
  }

  lemma UpSendsNothing(world: World, lists: Lists, log: seq<Stamped>)
    requires Run(StopCmd, Scenario(StopWithSequenceUp(), world, [], ONE_MODULE, [[]]), lists, log)
    ensures forall j: nat :: EntryCommands(log, j, S) == []
  {
    hide NoDeps, ValidCluster, Run, Prepared, PlannedEntry, EntryCommands, Scenario, UnknownHead, ModuleStopValidated;
    hide InPlan, Doomed, OutcomeIn, Reached, SequenceKnown, StopWithSequenceUp, WorkerOf;
    var p := StopWithSequenceUp();
    StopFacts();
    ScenarioIsPlanned(p, world, [], ONE_MODULE, [[]]);
    RunCommands(p.cmd, Scenario(p, world, [], ONE_MODULE, [[]]), lists, log);
    StopIsValidated();
    FirstEntrySends(p, world, [], ONE_MODULE, [[]], lists, log, S);
    UpIsUnknown();
    UnknownHeadFailsUnasked(p, world(0, S), S);
    OutcomeOfEnded(p, [], world(0, S), S);
  }

  lemma OutcomeOfEnded(p: Procedure, states: seq<Mode>, sites: Sites, s: Service)
    requires WorkerOf(p, states, sites, s).Ended?
    ensures OutcomeIn(p, states, sites, s) == WorkerOf(p, states, sites, s).outcome
  {}

  // ---------------------------------------------------------------- a planned service that is not reported

  const FAILING := Service("failing")
  const LOST := Service("lost")

  /** Both services are on the right site only, the second available one, in modules of their own. */
  function RightOnly(): ClusterState {
    ClusterState([LEFT, RIGHT], map[
      LEFT := SiteState(true, [], map[]),
      RIGHT := SiteState(true, [FAILING, LOST],
                         map[FAILING := Settings(DEFAULT_MODULE, []), LOST := Settings("n", [])])], 200)
  }

  /** A standby run on that site, one module after the other. */
  function TwoModules(): Procedure {
    Procedure(RightOnly(), StandbyCmd, RIGHT, false)
  }

  const BOTH_MODULES := [DEFAULT_MODULE, "n"]

  /** No site replies. */
  function Silence(): World {
    (i, s) => site => Refused([])
  }

  ghost function LosingFlow(): seq<Entry> {
    Scenario(TwoModules(), Silence(), [], BOTH_MODULES, [[], []])
  }

  lemma TwoModulesFacts()
    ensures var p := TwoModules();
            && p.cmd == StandbyCmd && p.site == RIGHT && NoDeps(p.c) && ValidCluster(p.c) && p.site in p.c.conf
            && AvailableSites(p.c) == [LEFT, RIGHT] && FAILING != LOST && forall s :: !Has(p.c, LEFT, s)
  {
    RightOnlyIsValid();
  }

  lemma RightOnlyIsValid()
    ensures NoDeps(RightOnly()) && AvailableSites(RightOnly()) == [LEFT, RIGHT] && FAILING != LOST
    ensures forall site, s :: Has(RightOnly(), site, s) <==> site == RIGHT && (s == FAILING || s == LOST)
    ensures ConfOf(RightOnly(), RIGHT, FAILING) == Settings(DEFAULT_MODULE, [])
    ensures ConfOf(RightOnly(), RIGHT, LOST) == Settings("n", [])
  {
    assert LEFT.name[0] != RIGHT.name[0] && FAILING.name[0] != LOST.name[0];
    assert ValidCluster(RightOnly());
    AllAvailable(RightOnly());
  }

  lemma ModulesDiffer()
    ensures !Substring("n", DEFAULT_MODULE) && !Substring(DEFAULT_MODULE, "n")
    ensures Substring("n", "n") && Substring(DEFAULT_MODULE, DEFAULT_MODULE)
  {
    LetterNotInside('n', DEFAULT_MODULE);
    assert |DEFAULT_MODULE| > |"n"|;
  }

  lemma RightOnlyInPlan(mod: string, s: Service)
    requires mod in BOTH_MODULES
    ensures InPlan(TwoModules(), Selection(mod, [], []), s) <==> s == if mod == DEFAULT_MODULE then FAILING else LOST
  {
    hide Substring, NoDeps;
    RightOnlyIsValid();
    ModulesDiffer();
    var f := Selection(mod, [], []);
    assert TakesPart(RightOnly(), [RIGHT], f, s) <==> TakesPartAt(RightOnly(), RIGHT, f, s);
  }

  /** The input passes validation. */
  lemma RightOnlyIsAccepted(mod: string)
    requires mod in BOTH_MODULES
    ensures var p, f := TwoModules(), Selection(mod, [], []); PlanAccepted(p, f, CleanPlan(p.c, [RIGHT], f))
  {
    hide NoDeps, PlanOf, TakesPart, Prepared, PlannedSorter, PlannedOrder, InPlan, Included;
    var p, f := TwoModules(), Selection(mod, [], []);
    RightOnlyIsValid();
    EasyPlan(p.c, [RIGHT], f);
    forall s | s in PlannedOrder(p.c, [RIGHT], f)
      ensures Has(p.c, RIGHT, s)
    {
      assert TakesPart(p.c, [RIGHT], f, s);
      TakesPartThere(p.c, RIGHT, f, s);
    }
  }

  lemma TakesPartThere(c: ClusterState, site: Site, f: Selection, s: Service)
    requires TakesPart(c, [site], f, s)
    ensures Has(c, site, s)
  {}

  /** A site that does not reply fails the service. */
  lemma SilenceFails()
    ensures var o := OutcomeIn(TwoModules(), [], Silence()(0, FAILING), FAILING); AfterWorker(Unlisted, o) == Failed
  {
    hide Has, NoDeps;
    RightOnlyIsValid();
    RefusalFails(RightOnly(), FAILING, Target(RIGHT, Standby));
    var c := Judge(RightOnly(), FAILING, Target(RIGHT, Standby), RIGHT, false, false, Refused([]));
    assert OutcomeIn(TwoModules(), [], Silence()(0, FAILING), FAILING) == Outcome([c], c.verdict);
    CommandsNeverSkip([c]);
  }

  lemma RefusalFails(c: ClusterState, s: Service, t: Target)
    requires Has(c, t.site, s) && ConfOf(c, t.site, s).allowedStandbyStateList == ["up"]
    ensures var v := Judge(c, s, t, t.site, false, false, Refused([])).verdict; !v.serviceStatus && !v.allowFailure
  {}

  lemma LosingFlowFails()
    ensures AfterFailure(StandbyCmd, LosingFlow(), 1)
  {
    hide NoDeps, ValidCluster, PlannedEntry, OutcomeIn, InPlan, Prepared, AfterWorker, Doomed, Scenario, TwoModules;
    var p, flow, f := TwoModules(), LosingFlow(), Selection(DEFAULT_MODULE, [], []);
    TwoModulesFacts();
    ScenarioIsPlanned(p, Silence(), [], BOTH_MODULES, [[], []]);
    RightOnlyInPlan(DEFAULT_MODULE, FAILING);
    assert PlannedEntry(p, flow[0], Selection(BOTH_MODULES[0], [], []));
    PlannedNodes(p, flow[0], f);
    SilenceFails();
    FirstScript(p, Silence(), [], BOTH_MODULES, [[], []], FAILING);
    FirstIsNotDoomed(p, Silence(), [], BOTH_MODULES, [[], []], FAILING);
    assert EntryFails(flow[0]) && Executed(StandbyCmd, flow, 0);
  }

  lemma BothAreAccepted()
    ensures CommandAccepted(TwoModules(), map[], BOTH_MODULES, [], [], NoMode())
  {
    hide PlanAccepted, Permits, TwoModules, ServicesToValidate;
    var p := TwoModules();
    NothingRestricted(p);
    forall m | m in BOTH_MODULES
      ensures ModuleAccepted(p, map[], Selection(m, [], []), NoMode())
    {
      RightOnlyIsAccepted(m);
    }
  }

  /**
   * A planned service ends in none of the four lists: the plan is made from the named site and fails at its first
   * module; the services of the next one are looked up on another site, which does not have them.
   */
  lemma PlannedServiceIsLost() returns (lists: Lists, log: seq<Stamped>)
    ensures CommandAccepted(TwoModules(), map[], BOTH_MODULES, [], [], NoMode())
    ensures RunsAs(TwoModules(), Silence(), [], BOTH_MODULES, [[], []], lists, log)
    ensures InPlan(TwoModules(), Selection("n", [], []), LOST) && AfterFailure(StandbyCmd, LosingFlow(), 1)
    ensures ListsWith(lists, LOST) == 0
  {
    hide NoDeps, ValidCluster, PlannedFlow, FromWorkers, Run, EntryFails, InPlan, ListsWith, Reached, Scenario;
    hide TwoModules, CommandAccepted;
    var p := TwoModules();
    TwoModulesFacts();
    BothAreAccepted();
    lists, log := SiteScenarioRuns(p, Silence(), [], BOTH_MODULES, [[], []]);
    LosingFlowFails();
    RightOnlyInPlan(DEFAULT_MODULE, LOST);
    RightOnlyInPlan("n", LOST);
    FailureStops(StandbyCmd, LosingFlow(), 1);
    ScenarioIsPlanned(p, Silence(), [], BOTH_MODULES, [[], []]);
    ListedIff(p, LosingFlow(), BOTH_MODULES, [], [], lists, log, LOST);
  }
}
