/** The printed plan of a run, and its agreement with what a failure-free run does. */
module DryRun {
  import opened Graphs
  import opened Sorters
  import opened Results
  import opened Engine
  import opened Schedules
  import opened Flow
  import opened Cluster
  import opened Workers
  import opened Safety
  import opened Prepare
  import opened Validation
  import opened EndToEnd

  // ---------------------------------------------------------------- stages

  /** A chain of k services, each a predecessor of the next, ends in s. */
  ghost predicate ChainTo(g: Graph, k: nat, s: Service)
    decreases k
  {
    if k == 0 then false
    else if k == 1 then s in g.succ
    else exists p :: Edge(g, p, s) && ChainTo(g, k - 1, p)
  }

  ghost predicate LongestChain(g: Graph, s: Service, k: int) {
    k > 0 && ChainTo(g, k, s) && forall m: nat :: m > k ==> !ChainTo(g, m, s)
  }

  /** After t stages every unfinished node has a chain longer than t, and no finished one has. */
  ghost predicate StageRight(g: Graph, fin: set<Service>, t: nat) {
    && (forall n :: n in g.succ && n !in fin ==> ChainTo(g, t + 1, n))
    && (forall n, m: nat :: n in fin && m > t ==> !ChainTo(g, m, n))
  }

  lemma StageStep(s: Sorter, fin: set<Service>, t: nat)
    requires SorterInv(s, {}, fin) && StageRight(s.graph, fin, t)
    ensures StageRight(s.graph, fin + Elements(s.ready), t + 1)
    ensures forall n :: n in s.ready ==> LongestChain(s.graph, n, t + 1)
  {
    hide CountersRight, ValidGraph;
    var g, fin' := s.graph, fin + Elements(s.ready);
    forall n, m: nat | n in s.ready && m > t + 1
      ensures !ChainTo(g, m, n)
    {}
    forall n | n in g.succ && n !in fin'
      ensures ChainTo(g, t + 2, n)
    {
      var p :| Edge(g, p, n) && p !in fin;
      assert p in g.succ;
      assert ChainTo(g, t + 1, p);
    }
  }

  ghost predicate HasChain(g: Graph, k: nat) {
    exists s :: ChainTo(g, k, s)
  }

  /** h is the length of the longest chain, 0 without nodes. */
  ghost predicate HasHeight(g: Graph, h: nat) {
    (h > 0 ==> HasChain(g, h)) && forall m: nat :: m > h ==> !HasChain(g, m)
  }

  /** The number of stages the graph takes. */
  ghost function HeightOf(g: Graph): nat {
    if exists h: nat :: HasHeight(g, h) then var h: nat :| HasHeight(g, h); h else 0
  }

  lemma HeightIsUnique(g: Graph, h: nat)
    requires HasHeight(g, h)
    ensures HeightOf(g) == h
  {}

  lemma ChainIsNode(g: Graph, k: nat, s: Service)
    requires ValidGraph(g) && ChainTo(g, k, s)
    ensures s in g.succ
  {}

  /** The stages gone through are as many as the longest chain is long. */
  lemma StagesAreHeight(g: Graph, t: nat)
    requires ValidGraph(g) && StageRight(g, g.succ.Keys, t)
    requires t > 0 ==> HasChain(g, t)
    ensures HeightOf(g) == t
  {
    hide ChainTo, ValidGraph;
    forall m: nat, s | m > t && ChainTo(g, m, s)
      ensures false
    {
      ChainIsNode(g, m, s);
    }
    HeightIsUnique(g, t);
  }

  // ---------------------------------------------------------------- the plan

  datatype Line = Line(stage: nat, service: Service, targets: seq<Target>)

  /** Entries the plan leaves out; execution stops at the first kind instead. */
  predicate Planned(cmd: Cmd, states: seq<Mode>) {
    !Breaks(cmd, states) && !Passes(cmd, states)
  }

  /** What the plan prints for one service, with `return` read as the standby it sends. */
  function PlannedTargets(c: ClusterState, cmd: Cmd, states: seq<Mode>, site: Site, s: Service): seq<Target> {
    if !IsDr(cmd) then [Target(site, ModeOf(cmd))]
    else if states == [] then DrSequence(c, s, cmd == MoveCmd, site)
    else
      var away := (states[0] == Standby && cmd == MoveCmd) || (states[0] == Active && cmd == StopCmd);
      [Target(if away then Opposite(c, site) else site, states[0])]
  }

  /** The lines of one entry: every node once, at the stage that is the length of its longest chain, stage by stage. */
  ghost predicate EntryPlan(c: ClusterState, cmd: Cmd, e: Entry, site: Site, base: nat, lines: seq<Line>) {
    && OncePerLine(lines) && StageByStage(lines)
    && (forall n :: n in e.sorter.graph.succ ==> exists i :: 0 <= i < |lines| && lines[i].service == n)
    && LinesRight(c, cmd, e, site, base, lines)
  }

  ghost predicate LinesRight(c: ClusterState, cmd: Cmd, e: Entry, site: Site, base: nat, lines: seq<Line>) {
    forall i :: 0 <= i < |lines| ==>
      && lines[i].service in e.sorter.graph.succ
      && LongestChain(e.sorter.graph, lines[i].service, lines[i].stage - base)
      && lines[i].targets == PlannedTargets(c, cmd, e.states, site, lines[i].service)
  }

  function ServicesOf(lines: seq<Line>): set<Service> {
    set l | l in lines :: l.service
  }

  ghost predicate OncePerLine(lines: seq<Line>) {
    forall i, j :: 0 <= i < j < |lines| ==> lines[i].service != lines[j].service
  }

  ghost predicate StageByStage(lines: seq<Line>) {
    forall i, j :: 0 <= i < j < |lines| ==> lines[i].stage <= lines[j].stage
  }

  ghost predicate UpToStage(lines: seq<Line>, stage: nat) {
    StageByStage(lines) && forall i :: 0 <= i < |lines| ==> lines[i].stage <= stage
  }

  lemma NextStage(lines: seq<Line>, more: seq<Line>, stage: nat)
    requires UpToStage(lines, stage) && forall i :: 0 <= i < |more| ==> more[i].stage == stage + 1
    ensures UpToStage(lines + more, stage + 1)
  {}

  /** The operations printed for one service. */
  method PlanService(c: ClusterState, cmd: Cmd, states: seq<Mode>, site: Site, s: Service)
      returns (targets: seq<Target>)
    ensures targets == PlannedTargets(c, cmd, states, site, s)
  {
    if cmd == MoveCmd || cmd == StopCmd {
      if states != [] {
        var actualSite := site;
        if (states[0] == Standby && cmd == MoveCmd) || (states[0] == Active && cmd == StopCmd) {
          actualSite := Opposite(c, site);
        }
        targets := [Target(actualSite, states[0])];
      } else {
        targets := DrSequence(c, s, cmd == MoveCmd, site);
      }
    } else {
      targets := [Target(site, if cmd == ActiveCmd then Active else if cmd == DisableCmd then Disable else Standby)];
    }
  }

  /** The lines of one stage. */
  method PlanStage(c: ClusterState, cmd: Cmd, e: Entry, site: Site, base: nat, stage: nat, batch: seq<Service>)
      returns (lines: seq<Line>)
    requires base < stage && Distinct(batch)
    requires forall n :: n in batch ==> n in e.sorter.graph.succ && LongestChain(e.sorter.graph, n, stage - base)
    ensures LinesRight(c, cmd, e, site, base, lines)
    ensures |lines| == |batch|
    ensures forall i :: 0 <= i < |batch| ==> lines[i].service == batch[i] && lines[i].stage == stage
  {
    hide LongestChain, PlannedTargets;
    lines := [];
    for i := 0 to |batch|
      invariant |lines| == i && forall k :: 0 <= k < i ==> lines[k].service == batch[k] && lines[k].stage == stage
      invariant LinesRight(c, cmd, e, site, base, lines)
    {
      assert batch[i] in batch;
      var targets := PlanService(c, cmd, e.states, site, batch[i]);
      lines := lines + [Line(stage, batch[i], targets)];
    }
  }

  lemma MoreServices(lines: seq<Line>, more: seq<Line>, batch: seq<Service>)
    requires OncePerLine(lines) && Distinct(batch) && ServicesOf(lines) !! Elements(batch)
    requires |more| == |batch| && forall i :: 0 <= i < |batch| ==> more[i].service == batch[i]
    ensures OncePerLine(lines + more)
    ensures ServicesOf(lines + more) == ServicesOf(lines) + Elements(batch)
  {
    assert forall i :: 0 <= i < |lines| ==> lines[i] in lines && lines[i].service in ServicesOf(lines);
    assert forall i :: 0 <= i < |batch| ==> more[i] in more && batch[i] in Elements(batch);
    forall n | n in Elements(batch)
      ensures n in ServicesOf(more)
    {
      var i :| 0 <= i < |batch| && batch[i] == n;
      assert more[i] in more;
    }
    assert ServicesOf(more) == Elements(batch);
    assert forall l :: l in lines + more <==> l in lines || l in more;
  }

  lemma MoreLines(c: ClusterState, cmd: Cmd, e: Entry, site: Site, base: nat, lines: seq<Line>, more: seq<Line>)
    requires LinesRight(c, cmd, e, site, base, lines) && LinesRight(c, cmd, e, site, base, more)
    ensures LinesRight(c, cmd, e, site, base, lines + more)
  {}

  /** The plan of one entry after t stages. */
  ghost predicate PlanSoFar(c: ClusterState, cmd: Cmd, e: Entry, site: Site, base: nat,
                            s: Sorter, fin: set<Service>, t: nat, lines: seq<Line>) {
    && SorterInv(s, {}, fin) && s.graph == e.sorter.graph
    && StageRight(s.graph, fin, t) && (t > 0 ==> HasChain(s.graph, t))
    && LinesRight(c, cmd, e, site, base, lines) && OncePerLine(lines) && UpToStage(lines, base + t)
    && ServicesOf(lines) == fin
  }

  lemma PlanGoesOn(c: ClusterState, cmd: Cmd, e: Entry, site: Site, base: nat, s: Sorter, s': Sorter,
                   fin: set<Service>, t: nat, lines: seq<Line>, more: seq<Line>)
    requires PlanSoFar(c, cmd, e, site, base, s, fin, t, lines) && CanProgress(s)
    requires SorterInv(s', {}, fin + Elements(s.ready)) && s'.graph == s.graph
    requires LinesRight(c, cmd, e, site, base, more) && |more| == |s.ready|
    requires forall i :: 0 <= i < |more| ==> more[i].service == s.ready[i] && more[i].stage == base + t + 1
    ensures PlanSoFar(c, cmd, e, site, base, s', fin + Elements(s.ready), t + 1, lines + more)
  {
    hide SorterInv, CanProgress, StageRight, LinesRight, LongestChain, OncePerLine, UpToStage, HasChain;
    StageFacts(s, fin, t);
    MoreLines(c, cmd, e, site, base, lines, more);
    MoreServices(lines, more, s.ready);
    NextStage(lines, more, base + t);
  }

  lemma PlanIsComplete(c: ClusterState, cmd: Cmd, e: Entry, site: Site, base: nat,
                       s: Sorter, fin: set<Service>, t: nat, lines: seq<Line>)
    requires PlanSoFar(c, cmd, e, site, base, s, fin, t, lines) && !CanProgress(s) && !Cyclic(e.sorter.graph)
    ensures EntryPlan(c, cmd, e, site, base, lines) && HeightOf(e.sorter.graph) == t
  {
    hide SorterInv, CanProgress, Cyclic, StageRight, LinesRight, OncePerLine, StageByStage, HasChain, HeightOf;
    InactiveMeansFinished(s, {}, fin);
    InvIsValid(s, {}, fin);
    StagesAreHeight(s.graph, t);
    forall n | n in e.sorter.graph.succ
      ensures exists i :: 0 <= i < |lines| && lines[i].service == n
    {
      assert n in ServicesOf(lines);
    }
  }

  lemma PlanBegins(c: ClusterState, cmd: Cmd, e: Entry, site: Site, base: nat)
    requires Prepared(e.sorter)
    ensures PlanSoFar(c, cmd, e, site, base, e.sorter, {}, 0, [])
  {
    hide SorterInv, Cyclic;
  }

  /** Draining a copy of the sorter of one entry, one stage at a time. */
  method PlanEntry(c: ClusterState, cmd: Cmd, e: Entry, stored: TopologicalSorter, site: Site, base: nat)
      returns (lines: seq<Line>, stage: nat)
    requires stored.State() == e.sorter && Prepared(e.sorter)
    ensures EntryPlan(c, cmd, e, site, base, lines) && stage == base + HeightOf(e.sorter.graph)
  {
    hide SorterInv, Cyclic, PlanSoFar, LinesRight, LongestChain, EntryPlan, HeightOf, CanProgress, Distinct, GetReady;
    var ts := new TopologicalSorter.Copy(stored);
    ghost var fin: set<Service> := {};
    stage, lines := base, [];
    PlanBegins(c, cmd, e, site, base);
    var active := ts.IsActive();
    while active
      invariant fresh(ts) && active == CanProgress(ts.State()) && stage >= base
      invariant PlanSoFar(c, cmd, e, site, base, ts.State(), fin, stage - base, lines)
      decreases e.sorter.graph.succ.Keys - fin
    {
      ghost var s := ts.State();
      PlanFacts(c, cmd, e, site, base, s, fin, stage - base, lines);
      stage := stage + 1;
      var batch := ts.TakeReady();
      var more := PlanStage(c, cmd, e, site, base, stage, batch);
      ts.MarkAllDone(batch, fin);
      assert ts.G() == s.graph by { GetReadyKeepsGraph(s); }
      PlanGoesOn(c, cmd, e, site, base, s, ts.State(), fin, stage - base - 1, lines, more);
      lines, fin := lines + more, fin + Elements(batch);
      active := ts.IsActive();
    }
    PlanIsComplete(c, cmd, e, site, base, ts.State(), fin, stage - base, lines);
  }

  lemma PlanFacts(c: ClusterState, cmd: Cmd, e: Entry, site: Site, base: nat,
                  s: Sorter, fin: set<Service>, t: nat, lines: seq<Line>)
    requires PlanSoFar(c, cmd, e, site, base, s, fin, t, lines) && CanProgress(s)
    ensures forall n :: n in s.ready ==>
              n in s.npred && n in e.sorter.graph.succ && LongestChain(e.sorter.graph, n, t + 1)
    ensures Distinct(s.ready) && SorterInv(GetReady(s), Elements(s.ready), fin)
    ensures e.sorter.graph.succ.Keys - (fin + Elements(s.ready)) < e.sorter.graph.succ.Keys - fin
  {
    hide SorterInv, CanProgress, StageRight, LinesRight, LongestChain, OncePerLine, UpToStage, Distinct, GetReady;
    StageFacts(s, fin, t);
  }

  lemma StageFacts(s: Sorter, fin: set<Service>, t: nat)
    requires SorterInv(s, {}, fin) && CanProgress(s) && StageRight(s.graph, fin, t)
    ensures forall n :: n in s.ready ==> n in s.npred && n in s.graph.succ && LongestChain(s.graph, n, t + 1)
    ensures SorterInv(GetReady(s), Elements(s.ready), fin)
    ensures StageRight(s.graph, fin + Elements(s.ready), t + 1)
    ensures HasChain(s.graph, t + 1)
    ensures Distinct(s.ready) && Elements(s.ready) !! fin
    ensures s.graph.succ.Keys - (fin + Elements(s.ready)) < s.graph.succ.Keys - fin
  {
    hide SorterInv, StageRight, LongestChain, ChainTo, CanProgress, GetReady, PredsFinished, Distinct;
    ReadyIsProgress(s, fin);
    ReadyKnown(s, fin);
    StageStep(s, fin, t);
    GetReadyKeepsInv(s, {}, fin);
    assert {} + Elements(s.ready) == Elements(s.ready);
    assert s.ready[0] in Elements(s.ready);
    StrictlyFewer(s.graph.succ.Keys, fin, Elements(s.ready));
    LongestIsChain(s.graph, s.ready[0], t + 1);
  }

  lemma StrictlyFewer(all: set<Service>, fin: set<Service>, batch: set<Service>)
    requires batch != {} && batch <= all && batch !! fin
    ensures all - (fin + batch) < all - fin
  {
    var n :| n in batch;
    assert n in all - fin && n !in all - (fin + batch);
  }

  lemma LongestIsChain(g: Graph, s: Service, k: nat)
    requires LongestChain(g, s, k)
    ensures ChainTo(g, k, s)
  {}

  /** The stages of the planned entries before entry j. */
  ghost function StagesBefore(cmd: Cmd, flow: seq<Entry>, j: nat): nat
    requires j <= |flow|
  {
    if j == 0 then 0
    else StagesBefore(cmd, flow, j - 1)
         + if Planned(cmd, flow[j - 1].states) then HeightOf(flow[j - 1].sorter.graph) else 0
  }

  /** The test for the entries that are left out. */
  method IsLeftOut(cmd: Cmd, states: seq<Mode>) returns (skipped: bool)
    ensures skipped == !Planned(cmd, states)
  {
    skipped := ((cmd == StandbyCmd || cmd == DisableCmd || cmd == ReturnCmd) && states == [Active])
               || (cmd == ActiveCmd && states != [] && (set m | m in states) == {Standby, Disable});
  }

  /** print_service_order: the lines of every entry of the flow, with stages counted through. */
  method PrintServiceOrder(c: ClusterState, cmd: Cmd, flow: seq<Entry>, sorters: seq<TopologicalSorter>, site: Site)
      returns (plan: seq<seq<Line>>)
    requires |sorters| == |flow| && forall i :: 0 <= i < |flow| ==> sorters[i].State() == flow[i].sorter
    requires AllPrepared(flow)
    ensures |plan| == |flow|
    ensures forall j :: 0 <= j < |flow| ==>
              if Planned(cmd, flow[j].states)
              then EntryPlan(c, cmd, flow[j], site, StagesBefore(cmd, flow, j), plan[j]) else plan[j] == []
  {
    hide EntryPlan, Planned, Prepared, HeightOf;
    plan := [];
    var stage := 0;
    for i := 0 to |flow|
      invariant |plan| == i && stage == StagesBefore(cmd, flow, i)
      invariant forall j :: 0 <= j < i ==>
                  if Planned(cmd, flow[j].states)
                  then EntryPlan(c, cmd, flow[j], site, StagesBefore(cmd, flow, j), plan[j]) else plan[j] == []
    {
      var lines := [];
      var skipped := IsLeftOut(cmd, flow[i].states);
      if !skipped {
        lines, stage := PlanEntry(c, cmd, flow[i], sorters[i], site, stage);
      }
      plan := plan + [lines];
    }
  }

  // ---------------------------------------------------------------- agreement with execution

  ghost predicate FailureFree(flow: seq<Entry>) {
    && (forall j :: 0 <= j < |flow| ==> !EntryFails(flow[j]))
    && (forall j, s :: 0 <= j < |flow| && s in flow[j].sorter.graph.succ ==> OutcomeOf(flow[j].script, s).final.IsOk())
  }

  /** Nothing but entries the run breaks at follows such an entry. */
  predicate BreaksLast(cmd: Cmd, flow: seq<Entry>) {
    forall i, j | 0 <= i < j < |flow| && Breaks(cmd, flow[i].states) :: Breaks(cmd, flow[j].states)
  }

  ghost predicate PlanIsExecuted(cmd: Cmd, flow: seq<Entry>) {
    forall j :: 0 <= j < |flow| ==> (Planned(cmd, flow[j].states) <==> Executed(cmd, flow, j))
  }

  lemma {:induction false} ReachedUnlessBroken(cmd: Cmd, flow: seq<Entry>, j: nat)
    requires j <= |flow| && forall i :: 0 <= i < |flow| ==> !EntryFails(flow[i])
    ensures Reached(cmd, flow, j) <==> forall i :: 0 <= i < j ==> !Breaks(cmd, flow[i].states)
  {
    hide EntryFails;
    if j == 0 {
    } else {
      ReachedUnlessBroken(cmd, flow, j - 1);
    }
  }

  /** Without failures the plan lists exactly the executed entries if and only if the flow breaks only at its end. */
  lemma PlanIsExecutedIff(cmd: Cmd, flow: seq<Entry>)
    requires forall i :: 0 <= i < |flow| ==> !EntryFails(flow[i])
    ensures PlanIsExecuted(cmd, flow) <==> BreaksLast(cmd, flow)
  {
    hide EntryFails, Reached;
    forall j | 0 <= j < |flow|
      ensures Reached(cmd, flow, j) <==> forall i :: 0 <= i < j ==> !Breaks(cmd, flow[i].states)
    {
      ReachedUnlessBroken(cmd, flow, j);
    }
    if PlanIsExecuted(cmd, flow) {
      forall i, j | 0 <= i < j < |flow| && Breaks(cmd, flow[i].states)
        ensures Breaks(cmd, flow[j].states)
      {
        assert !Executed(cmd, flow, j);
        assert !Planned(cmd, flow[j].states);
      }
    }
  }

  /** On both available sites, or for a one-site command on the named one. */
  ghost predicate WhereNeeded(p: Procedure, s: Service) {
    if IsDr(p.cmd) then OnBothSites(p.c, s) else Has(p.c, p.site, s)
  }

  lemma OkWorkerFollowsPlan(p: Procedure, states: seq<Mode>, sites: Sites, s: Service, o: Outcome)
    requires ValidCluster(p.c) && p.site in p.c.conf && WhereNeeded(p, s) && ValidStates(states)
    requires WorkerOf(p, states, sites, s) == Ended(o) && o.final.IsOk()
    ensures TargetsOf(o.commands) == PlannedTargets(p.c, p.cmd, states, p.site, s)
  {
    hide Judge, Has, Available, ValidCluster, UnknownHead, DrSequence, SequenceKnown, RunTargets;
    OppositeIsInvolution(p.c, p.site);
    var move := p.cmd == MoveCmd;
    var j := Job(p.c, s, move, p.site, p.force, sites);
    if IsDr(p.cmd) && states == [] {
      var q := DrSequence(p.c, s, move, p.site);
      DrTargets(p.c, s, move, p.site);
      if q == [] {
        NothingToRun(j);
        return;
      }
      assert q == [q[0], q[1]];
      TwoTargets(j, q[0], q[1], FAILED);
      OneTarget(j, q[1], JudgeAt(j, q[0]).verdict);
      JudgeKeepsTarget(j, q[0]);
      JudgeKeepsTarget(j, q[1]);
      TargetsOfTwo(JudgeAt(j, q[0]), JudgeAt(j, q[1]));
    } else {
      var t := EntryTarget(p.c, p.cmd, states, p.site);
      JudgedTarget(p, s, t, sites);
    }
  }

  lemma DrTargets(c: ClusterState, s: Service, move: bool, site: Site)
    requires ValidCluster(c) && site in c.conf && OnBothSites(c, s)
    ensures var q := DrSequence(c, s, move, site);
            (q == [] || |q| == 2) && forall t :: t in q ==> Has(c, t.site, s) && Available(c, t.site)
  {}

  lemma NothingToRun(j: Job)
    ensures RunTargets(j, [], FAILED) == Outcome([], FAILED)
  {}

  lemma JudgedTarget(p: Procedure, s: Service, t: Target, sites: Sites)
    requires Has(p.c, t.site, s)
    ensures TargetsOf(RunOneSite(p.c, s, t, p.cmd == StopCmd, p.force, sites).commands) == [t]
  {}

  /**
   * The dry run agrees with execution: in a failure-free run with every service where the command needs it, each
   * executed entry sends each of its services exactly the operations the plan prints, in order.
   */
  lemma DryRunAgrees(p: Procedure, world: World, flow: seq<Entry>, lists: Lists, log: seq<Stamped>, j: nat, s: Service)
    requires ValidCluster(p.c) && p.site in p.c.conf
    requires FromWorkers(p, world, flow) && AllPrepared(flow) && Run(p.cmd, flow, lists, log)
    requires FailureFree(flow) && BreaksLast(p.cmd, flow)
    requires j < |flow| && ValidStates(flow[j].states) && s in flow[j].sorter.graph.succ
    requires WhereNeeded(p, s)
    ensures TargetsOf(EntryCommands(log, j, s)) ==
            if Planned(p.cmd, flow[j].states) then PlannedTargets(p.c, p.cmd, flow[j].states, p.site, s) else []
  {
    hide Run, EntryCommands, Doomed, EntryFails, Prepared, RunWorker, PlannedTargets, WhereNeeded, ValidCluster;
    RunCommands(p.cmd, flow, lists, log);
    PlanIsExecutedIff(p.cmd, flow);
    if Doomed(flow[j].sorter.graph, flow[j].script, s) { FailsIfDoomed(flow[j], s); }
    OkWorkerFollowsPlan(p, flow[j].states, world(j, s), s, OutcomeOf(flow[j].script, s));
  }

  /**
   * The same from planning and validation on: after a validated switchover, or for any planned one-site command, every
   * service of the plan is where the command needs it.
   */
  lemma PlannedRunFollowsDryRun(p: Procedure, world: World, flow: seq<Entry>, mods: seq<string>, run: seq<Service>,
                                ignored: seq<Service>, lists: Lists, log: seq<Stamped>, j: nat, s: Service)
    requires ValidatedMove(p, flow, mods, run, ignored)
             || (!IsDr(p.cmd) && ValidCluster(p.c) && p.site in p.c.conf && PlannedFlow(p, flow, mods, run, ignored))
    requires FromWorkers(p, world, flow) && Run(p.cmd, flow, lists, log)
    requires FailureFree(flow) && BreaksLast(p.cmd, flow)
    requires j < |flow| && ValidStates(flow[j].states) && s in flow[j].sorter.graph.succ
    ensures TargetsOf(EntryCommands(log, j, s)) ==
            if Planned(p.cmd, flow[j].states) then PlannedTargets(p.c, p.cmd, flow[j].states, p.site, s) else []
  {
    hide ValidCluster, MoveValidated, ModulesApart, Prepared, PlannedEntry, OnBothSites, Run, FromWorkers;
    hide EntryCommands, EntryFails, PlannedTargets, BreaksLast, FailureFree, Included;
    if IsDr(p.cmd) {
      ValidatedNodes(p, flow, mods, run, ignored, j, s);
    } else {
      PlannedNodes(p, flow[j], Selection(mods[j], run, ignored));
    }
    DryRunAgrees(p, world, flow, lists, log, j, s);
  }
}
