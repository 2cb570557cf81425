/**
 * Which services a run reports.  After a failure the flow does not skip the services of the plan but those of the
 * module on the first available site; here is exactly when that loses a planned service.
 */
module Conservation {
  import opened Graphs
  import opened Results
  import opened Schedules
  import opened Flow
  import opened Cluster
  import opened Prepare
  import opened Safety
  import opened Validation
  import opened EndToEnd

  // ---------------------------------------------------------------- which planned services are reported

  /** The first available site knows the service under this module. */
  predicate OnFirstSite(c: ClusterState, mod: string, s: Service) {
    && mod != "" && AvailableSites(c) != []
    && Has(c, AvailableSites(c)[0], s) && ConfOf(c, AvailableSites(c)[0], s).mod == mod
  }

  lemma MembersAreOnFirstSite(c: ClusterState, mod: string, s: Service)
    requires ValidCluster(c)
    ensures s in FirstSiteMembers(c, mod) <==> OnFirstSite(c, mod, s)
  {
    hide Available;
    FilterIsPart(c, c.conf);
    if AvailableSites(c) != [] {
      var first := AvailableSites(c)[0];
      ModuleServicesMembers(c.at[first], c.at[first].order, mod);
    }
  }

  /**
   * The run accounts for the service in entry j: the entry is executed and plans it, or is failed and finds it on the
   * first site.
   */
  ghost predicate Accounted(p: Procedure, flow: seq<Entry>, mods: seq<string>, run: seq<Service>, ignored: seq<Service>,
                            j: nat, s: Service)
    requires |mods| == |flow|
  {
    j < |flow| &&
    if Executed(p.cmd, flow, j) then InPlan(p, Selection(mods[j], run, ignored), s)
    else AfterFailure(p.cmd, flow, j) && OnFirstSite(p.c, mods[j], s)
  }

  lemma AccountedIsCovered(p: Procedure, flow: seq<Entry>, mods: seq<string>, run: seq<Service>, ignored: seq<Service>,
                           j: nat, s: Service)
    requires ValidCluster(p.c) && PlannedFlow(p, flow, mods, run, ignored)
    ensures Accounted(p, flow, mods, run, ignored, j, s) <==> Covered(p.cmd, flow, j, s)
  {
    hide ValidCluster, Prepared, PlannedSorter, FirstSiteMembers, OnFirstSite, InPlan, Executed, AfterFailure;
    if j < |flow| {
      PlannedNodes(p, flow[j], Selection(mods[j], run, ignored));
      MembersAreOnFirstSite(p.c, mods[j], s);
    }
  }

  /**
   * For every command: a service ends up in exactly one of the four lists if an executed entry plans it, or an entry
   * after a failure finds it on the first available site under its module, and in none of them otherwise.
   */
  lemma ListedIff(p: Procedure, flow: seq<Entry>, mods: seq<string>, run: seq<Service>, ignored: seq<Service>,
                  lists: Lists, log: seq<Stamped>, s: Service)
    requires ValidCluster(p.c) && PlannedFlow(p, flow, mods, run, ignored) && Run(p.cmd, flow, lists, log)
    ensures ListsWith(lists, s) == if exists j: nat :: Accounted(p, flow, mods, run, ignored, j, s) then 1 else 0
  {
    hide ValidCluster, Prepared, PlannedEntry, Run, ListsWith, Accounted, Covered;
    RunConserves(p.cmd, flow, lists, log);
    forall j: nat
      ensures Accounted(p, flow, mods, run, ignored, j, s) <==> Covered(p.cmd, flow, j, s)
    {
      AccountedIsCovered(p, flow, mods, run, ignored, j, s);
    }
  }

  /**
   * A planned service of an entry after a failure, in no executed entry's plan, is reported exactly if the first
   * available site knows it under the module of some entry after the failure.
   */
  lemma SkippedIsListedIff(p: Procedure, flow: seq<Entry>, mods: seq<string>, run: seq<Service>, ignored: seq<Service>,
                           lists: Lists, log: seq<Stamped>, j: nat, s: Service)
    requires ValidCluster(p.c) && PlannedFlow(p, flow, mods, run, ignored) && Run(p.cmd, flow, lists, log)
    requires j < |flow| && AfterFailure(p.cmd, flow, j) && InPlan(p, Selection(mods[j], run, ignored), s)
    requires forall i :: 0 <= i < |flow| && Executed(p.cmd, flow, i) ==> !InPlan(p, Selection(mods[i], run, ignored), s)
    ensures ListsWith(lists, s) ==
            if exists i :: 0 <= i < |flow| && AfterFailure(p.cmd, flow, i) && OnFirstSite(p.c, mods[i], s) then 1 else 0
  {
    hide ValidCluster, PlannedFlow, Run, ListsWith, InPlan, OnFirstSite, EntryFails, Reached;
    assert |mods| == |flow| by { FlowLengths(p, flow, mods, run, ignored); }
    ListedIff(p, flow, mods, run, ignored, lists, log, s);
    forall i: nat | i < |flow| && AfterFailure(p.cmd, flow, i)
      ensures !Executed(p.cmd, flow, i)
    {
      FailureStops(p.cmd, flow, i);
    }
    forall i: nat
      ensures Accounted(p, flow, mods, run, ignored, i, s)
              <==> i < |flow| && AfterFailure(p.cmd, flow, i) && OnFirstSite(p.c, mods[i], s)
    {}
  }

  lemma FlowLengths(p: Procedure, flow: seq<Entry>, mods: seq<string>, run: seq<Service>, ignored: seq<Service>)
    requires PlannedFlow(p, flow, mods, run, ignored)
    ensures |mods| == |flow|
  {}

  /**
   * After a validated switchover it is enough that the first available site has the planned service under the module.
   */
  lemma MovedServicesAreListed(p: Procedure, flow: seq<Entry>, mods: seq<string>, run: seq<Service>,
                               ignored: seq<Service>,
                               lists: Lists, log: seq<Stamped>, j: nat, s: Service)
    requires ValidatedMove(p, flow, mods, run, ignored) && Run(p.cmd, flow, lists, log)
    requires j < |flow| && s in flow[j].sorter.graph.succ && mods[j] != ""
    requires forall a, b :: Has(p.c, a, s) && Has(p.c, b, s) ==> ConfOf(p.c, a, s).mod == ConfOf(p.c, b, s).mod
    requires Executed(p.cmd, flow, j) || AfterFailure(p.cmd, flow, j)
    ensures ListsWith(lists, s) == 1
  {
    hide Run, Executed, AfterFailure, MoveValidated, Prepared, PlannedEntry, ListsWith, Substring, ValidSite, Available;
    ValidatedNodes(p, flow, mods, run, ignored, j, s);
    PlannedNodes(p, flow[j], Selection(mods[j], run, ignored));
    FilterIsPart(p.c, p.c.conf);
    assert mods[j] in mods && OnFirstSite(p.c, mods[j], s);
    ListedIff(p, flow, mods, run, ignored, lists, log, s);
    assert Accounted(p, flow, mods, run, ignored, j, s);
  }
}
