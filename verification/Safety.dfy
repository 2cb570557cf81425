/**
 * Safety of the three procedures over whole runs: the order of a switchover, the tolerance of
 * a failover towards the passivated site, and the frame of the one-site commands.  The sites
 * are an adversary: any behaviour towards every service in every phase, and any schedule.
 */
module Safety {
  import opened Graphs
  import opened Sorters
  import opened Results
  import opened Engine
  import opened Schedules
  import opened Flow
  import opened Cluster
  import opened Workers

  datatype Procedure = Procedure(c: ClusterState, cmd: Cmd, site: Site, force: bool)

  /** The behaviour of the sites towards each service in each entry of the flow. */
  type World = (nat, Service) -> Sites

  /** Every script is what a worker does in that world; no worker dies of a missing key. */
  ghost predicate FromWorkers(p: Procedure, world: World, flow: seq<Entry>) {
    forall i: nat, s :: i < |flow| && s in flow[i].sorter.graph.succ ==>
      RunWorker(p.c, p.cmd, flow[i].states, p.site, p.force, world(i, s), s) == Ended(OutcomeOf(flow[i].script, s))
  }

  // ---------------------------------------------------------------- one-site commands

  /** The mode of a one-site command: `return` is a standby. */
  predicate IsModeOf(cmd: Cmd, mode: Mode) {
    match cmd
    case ActiveCmd => mode == Active
    case StandbyCmd => mode == Standby
    case ReturnCmd => mode == Standby
    case DisableCmd => mode == Disable
    case _ => false
  }

  /**
   * An active, standby, disable or return run sends commands to the named site only, in its mode and at most one to a
   * service in an entry, for any flow.
   */
  lemma OneSiteFrame(p: Procedure, world: World, flow: seq<Entry>, lists: Lists, log: seq<Stamped>)
    requires !IsDr(p.cmd) && FromWorkers(p, world, flow)
    requires AllPrepared(flow) && Run(p.cmd, flow, lists, log)
    ensures forall j: nat, s, c :: c in EntryCommands(log, j, s) ==> c.site == p.site && c.mode == ModeOf(p.cmd)
    ensures forall j: nat, s, c :: c in EntryCommands(log, j, s) ==> IsModeOf(p.cmd, c.mode)
    ensures forall j: nat, s :: |EntryCommands(log, j, s)| <= 1
  {
    hide Run, EntryCommands, Doomed, Reached, AllPrepared, RunWorker;
    RunCommands(p.cmd, flow, lists, log);
    forall j: nat, s
      ensures forall c :: c in EntryCommands(log, j, s) ==>
                c.site == p.site && c.mode == ModeOf(p.cmd) && IsModeOf(p.cmd, c.mode)
      ensures |EntryCommands(log, j, s)| <= 1
    {
      if EntryCommands(log, j, s) != [] {
        OneSiteWorker(p.c, p.cmd, flow[j].states, p.site, p.force, world(j, s), s);
      }
    }
  }

  lemma OneSiteWorker(c: ClusterState, cmd: Cmd, states: seq<Mode>, site: Site, force: bool, sites: Sites, s: Service)
    requires !IsDr(cmd)
    ensures var r := RunWorker(c, cmd, states, site, force, sites, s);
            && r.Ended? && |r.outcome.commands| <= 1
            && forall x :: x in r.outcome.commands ==> x.site == site && x.mode == ModeOf(cmd) && IsModeOf(cmd, x.mode)
  {}

  // ---------------------------------------------------------------- order of commands in the log

  /** A command that is not the first its service is sent in an entry comes after the first one. */
  lemma {:induction false} FirstCommandComesFirst(log: seq<Stamped>, k: nat, j: nat, s: Service, c: Command)
    requires k < |log| && log[k] == At(j, Sent(s, c))
    ensures EntryCommands(log, j, s) != []
    ensures c != EntryCommands(log, j, s)[0] ==>
              exists i: nat :: i < k && log[i] == At(j, Sent(s, EntryCommands(log, j, s)[0]))
    decreases |log|
  {
    var before, last := log[..|log| - 1], log[|log| - 1];
    if k < |log| - 1 {
      FirstCommandComesFirst(before, k, j, s, c);
    } else if EntryCommands(before, j, s) != [] {
      var i := FirstCommandIsLogged(before, j, s);
    }
  }

  lemma {:induction false} FirstCommandIsLogged(log: seq<Stamped>, j: nat, s: Service) returns (i: nat)
    requires EntryCommands(log, j, s) != []
    ensures i < |log| && log[i] == At(j, Sent(s, EntryCommands(log, j, s)[0]))
    decreases |log|
  {
    var before := log[..|log| - 1];
    if EntryCommands(before, j, s) == [] {
      i := |log| - 1;
    } else {
      i := FirstCommandIsLogged(before, j, s);
    }
  }

  lemma {:induction false} CommandIsLogged(log: seq<Stamped>, j: nat, s: Service, c: Command) returns (k: nat)
    requires c in EntryCommands(log, j, s)
    ensures k < |log| && log[k] == At(j, Sent(s, c))
    decreases |log|
  {
    var before := log[..|log| - 1];
    if c in EntryCommands(before, j, s) {
      k := CommandIsLogged(before, j, s, c);
    } else {
      k := |log| - 1;
    }
  }

  lemma {:induction false} CommandInEntry(log: seq<Stamped>, k: nat, j: nat, s: Service, c: Command)
    requires k < |log| && log[k] == At(j, Sent(s, c))
    ensures c in EntryCommands(log, j, s)
    decreases |log|
  {
    if k == |log| - 1 {
    } else {
      CommandInEntry(log[..|log| - 1], k, j, s, c);
    }
  }

  // ---------------------------------------------------------------- one and two targets

  function TargetsOf(commands: seq<Command>): seq<Target> {
    if commands == [] then [] else [Target(commands[0].site, commands[0].mode)] + TargetsOf(commands[1..])
  }

  lemma TargetsOfOne(a: Command)
    ensures TargetsOf([a]) == [Target(a.site, a.mode)]
  {
    assert [a][1..] == [];
  }

  lemma TargetsOfTwo(a: Command, b: Command)
    ensures TargetsOf([a] + [b]) == [Target(a.site, a.mode), Target(b.site, b.mode)]
  {
    assert ([a] + [b])[1..] == [b];
    TargetsOfOne(b);
  }

  lemma JudgeKeepsTarget(j: Job, t: Target)
    ensures JudgeAt(j, t).site == t.site && JudgeAt(j, t).mode == t.mode
  {}

  lemma OneTarget(j: Job, t: Target, v: Verdict)
    ensures RunTargets(j, [t], v) ==
            if !Has(j.c, t.site, j.s) then Outcome([], MISSING)
            else if !Available(j.c, t.site) then Outcome([], v)
            else Outcome([JudgeAt(j, t)], JudgeAt(j, t).verdict)
  {}

  lemma TwoTargets(j: Job, a: Target, b: Target, v: Verdict)
    ensures RunTargets(j, [a, b], v) ==
            if !Has(j.c, a.site, j.s) then RunTargets(j, [b], MISSING)
            else if !Available(j.c, a.site) then RunTargets(j, [b], v)
            else if !JudgeAt(j, a).verdict.IsOk() then Outcome([JudgeAt(j, a)], JudgeAt(j, a).verdict)
            else Prepend([JudgeAt(j, a)], RunTargets(j, [b], JudgeAt(j, a).verdict))
  {}

  // ---------------------------------------------------------------- what an ok verdict shows

  /** The reply shows the mode reached: done, in that mode, and up. */
  predicate Confirms(r: Reply, mode: Mode) {
    r.status == "done" && r.mode == ModeName(mode) && r.healthz == "up"
  }

  /** A failed health that the service's settings let pass in standby. */
  predicate LetPass(r: Reply, mode: Mode, allowed: seq<string>) {
    mode == Standby && FailedHealth(HealthOf(r)) && HealthOf(r) in allowed
  }

  /**
   * The answer does not show the mode reached and is taken for success all the same: by the sentinel message; or,
   * if the status is not failed, by --force, by a failed health that is allowed in standby, or because a refused
   * request reports the health up, for a refusal is judged like a status.
   */
  predicate Misleads(c: ClusterState, s: Service, t: Target, refusalSite: Site, force: bool, a: Answer) {
    var r := ReplyTo(c, s, t, a);
    var allowed := AllowedOn(c, if a.Accepted? then t.site else refusalSite, s);
    && !Confirms(r, t.mode)
    && (r.message == NOT_EXIST
        || (r.status != "failed" && (force || LetPass(r, t.mode, allowed) || (a.Refused? && r.healthz == "up"))))
  }

  /** A verdict that is not tolerated is ok exactly if the answer shows the mode reached, or misleads. */
  lemma OkMeansConfirmedIff(c: ClusterState, s: Service, t: Target, refusalSite: Site, force: bool, a: Answer)
    ensures var x := Judge(c, s, t, refusalSite, force, false, a);
            x.verdict.IsOk() <==> Confirms(x.reply, t.mode) || Misleads(c, s, t, refusalSite, force, a)
  {
    hide PollFrom;
    if a.Accepted? { PollEnds(a.polls, GoalOf(c, s, t), 0); }
  }

  lemma MisleadingIsUnconfirmed(c: ClusterState, s: Service, t: Target, refusalSite: Site, force: bool, a: Answer)
    ensures Misleads(c, s, t, refusalSite, force, a)
            ==> !Confirms(Judge(c, s, t, refusalSite, force, false, a).reply, t.mode)
  {}

  predicate OnlyUp(c: ClusterState, s: Service) {
    forall site | site in c.at && Has(c, site, s) ::
      forall h | h in ConfOf(c, site, s).allowedStandbyStateList :: h == "up"
  }

  /**
   * No answer misleads an unforced run that lets no failed health pass, unless by the sentinel or a refusal that is
   * up.
   */
  lemma PlainAnswersDoNotMislead(c: ClusterState, s: Service, t: Target, refusalSite: Site, a: Answer)
    requires OnlyUp(c, s) && ReplyTo(c, s, t, a).message != NOT_EXIST
    requires a.Refused? ==> ReplyTo(c, s, t, a).healthz != "up"
    ensures !Misleads(c, s, t, refusalSite, false, a)
  {}

  // ---------------------------------------------------------------- switchover

  /** The worker of a switchover sends the second command exactly if the first one is answered ok. */
  lemma SecondNeedsFirst(j: Job, t0: Target, t1: Target)
    requires Has(j.c, t0.site, j.s) && Available(j.c, t0.site) && Has(j.c, t1.site, j.s) && Available(j.c, t1.site)
    ensures RunTargets(j, [t0, t1], FAILED).commands ==
            if JudgeAt(j, t0).verdict.IsOk() then [JudgeAt(j, t0), JudgeAt(j, t1)] else [JudgeAt(j, t0)]
  {
    hide Judge, Has, Available, RunTargets;
    TwoTargets(j, t0, t1, FAILED);
    OneTarget(j, t1, JudgeAt(j, t0).verdict);
  }

  /** A site that refuses the standby but reports itself up sets off the activation of the other one, unpolled. */
  lemma RefusalSetsOffActivation(j: Job, t0: Target, t1: Target)
    requires j.move && t0.mode == Standby && t1.mode == Active
    requires Has(j.c, t0.site, j.s) && Available(j.c, t0.site) && Has(j.c, t1.site, j.s) && Available(j.c, t1.site)
    requires j.sites(t0.site) == Refused([Reply("active", "up", "running", "")])
    ensures RunTargets(j, [t0, t1], FAILED).commands == [JudgeAt(j, t0), JudgeAt(j, t1)]
    ensures !Confirms(JudgeAt(j, t0).reply, Standby)
  {
    hide Has, Available, RunTargets;
    SecondNeedsFirst(j, t0, t1);
  }

  /** What validation of a move establishes for a service. */
  ghost predicate OnBothSites(c: ClusterState, s: Service) {
    forall site :: site in c.conf ==> Has(c, site, s) && Available(c, site)
  }

  /** Before event k the service was seen to have reached the target, in entry j. */
  ghost predicate ConfirmedBefore(log: seq<Stamped>, k: int, j: nat, s: Service, t: Target) {
    exists i, first :: 0 <= i < k && i < |log| && log[i] == At(j, Sent(s, first))
      && first.site == t.site && first.mode == t.mode && Confirms(first.reply, t.mode)
  }

  /** The command that completes the exchange of roles comes only after the other site was seen in its new role. */
  ghost predicate ExchangedInOrder(log: seq<Stamped>, j: nat, s: Service, t0: Target, t1: Target) {
    forall k, c :: 0 <= k < |log| && log[k] == At(j, Sent(s, c)) && c.mode == t1.mode ==>
      ConfirmedBefore(log, k, j, s, t0)
  }

  /** The settings of the service on the named site begin with standby, or say nothing. */
  lemma SwitchoverTargets(c: ClusterState, s: Service, site: Site)
    requires ValidCluster(c) && site in c.conf && OnBothSites(c, s)
    ensures SequenceKnown(c, s, true, site) && Opposite(c, site) in c.conf
    ensures var a, b, q := Target(Opposite(c, site), Standby), Target(site, Active), SequenceAt(c, site, s);
            DrSequence(c, s, true, site) ==
            if q == [] || q[0] == "standby" then [a, b] else if q[0] == "active" then [b, a] else []
  {
    OppositeIsInvolution(c, site);
  }

  /**
   * If these are all commands of the entry, in this order, the exchange is in order exactly if the answer does not
   * mislead.
   */
  lemma InOrderIff(log: seq<Stamped>, j: nat, job: Job, t0: Target, t1: Target)
    requires job.move && t0.mode != t1.mode
    requires var c0, c1 := JudgeAt(job, t0), JudgeAt(job, t1);
             EntryCommands(log, j, job.s) == if c0.verdict.IsOk() then [c0, c1] else [c0]
    ensures ExchangedInOrder(log, j, job.s, t0, t1)
            <==> !Misleads(job.c, job.s, t0, job.site, job.force, job.sites(t0.site))
  {
    hide EntryCommands, Judge, Confirms, Misleads;
    var c0, c1, s := JudgeAt(job, t0), JudgeAt(job, t1), job.s;
    JudgeKeepsTarget(job, t0);
    JudgeKeepsTarget(job, t1);
    OkMeansConfirmedIff(job.c, s, t0, job.site, job.force, job.sites(t0.site));
    MisleadingIsUnconfirmed(job.c, s, t0, job.site, job.force, job.sites(t0.site));
    if c0.verdict.IsOk() && !Confirms(c0.reply, t0.mode) {
      var k := CommandIsLogged(log, j, s, c1);
      if ConfirmedBefore(log, k, j, s, t0) { OnlyFirstConfirms(log, k, j, s, t0, c0); }
    } else {
      forall k, c | 0 <= k < |log| && log[k] == At(j, Sent(s, c)) && c.mode == t1.mode
        ensures ConfirmedBefore(log, k, j, s, t0)
      {
        CommandInEntry(log, k, j, s, c);
        FirstCommandComesFirst(log, k, j, s, c);
      }
    }
  }

  lemma OnlyFirstConfirms(log: seq<Stamped>, k: nat, j: nat, s: Service, t: Target, c0: Command)
    requires ConfirmedBefore(log, k, j, s, t)
    requires forall c :: c in EntryCommands(log, j, s) && c.mode == t.mode ==> c == c0
    ensures Confirms(c0.reply, t.mode)
  {
    hide EntryCommands, Confirms;
    var i, first :| 0 <= i < k && i < |log| && log[i] == At(j, Sent(s, first))
      && first.site == t.site && first.mode == t.mode && Confirms(first.reply, t.mode);
    CommandInEntry(log, i, j, s, first);
  }

  /**
   * The service is sent the first command, and the second one at most after it; and that only once the first site was
   * seen in its new role, if and only if the answer of that site does not mislead.
   */
  ghost predicate Exchanges(p: Procedure, sites: Sites, log: seq<Stamped>, j: nat, s: Service, t0: Target, t1: Target) {
    && (TargetsOf(EntryCommands(log, j, s)) == [t0] || TargetsOf(EntryCommands(log, j, s)) == [t0, t1])
    && (ExchangedInOrder(log, j, s, t0, t1) <==> !Misleads(p.c, s, t0, p.site, p.force, sites(t0.site)))
  }

  lemma ExchangeOf(p: Procedure, sites: Sites, log: seq<Stamped>, j: nat, s: Service, t0: Target, t1: Target)
    requires Has(p.c, t0.site, s) && Available(p.c, t0.site) && Has(p.c, t1.site, s) && Available(p.c, t1.site)
    requires t0.mode != t1.mode
    requires EntryCommands(log, j, s) ==
             RunTargets(Job(p.c, s, true, p.site, p.force, sites), [t0, t1], FAILED).commands
    ensures Exchanges(p, sites, log, j, s, t0, t1)
  {
    hide EntryCommands, RunTargets, Judge, Has, Available, Misleads, ExchangedInOrder, TargetsOf;
    var job := Job(p.c, s, true, p.site, p.force, sites);
    var c0, c1 := JudgeAt(job, t0), JudgeAt(job, t1);
    SecondNeedsFirst(job, t0, t1);
    JudgeKeepsTarget(job, t0);
    JudgeKeepsTarget(job, t1);
    TargetsOfOne(c0);
    TargetsOfTwo(c0, c1);
    assert [c0] + [c1] == [c0, c1];
    InOrderIff(log, j, job, t0, t1);
  }

  /**
   * Over every run and schedule of a validated switchover, for every service that is sent anything: with no sequence
   * or one that begins with standby the opposite site goes to standby first and the named one to active after it; with
   * one that begins with active it is the other way round.
   */
  lemma SwitchoverSafety(p: Procedure, world: World, flow: seq<Entry>, lists: Lists, log: seq<Stamped>,
                         k: nat, j: nat, s: Service, c: Command)
    requires p.cmd == MoveCmd && ValidCluster(p.c) && p.site in p.c.conf && OnBothSites(p.c, s)
    requires FromWorkers(p, world, flow) && AllPrepared(flow) && Run(p.cmd, flow, lists, log)
    requires j < |flow| && flow[j].states == []
    requires k < |log| && log[k] == At(j, Sent(s, c))
    ensures var a, b := Target(Opposite(p.c, p.site), Standby), Target(p.site, Active);
            var q := SequenceAt(p.c, p.site, s);
            if q == [] || q[0] == "standby" then Exchanges(p, world(j, s), log, j, s, a, b)
            else q[0] == "active" && Exchanges(p, world(j, s), log, j, s, b, a)
  {
    hide Run, EntryCommands, AllPrepared, Doomed, Reached, Exchanges, OnBothSites, ValidCluster, DrSequence;
    RunCommands(p.cmd, flow, lists, log);
    CommandInEntry(log, k, j, s, c);
    SwitchoverTargets(p.c, s, p.site);
    var job, q := Job(p.c, s, true, p.site, p.force, world(j, s)), SequenceAt(p.c, p.site, s);
    var a, b := Target(Opposite(p.c, p.site), Standby), Target(p.site, Active);
    assert OutcomeOf(flow[j].script, s) == RunTargets(job, DrSequence(p.c, s, true, p.site), FAILED);
    BothKnown(p.c, s, p.site);
    if q == [] || q[0] == "standby" {
      ExchangeOf(p, world(j, s), log, j, s, a, b);
    } else if q[0] == "active" {
      ExchangeOf(p, world(j, s), log, j, s, b, a);
    }
  }

  lemma BothKnown(c: ClusterState, s: Service, site: Site)
    requires OnBothSites(c, s) && site in c.conf && Opposite(c, site) in c.conf
    ensures Has(c, site, s) && Available(c, site) && Has(c, Opposite(c, site), s) && Available(c, Opposite(c, site))
  {}

  /**
   * The same across entries: when a service is sent anything in an entry after one that puts its module to standby,
   * it was seen done, standby and up on the other site before, if and only if that site's answer does not mislead.
   */
  lemma SplitSwitchoverSafety(p: Procedure, world: World, flow: seq<Entry>, lists: Lists, log: seq<Stamped>,
                              k: nat, i: nat, j: nat, s: Service, c: Command)
    requires p.cmd == MoveCmd && ValidCluster(p.c) && p.site in p.c.conf && OnBothSites(p.c, s)
    requires FromWorkers(p, world, flow) && AllPrepared(flow) && Run(p.cmd, flow, lists, log)
    requires i < j < |flow| && flow[i].states == [Standby, Disable] && s in flow[i].sorter.graph.succ
    requires k < |log| && log[k] == At(j, Sent(s, c))
    ensures var t := Target(Opposite(p.c, p.site), Standby);
            ConfirmedBefore(log, k, i, s, t) <==> !Misleads(p.c, s, t, t.site, p.force, world(i, s)(t.site))
  {
    hide Run, EntryCommands, AllPrepared, Doomed, Reached, Executed, Judge, ValidCluster, EntryFails, Barrier;
    hide Misleads, Confirms;
    RunIsOrdered(p.cmd, flow, lists, log);
    RunCommands(p.cmd, flow, lists, log);
    assert Executed(p.cmd, flow, log[k].entry);
    MoveExecutesAll(flow, i, j);
    ExecutedBefore(p.cmd, flow, i, j);
    OppositeIsInvolution(p.c, p.site);
    var t := Target(Opposite(p.c, p.site), Standby);
    assert OutcomeOf(flow[i].script, s) == RunOneSite(p.c, s, t, false, p.force, world(i, s));
    PreparedAt(flow, i);
    CleanEntrySends(flow[i], s);
    JudgeTarget(p.c, s, t, t.site, p.force, world(i, s)(t.site));
    OneCommandConfirms(p, log, k, i, j, s, t, world(i, s)(t.site));
  }

  lemma PreparedAt(flow: seq<Entry>, i: nat)
    requires AllPrepared(flow) && i < |flow|
    ensures Prepared(flow[i].sorter)
  {}

  /** A switchover passes over nothing and breaks nowhere. */
  lemma MoveExecutesAll(flow: seq<Entry>, i: nat, j: nat)
    requires Executed(MoveCmd, flow, j) && i < j
    ensures Executed(MoveCmd, flow, i)
  {
    hide EntryFails;
    ReachedEarlier(MoveCmd, flow, i, j);
  }

  lemma OneCommandConfirms(p: Procedure, log: seq<Stamped>, k: nat, i: nat, j: nat, s: Service, t: Target, a: Answer)
    requires k < |log| && log[k].entry == j && i < j && InTurn(log)
    requires var x := Judge(p.c, s, t, t.site, p.force, false, a);
             EntryCommands(log, i, s) == [x] && x.verdict.IsOk() && x.site == t.site && x.mode == t.mode
    ensures ConfirmedBefore(log, k, i, s, t) <==> !Misleads(p.c, s, t, t.site, p.force, a)
  {
    hide EntryCommands, Judge, Confirms, Misleads;
    OkMeansConfirmedIff(p.c, s, t, t.site, p.force, a);
    MisleadingIsUnconfirmed(p.c, s, t, t.site, p.force, a);
    var x := Judge(p.c, s, t, t.site, p.force, false, a);
    var m := FirstCommandIsLogged(log, i, s);
    assert log[m].entry < log[k].entry;
    if ConfirmedBefore(log, k, i, s, t) { OnlyFirstConfirms(log, k, i, s, t, x); }
  }

  lemma JudgeTarget(c: ClusterState, s: Service, t: Target, at: Site, force: bool, a: Answer)
    ensures var x := Judge(c, s, t, at, force, false, a); x.site == t.site && x.mode == t.mode
  {}

  /** In an entry that fails nothing, nothing is held back and every final response is ok. */
  lemma CleanEntrySends(e: Entry, s: Service)
    requires Prepared(e.sorter) && !EntryFails(e) && s in e.sorter.graph.succ
    ensures !Doomed(e.sorter.graph, e.script, s) && OutcomeOf(e.script, s).final.IsOk()
  {
    hide Prepared, Doomed;
    if Doomed(e.sorter.graph, e.script, s) { FailsIfDoomed(e, s); }
    CommandsNeverSkip(OutcomeOf(e.script, s).commands);
  }

  // ---------------------------------------------------------------- failover

  /** The states the configuration check lets through. */
  predicate ValidStates(states: seq<Mode>) {
    states == [] || states == [Standby, Disable] || states == [Active]
  }

  function ActivationJob(p: Procedure, s: Service, sites: Sites): Job {
    Job(p.c, s, false, p.site, p.force, sites)
  }

  /** The surviving site has the service, and its answer neither shows it active nor misleads. */
  predicate ActivationFails(p: Procedure, s: Service, sites: Sites) {
    var t := Target(Opposite(p.c, p.site), Active);
    && Has(p.c, t.site, s)
    && !Confirms(ReplyTo(p.c, s, t, sites(t.site)), Active) && !Misleads(p.c, s, t, p.site, p.force, sites(t.site))
  }

  function WorkerOf(p: Procedure, states: seq<Mode>, sites: Sites, s: Service): Result {
    RunWorker(p.c, p.cmd, states, p.site, p.force, sites, s)
  }

  /** The sequence that orders a failover: the surviving site's if it knows the service, else the named one's. */
  function StopOrder(c: ClusterState, s: Service, site: Site): seq<string> {
    if Has(c, Opposite(c, site), s) then SequenceAt(c, Opposite(c, site), s) else SequenceAt(c, site, s)
  }

  lemma StopSequence(c: ClusterState, s: Service, site: Site)
    ensures var a, b, q := Target(site, Standby), Target(Opposite(c, site), Active), StopOrder(c, s, site);
            DrSequence(c, s, false, site) ==
            if q == [] || q[0] == "standby" then [a, b] else if q[0] == "active" then [b, a] else []
    ensures var q := StopOrder(c, s, site);
            UnknownHead(c, s, false, site) <==> q != [] && q[0] != "standby" && q[0] != "active"
  {}

  /** In a failover, too, the activation is judged ok exactly if it does not fail. */
  lemma ActivationVerdict(p: Procedure, s: Service, sites: Sites)
    requires Has(p.c, Opposite(p.c, p.site), s)
    ensures JudgeAt(ActivationJob(p, s, sites), Target(Opposite(p.c, p.site), Active)).verdict.IsOk()
            <==> !ActivationFails(p, s, sites)
  {
    hide Judge, Misleads, Confirms, ReplyTo;
    var t := Target(Opposite(p.c, p.site), Active);
    OkMeansConfirmedIff(p.c, s, t, p.site, p.force, sites(t.site));
    assert Judge(p.c, s, t, p.site, p.force, false, sites(t.site)).reply == ReplyTo(p.c, s, t, sites(t.site)) by {
      JudgedReply(p.c, s, t, p.site, p.force, sites(t.site));
    }
  }

  lemma JudgedReply(c: ClusterState, s: Service, t: Target, at: Site, force: bool, a: Answer)
    ensures Judge(c, s, t, at, force, false, a).reply == ReplyTo(c, s, t, a)
  {}

  lemma StandbyIsTolerated(j: Job, t: Target)
    requires !j.move && t.mode == Standby
    ensures JudgeAt(j, t).verdict.IsOk() && VerdictClass(JudgeAt(j, t).verdict) != Failed
    ensures JudgeAt(j, t).mode == Standby
  {}

  predicate NotFailing(c: Command) {
    VerdictClass(c.verdict) != Failed
  }

  /** A worker fails its service exactly when its final response is not ok, if all its earlier commands were. */
  lemma {:induction false} FailsByFinal(o: Outcome)
    requires forall i :: 0 <= i < |o.commands| - 1 ==> NotFailing(o.commands[i])
    requires o.commands == [] || NotFailing(o.commands[|o.commands| - 1])
          || o.final == o.commands[|o.commands| - 1].verdict
    ensures AfterWorker(Unlisted, o) == Failed <==> !o.final.IsOk()
  {
    CommandsNeverSkip(o.commands);
    if o.commands != [] {
      NotFailingCommands(o.commands[..|o.commands| - 1]);
      if NotFailing(o.commands[|o.commands| - 1]) { NotFailingCommands(o.commands); }
    }
  }

  lemma {:induction false} NotFailingCommands(cs: seq<Command>)
    requires forall i :: 0 <= i < |cs| ==> NotFailing(cs[i])
    ensures AfterCommands(Unlisted, cs) != Failed
  {
    if cs == [] {
    } else {
      NotFailingCommands(cs[..|cs| - 1]);
    }
  }

  /** A stop worker in either order fails exactly when the activation does, whatever the passivated site says. */
  ghost predicate FailsWithActivation(j: Job, b: Target, o: Outcome) {
    && (AfterWorker(Unlisted, o) == Failed <==> !o.final.IsOk())
    && (!o.final.IsOk() <==> Has(j.c, b.site, j.s) && !JudgeAt(j, b).verdict.IsOk())
    && (!o.final.IsOk() ==> JudgeAt(j, b) in o.commands)
  }

  lemma StandbyFirst(j: Job, a: Target, b: Target)
    requires !j.move && a.mode == Standby && Available(j.c, b.site)
    ensures FailsWithActivation(j, b, RunTargets(j, [a, b], FAILED))
  {
    hide JudgeAt, Has, Available, RunTargets, AfterWorker;
    StandbyIsTolerated(j, a);
    TwoTargets(j, a, b, FAILED);
    OneTarget(j, b, MISSING);
    OneTarget(j, b, FAILED);
    OneTarget(j, b, JudgeAt(j, a).verdict);
    FailsByFinal(RunTargets(j, [a, b], FAILED));
  }

  lemma ActiveFirst(j: Job, a: Target, b: Target)
    requires !j.move && a.mode == Standby && Available(j.c, b.site)
    ensures FailsWithActivation(j, b, RunTargets(j, [b, a], FAILED))
  {
    hide JudgeAt, Has, Available, RunTargets, AfterWorker;
    StandbyIsTolerated(j, a);
    TwoTargets(j, b, a, FAILED);
    OneTarget(j, a, MISSING);
    OneTarget(j, a, JudgeAt(j, b).verdict);
    FailsByFinal(RunTargets(j, [b, a], FAILED));
  }

  lemma OneSiteStop(p: Procedure, t: Target, sites: Sites, s: Service)
    requires p.cmd == StopCmd && t.mode != Disable
    ensures var o, j := RunOneSite(p.c, s, t, true, p.force, sites), ActivationJob(p, s, sites);
            && (AfterWorker(Unlisted, o) == Failed <==> !o.final.IsOk())
            && (!o.final.IsOk() <==> t.mode == Active && Has(p.c, t.site, s) && !o.commands[0].verdict.IsOk())
  {
    hide Judge, Has, AfterWorker;
    var o := RunOneSite(p.c, s, t, true, p.force, sites);
    FailsByFinal(o);
    if t.mode == Standby { JudgeTolerates(p.c, s, t, t.site, true, sites(t.site)); }
  }

  lemma JudgeTolerates(c: ClusterState, s: Service, t: Target, at: Site, force: bool, a: Answer)
    ensures Judge(c, s, t, at, force, true, a).verdict.IsOk()
  {}

  /** A two-site entry does nothing for the service and fails it: its sequence begins with no mode. */
  predicate GoesUnasked(p: Procedure, states: seq<Mode>, s: Service) {
    states == [] && UnknownHead(p.c, s, false, p.site)
  }

  /** A function of the configuration and the surviving site's behaviour alone. */
  predicate StopFails(p: Procedure, states: seq<Mode>, s: Service, sites: Sites) {
    GoesUnasked(p, states, s) || ((states == [] || states == [Active]) && ActivationFails(p, s, sites))
  }

  /** The surviving site was asked to activate the service and did not confirm it. */
  ghost predicate RefusedActivation(p: Procedure, commands: seq<Command>) {
    exists c :: c in commands && c.mode == Active && c.site == Opposite(p.c, p.site) && !c.verdict.IsOk()
  }

  lemma ActiveVerdict(p: Procedure, s: Service, t: Target, sites: Sites)
    requires t.mode == Active
    ensures Judge(p.c, s, t, t.site, p.force, false, sites(t.site)) == JudgeAt(ActivationJob(p, s, sites), t)
  {}

  /** A command that is not ok is the last one. */
  lemma {:induction false} NotOkEnds(j: Job, targets: seq<Target>, v: Verdict, c: Command)
    requires c in RunTargets(j, targets, v).commands && !c.verdict.IsOk()
    ensures !RunTargets(j, targets, v).final.IsOk()
    decreases |targets|
  {
    hide Judge, Has, Available;
    if targets == [] || !Has(j.c, targets[0].site, j.s) {
      if targets != [] { NotOkEnds(j, targets[1..], MISSING, c); }
    } else if !Available(j.c, targets[0].site) {
      NotOkEnds(j, targets[1..], v, c);
    } else if JudgeAt(j, targets[0]).verdict.IsOk() {
      NotOkEnds(j, targets[1..], JudgeAt(j, targets[0]).verdict, c);
    }
  }

  /** In a stop the worker of a service whose sequence begins with no mode fails it without asking any site. */
  lemma UnknownHeadFailsUnasked(p: Procedure, sites: Sites, s: Service)
    requires p.cmd == StopCmd && SequenceKnown(p.c, s, false, p.site) && UnknownHead(p.c, s, false, p.site)
    ensures WorkerOf(p, [], sites, s) == Ended(Outcome([], FAILED))
  {}

  lemma FailsOnlyIfKnown(p: Procedure, s: Service, sites: Sites)
    ensures ActivationFails(p, s, sites) ==> Has(p.c, Opposite(p.c, p.site), s)
  {}

  /** A worker of a stop in all its cases. */
  lemma StopWorker(p: Procedure, states: seq<Mode>, sites: Sites, s: Service, o: Outcome)
    requires p.cmd == StopCmd && ValidStates(states)
    requires Available(p.c, Opposite(p.c, p.site))
    requires WorkerOf(p, states, sites, s) == Ended(o)
    ensures AfterWorker(Unlisted, o) == Failed <==> StopFails(p, states, s, sites)
    ensures o.final.IsOk() <==> !StopFails(p, states, s, sites)
    ensures RefusedActivation(p, o.commands) <==> StopFails(p, states, s, sites) && !GoesUnasked(p, states, s)
  {
    hide Judge, Has, Available, AfterWorker, DrSequence, UnknownHead, SequenceKnown, RunTargets;
    hide ActivationFails, StopOrder;
    var a, b, j := Target(p.site, Standby), Target(Opposite(p.c, p.site), Active), ActivationJob(p, s, sites);
    JudgeKeepsTarget(j, b);
    if Has(p.c, b.site, s) { ActivationVerdict(p, s, sites); }
    FailsOnlyIfKnown(p, s, sites);
    if states == [] {
      StopSequence(p.c, s, p.site);
      if UnknownHead(p.c, s, false, p.site) {
        UnknownHeadFailsUnasked(p, sites, s);
        FailsByFinal(o);
      } else {
        StandbyFirst(j, a, b);
        ActiveFirst(j, a, b);
        forall c | c in o.commands && !c.verdict.IsOk()
          ensures !o.final.IsOk()
        {
          NotOkEnds(j, DrSequence(p.c, s, false, p.site), FAILED, c);
        }
      }
    } else {
      var t := EntryTarget(p.c, p.cmd, states, p.site);
      OneSiteStop(p, t, sites, s);
      if states == [Active] { ActiveVerdict(p, s, b, sites); }
    }
  }

  // ---------------------------------------------------------------- the class a worker leaves its service in

  lemma AfterOne(x: Command)
    ensures AfterCommands(Unlisted, [x]) == if x.sorted then VerdictClass(x.verdict) else Unlisted
  {
    assert [x][..0] == [];
  }

  lemma AfterTwo(x: Command, y: Command)
    ensures AfterCommands(Unlisted, [x] + [y]) ==
            if y.sorted then Worse(AfterCommands(Unlisted, [x]), VerdictClass(y.verdict))
            else AfterCommands(Unlisted, [x])
  {
    assert ([x] + [y])[..1] == [x];
  }

  /** The passivated site's answer is a failed status: a warning, for it is tolerated and its health is ignored. */
  predicate StandbyWarns(p: Procedure, s: Service, sites: Sites) {
    var r := ReplyTo(p.c, s, Target(p.site, Standby), sites(p.site));
    r.message != NOT_EXIST && r.status == "failed"
  }

  /**
   * The worker of a stop that does not fail its service warns it: the passivated site was sent the standby and answered
   * with a failed status.  A refused standby is forgotten if the activation comes after it.
   */
  predicate StopWarns(p: Procedure, states: seq<Mode>, s: Service, sites: Sites) {
    && StandbyWarns(p, s, sites) && Has(p.c, p.site, s)
    && (states == [Standby, Disable]
        || (states == [] && Available(p.c, p.site)
            && (sites(p.site).Accepted?
                || (StopOrder(p.c, s, p.site) != [] && StopOrder(p.c, s, p.site)[0] == "active"))))
  }

  lemma StandbyVerdict(p: Procedure, s: Service, sites: Sites)
    requires p.cmd == StopCmd
    ensures var x := JudgeAt(ActivationJob(p, s, sites), Target(p.site, Standby));
            && VerdictClass(x.verdict) == (if StandbyWarns(p, s, sites) then Warned else Done)
            && (x.sorted <==> sites(p.site).Accepted?) && x.verdict.IsOk()
            && x == Judge(p.c, s, Target(p.site, Standby), p.site, true, true, sites(p.site))
  {
    hide PollFrom;
  }

  lemma OkIsDone(j: Job, t: Target)
    requires t.mode == Active && JudgeAt(j, t).verdict.IsOk()
    ensures VerdictClass(JudgeAt(j, t).verdict) == Done
  {}

  /** Where a stop worker leaves its service in a two-site entry. */
  lemma StopPairClass(p: Procedure, s: Service, sites: Sites, standbyFirst: bool)
    requires p.cmd == StopCmd && Available(p.c, Opposite(p.c, p.site)) && !ActivationFails(p, s, sites)
    ensures var a, b := Target(p.site, Standby), Target(Opposite(p.c, p.site), Active);
            var o := RunTargets(ActivationJob(p, s, sites), if standbyFirst then [a, b] else [b, a], FAILED);
            var sent := Has(p.c, p.site, s) && Available(p.c, p.site);
            AfterWorker(Unlisted, o) == Failed
            || AfterWorker(Unlisted, o) ==
               if sent && StandbyWarns(p, s, sites) && (sites(p.site).Accepted? || !standbyFirst) then Warned else Done
  {
    hide JudgeAt, Judge, Has, Available, RunTargets, ActivationFails, StandbyWarns, AfterCommands;
    var a, b, j := Target(p.site, Standby), Target(Opposite(p.c, p.site), Active), ActivationJob(p, s, sites);
    var x, y := JudgeAt(j, a), JudgeAt(j, b);
    if Has(p.c, b.site, s) { ActivationVerdict(p, s, sites); OkIsDone(j, b); }
    StandbyVerdict(p, s, sites);
    TwoTargets(j, a, b, FAILED);
    TwoTargets(j, b, a, FAILED);
    OneTarget(j, a, MISSING);
    OneTarget(j, a, y.verdict);
    OneTarget(j, b, MISSING);
    OneTarget(j, b, FAILED);
    OneTarget(j, b, x.verdict);
    AfterOne(x);
    AfterOne(y);
    AfterTwo(x, y);
    AfterTwo(y, x);
    assert [x] + [] == [x] && [y] + [] == [y];
    assert AfterCommands(Unlisted, []) == Unlisted by { AfterNothing(); }
  }

  lemma AfterNothing()
    ensures AfterCommands(Unlisted, []) == Unlisted
  {}

  /** A stop worker that does not fail its service leaves it warned or done. */
  lemma StopWorkerClass(p: Procedure, states: seq<Mode>, sites: Sites, s: Service, o: Outcome)
    requires p.cmd == StopCmd && ValidStates(states) && Available(p.c, Opposite(p.c, p.site))
    requires WorkerOf(p, states, sites, s) == Ended(o) && !StopFails(p, states, s, sites)
    ensures AfterWorker(Unlisted, o) == if StopWarns(p, states, s, sites) then Warned else Done
  {
    hide Judge, Has, Available, DrSequence, UnknownHead, RunTargets, ActivationFails, StopOrder, AfterCommands;
    hide StandbyWarns;
    StopWorker(p, states, sites, s, o);
    var j, a, b := ActivationJob(p, s, sites), Target(p.site, Standby), Target(Opposite(p.c, p.site), Active);
    var x, y := JudgeAt(j, a), JudgeAt(j, b);
    AfterNothing();
    if states == [] {
      StopSequence(p.c, s, p.site);
      StopPairClass(p, s, sites, true);
      StopPairClass(p, s, sites, false);
    } else if states == [Active] {
      ActiveVerdict(p, s, b, sites);
      if Has(p.c, b.site, s) { ActivationVerdict(p, s, sites); OkIsDone(j, b); }
      AfterOne(y);
    } else {
      StandbyVerdict(p, s, sites);
      AfterOne(x);
    }
  }

  /** A service that ends up failed was failed by an executed entry in which no ancestor held it back. */
  lemma {:induction false} FailedHasEntry(cmd: Cmd, flow: seq<Entry>, i: nat, ok: bool, c: Class, s: Service)
      returns (j: nat)
    requires i <= |flow| && FlowClass(cmd, flow, i, ok, c, s) == Failed && Unharmed(c)
    requires ok ==> Flow.Reached(cmd, flow, i)
    ensures i <= j && Executed(cmd, flow, j) && s in flow[j].sorter.graph.succ
    ensures !Doomed(flow[j].sorter.graph, flow[j].script, s)
    ensures AfterWorker(Unlisted, OutcomeOf(flow[j].script, s)) == Failed
    decreases |flow| - i
  {
    hide Doomed, EntryFails, AfterWorker;
    j := i;
    if i == |flow| || (ok && Breaks(cmd, flow[i].states)) {
      assert false;
    } else if !ok {
      if s in flow[i].members {
        SkippedForGood(cmd, flow, i + 1, false, s);
        SkipsUnharmed(c);
        assert false;
      } else {
        j := FailedHasEntry(cmd, flow, i + 1, false, c, s);
      }
    } else if Passes(cmd, flow[i].states) {
      j := FailedHasEntry(cmd, flow, i + 1, true, c, s);
    } else {
      var e := flow[i];
      var c' := PhaseClass(e.sorter.graph, e.script, c, s);
      if Unharmed(c') {
        j := FailedHasEntry(cmd, flow, i + 1, !EntryFails(e), c', s);
      } else if c' == Skipped {
        SkippedForGood(cmd, flow, i + 1, !EntryFails(e), s);
        assert false;
      } else {
        SkipsUnharmed(c);
        AfterWorkerFrom(c, OutcomeOf(e.script, s));
      }
    }
  }

  lemma SkipsUnharmed(c: Class)
    requires Unharmed(c)
    ensures Worse(c, Skipped) == Skipped
  {}

  lemma {:induction false} SkippedForGood(cmd: Cmd, flow: seq<Entry>, i: nat, ok: bool, s: Service)
    requires i <= |flow|
    ensures FlowClass(cmd, flow, i, ok, Skipped, s) == Skipped
    decreases |flow| - i
  {
    hide Doomed, EntryFails;
    if i == |flow| {
    } else {
      if !ok { SkippedForGood(cmd, flow, i + 1, false, s); }
      else if Passes(cmd, flow[i].states) { SkippedForGood(cmd, flow, i + 1, true, s); }
      else if !Breaks(cmd, flow[i].states) {
        AfterCommandsFrom(Skipped, OutcomeOf(flow[i].script, s).commands);
        SkippedForGood(cmd, flow, i + 1, !EntryFails(flow[i]), s);
      }
    }
  }

  /** An executed entry fails the service: no ancestor holds it back there, and its worker fails it. */
  ghost predicate FailsIn(p: Procedure, world: World, flow: seq<Entry>, j: nat, s: Service) {
    && Executed(p.cmd, flow, j) && s in flow[j].sorter.graph.succ
    && !Doomed(flow[j].sorter.graph, flow[j].script, s)
    && StopFails(p, flow[j].states, s, world(j, s))
  }

  /** It fails the service without asking a site. */
  ghost predicate FailsUnaskedIn(p: Procedure, world: World, flow: seq<Entry>, j: nat, s: Service) {
    FailsIn(p, world, flow, j, s) && GoesUnasked(p, flow[j].states, s)
  }

  /** A service that the worker of a reached entry fails ends up failed. */
  lemma {:induction false} FailingEntryFails(cmd: Cmd, flow: seq<Entry>, i: nat, c: Class, j: nat, s: Service)
    requires AllPrepared(flow) && i <= j < |flow| && Reached(cmd, flow, i) && Unharmed(c)
    requires Executed(cmd, flow, j) && s in flow[j].sorter.graph.succ
    requires !Doomed(flow[j].sorter.graph, flow[j].script, s)
    requires AfterWorker(Unlisted, OutcomeOf(flow[j].script, s)) == Failed
    ensures FlowClass(cmd, flow, i, true, c, s) == Failed
    decreases j - i
  {
    hide Prepared, Doomed, AfterWorker, EntryFails, Unharmed;
    var e := flow[i];
    ReachedEarlier(cmd, flow, i, j);
    if i == j {
      AfterWorkerFrom(c, OutcomeOf(e.script, s));
      ListedForGood(cmd, flow, i + 1, !EntryFails(e), Failed, s);
    } else {
      ReachedEarlier(cmd, flow, i + 1, j);
      if Passes(cmd, e.states) {
        FailingEntryFails(cmd, flow, i + 1, c, j, s);
      } else {
        CleanPhaseKeepsUnharmed(e, c, s);
        FailingEntryFails(cmd, flow, i + 1, PhaseClass(e.sorter.graph, e.script, c, s), j, s);
      }
    }
  }

  /** What validation of a stop establishes, with states as the configuration check lets them through. */
  ghost predicate StopReady(p: Procedure, flow: seq<Entry>) {
    && p.cmd == StopCmd && Available(p.c, Opposite(p.c, p.site))
    && (forall i :: 0 <= i < |flow| ==> ValidStates(flow[i].states))
  }

  /**
   * Over every run of a failover: the failed services are exactly those whose worker fails them in an executed entry.
   */
  lemma FailoverFailsExactly(p: Procedure, world: World, flow: seq<Entry>, lists: Lists, log: seq<Stamped>, s: Service)
    requires StopReady(p, flow) && FromWorkers(p, world, flow)
    requires AllPrepared(flow) && Run(p.cmd, flow, lists, log)
    ensures s in lists.failed <==> exists j: nat :: FailsIn(p, world, flow, j, s)
  {
    hide Run, AllPrepared, Doomed, FlowClass, Tidy, Available, AfterWorker, RunWorker, StopFails, EntryFails;
    hide ValidStates;
    RunOutcome(p.cmd, flow, lists, log);
    FailedIsClass(lists, s);
    if s in lists.failed {
      var j := FailedHasEntry(p.cmd, flow, 0, true, Unlisted, s);
      StopWorker(p, flow[j].states, world(j, s), s, OutcomeOf(flow[j].script, s));
      assert FailsIn(p, world, flow, j, s);
    }
    forall j: nat | FailsIn(p, world, flow, j, s)
      ensures s in lists.failed
    {
      StopWorker(p, flow[j].states, world(j, s), s, OutcomeOf(flow[j].script, s));
      FailingEntryFails(p.cmd, flow, 0, Unlisted, j, s);
    }
  }

  /**
   * A failed service had its activation on the surviving site refused or unconfirmed, if and only if no executed
   * two-site entry got to it with a sequence that begins with no mode.
   */
  lemma FailoverFailsOnlyByActivation(p: Procedure, world: World, flow: seq<Entry>, lists: Lists, log: seq<Stamped>,
                                      s: Service)
    requires StopReady(p, flow) && FromWorkers(p, world, flow)
    requires AllPrepared(flow) && Run(p.cmd, flow, lists, log)
    requires s in lists.failed
    ensures (exists j: nat :: RefusedActivation(p, EntryCommands(log, j, s)))
            <==> !exists j: nat :: FailsUnaskedIn(p, world, flow, j, s)
  {
    hide Run, AllPrepared, FromWorkers, StopReady, FailsIn, FailsUnaskedIn, RefusedActivation, EntryCommands;
    hide CommandsOf;
    FailoverFailsExactly(p, world, flow, lists, log, s);
    RunCommands(p.cmd, flow, lists, log);
    var j: nat :| FailsIn(p, world, flow, j, s);
    forall i: nat | FailsIn(p, world, flow, i, s)
      ensures i == j
    {
      FailsOnce(p, world, flow, i, j, s);
    }
    UnaskedFails(p, world, flow, s);
    forall i: nat
      ensures RefusedActivation(p, EntryCommands(log, i, s))
              <==> FailsIn(p, world, flow, i, s) && !FailsUnaskedIn(p, world, flow, i, s)
    {
      RefusedInEntry(p, world, flow, i, s);
      assert EntryCommands(log, i, s) == CommandsOf(p.cmd, flow, i, s);
    }
    assert RefusedActivation(p, EntryCommands(log, j, s)) || FailsUnaskedIn(p, world, flow, j, s);
  }

  /** What a stop worker sends in a two-site entry, by the sequence, the sites and the answer of the survivor. */
  lemma StopTargets(p: Procedure, sites: Sites, s: Service, o: Outcome)
    requires p.cmd == StopCmd && Available(p.c, Opposite(p.c, p.site))
    requires WorkerOf(p, [], sites, s) == Ended(o)
    ensures var a, b := Target(p.site, Standby), Target(Opposite(p.c, p.site), Active);
            var q := StopOrder(p.c, s, p.site);
            var standby := if Has(p.c, a.site, s) && Available(p.c, a.site) then [a] else [];
            var active := if Has(p.c, b.site, s) then [b] else [];
            TargetsOf(o.commands) ==
            if q == [] || q[0] == "standby" then standby + active
            else if q[0] == "active" then active + if ActivationFails(p, s, sites) then [] else standby
            else []
  {
    hide Judge, Has, Available, DrSequence, UnknownHead, RunTargets, ActivationFails, StopOrder, TargetsOf;
    var a, b, j := Target(p.site, Standby), Target(Opposite(p.c, p.site), Active), ActivationJob(p, s, sites);
    StopSequence(p.c, s, p.site);
    JudgeKeepsTarget(j, a);
    JudgeKeepsTarget(j, b);
    StandbyIsTolerated(j, a);
    if Has(p.c, b.site, s) { ActivationVerdict(p, s, sites); }
    FailsOnlyIfKnown(p, s, sites);
    var x, y := JudgeAt(j, a), JudgeAt(j, b);
    TwoTargets(j, a, b, FAILED);
    TwoTargets(j, b, a, FAILED);
    OneTarget(j, a, MISSING);
    OneTarget(j, a, y.verdict);
    OneTarget(j, b, MISSING);
    OneTarget(j, b, FAILED);
    OneTarget(j, b, x.verdict);
    TargetsOfOne(x);
    TargetsOfOne(y);
    TargetsOfTwo(x, y);
    TargetsOfTwo(y, x);
    assert TargetsOf([]) == [] && [x] + [] == [x] && [y] + [] == [y] by { NoTargets(); }
    assert [a] + [b] == [a, b] && [b] + [a] == [b, a] && RunTargets(j, [], FAILED) == Outcome([], FAILED) by {
      NothingToSend(j);
    }
  }

  lemma NoTargets()
    ensures TargetsOf([]) == []
  {}

  lemma NothingToSend(j: Job)
    ensures RunTargets(j, [], FAILED) == Outcome([], FAILED)
  {}

  /**
   * Over every run of a failover: with no sequence, or one that begins with standby, a service that is sent anything is
   * sent the standby first, if the passivated site has it and answers, and the activation of the survivor after it;
   * with one that begins with active the activation comes first and the standby only if it succeeds.
   */
  lemma FailoverOrder(p: Procedure, world: World, flow: seq<Entry>, lists: Lists, log: seq<Stamped>, j: nat, s: Service)
    requires StopReady(p, flow) && FromWorkers(p, world, flow)
    requires AllPrepared(flow) && Run(p.cmd, flow, lists, log)
    requires j < |flow| && flow[j].states == [] && EntryCommands(log, j, s) != []
    ensures var a, b := Target(p.site, Standby), Target(Opposite(p.c, p.site), Active);
            var q := StopOrder(p.c, s, p.site);
            var standby := if Has(p.c, a.site, s) && Available(p.c, a.site) then [a] else [];
            var active := if Has(p.c, b.site, s) then [b] else [];
            TargetsOf(EntryCommands(log, j, s)) ==
            if q == [] || q[0] == "standby" then standby + active
            else active + if ActivationFails(p, s, world(j, s)) then [] else standby
  {
    hide Run, AllPrepared, EntryCommands, Doomed, Executed, RunWorker, ActivationFails, StopOrder, TargetsOf, Has;
    RunCommands(p.cmd, flow, lists, log);
    StopTargets(p, world(j, s), s, OutcomeOf(flow[j].script, s));
    if TargetsOf(EntryCommands(log, j, s)) == [] { SomeTarget(EntryCommands(log, j, s)); }
  }

  lemma SomeTarget(cs: seq<Command>)
    requires cs != []
    ensures TargetsOf(cs) != []
  {}

  lemma UnaskedFails(p: Procedure, world: World, flow: seq<Entry>, s: Service)
    ensures forall j: nat :: FailsUnaskedIn(p, world, flow, j, s) ==> FailsIn(p, world, flow, j, s)
  {}

  lemma RefusedInEntry(p: Procedure, world: World, flow: seq<Entry>, j: nat, s: Service)
    requires StopReady(p, flow) && FromWorkers(p, world, flow)
    ensures RefusedActivation(p, CommandsOf(p.cmd, flow, j, s))
            <==> FailsIn(p, world, flow, j, s) && !FailsUnaskedIn(p, world, flow, j, s)
  {
    hide Reached, Doomed, GoesUnasked, ActivationFails, AfterWorker, RunWorker, Available, ValidStates;
    if Executed(p.cmd, flow, j) && s in flow[j].sorter.graph.succ {
      StopWorker(p, flow[j].states, world(j, s), s, OutcomeOf(flow[j].script, s));
    }
  }

  /** A service fails in one entry only: no later one is executed. */
  lemma FailsOnce(p: Procedure, world: World, flow: seq<Entry>, i: nat, j: nat, s: Service)
    requires StopReady(p, flow) && FromWorkers(p, world, flow)
    requires FailsIn(p, world, flow, i, s) && FailsIn(p, world, flow, j, s)
    ensures i == j
  {
    hide Reached, Doomed, StopFails, AfterWorker, RunWorker, Available, ValidStates;
    StopWorker(p, flow[i].states, world(i, s), s, OutcomeOf(flow[i].script, s));
    StopWorker(p, flow[j].states, world(j, s), s, OutcomeOf(flow[j].script, s));
    if i < j { ExecutedBefore(p.cmd, flow, i, j); }
    if j < i { ExecutedBefore(p.cmd, flow, j, i); }
  }

  /** Of the services that a failover neither fails nor skips, exactly those are warned that some entry warns. */
  lemma FailoverWarnsExactly(p: Procedure, world: World, flow: seq<Entry>, lists: Lists, log: seq<Stamped>, s: Service)
    requires StopReady(p, flow) && FromWorkers(p, world, flow)
    requires AllPrepared(flow) && Run(p.cmd, flow, lists, log)
    requires s !in lists.failed && s !in lists.skipped
    ensures s in lists.warned <==>
            exists j: nat :: Executed(p.cmd, flow, j) && s in flow[j].sorter.graph.succ
              && !Doomed(flow[j].sorter.graph, flow[j].script, s) && StopWarns(p, flow[j].states, s, world(j, s))
  {
    hide Run, AllPrepared, Doomed, FlowClass, Tidy, Available, AfterWorker, RunWorker, StopFails, StopWarns, EntryFails;
    hide ValidStates;
    RunOutcome(p.cmd, flow, lists, log);
    UnharmedIsClass(lists, s);
    WarnedIff(p.cmd, flow, 0, true, Unlisted, s);
    FailoverFailsExactly(p, world, flow, lists, log, s);
    forall j: nat
      ensures WarnsIn(p.cmd, flow, j, s) <==>
              && Executed(p.cmd, flow, j) && s in flow[j].sorter.graph.succ
              && !Doomed(flow[j].sorter.graph, flow[j].script, s) && StopWarns(p, flow[j].states, s, world(j, s))
    {
      if Executed(p.cmd, flow, j) && s in flow[j].sorter.graph.succ
         && !Doomed(flow[j].sorter.graph, flow[j].script, s) {
        assert !FailsIn(p, world, flow, j, s);
        StopWorkerClass(p, flow[j].states, world(j, s), s, OutcomeOf(flow[j].script, s));
      }
    }
  }

  lemma UnharmedIsClass(lists: Lists, s: Service)
    requires Tidy(lists) && s !in lists.failed && s !in lists.skipped
    ensures Unharmed(ClassOf(lists, s)) && (s in lists.warned <==> ClassOf(lists, s) == Warned)
  {}

  lemma FailedIsClass(lists: Lists, s: Service)
    requires Tidy(lists)
    ensures s in lists.failed <==> ClassOf(lists, s) == Failed
  {}

  // ---------------------------------------------------------------- non-interference of the passivated site

  /** The two runs see the same from the surviving site; the other site may behave in any way in each. */
  ghost predicate SameSurvivor(p: Procedure, world: World, world': World) {
    forall i: nat, s :: world(i, s)(Opposite(p.c, p.site)) == world'(i, s)(Opposite(p.c, p.site))
  }

  ghost predicate SameShape(flow: seq<Entry>, flow': seq<Entry>) {
    && |flow| == |flow'|
    && (forall i :: 0 <= i < |flow| ==>
          flow[i].states == flow'[i].states && flow[i].sorter == flow'[i].sorter && flow[i].members == flow'[i].members)
  }

  /** Two scripts that agree on who answers ok and on who fails. */
  ghost predicate SameHarm(e: Entry, e': Entry) {
    && e.sorter.graph == e'.sorter.graph && e.members == e'.members
    && (forall s :: s in e.sorter.graph.succ ==>
          && (OutcomeOf(e.script, s).final.IsOk() <==> OutcomeOf(e'.script, s).final.IsOk())
          && (AfterWorker(Unlisted, OutcomeOf(e.script, s)) == Failed <==>
                AfterWorker(Unlisted, OutcomeOf(e'.script, s)) == Failed))
  }

  lemma SameDoomed(e: Entry, e': Entry, s: Service)
    requires ValidGraph(e.sorter.graph) && SameHarm(e, e')
    ensures Doomed(e.sorter.graph, e.script, s) <==> Doomed(e'.sorter.graph, e'.script, s)
  {}

  lemma SameEntryFails(e: Entry, e': Entry)
    requires ValidGraph(e.sorter.graph) && SameHarm(e, e')
    ensures EntryFails(e) <==> EntryFails(e')
  {}

  predicate HarmAlike(c: Class, d: Class) {
    c == d || (Unharmed(c) && Unharmed(d))
  }

  lemma HarmedStays(c: Class, o: Outcome)
    requires !Unharmed(c)
    ensures AfterWorker(c, o) == c && Worse(c, Skipped) == c
  {
    AfterCommandsFrom(c, o.commands);
  }

  lemma PhaseHarm(e: Entry, e': Entry, c: Class, d: Class, s: Service)
    requires ValidGraph(e.sorter.graph) && SameHarm(e, e') && HarmAlike(c, d)
    ensures HarmAlike(PhaseClass(e.sorter.graph, e.script, c, s), PhaseClass(e'.sorter.graph, e'.script, d, s))
  {
    hide ValidGraph, Doomed, AfterWorker;
    SameDoomed(e, e', s);
    var o, o' := OutcomeOf(e.script, s), OutcomeOf(e'.script, s);
    if Unharmed(c) && Unharmed(d) {
      AfterWorkerFrom(c, o);
      AfterWorkerFrom(d, o');
      SkipsUnharmed(c);
      SkipsUnharmed(d);
    } else {
      HarmedStays(c, o);
      HarmedStays(d, o');
    }
  }

  lemma {:induction false} FlowHarm(cmd: Cmd, flow: seq<Entry>, flow': seq<Entry>, i: nat, ok: bool, c: Class,
                                    d: Class, s: Service)
    requires SameShape(flow, flow') && i <= |flow| && HarmAlike(c, d)
    requires forall k :: 0 <= k < |flow| ==> ValidGraph(flow[k].sorter.graph) && SameHarm(flow[k], flow'[k])
    ensures HarmAlike(FlowClass(cmd, flow, i, ok, c, s), FlowClass(cmd, flow', i, ok, d, s))
    decreases |flow| - i
  {
    hide ValidGraph, SameHarm, EntryFails, PhaseClass;
    if i == |flow| {
    } else {
      var e, e' := flow[i], flow'[i];
      if !ok {
        var c', d' := if s in e.members then Worse(c, Skipped) else c, if s in e.members then Worse(d, Skipped) else d;
        FlowHarm(cmd, flow, flow', i + 1, false, c', d', s);
      } else if Breaks(cmd, e.states) {
      } else if Passes(cmd, e.states) {
        FlowHarm(cmd, flow, flow', i + 1, true, c, d, s);
      } else {
        SameEntryFails(e, e');
        PhaseHarm(e, e', c, d, s);
        FlowHarm(cmd, flow, flow', i + 1, !EntryFails(e),
                 PhaseClass(e.sorter.graph, e.script, c, s), PhaseClass(e'.sorter.graph, e'.script, d, s), s);
      }
    }
  }

  lemma StopHarm(p: Procedure, world: World, world': World, flow: seq<Entry>, flow': seq<Entry>, i: nat)
    requires StopReady(p, flow) && StopReady(p, flow') && SameShape(flow, flow') && i < |flow|
    requires FromWorkers(p, world, flow) && FromWorkers(p, world', flow') && SameSurvivor(p, world, world')
    ensures SameHarm(flow[i], flow'[i])
  {
    hide UnknownHead, Available, AfterWorker, RunWorker, JudgeAt;
    forall s | s in flow[i].sorter.graph.succ
      ensures OutcomeOf(flow[i].script, s).final.IsOk() <==> OutcomeOf(flow'[i].script, s).final.IsOk()
      ensures AfterWorker(Unlisted, OutcomeOf(flow[i].script, s)) == Failed <==>
              AfterWorker(Unlisted, OutcomeOf(flow'[i].script, s)) == Failed
    {
      StopWorker(p, flow[i].states, world(i, s), s, OutcomeOf(flow[i].script, s));
      StopWorker(p, flow'[i].states, world'(i, s), s, OutcomeOf(flow'[i].script, s));
      SameActivation(p, s, world(i, s), world'(i, s));
    }
  }

  lemma SameActivation(p: Procedure, s: Service, sites: Sites, sites': Sites)
    requires sites(Opposite(p.c, p.site)) == sites'(Opposite(p.c, p.site))
    ensures ActivationFails(p, s, sites) <==> ActivationFails(p, s, sites')
  {}

  /**
   * Whatever the passivated site does, in any two runs of a failover under any schedules, the same services
   * end up failed and the same services end up skipped.
   */
  lemma FailoverIgnoresPassivatedSite(p: Procedure, world: World, world': World, flow: seq<Entry>, flow': seq<Entry>,
                                      lists: Lists, log: seq<Stamped>, lists': Lists, log': seq<Stamped>)
    requires StopReady(p, flow) && StopReady(p, flow') && SameShape(flow, flow')
    requires FromWorkers(p, world, flow) && FromWorkers(p, world', flow') && SameSurvivor(p, world, world')
    requires AllPrepared(flow) && AllPrepared(flow')
    requires Run(p.cmd, flow, lists, log) && Run(p.cmd, flow', lists', log')
    ensures forall s :: s in lists.failed <==> s in lists'.failed
    ensures forall s :: s in lists.skipped <==> s in lists'.skipped
  {
    hide Run, AllPrepared, StopReady, SameShape, FromWorkers, SameSurvivor, FlowClass, Tidy;
    RunOutcome(p.cmd, flow, lists, log);
    RunOutcome(p.cmd, flow', lists', log');
    HarmOfRuns(p, world, world', flow, flow');
    HarmedLists(lists);
    HarmedLists(lists');
  }

  lemma HarmedLists(lists: Lists)
    requires Tidy(lists)
    ensures forall s :: s in lists.failed <==> ClassOf(lists, s) == Failed
    ensures forall s :: s in lists.skipped <==> ClassOf(lists, s) == Skipped
  {}

  lemma HarmOfRuns(p: Procedure, world: World, world': World, flow: seq<Entry>, flow': seq<Entry>)
    requires StopReady(p, flow) && StopReady(p, flow') && SameShape(flow, flow')
    requires FromWorkers(p, world, flow) && FromWorkers(p, world', flow') && SameSurvivor(p, world, world')
    requires AllPrepared(flow)
    ensures forall s :: HarmAlike(FlowClass(p.cmd, flow, 0, true, Unlisted, s),
                                  FlowClass(p.cmd, flow', 0, true, Unlisted, s))
  {
    hide StopReady, FromWorkers, SameSurvivor, FlowClass, SameHarm, CountersRight, ReadyRight, ValidGraph, Cyclic;
    forall i | 0 <= i < |flow|
      ensures ValidGraph(flow[i].sorter.graph) && SameHarm(flow[i], flow'[i])
    {
      StopHarm(p, world, world', flow, flow', i);
    }
    forall s
      ensures HarmAlike(FlowClass(p.cmd, flow, 0, true, Unlisted, s), FlowClass(p.cmd, flow', 0, true, Unlisted, s))
    {
      FlowHarm(p.cmd, flow, flow', 0, true, Unlisted, Unlisted, s);
    }
  }
}
