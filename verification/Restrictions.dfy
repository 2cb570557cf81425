/** State restrictions: the check before a one-site command, and what it is worth after the run. */
module Restrictions {
  import opened Graphs
  import opened Results
  import opened Sorters
  import opened Schedules
  import opened Engine
  import opened Flow
  import opened Cluster
  import opened Workers
  import opened Safety
  import opened Validation
  import opened Prepare
  import opened EndToEnd

  /** Restricted states by service name, "*" for all services; a state names one mode per configured site. */
  type Restricted = map<string, seq<string>>

  type ModeState = map<Site, string>

  /** str.split("-") */
  function Split(s: string): (r: seq<string>)
    ensures r != []
    decreases |s|
  {
    if s == "" then [""]
    else var rest := Split(s[1..]);
         if s[0] == '-' then [""] + rest else [[s[0]] + rest[0]] + rest[1..]
  }

  lemma {:induction false} PartsHaveNoDash(s: string)
    ensures forall part :: part in Split(s) ==> '-' !in part
    decreases |s|
  {
    if s == "" {
    } else {
      PartsHaveNoDash(s[1..]);
      var rest := Split(s[1..]);
      var first := if s[0] == '-' then "" else [s[0]] + rest[0];
      var others := if s[0] == '-' then rest else rest[1..];
      assert Split(s) == [first] + others;
      assert rest[0] in rest && forall part :: part in others ==> part in rest;
    }
  }

  /** dict(zip(sites, parts)) */
  function Zip(conf: seq<Site>, parts: seq<string>): ModeState
    decreases |conf|
  {
    if conf == [] || parts == [] then map[] else Zip(conf[1..], parts[1..])[conf[0] := parts[0]]
  }

  lemma {:induction false} ZipValues(conf: seq<Site>, parts: seq<string>, site: Site)
    ensures site in Zip(conf, parts) ==> Zip(conf, parts)[site] in parts
    decreases |conf|
  {
    if conf == [] || parts == [] {
    } else {
      ZipValues(conf[1..], parts[1..], site);
      assert forall x :: x in parts[1..] ==> x in parts;
    }
  }

  /** Part i is what is said of site i; sites without a part, and parts without a site, are dropped. */
  lemma {:induction false} ZipAt(conf: seq<Site>, parts: seq<string>, i: nat)
    requires Distinct(conf) && i < |conf|
    ensures forall site :: site in Zip(conf, parts) ==> site in conf
    ensures conf[i] in Zip(conf, parts) <==> i < |parts|
    ensures i < |parts| ==> Zip(conf, parts)[conf[i]] == parts[i]
    decreases |conf|
  {
    var rest := conf[1..];
    assert forall site :: site in rest ==> site in conf;
    if parts == [] {
    } else if i == 0 {
      if rest != [] { ZipAt(rest, parts[1..], 0); }
      assert conf[0] !in rest;
    } else {
      ZipAt(rest, parts[1..], i - 1);
      assert rest[i - 1] == conf[i] && conf[i] != conf[0];
    }
  }

  /** "-".join(parts) */
  function Join(parts: seq<string>): string
    requires parts != []
  {
    if |parts| == 1 then parts[0] else parts[0] + "-" + Join(parts[1..])
  }

  lemma JoinOne(part: string)
    ensures Join([part]) == part
  {}

  lemma JoinStep(parts: seq<string>)
    requires parts != []
    ensures Join([""] + parts) == "-" + Join(parts)
  {
    hide Split;
    assert ([""] + parts)[1..] == parts;
  }

  lemma JoinLetter(x: char, parts: seq<string>)
    requires parts != []
    ensures Join([[x] + parts[0]] + parts[1..]) == [x] + Join(parts)
  {
    hide Split;
    assert ([[x] + parts[0]] + parts[1..])[1..] == parts[1..];
  }

  lemma SplitStep(s: string, rest: string)
    requires s == "-" + rest
    ensures Split(s) == [""] + Split(rest)
  {
    assert s[1..] == rest;
  }

  lemma SplitLetter(x: char, rest: string)
    requires x != '-'
    ensures Split([x] + rest) == [[x] + Split(rest)[0]] + Split(rest)[1..]
  {
    assert ([x] + rest)[1..] == rest;
  }

  /** Splitting undoes joining, and with PartsHaveNoDash and JoinedAgain this is all that splitting does. */
  lemma {:induction false} SplitJoined(parts: seq<string>)
    requires parts != [] && forall part :: part in parts ==> '-' !in part
    ensures Split(Join(parts)) == parts
    decreases |parts|, |parts[0]|
  {
    hide Split, Join;
    var first, rest := parts[0], parts[1..];
    assert parts == [first] + rest;
    if first == "" {
      if rest == [] {
        JoinOne("");
        SplitNothing();
        assert parts == [""];
      } else {
        SplitJoined(rest);
        JoinStep(rest);
        SplitStep("-" + Join(rest), Join(rest));
      }
    } else {
      var x, shorter := first[0], [first[1..]] + rest;
      assert shorter[1..] == rest && [x] + first[1..] == first;
      assert '-' !in first && x in first && forall y :: y in first[1..] ==> y in first;
      SplitJoined(shorter);
      JoinLetter(x, shorter);
      SplitLetter(x, Join(shorter));
    }
  }

  lemma SplitNothing()
    ensures Split("") == [""]
  {}

  lemma {:induction false} JoinedAgain(s: string)
    ensures Join(Split(s)) == s
    decreases |s|
  {
    hide Split, Join;
    if s == "" {
      SplitNothing();
      JoinOne("");
    } else {
      var x, rest := s[0], s[1..];
      assert s == [x] + rest;
      JoinedAgain(rest);
      if x == '-' {
        SplitStep(s, rest);
        JoinStep(Split(rest));
      } else {
        SplitLetter(x, rest);
        JoinLetter(x, Split(rest));
      }
    }
  }

  lemma ZipTwo(x: Site, y: Site, a: string, b: string)
    requires x != y
    ensures Zip([x, y], [a, b]) == map[x := a, y := b]
  {
    assert [x, y][1..] == [y] && [a, b][1..] == [b] && [y][1..] == [] && [b][1..] == [];
    assert Zip([y], [b]) == Zip([], [])[y := b];
  }

  /** How the configuration writes the state with these modes on the named and on the opposite site. */
  function Written(c: ClusterState, site: Site, mode: string, opposite: string): string {
    if |c.conf| == 2 && site == c.conf[0] then mode + "-" + opposite else opposite + "-" + mode
  }

  lemma WrittenIsRead(c: ClusterState, site: Site, mode: string, opposite: string)
    requires ValidCluster(c) && site in c.conf && '-' !in mode && '-' !in opposite
    ensures Zip(c.conf, Split(Written(c, site, mode, opposite))) == map[site := mode][Opposite(c, site) := opposite]
  {
    hide Zip, Split, ValidSite;
    var x, y := c.conf[0], c.conf[1];
    assert c.conf == [x, y];
    var first, second := if site == x then mode else opposite, if site == x then opposite else mode;
    assert [first, second][1..] == [second];
    assert Join([first, second]) == first + "-" + second;
    SplitJoined([first, second]);
    ZipTwo(x, y, first, second);
  }

  /** A state is restricted for a service by its own name, or by "*" for all. */
  predicate Restricts(r: Restricted, s: Service, e: string) {
    (s.name in r && e in r[s.name]) || ("*" in r && e in r["*"])
  }

  ghost predicate Forbidden(conf: seq<Site>, r: Restricted, s: Service, state: ModeState) {
    exists e :: Restricts(r, s, e) && state == Zip(conf, Split(e))
  }

  predicate IsCovered(r: Restricted, s: Service) {
    "*" in r || s.name in r
  }

  function ReportedMode(r: Reply): string {
    if r.mode in ["active", "standby", "disable"] then r.mode else "--"
  }

  function Predicted(c: ClusterState, site: Site, cmd: Cmd, mode: string): ModeState {
    map[site := ModeName(ModeOf(cmd))][Opposite(c, site) := mode]
  }

  /** A state as the configuration writes it forbids exactly that state. */
  lemma WrittenIsForbidden(c: ClusterState, r: Restricted, site: Site, cmd: Cmd, s: Service, opposite: string,
                           m: string)
    requires ValidCluster(c) && site in c.conf && '-' !in opposite
    requires var e := Written(c, site, ModeName(ModeOf(cmd)), opposite);
             forall x :: Restricts(r, s, x) <==> x == e
    ensures Forbidden(c.conf, r, s, Predicted(c, site, cmd, m)) <==> m == opposite
  {
    hide Zip, Split, Written, Restricts, ValidCluster;
    WrittenIsRead(c, site, ModeName(ModeOf(cmd)), opposite);
    OppositeIsInvolution(c, site);
    assert Restricts(r, s, Written(c, site, ModeName(ModeOf(cmd)), opposite));
    assert Predicted(c, site, cmd, m)[Opposite(c, site)] == m;
    assert Predicted(c, site, cmd, opposite)[Opposite(c, site)] == opposite;
  }

  /** What the check asks of one service. */
  ghost predicate Permits(c: ClusterState, r: Restricted, site: Site, cmd: Cmd, s: Service, status: Poll) {
    IsCovered(r, s) ==> status.ok && !Forbidden(c.conf, r, s, Predicted(c, site, cmd, ReportedMode(status.data)))
  }

  method RestrictedStates(conf: seq<Site>, written: seq<string>) returns (states: seq<ModeState>)
    ensures forall state :: state in states <==> exists e :: e in written && state == Zip(conf, Split(e))
  {
    states := [];
    for i := 0 to |written|
      invariant forall state :: state in states <==> exists k :: 0 <= k < i && state == Zip(conf, Split(written[k]))
    {
      hide Zip, Split;
      states := states + [Zip(conf, Split(written[i]))];
    }
  }

  lemma PermitsIff(c: ClusterState, r: Restricted, site: Site, cmd: Cmd, s: Service, status: Poll)
    ensures Permits(c, r, site, cmd, s, status) <==>
            ("*" in r || s.name in r ==>
              status.ok && forall e: string :: (s.name in r && e in r[s.name]) || ("*" in r && e in r["*"]) ==>
                Zip(c.conf, Split(e)) != Predicted(c, site, cmd, ReportedMode(status.data)))
  {
    hide Zip, Split, Predicted, ReportedMode;
  }

  lemma ForbiddenIff(conf: seq<Site>, r: Restricted, s: Service, state: ModeState)
    ensures Forbidden(conf, r, s, state) <==>
            exists e: string ::
              ((s.name in r && e in r[s.name]) || ("*" in r && e in r["*"])) && state == Zip(conf, Split(e))
  {
    hide Zip, Split;
    if Forbidden(conf, r, s, state) {
      var e :| Restricts(r, s, e) && state == Zip(conf, Split(e));
    } else {
      assert forall e :: Restricts(r, s, e) ==> state != Zip(conf, Split(e));
    }
  }

  /** The loop body of check_state_restrictions, whose test for an unrecognised mode compares with what no mode is. */
  method CheckRestrictionsOf(c: ClusterState, r: Restricted, s: Service, site: Site, cmd: Cmd, ask: Service -> Poll)
      returns (valid: bool)
    ensures valid <==> Permits(c, r, site, cmd, s, ask(s))
  {
    hide Zip, Split;
    if "*" !in r && s.name !in r { return true; }
    var restricted := RestrictedStates(c.conf,
      (if s.name in r then r[s.name] else []) + (if "*" in r then r["*"] else []));
    var status := ask(s);
    if !status.ok { return false; }
    var mode := status.data.mode;
    if mode != "active" && mode != "standby" && mode != "disable" { mode := "--"; }
    if mode == "---" { return false; }
    var wanted := if cmd == ActiveCmd then "active" else if cmd == DisableCmd then "disable" else "standby";
    valid := map[site := wanted][Opposite(c, site) := mode] !in restricted;
  }

  /**
   * check_state_restrictions: every listed service that has restrictions answers on the opposite site, and none of its
   * own restrictions and of those for all services reads as the state that the command would lead to.
   */
  method CheckStateRestrictions(c: ClusterState, r: Restricted, services: seq<Service>, site: Site, cmd: Cmd,
                                ask: Service -> Poll)
      returns (valid: bool)
    ensures valid <==> forall s :: s in services ==> Permits(c, r, site, cmd, s, ask(s))
    ensures valid <==>
            forall s :: s in services && ("*" in r || s.name in r) ==>
              && ask(s).ok
              && (forall e: string :: (s.name in r && e in r[s.name]) || ("*" in r && e in r["*"]) ==>
                    Zip(c.conf, Split(e)) !=
                    map[site := ModeName(ModeOf(cmd))][Opposite(c, site) := ReportedMode(ask(s).data)])
  {
    hide Permits, Zip, Split, ReportedMode, ModeName, ModeOf;
    valid := true;
    for i := 0 to |services|
      invariant valid <==> forall s :: s in services[..i] ==> Permits(c, r, site, cmd, s, ask(s))
    {
      assert services[..i + 1] == services[..i] + [services[i]];
      var permitted := CheckRestrictionsOf(c, r, services[i], site, cmd, ask);
      if !permitted { valid := false; }
    }
    assert services[..|services|] == services;
    forall s | s in services { PermitsIff(c, r, site, cmd, s, ask(s)); }
  }

  /** validate_sites_operation; false stands for NotValid. */
  method ValidateSitesOperation(c: ClusterState, r: Restricted, services: seq<Service>, site: Site, cmd: Cmd,
                                plan: ModulePlan, ask: Service -> Poll)
      returns (ok: bool)
    requires !IsDr(cmd)
    ensures ok <==> SiteAccepted(c, site, services, plan)
                    && forall s :: s in services ==> Permits(c, r, site, cmd, s, ask(s))
    ensures ok ==>
            forall s :: s in services && ("*" in r || s.name in r) ==>
              && ask(s).ok
              && (forall e: string :: (s.name in r && e in r[s.name]) || ("*" in r && e in r["*"]) ==>
                    Zip(c.conf, Split(e)) !=
                    map[site := ModeName(ModeOf(cmd))][Opposite(c, site) := ReportedMode(ask(s).data)])
  {
    hide Permits, Available, Zip, Split, ReportedMode, ModeName, ModeOf;
    if !Available(c, site) { return false; }
    ok := CheckServicesOnSites(c, services, [site]);
    if !ok { return; }
    ok := CheckDepIssue(cmd, plan);
    if !ok { return; }
    ok := CheckStateRestrictions(c, r, services, site, cmd, ask);
  }

  // ---------------------------------------------------------------- what acceptance rules out

  predicate Recognised(r: Reply) {
    r.mode in ["active", "standby", "disable"]
  }

  /** An unrecognised opposite mode is never rejected: no part of a restriction can equal "--". */
  lemma UnrecognisedIsPermitted(c: ClusterState, r: Restricted, site: Site, cmd: Cmd, s: Service, status: Poll)
    requires ValidCluster(c) && site in c.conf && status.ok && !Recognised(status.data)
    ensures Permits(c, r, site, cmd, s, status)
  {
    OppositeIsInvolution(c, site);
    var state := Predicted(c, site, cmd, "--");
    forall e | Restricts(r, s, e)
      ensures state != Zip(c.conf, Split(e))
    {
      PartsHaveNoDash(e);
      ZipValues(c.conf, Split(e), Opposite(c, site));
      assert state[Opposite(c, site)][0] == '-';
    }
  }

  /** The real mode of the opposite site, as far as the reply tells it. */
  predicate Compatible(r: Reply, actual: Mode) {
    Recognised(r) ==> r.mode == ModeName(actual)
  }

  /** Permission rules out a forbidden final state, whatever the real mode of the opposite site. */
  ghost predicate Guards(c: ClusterState, r: Restricted, site: Site, cmd: Cmd, s: Service, status: Poll) {
    Permits(c, r, site, cmd, s, status) ==>
      forall actual: Mode :: Compatible(status.data, actual) ==>
        !Forbidden(c.conf, r, s, Predicted(c, site, cmd, ModeName(actual)))
  }

  /**
   * The check guards a covered service exactly when the reply shows a recognised mode, or nothing could be forbidden
   * anyway.
   */
  lemma GuardsIff(c: ClusterState, r: Restricted, site: Site, cmd: Cmd, s: Service, status: Poll)
    requires ValidCluster(c) && site in c.conf && status.ok && IsCovered(r, s)
    ensures Guards(c, r, site, cmd, s, status) <==>
            Recognised(status.data)
            || forall actual: Mode :: !Forbidden(c.conf, r, s, Predicted(c, site, cmd, ModeName(actual)))
  {
    hide Forbidden, Predicted, ValidCluster;
    if !Recognised(status.data) { UnrecognisedIsPermitted(c, r, site, cmd, s, status); }
  }

  // ---------------------------------------------------------------- after the run

  /** The modes of a service on both sites after the commands in the log. */
  function StateAfter(log: seq<Stamped>, s: Service, initial: ModeState): ModeState {
    if log == [] then initial else
      var e, before := log[|log| - 1].event, StateAfter(log[..|log| - 1], s, initial);
      if e.Sent? && e.service == s then before[e.command.site := ModeName(e.command.mode)] else before
  }

  /** All commands for s go to this site with this mode. */
  ghost predicate OnlyTo(log: seq<Stamped>, s: Service, site: Site, mode: Mode) {
    forall k :: 0 <= k < |log| && log[k].event.Sent? && log[k].event.service == s ==>
      log[k].event.command.site == site && log[k].event.command.mode == mode
  }

  lemma {:induction false} StateChangesOnlyThere(log: seq<Stamped>, s: Service, initial: ModeState, site: Site,
                                                 mode: Mode)
    requires OnlyTo(log, s, site, mode)
    ensures StateAfter(log, s, initial) ==
            if exists k :: 0 <= k < |log| && log[k].event.Sent? && log[k].event.service == s
            then initial[site := ModeName(mode)] else initial
  {
    if log == [] {
    } else {
      var before := log[..|log| - 1];
      StateChangesOnlyThere(before, s, initial, site, mode);
      if k :| 0 <= k < |log| && log[k].event.Sent? && log[k].event.service == s {
        assert k < |log| - 1 ==> before[k].event == log[k].event;
      }
    }
  }

  lemma RunStaysOnSite(p: Procedure, world: World, flow: seq<Entry>, lists: Lists, log: seq<Stamped>, s: Service)
    requires !IsDr(p.cmd) && FromWorkers(p, world, flow)
    requires AllPrepared(flow) && Run(p.cmd, flow, lists, log)
    ensures OnlyTo(log, s, p.site, ModeOf(p.cmd))
  {
    hide Run, EntryCommands, FromWorkers, AllPrepared;
    OneSiteFrame(p, world, flow, lists, log);
    forall k | 0 <= k < |log| && log[k].event.Sent? && log[k].event.service == s
      ensures log[k].event.command.site == p.site && log[k].event.command.mode == ModeOf(p.cmd)
    {
      CommandInEntry(log, k, log[k].entry, s, log[k].event.command);
    }
  }

  /** Over any run a service that is sent a command ends in the commanded mode, and as it was on the opposite site. */
  lemma FinalState(p: Procedure, world: World, flow: seq<Entry>, lists: Lists, log: seq<Stamped>,
                   s: Service, initial: ModeState, k: nat)
    requires ValidCluster(p.c) && p.site in p.c.conf && !IsDr(p.cmd)
    requires FromWorkers(p, world, flow) && AllPrepared(flow) && Run(p.cmd, flow, lists, log)
    requires initial.Keys == {p.site, Opposite(p.c, p.site)}
    requires k < |log| && log[k].event.Sent? && log[k].event.service == s
    ensures var c := log[k].event.command;
            && IsModeOf(p.cmd, c.mode)
            && StateAfter(log, s, initial) ==
               map[p.site := ModeName(c.mode)][Opposite(p.c, p.site) := initial[Opposite(p.c, p.site)]]
            && StateAfter(log, s, initial) == Predicted(p.c, p.site, p.cmd, initial[Opposite(p.c, p.site)])
  {
    hide Run, FromWorkers, AllPrepared, ValidCluster;
    RunStaysOnSite(p, world, flow, lists, log, s);
    StateChangesOnlyThere(log, s, initial, p.site, ModeOf(p.cmd));
    OppositeIsInvolution(p.c, p.site);
  }

  lemma OneSiteReply(p: Procedure, states: seq<Mode>, sites: Sites, s: Service, c: Command)
    requires !IsDr(p.cmd)
    requires WorkerOf(p, states, sites, s).Ended? && c in WorkerOf(p, states, sites, s).outcome.commands
    ensures var t := Target(p.site, ModeOf(p.cmd)); c == Judge(p.c, s, t, t.site, p.force, false, sites(t.site))
  {}

  // ---------------------------------------------------------------- the whole command

  /** Planning and validation let the module through, apart from the restrictions. */
  ghost predicate PlanAccepted(p: Procedure, f: Selection, plan: ModulePlan) {
    && PlanOf(p.c, SitesOfPlan(p.c, p.cmd, p.site, f), f, plan)
    && SiteAccepted(p.c, p.site, ServicesToValidate(p.c, f.run, f.mod, plan), plan)
  }

  ghost predicate PlansAccepted(p: Procedure, mods: seq<string>, run: seq<Service>, ignored: seq<Service>) {
    forall m :: m in mods ==> exists plan :: PlanAccepted(p, Selection(m, run, ignored), plan)
  }

  /** The module is validated with the restrictions and with what the opposite site answers. */
  ghost predicate ModuleAccepted(p: Procedure, r: Restricted, f: Selection, ask: Service -> Poll) {
    exists plan ::
      && PlanAccepted(p, f, plan)
      && forall s :: s in ServicesToValidate(p.c, f.run, f.mod, plan) ==> Permits(p.c, r, p.site, p.cmd, s, ask(s))
  }

  ghost predicate CommandAccepted(p: Procedure, r: Restricted, mods: seq<string>, run: seq<Service>,
                                  ignored: seq<Service>, ask: Service -> Poll)
  {
    forall m :: m in mods ==> ModuleAccepted(p, r, Selection(m, run, ignored), ask)
  }

  /** The module that --run-services are sorted by: that of the first available site. */
  function SortedUnder(c: ClusterState, s: Service): string {
    if AvailableSites(c) == [] then DEFAULT_MODULE else ModuleAt(c, AvailableSites(c)[0], s)
  }

  /** The services of an accepted command's plan get into some list that is checked. */
  predicate IsChecked(c: ClusterState, mods: seq<string>, run: seq<Service>, s: Service) {
    run == [] || SortedUnder(c, s) in mods
  }

  lemma {:induction false} AvailableIsFiltered(c: ClusterState, sites: seq<Site>, site: Site)
    requires site in sites && Available(c, site)
    ensures site in Filter(c, sites)
    decreases |sites|
  {
    if sites[0] == site {
    } else {
      AvailableIsFiltered(c, sites[1..], site);
    }
  }

  lemma PlannedSitesOfOne(p: Procedure, f: Selection)
    requires !IsDr(p.cmd)
    ensures SitesOfPlan(p.c, p.cmd, p.site, f) == [p.site]
  {}

  /** A service whose module the flow names is validated with that module. */
  lemma ListedForItsModule(p: Procedure, f: Selection, plan: ModulePlan, s: Service)
    requires ValidCluster(p.c) && p.site in p.c.conf && !IsDr(p.cmd) && PlanAccepted(p, f, plan)
    requires if f.run == [] then InPlan(p, f, s) else s in f.run && SortedUnder(p.c, s) == f.mod
    ensures s in ServicesToValidate(p.c, f.run, f.mod, plan)
  {
    hide PlannedGraph, PlannedOrder, TableOf, DepsIncluded, Cyclic, TopoOrder, Included, ValidSite, AllAt;
    AvailableIsFiltered(p.c, p.c.conf, p.site);
    if f.run == [] {
      PlannedSitesOfOne(p, f);
      PlannedOrderIsTopo(p.c, [p.site], f);
      PlanIsOrdered(p.c, [p.site], f, plan.order);
    } else {
      OfModuleMembers(p.c, AvailableSites(p.c)[0], f.run, f.mod);
    }
  }

  lemma PlannedIsRun(p: Procedure, f: Selection, s: Service)
    requires InPlan(p, f, s)
    ensures f.run == [] || s in f.run
  {
    hide Substring, SitesOfPlan;
  }

  /** Acceptance permits every planned service that is checked. */
  lemma CheckedIsPermitted(p: Procedure, r: Restricted, mods: seq<string>, run: seq<Service>, ignored: seq<Service>,
                           ask: Service -> Poll, m: string, s: Service)
    requires ValidCluster(p.c) && p.site in p.c.conf && !IsDr(p.cmd)
    requires CommandAccepted(p, r, mods, run, ignored, ask)
    requires m in mods && InPlan(p, Selection(m, run, ignored), s) && IsChecked(p.c, mods, run, s)
    ensures Permits(p.c, r, p.site, p.cmd, s, ask(s))
  {
    hide ValidCluster, PlanAccepted, Permits, InPlan, ServicesToValidate, SortedUnder;
    var m' := if run == [] then m else SortedUnder(p.c, s);
    var f := Selection(m', run, ignored);
    assert ModuleAccepted(p, r, f, ask);
    var plan :| PlanAccepted(p, f, plan)
      && forall x :: x in ServicesToValidate(p.c, f.run, f.mod, plan) ==> Permits(p.c, r, p.site, p.cmd, x, ask(x));
    PlannedIsRun(p, Selection(m, run, ignored), s);
    ListedForItsModule(p, f, plan, s);
  }

  ghost predicate AllRecognised(ask: Service -> Poll) {
    forall s :: ask(s).ok && Recognised(ask(s).data)
  }

  /** Whatever the restrictions and the modes on the opposite site, an accepted command was checked for this service. */
  ghost predicate AcceptanceGuards(p: Procedure, mods: seq<string>, run: seq<Service>, ignored: seq<Service>,
                                   s: Service)
  {
    forall r: Restricted, ask: Service -> Poll ::
      AllRecognised(ask) && CommandAccepted(p, r, mods, run, ignored, ask) ==> Permits(p.c, r, p.site, p.cmd, s, ask(s))
  }

  function ModeOnly(mode: string): Reply {
    Reply(mode, "up", "done", "")
  }

  /** The opposite site reports s in standby and everything else active. */
  function StandbyOnly(s: Service): Service -> Poll {
    x => Poll(true, ModeOnly(if x == s then "standby" else "active"))
  }

  /** No service may end commanded here and in standby there. */
  function NotWithStandby(p: Procedure): Restricted {
    map["*" := [Written(p.c, p.site, ModeName(ModeOf(p.cmd)), "standby")]]
  }

  lemma NotWithStandbyForbids(p: Procedure, s: Service, mode: string)
    requires ValidCluster(p.c) && p.site in p.c.conf
    ensures IsCovered(NotWithStandby(p), s)
    ensures Forbidden(p.c.conf, NotWithStandby(p), s, Predicted(p.c, p.site, p.cmd, mode)) <==> mode == "standby"
  {
    WrittenIsForbidden(p.c, NotWithStandby(p), p.site, p.cmd, s, "standby", mode);
  }

  lemma ListedIsSorted(p: Procedure, f: Selection, plan: ModulePlan, s: Service)
    requires f.run != [] && s in ServicesToValidate(p.c, f.run, f.mod, plan)
    ensures SortedUnder(p.c, s) == f.mod
  {
    if AvailableSites(p.c) != [] { OfModuleMembers(p.c, AvailableSites(p.c)[0], f.run, f.mod); }
  }

  /** A planned service is guarded by acceptance exactly if its module on the first available site is in the flow. */
  lemma AcceptanceGuardsIff(p: Procedure, mods: seq<string>, run: seq<Service>, ignored: seq<Service>, m: string,
                            s: Service)
    requires ValidCluster(p.c) && p.site in p.c.conf && !IsDr(p.cmd) && PlansAccepted(p, mods, run, ignored)
    requires m in mods && InPlan(p, Selection(m, run, ignored), s)
    ensures AcceptanceGuards(p, mods, run, ignored, s) <==> IsChecked(p.c, mods, run, s)
  {
    hide ValidCluster, PlanAccepted, Permits, InPlan, ServicesToValidate, SortedUnder;
    if IsChecked(p.c, mods, run, s) {
      forall r: Restricted, ask: Service -> Poll | CommandAccepted(p, r, mods, run, ignored, ask)
        ensures Permits(p.c, r, p.site, p.cmd, s, ask(s))
      {
        CheckedIsPermitted(p, r, mods, run, ignored, ask, m, s);
      }
    } else {
      var r, ask := NotWithStandby(p), StandbyOnly(s);
      forall m' | m' in mods
        ensures ModuleAccepted(p, r, Selection(m', run, ignored), ask)
      {
        var f := Selection(m', run, ignored);
        var plan :| PlanAccepted(p, f, plan);
        forall x | x in ServicesToValidate(p.c, f.run, f.mod, plan)
          ensures Permits(p.c, r, p.site, p.cmd, x, ask(x))
        {
          ListedIsSorted(p, f, plan, x);
          StandbyIsForbidden(p, s, x);
        }
      }
      StandbyIsForbidden(p, s, s);
      assert AllRecognised(ask) && CommandAccepted(p, r, mods, run, ignored, ask);
    }
  }

  lemma StandbyIsForbidden(p: Procedure, s: Service, x: Service)
    requires ValidCluster(p.c) && p.site in p.c.conf
    ensures AllRecognised(StandbyOnly(s))
    ensures Permits(p.c, NotWithStandby(p), p.site, p.cmd, x, StandbyOnly(s)(x)) <==> x != s
  {
    hide ValidCluster, Forbidden, NotWithStandby, Predicted;
    NotWithStandbyForbids(p, x, ReportedMode(StandbyOnly(s)(x).data));
  }

  /**
   * Restriction safety of a whole accepted command: over any run and schedule, a covered service whose opposite mode
   * was recognised and stays as it was ends in a forbidden state, once it is sent a command, exactly if the check would
   * not have permitted it; and not at all if it was checked.
   */
  lemma RestrictionSafety(p: Procedure, r: Restricted, world: World, flow: seq<Entry>, mods: seq<string>,
                          run: seq<Service>, ignored: seq<Service>, ask: Service -> Poll, lists: Lists,
                          log: seq<Stamped>, s: Service, initial: ModeState, k: nat)
    requires ValidCluster(p.c) && p.site in p.c.conf && !IsDr(p.cmd) && PlannedFlow(p, flow, mods, run, ignored)
    requires CommandAccepted(p, r, mods, run, ignored, ask)
    requires FromWorkers(p, world, flow) && Run(p.cmd, flow, lists, log)
    requires IsCovered(r, s) && ask(s).ok && Recognised(ask(s).data)
    requires initial.Keys == {p.site, Opposite(p.c, p.site)} && initial[Opposite(p.c, p.site)] == ask(s).data.mode
    requires k < |log| && log[k].event.Sent? && log[k].event.service == s
    ensures (exists e: string ::
               && ((s.name in r && e in r[s.name]) || ("*" in r && e in r["*"]))
               && StateAfter(log, s, initial) == Zip(p.c.conf, Split(e)))
            <==> !Permits(p.c, r, p.site, p.cmd, s, ask(s))
    ensures IsChecked(p.c, mods, run, s) ==>
              forall e: string :: (s.name in r && e in r[s.name]) || ("*" in r && e in r["*"]) ==>
                StateAfter(log, s, initial) != Zip(p.c.conf, Split(e))
  {
    hide Run, FromWorkers, Prepared, PlannedEntry, Forbidden, ValidCluster, CommandAccepted, InPlan, IsChecked;
    hide Zip, Split, StateAfter;
    FinalState(p, world, flow, lists, log, s, initial, k);
    ForbiddenIff(p.c.conf, r, s, StateAfter(log, s, initial));
    var j := log[k].entry;
    SentByNode(p.cmd, flow, lists, log, k, j, s, log[k].event.command);
    PlannedNodes(p, flow[j], Selection(mods[j], run, ignored));
    if IsChecked(p.c, mods, run, s) { CheckedIsPermitted(p, r, mods, run, ignored, ask, mods[j], s); }
  }

  /**
   * The same of the modes the sites themselves report: a service that completes, with an answer that does not mislead,
   * is reported in the commanded mode, and with the opposite mode that was read this is a forbidden state exactly if
   * the check would not have permitted it.
   */
  lemma ReportedStateIsSafe(p: Procedure, r: Restricted, world: World, flow: seq<Entry>, mods: seq<string>,
                            run: seq<Service>, ignored: seq<Service>, ask: Service -> Poll, lists: Lists,
                            log: seq<Stamped>, s: Service, k: nat, j: nat, c: Command)
    requires ValidCluster(p.c) && p.site in p.c.conf && !IsDr(p.cmd) && PlannedFlow(p, flow, mods, run, ignored)
    requires CommandAccepted(p, r, mods, run, ignored, ask)
    requires FromWorkers(p, world, flow) && Run(p.cmd, flow, lists, log)
    requires IsCovered(r, s) && ask(s).ok && Recognised(ask(s).data)
    requires k < |log| && log[k] == At(j, Sent(s, c)) && c.verdict.IsOk()
    requires !Misleads(p.c, s, Target(p.site, ModeOf(p.cmd)), p.site, p.force, world(j, s)(p.site))
    ensures c.reply.mode == ModeName(ModeOf(p.cmd))
    ensures var reported := map[p.site := c.reply.mode][Opposite(p.c, p.site) := ask(s).data.mode];
            && ((exists e: string ::
                   && ((s.name in r && e in r[s.name]) || ("*" in r && e in r["*"]))
                   && reported == Zip(p.c.conf, Split(e)))
                <==> !Permits(p.c, r, p.site, p.cmd, s, ask(s)))
            && (IsChecked(p.c, mods, run, s) ==>
                  forall e: string :: (s.name in r && e in r[s.name]) || ("*" in r && e in r["*"]) ==>
                    reported != Zip(p.c.conf, Split(e)))
  {
    hide Run, Prepared, PlannedEntry, Forbidden, ValidCluster, Misleads, Judge, RunWorker, CommandAccepted, InPlan;
    hide IsChecked, Zip, Split;
    SentByNode(p.cmd, flow, lists, log, k, j, s, c);
    OneSiteReply(p, flow[j].states, world(j, s), s, c);
    var t := Target(p.site, ModeOf(p.cmd));
    OkMeansConfirmedIff(p.c, s, t, t.site, p.force, world(j, s)(t.site));
    ForbiddenIff(p.c.conf, r, s, map[p.site := c.reply.mode][Opposite(p.c, p.site) := ask(s).data.mode]);
    PlannedNodes(p, flow[j], Selection(mods[j], run, ignored));
    if IsChecked(p.c, mods, run, s) { CheckedIsPermitted(p, r, mods, run, ignored, ask, mods[j], s); }
  }
}
