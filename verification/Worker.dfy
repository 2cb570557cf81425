/**
 * What one worker does for its service: the verdict on a reply, the polling loop, and the
 * sequence of mode changes on one or two sites.
 */
module Workers {
  import opened Graphs
  import opened Wrappers
  import opened Results
  import opened Engine
  import opened Flow
  import opened Cluster

  // ---------------------------------------------------------------- the verdict on a reply

  const NOT_EXIST := "Service doesn't exist"
  const NOT_REPLY := Reply("", "", "", "Service didn't reply")
  const NO_FIELDS := Reply("", "", "", "")

  function ModeName(m: Mode): string {
    match m case Active => "active" case Standby => "standby" case Disable => "disable"
  }

  function HealthOf(r: Reply): string {
    if r.healthz in ["up", "down", "degraded"] then r.healthz else "--"
  }

  predicate FailedHealth(h: string) {
    h == "down" || h == "degraded" || h == "--"
  }

  /** The sentinel message passes; otherwise the health must be acceptable, or forced, and the status not failed. */
  predicate ServiceStatus(r: Reply, mode: Mode, allowed: seq<string>, force: bool) {
    r.message == NOT_EXIST ||
    ((!FailedHealth(HealthOf(r)) || (mode == Standby && HealthOf(r) in allowed) || force) && r.status != "failed")
  }

  /** set_service_status: a failed health is let in by the list only for standby. */
  method SetServiceStatus(r: Reply, mode: Mode, allowed: seq<string>, force: bool) returns (ok: bool)
    ensures ok == ServiceStatus(r, mode, allowed, force)
  {
    if r.message == "Service doesn't exist" { return true; }
    var healthz := if r.healthz == "up" || r.healthz == "down" || r.healthz == "degraded" then r.healthz else "--";
    var failedHealthz := {"down", "degraded", "--"};
    if mode == Standby && allowed != [] { failedHealthz := failedHealthz - (set h | h in allowed); }
    var status :=
      if r.status == "running" || r.status == "done" || r.status == "failed" || r.status == "queue" then r.status
      else "--";
    ok := (healthz !in failedHealthz || force) && status != "failed";
  }

  const MISSING := Verdict(true, false)

  // ---------------------------------------------------------------- polling

  /** One status request: whether it returned 200, and the data. */
  datatype Poll = Poll(ok: bool, data: Reply)

  predicate Expected(r: Reply, mode: Mode, accepted: seq<string>) {
    r.status == "done" && r.mode == ModeName(mode) && r.healthz in accepted
  }

  predicate ErrorState(r: Reply) {
    (r.status == "done" && r.healthz in ["down", "degraded"]) || r.status == "failed"
  }

  predicate Stops(p: Poll, mode: Mode, accepted: seq<string>) {
    p.ok && (Expected(p.data, mode, accepted) || ErrorState(p.data))
  }

  function AcceptedHealth(mode: Mode, allowed: seq<string>): seq<string> {
    if mode == Standby then allowed else ["up"]
  }

  /** What polling can hand back: data on which it stopped, or the last data with its health struck out. */
  predicate PollEnd(r: Reply, mode: Mode, allowed: seq<string>) {
    Expected(r, mode, AcceptedHealth(mode, allowed)) || ErrorState(r) || r.healthz == "--"
  }

  const DELAY := 5

  /**
   * The adversary of one polling loop: how many seconds each test of the loop guard comes late, after the `DELAY`
   * seconds of sleep since the test before, and what each request returns.
   */
  datatype Polls = Polls(late: nat -> nat, answer: nat -> Poll)

  datatype Goal = Goal(timeout: int, mode: Mode, allowed: seq<string>)

  /** The seconds gone by at test k of the loop guard. */
  function Elapsed(p: Polls, k: nat): nat {
    if k == 0 then p.late(0) else Elapsed(p, k - 1) + DELAY + p.late(k)
  }

  lemma {:induction false} ElapsedGrows(p: Polls, k: nat)
    ensures Elapsed(p, k) >= DELAY * k
  {
    if k == 0 {
    } else {
      ElapsedGrows(p, k - 1);
    }
  }

  /** A request made in time is one of the first timeout div 5 + 1. */
  lemma RequestsInTime(p: Polls, timeout: int, k: nat)
    requires Elapsed(p, k) <= timeout
    ensures 0 <= timeout && k <= timeout / DELAY
  {
    ElapsedGrows(p, k);
  }

  predicate StopsAt(p: Polls, g: Goal, k: nat) {
    Stops(p.answer(k), g.mode, AcceptedHealth(g.mode, g.allowed))
  }

  function LastData(p: Polls, k: nat): Reply {
    if k == 0 then NO_FIELDS else p.answer(k - 1).data
  }

  /** What the loop hands back if it has come to test k of its guard. */
  function PollFrom(p: Polls, g: Goal, k: nat): Reply
    decreases g.timeout - Elapsed(p, k)
  {
    if Elapsed(p, k) > g.timeout then LastData(p, k).(healthz := "--")
    else if StopsAt(p, g, k) then p.answer(k).data
    else PollFrom(p, g, k + 1)
  }

  function PollData(p: Polls, g: Goal): Reply {
    PollFrom(p, g, 0)
  }

  /** Whatever the answers, polling hands back nothing else. */
  lemma {:induction false} PollEnds(p: Polls, g: Goal, k: nat)
    ensures PollEnd(PollFrom(p, g, k), g.mode, g.allowed)
    decreases g.timeout - Elapsed(p, k)
  {
    if Elapsed(p, k) > g.timeout || StopsAt(p, g, k) {
    } else {
      PollEnds(p, g, k + 1);
    }
  }

  /** The states on which the loop ends, as the source spells them out. */
  lemma StopsThere(p: Polls, g: Goal, k: nat, wanted: string, reached: bool, broken: bool)
    requires wanted == if g.mode == Active then "active" else if g.mode == Standby then "standby" else "disable"
    requires var r := p.answer(k).data;
             && reached == (r.status == "done" && r.mode == wanted
                            && if g.mode == Standby then r.healthz in g.allowed else r.healthz == "up")
             && broken == ((r.status == "done" && (r.healthz == "down" || r.healthz == "degraded"))
                           || r.status == "failed")
    ensures StopsAt(p, g, k) <==> p.answer(k).ok && (reached || broken)
  {}

  lemma Tick(p: Polls, k: nat)
    ensures Elapsed(p, k) == if k == 0 then p.late(0) else Elapsed(p, k - 1) + 5 + p.late(k)
  {}

  /**
   * service_status_polling.  The first answer on which it may stop ends it at once; otherwise it runs until the
   * clock is past the timeout, after at most timeout div 5 + 1 requests.
   */
  method ServiceStatusPolling(p: Polls, g: Goal) returns (data: Reply, count: nat)
    ensures data == PollData(p, g)
    ensures if g.timeout < 0 then count == 0 else count <= g.timeout / DELAY + 1
    ensures forall k: nat :: k < count ==> Elapsed(p, k) <= g.timeout
    ensures forall k: nat :: k + 1 < count ==> !StopsAt(p, g, k)
    ensures if count > 0 && StopsAt(p, g, count - 1) then data == p.answer(count - 1).data
            else Elapsed(p, count) > g.timeout && data == LastData(p, count).(healthz := "--")
  {
    hide StopsAt, Elapsed;
    data, count := NO_FIELDS, 0;
    var now := p.late(0);
    Tick(p, 0);
    var wanted := if g.mode == Active then "active" else if g.mode == Standby then "standby" else "disable";
    while now <= g.timeout
      invariant now == Elapsed(p, count)
      invariant PollFrom(p, g, count) == PollData(p, g)
      invariant forall k: nat :: k < count ==> !StopsAt(p, g, k) && Elapsed(p, k) <= g.timeout
      invariant if g.timeout < 0 then count == 0 else count <= g.timeout / DELAY + 1
      invariant data == LastData(p, count)
      decreases if g.timeout < 0 then 0 else g.timeout / DELAY + 1 - count
    {
      RequestsInTime(p, g.timeout, count);
      count := count + 1;
      data := p.answer(count - 1).data;
      var reached := data.status == "done" && data.mode == wanted
                     && if g.mode == Standby then data.healthz in g.allowed else data.healthz == "up";
      var broken := (data.status == "done" && (data.healthz == "down" || data.healthz == "degraded"))
                    || data.status == "failed";
      StopsThere(p, g, count - 1, wanted, reached, broken);
      if p.answer(count - 1).ok && (reached || broken) { return; }
      Tick(p, count);
      now := now + 5 + p.late(count);
    }
    data := data.(healthz := "--");
  }

  /** The mode was reached: done, in the required mode, with an accepted health. */
  ghost predicate Witnessed(r: Reply, mode: Mode, allowed: seq<string>) {
    Expected(r, mode, AcceptedHealth(mode, allowed))
  }

  /** An ok verdict on polled data, neither forced nor by the sentinel, shows that the mode was reached. */
  ghost predicate PollingSound(mode: Mode, allowed: seq<string>) {
    forall p: Polls, timeout: int ::
      var r := PollData(p, Goal(timeout, mode, allowed));
      r.message != NOT_EXIST && ServiceStatus(r, mode, allowed, false) ==> Witnessed(r, mode, allowed)
  }

  /** A site that answers every request alike, on time. */
  function Always(r: Reply): Polls {
    Polls(k => 0, k => Poll(true, r))
  }

  lemma {:induction false} AlwaysTimesOut(r: Reply, g: Goal, k: nat)
    requires k > 0 && !Stops(Poll(true, r), g.mode, AcceptedHealth(g.mode, g.allowed))
    ensures PollFrom(Always(r), g, k) == r.(healthz := "--")
    decreases g.timeout - Elapsed(Always(r), k)
  {
    if Elapsed(Always(r), k) > g.timeout {
    } else {
      AlwaysTimesOut(r, g, k + 1);
    }
  }

  /** True of every mode but standby; of standby exactly when the service allows none of the three failed healths. */
  lemma PollingSoundIff(mode: Mode, allowed: seq<string>)
    ensures PollingSound(mode, allowed) <==>
            mode != Standby || ("down" !in allowed && "degraded" !in allowed && "--" !in allowed)
  {
    if mode != Standby || ("down" !in allowed && "degraded" !in allowed && "--" !in allowed) {
      forall p: Polls, timeout: int
        ensures var r := PollData(p, Goal(timeout, mode, allowed));
                r.message != NOT_EXIST && ServiceStatus(r, mode, allowed, false) ==> Witnessed(r, mode, allowed)
      {
        PollEnds(p, Goal(timeout, mode, allowed), 0);
      }
    } else {
      PollingMisled(allowed);
    }
  }

  /** With a failed health allowed, a site that never reaches the mode is taken to have reached it. */
  lemma PollingMisled(allowed: seq<string>)
    requires "down" in allowed || "degraded" in allowed || "--" in allowed
    ensures !PollingSound(Standby, allowed)
  {
    var g := Goal(10, Standby, allowed);
    if "--" in allowed {
      var r := Reply("active", "", "running", "");
      AlwaysTimesOut(r, g, 1);
      assert PollData(Always(r), g) == r.(healthz := "--");
    } else {
      var r := Reply("active", if "down" in allowed then "down" else "degraded", "done", "");
      assert PollData(Always(r), g) == r;
    }
  }

  // ---------------------------------------------------------------- what a worker sends

  /** What a site makes of a mode change: refused with some data, or accepted and then polled. */
  datatype Answer = Refused(body: seq<Reply>) | Accepted(polls: Polls)

  /** The adversary: the behaviour of each site towards one service during one phase. */
  type Sites = Site -> Answer

  datatype Target = Target(site: Site, mode: Mode)

  /** No outcome stands for an exception: the thread dies and puts nothing on the queue. */
  datatype Result = Ended(outcome: Outcome) | KeyError

  function AllowedOn(c: ClusterState, site: Site, s: Service): seq<string> {
    if Has(c, site, s) then ConfOf(c, site, s).allowedStandbyStateList else []
  }

  function TimeoutOf(c: ClusterState, site: Site, s: Service): int {
    if Has(c, site, s) && ConfOf(c, site, s).timeout.Some? then ConfOf(c, site, s).timeout.value else c.defaultTimeout
  }

  function GoalOf(c: ClusterState, s: Service, t: Target): Goal {
    Goal(TimeoutOf(c, t.site, s), t.mode, AllowedOn(c, t.site, s))
  }

  /** The data a mode change is judged by. */
  function ReplyTo(c: ClusterState, s: Service, t: Target, a: Answer): Reply {
    match a
    case Accepted(p) => PollData(p, GoalOf(c, s, t))
    case Refused(body) => if body == [] then NOT_REPLY else body[0]
  }

  /**
   * One mode change.  Polled data is judged by the settings of the site it came from; a refusal by those of
   * `refusalSite`, which in a two-site procedure is always the site named on the command line.
   */
  function Judge(c: ClusterState, s: Service, t: Target, refusalSite: Site, force: bool, tolerant: bool,
                 a: Answer): Command
  {
    var r := ReplyTo(c, s, t, a);
    var allowed := AllowedOn(c, if a.Accepted? then t.site else refusalSite, s);
    Command(t.site, t.mode, r, Verdict(ServiceStatus(r, t.mode, allowed, force), tolerant), a.Accepted?)
  }

  /**
   * The head of the sequence that orders a switchover or failover: by the named site, or in a failover by the other.
   */
  function HeadOf(c: ClusterState, s: Service, move: bool, site: Site): string {
    var settling := if move || !Has(c, Opposite(c, site), s) then site else Opposite(c, site);
    var sequence := if Has(c, settling, s) then ConfOf(c, settling, s).sequence else [];
    if sequence == [] then "standby" else sequence[0]
  }

  /** A sequence is a list of free strings; nothing checks that it begins with a mode. */
  predicate UnknownHead(c: ClusterState, s: Service, move: bool, site: Site) {
    HeadOf(c, s, move, site) != "standby" && HeadOf(c, s, move, site) != "active"
  }

  /** The mode changes of a switchover or failover for one service, by the head of its sequence. */
  function DrSequence(c: ClusterState, s: Service, move: bool, site: Site): seq<Target> {
    var toStandby := Target(if move then Opposite(c, site) else site, Standby);
    var toActive := Target(if move then site else Opposite(c, site), Active);
    if UnknownHead(c, s, move, site) then []
    else if HeadOf(c, s, move, site) == "standby" then [toStandby, toActive] else [toActive, toStandby]
  }

  /** The dictionary lookup that get_dr_operation_sequence makes. */
  predicate SequenceKnown(c: ClusterState, s: Service, move: bool, site: Site) {
    Has(c, site, s) || (!move && Has(c, Opposite(c, site), s))
  }

  /** What the worker of a two-site procedure is started with. */
  datatype Job = Job(c: ClusterState, s: Service, move: bool, site: Site, force: bool, sites: Sites)

  function JudgeAt(j: Job, t: Target): Command {
    var tolerant := !j.move && t.mode == Standby;
    Judge(j.c, j.s, t, j.site, j.force || tolerant, tolerant, j.sites(t.site))
  }

  function Prepend(commands: seq<Command>, o: Outcome): Outcome {
    Outcome(commands + o.commands, o.final)
  }

  /** The worker of a two-site procedure, from the remaining targets and the response so far. */
  function RunTargets(j: Job, targets: seq<Target>, response: Verdict): Outcome
    decreases |targets|
  {
    if targets == [] then Outcome([], response)
    else if !Has(j.c, targets[0].site, j.s) then RunTargets(j, targets[1..], MISSING)
    else if !Available(j.c, targets[0].site) then RunTargets(j, targets[1..], response)
    else
      var command := JudgeAt(j, targets[0]);
      if !command.verdict.IsOk() then Outcome([command], command.verdict)
      else Prepend([command], RunTargets(j, targets[1..], command.verdict))
  }

  /** The worker of a one-site command. */
  function RunOneSite(c: ClusterState, s: Service, t: Target, failover: bool, force: bool, sites: Sites): Outcome {
    if !Has(c, t.site, s) then Outcome([], MISSING) else
      var tolerant := failover && t.mode == Standby;
      var command := Judge(c, s, t, t.site, force || tolerant, tolerant, sites(t.site));
      Outcome([command], command.verdict)
  }

  function ModeOf(cmd: Cmd): Mode {
    match cmd
    case ActiveCmd => Active
    case DisableCmd => Disable
    case _ => Standby
  }

  predicate IsDr(cmd: Cmd) {
    cmd == MoveCmd || cmd == StopCmd
  }

  /** The mode and site an entry with states gives to every service of its module. */
  function EntryTarget(c: ClusterState, cmd: Cmd, states: seq<Mode>, site: Site): Target {
    var mode := if IsDr(cmd) && states != [] then states[0] else ModeOf(cmd);
    var away := states != [] && ((mode == Active && cmd == StopCmd) || (mode != Active && cmd == MoveCmd));
    Target(if away then Opposite(c, site) else site, mode)
  }

  function RunWorker(c: ClusterState, cmd: Cmd, states: seq<Mode>, site: Site, force: bool, sites: Sites,
                     s: Service): Result
  {
    if IsDr(cmd) && states == [] then
      var move := cmd == MoveCmd;
      if SequenceKnown(c, s, move, site)
      then Ended(RunTargets(Job(c, s, move, site, force, sites), DrSequence(c, s, move, site), FAILED))
      else KeyError
    else Ended(RunOneSite(c, s, EntryTarget(c, cmd, states, site), cmd == StopCmd, force, sites))
  }

  lemma PrependTwice(cs: seq<Command>, c: Command, o: Outcome)
    ensures Prepend(cs, Prepend([c], o)) == Prepend(cs + [c], o)
  {}

  /** sm_poll_service_required_status */
  method PollServiceRequiredStatus(c: ClusterState, s: Service, t: Target, force: bool, tolerant: bool, p: Polls)
      returns (command: Command)
    ensures command == Judge(c, s, t, t.site, force, tolerant, Accepted(p))
    ensures PollEnd(command.reply, t.mode, AllowedOn(c, t.site, s))
  {
    hide PollEnd, ServiceStatus, PollFrom;
    var conf := if Has(c, t.site, s) then Some(ConfOf(c, t.site, s)) else None;
    var timeout := if conf.Some? && conf.value.timeout.Some? then conf.value.timeout.value else c.defaultTimeout;
    var allowed := if conf.Some? then conf.value.allowedStandbyStateList else [];
    var data, _ := ServiceStatusPolling(p, Goal(timeout, t.mode, allowed));
    PollEnds(p, GoalOf(c, s, t), 0);
    var status := SetServiceStatus(data, t.mode, allowed, force);
    command := Command(t.site, t.mode, data, Verdict(status, tolerant), true);
  }

  /** The request for a mode and, if the site accepts it, the polling that follows. */
  method ChangeMode(c: ClusterState, s: Service, t: Target, refusalSite: Site, force: bool, tolerant: bool, a: Answer)
      returns (command: Command)
    ensures command == Judge(c, s, t, refusalSite, force, tolerant, a)
  {
    hide ServiceStatus;
    match a {
      case Accepted(p) => command := PollServiceRequiredStatus(c, s, t, force, tolerant, p);
      case Refused(body) =>
        var data := if body == [] then NOT_REPLY else body[0];
        var status := SetServiceStatus(data, t.mode, AllowedOn(c, refusalSite, s), force);
        command := Command(t.site, t.mode, data, Verdict(status, tolerant), false);
    }
  }

  /** get_dr_operation_sequence */
  method GetDrOperationSequence(c: ClusterState, s: Service, move: bool, site: Site) returns (targets: seq<Target>)
    requires SequenceKnown(c, s, move, site)
    ensures targets == DrSequence(c, s, move, site)
  {
    var opposite := Opposite(c, site);
    targets := [];
    if move {
      var q := ConfOf(c, site, s).sequence;
      var mode := if q != [] then q[0] else "standby";
      if mode == "standby" {
        targets := [Target(opposite, Standby), Target(site, Active)];
      } else if mode == "active" {
        targets := [Target(site, Active), Target(opposite, Standby)];
      }
    } else {
      var siteToCheck := if Has(c, opposite, s) then opposite else site;
      var q := ConfOf(c, siteToCheck, s).sequence;
      var mode := if q != [] then q[0] else "standby";
      if mode == "standby" {
        targets := [Target(site, Standby), Target(opposite, Active)];
      } else if mode == "active" {
        targets := [Target(opposite, Active), Target(site, Standby)];
      }
    }
  }

  /** What process_module_services makes of the command, the site and the states of an entry. */
  method GetEntryTarget(c: ClusterState, cmd: Cmd, states: seq<Mode>, site: Site) returns (t: Target)
    requires IsDr(cmd) ==> states != []
    ensures t == EntryTarget(c, cmd, states, site)
  {
    var mode := Standby;
    if states != [] && (cmd == MoveCmd || cmd == StopCmd) {
      mode := states[0];
    } else if cmd == ActiveCmd {
      mode := Active;
    } else if cmd == DisableCmd {
      mode := Disable;
    }
    var target := site;
    if states != [] && ((mode == Active && cmd == StopCmd) || (mode != Active && cmd == MoveCmd)) {
      target := Opposite(c, site);
    }
    t := Target(target, mode);
  }

  /** The loop over the sites of a two-site procedure, with its early exit. */
  method ProcessTargets(j: Job, targets: seq<Target>) returns (outcome: Outcome)
    ensures outcome == RunTargets(j, targets, FAILED)
  {
    hide Judge, Has, Available;
    var commands: seq<Command>, response := [], FAILED;
    for i := 0 to |targets|
      invariant RunTargets(j, targets, FAILED) == Prepend(commands, RunTargets(j, targets[i..], response))
    {
      assert targets[i..][0] == targets[i] && targets[i..][1..] == targets[i + 1..];
      if !Has(j.c, targets[i].site, j.s) {
        response := MISSING;
      } else if Available(j.c, targets[i].site) {
        var tolerant := !j.move && targets[i].mode == Standby;
        var answer := j.sites(targets[i].site);
        var command := ChangeMode(j.c, j.s, targets[i], j.site, j.force || tolerant, tolerant, answer);
        PrependTwice(commands, command, RunTargets(j, targets[i + 1..], command.verdict));
        commands, response := commands + [command], command.verdict;
        if !response.IsOk() { return Outcome(commands, response); }
      }
    }
    outcome := Outcome(commands, response);
  }

  /** sm_process_service_with_polling */
  method ProcessServiceWithPolling(c: ClusterState, cmd: Cmd, states: seq<Mode>, site: Site, force: bool, sites: Sites,
                                   s: Service)
      returns (outcome: Outcome)
    requires cmd == MoveCmd && states == [] ==> Has(c, site, s)
    requires cmd == StopCmd && states == [] ==> Has(c, site, s) || Has(c, Opposite(c, site), s)
    ensures RunWorker(c, cmd, states, site, force, sites, s) == Ended(outcome)
  {
    if IsDr(cmd) && states == [] {
      var targets := GetDrOperationSequence(c, s, cmd == MoveCmd, site);
      outcome := ProcessTargets(Job(c, s, cmd == MoveCmd, site, force, sites), targets);
    } else {
      var t := GetEntryTarget(c, cmd, states, site);
      if Has(c, t.site, s) {
        var tolerant := cmd == StopCmd && t.mode == Standby;
        var command := ChangeMode(c, s, t, t.site, force || tolerant, tolerant, sites(t.site));
        outcome := Outcome([command], command.verdict);
      } else {
        outcome := Outcome([], MISSING);
      }
    }
  }
}
