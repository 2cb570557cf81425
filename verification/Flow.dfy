/**
 * A whole run: the phases of the configured flow one after another, each ending before the
 * next begins, and no phase after one that left a failed service.
 */
module Flow {
  import opened Graphs
  import opened Sorters
  import opened Results
  import opened Engine
  import opened Schedules

  datatype Cmd = MoveCmd | StopCmd | ActiveCmd | StandbyCmd | DisableCmd | ReturnCmd

  /**
   * One element of the flow. `states` is [] when the configuration names none. `members` are the services
   * of the module on the first available site, and `script` is what the workers do while this phase runs.
   */
  datatype Entry = Entry(states: seq<Mode>, sorter: Sorter, members: seq<Service>, script: Script)

  /** An ['active'] entry ends a standby, disable or return run. */
  predicate Breaks(cmd: Cmd, states: seq<Mode>) {
    (cmd == StandbyCmd || cmd == DisableCmd || cmd == ReturnCmd) && states == [Active]
  }

  /** A ['standby', 'disable'] entry is passed over by an active run. */
  predicate Passes(cmd: Cmd, states: seq<Mode>) {
    cmd == ActiveCmd && states != [] && Elements(states) == {Standby, Disable}
  }

  function SkipAll(b: Lists, services: seq<Service>): Lists
    decreases |services|
  {
    if services == [] then b else SkipAll(Skip(b, services[0]), services[1..])
  }

  datatype Stamped = At(entry: nat, event: Event)

  function Stamp(i: nat, log: seq<Event>): (r: seq<Stamped>)
    ensures |r| == |log| && forall k :: 0 <= k < |log| ==> r[k] == At(i, log[k])
  {
    seq(|log|, k requires 0 <= k < |log| => At(i, log[k]))
  }

  /** The run of the flow from entry i on, under some schedule of every phase it executes. */
  ghost predicate FlowRuns(cmd: Cmd, flow: seq<Entry>, i: nat, ok: bool, lists: Lists, log: seq<Stamped>,
                           lists': Lists, log': seq<Stamped>)
    requires i <= |flow|
    decreases |flow| - i
  {
    if i == |flow| then lists' == lists && log' == log
    else if !ok then FlowRuns(cmd, flow, i + 1, false, SkipAll(lists, flow[i].members), log, lists', log')
    else if Breaks(cmd, flow[i].states) then lists' == lists && log' == log
    else if Passes(cmd, flow[i].states) then FlowRuns(cmd, flow, i + 1, true, lists, log, lists', log')
    else exists acts, st ::
      && Completes(flow[i].script, flow[i].sorter, lists, acts, st)
      && FlowRuns(cmd, flow, i + 1, st.lists.failed == [], st.lists, log + Stamp(i, st.log), lists', log')
  }

  // ---------------------------------------------------------------- the outcome, without schedules

  /** The entry leaves a failed service behind, on any schedule. */
  ghost predicate EntryFails(e: Entry) {
    exists s :: s in e.sorter.graph.succ && !Doomed(e.sorter.graph, e.script, s)
             && AfterWorker(Unlisted, OutcomeOf(e.script, s)) == Failed
  }

  /** Where the whole run takes a service. */
  ghost function FlowClass(cmd: Cmd, flow: seq<Entry>, i: nat, ok: bool, c: Class, s: Service): Class
    requires i <= |flow|
    decreases |flow| - i
  {
    if i == |flow| then c
    else if !ok then FlowClass(cmd, flow, i + 1, false, if s in flow[i].members then Worse(c, Skipped) else c, s)
    else if Breaks(cmd, flow[i].states) then c
    else if Passes(cmd, flow[i].states) then FlowClass(cmd, flow, i + 1, true, c, s)
    else FlowClass(cmd, flow, i + 1, !EntryFails(flow[i]), PhaseClass(flow[i].sorter.graph, flow[i].script, c, s), s)
  }

  ghost predicate AllPrepared(flow: seq<Entry>) {
    forall i :: 0 <= i < |flow| ==> Prepared(flow[i].sorter)
  }

  predicate Unharmed(c: Class) {
    c != Failed && c != Skipped
  }

  lemma {:induction false} AfterCommandsFrom(c: Class, cs: seq<Command>)
    ensures AfterCommands(c, cs) == Worse(c, AfterCommands(Unlisted, cs))
  {
    if cs == [] {
    } else {
      AfterCommandsFrom(c, cs[..|cs| - 1]);
    }
  }

  lemma {:induction false} CommandsNeverSkip(cs: seq<Command>)
    ensures AfterCommands(Unlisted, cs) != Skipped
  {
    if cs == [] {
    } else {
      CommandsNeverSkip(cs[..|cs| - 1]);
    }
  }

  lemma AfterWorkerFrom(c: Class, o: Outcome)
    requires Unharmed(c)
    ensures AfterWorker(c, o) != Skipped
    ensures AfterWorker(c, o) == Failed <==> AfterWorker(Unlisted, o) == Failed
    ensures AfterWorker(c, o) != Unlisted
  {
    AfterCommandsFrom(c, o.commands);
    CommandsNeverSkip(o.commands);
  }

  /** If any worker of the graph would answer not ok, one whose ancestors all answer ok does. */
  lemma RootCause(g: Graph, script: Script, s: Service)
    requires ValidGraph(g) && !Cyclic(g)
    requires Doomed(g, script, s)
    ensures exists n :: n in g.succ && !Doomed(g, script, n) && !OutcomeOf(script, n).final.IsOk()
  {
    hide Cyclic;
    var u := set n | n in g.succ && (Doomed(g, script, n) || !OutcomeOf(script, n).final.IsOk());
    var a :| Ancestor(g, a, s) && !OutcomeOf(script, a).final.IsOk();
    AncestorIsNode(g, a, s);
    assert a in u;
    var n := AcyclicHasSource(g, u);
    if Doomed(g, script, n) {
      var c :| Ancestor(g, c, n) && !OutcomeOf(script, c).final.IsOk();
      var via :| Path(g, c, via, n);
      var b := PathLastEdge(g, c, via, n);
      assert false;
    }
  }

  lemma AncestorIsNode(g: Graph, a: Service, s: Service)
    requires ValidGraph(g) && Ancestor(g, a, s)
    ensures a in g.succ && s in g.succ
  {
    var via :| Path(g, a, via, s);
    var b := PathLastEdge(g, a, via, s);
  }

  lemma FailsIfDoomed(e: Entry, s: Service)
    requires Prepared(e.sorter) && Doomed(e.sorter.graph, e.script, s)
    ensures EntryFails(e)
  {
    hide CountersRight, ReadyRight, Doomed, Cyclic;
    RootCause(e.sorter.graph, e.script, s);
    var n :| n in e.sorter.graph.succ && !Doomed(e.sorter.graph, e.script, n) && !OutcomeOf(e.script, n).final.IsOk();
    CommandsNeverSkip(OutcomeOf(e.script, n).commands);
  }

  /**
   * From lists without a failed or skipped service, a phase fails exactly when EntryFails says so, and skips only if
   * it fails.
   */
  lemma PhaseVerdict(e: Entry, base: Lists, st: Phase)
    requires Prepared(e.sorter) && PhaseEnd(e.script, e.sorter.graph, base, st)
    requires forall s :: Unharmed(ClassOf(base, s))
    ensures st.lists.failed == [] <==> !EntryFails(e)
    ensures !EntryFails(e) ==> forall s :: Unharmed(ClassOf(st.lists, s))
  {
    hide Prepared, Doomed, AfterPreds, SentOf;
    forall s | s in e.sorter.graph.succ && !Doomed(e.sorter.graph, e.script, s)
      ensures ClassOf(st.lists, s) == Failed <==> AfterWorker(Unlisted, OutcomeOf(e.script, s)) == Failed
      ensures ClassOf(st.lists, s) != Skipped
    {
      AfterWorkerFrom(ClassOf(base, s), OutcomeOf(e.script, s));
    }
    forall s | s in e.sorter.graph.succ && Doomed(e.sorter.graph, e.script, s)
      ensures EntryFails(e)
    {
      FailsIfDoomed(e, s);
    }
    if st.lists.failed != [] {
      assert ClassOf(st.lists, st.lists.failed[0]) == Failed;
    }
  }

  lemma {:induction false} SkipAllRefines(b: Lists, services: seq<Service>)
    requires Tidy(b)
    ensures Tidy(SkipAll(b, services))
    ensures forall s :: ClassOf(SkipAll(b, services), s) ==
                        if s in services then Worse(ClassOf(b, s), Skipped) else ClassOf(b, s)
    decreases |services|
  {
    if services == [] {
    } else {
      SkipRefines(b, services[0]);
      SkipAllRefines(Skip(b, services[0]), services[1..]);
    }
  }

  ghost predicate ClassesFollow(cmd: Cmd, flow: seq<Entry>, i: nat, ok: bool, lists: Lists, lists': Lists)
    requires i <= |flow|
  {
    Tidy(lists') && forall s :: ClassOf(lists', s) == FlowClass(cmd, flow, i, ok, ClassOf(lists, s), s)
  }

  /** Schedule independence of a whole run, whatever happens inside its phases. */
  lemma {:induction false} FlowOutcome(cmd: Cmd, flow: seq<Entry>, i: nat, ok: bool, lists: Lists, log: seq<Stamped>,
                                       lists': Lists, log': seq<Stamped>)
    requires i <= |flow| && AllPrepared(flow) && Tidy(lists)
    requires ok ==> forall s :: Unharmed(ClassOf(lists, s))
    requires FlowRuns(cmd, flow, i, ok, lists, log, lists', log')
    ensures ClassesFollow(cmd, flow, i, ok, lists, lists')
    decreases |flow| - i
  {
    hide Prepared, Tidy, ClassOf, EntryFails, PhaseClass, Completes;
    if i == |flow| {
    } else {
      var e := flow[i];
      if !ok {
        SkipAllRefines(lists, e.members);
        FlowOutcome(cmd, flow, i + 1, false, SkipAll(lists, e.members), log, lists', log');
      } else if Breaks(cmd, e.states) {
      } else if Passes(cmd, e.states) {
        FlowOutcome(cmd, flow, i + 1, true, lists, log, lists', log');
      } else {
        var acts, st :| Completes(e.script, e.sorter, lists, acts, st)
          && FlowRuns(cmd, flow, i + 1, st.lists.failed == [], st.lists, log + Stamp(i, st.log), lists', log');
        PhaseOutcome(e.script, e.sorter, lists, acts, st);
        PhaseVerdict(e, lists, st);
        FlowOutcome(cmd, flow, i + 1, st.lists.failed == [], st.lists, log + Stamp(i, st.log), lists', log');
      }
    }
  }

  // ---------------------------------------------------------------- barrier and fail-stop

  /** The run gets to entry j with no failed service and no break before it. */
  ghost predicate Reached(cmd: Cmd, flow: seq<Entry>, j: nat)
    requires j <= |flow|
  {
    j == 0 || (Reached(cmd, flow, j - 1) && !Breaks(cmd, flow[j - 1].states)
               && (Passes(cmd, flow[j - 1].states) || !EntryFails(flow[j - 1])))
  }

  ghost predicate Executed(cmd: Cmd, flow: seq<Entry>, j: nat) {
    j < |flow| && Reached(cmd, flow, j) && !Breaks(cmd, flow[j].states) && !Passes(cmd, flow[j].states)
  }

  ghost predicate DoneIn(log: seq<Stamped>, j: nat, e: Entry) {
    forall s :: s in e.sorter.graph.succ ==> At(j, Finished(s)) in log
  }

  /** Events belong to executed entries only. */
  ghost predicate FailStop(cmd: Cmd, flow: seq<Entry>, log: seq<Stamped>) {
    forall k :: 0 <= k < |log| ==> Executed(cmd, flow, log[k].entry)
  }

  /** Before any event of an entry, every service of every earlier executed entry has finished. */
  ghost predicate Barrier(cmd: Cmd, flow: seq<Entry>, log: seq<Stamped>) {
    forall k, i :: 0 <= k < |log| && 0 <= i < log[k].entry && Executed(cmd, flow, i) ==> DoneIn(log[..k], i, flow[i])
  }

  ghost predicate AllDone(cmd: Cmd, flow: seq<Entry>, i: nat, log: seq<Stamped>) {
    forall j :: 0 <= j < i && Executed(cmd, flow, j) ==> DoneIn(log, j, flow[j])
  }

  /** The entries follow one another in the log. */
  ghost predicate InTurn(log: seq<Stamped>) {
    forall a, b :: 0 <= a < b < |log| ==> log[a].entry <= log[b].entry
  }

  ghost predicate OnlyBefore(log: seq<Stamped>, i: nat) {
    forall k :: 0 <= k < |log| ==> log[k].entry < i
  }

  lemma InTurnAppend(log: seq<Stamped>, i: nat, events: seq<Event>)
    requires InTurn(log) && OnlyBefore(log, i)
    ensures InTurn(log + Stamp(i, events)) && OnlyBefore(log + Stamp(i, events), i + 1)
  {}

  lemma FailStopAppend(cmd: Cmd, flow: seq<Entry>, i: nat, log: seq<Stamped>, events: seq<Event>)
    requires FailStop(cmd, flow, log) && Executed(cmd, flow, i)
    ensures FailStop(cmd, flow, log + Stamp(i, events))
  {}

  lemma DoneInLonger(log: seq<Stamped>, more: seq<Stamped>, j: nat, e: Entry)
    requires DoneIn(log, j, e)
    ensures DoneIn(log + more, j, e)
  {}

  lemma BarrierAppend(cmd: Cmd, flow: seq<Entry>, i: nat, log: seq<Stamped>, events: seq<Event>)
    requires Barrier(cmd, flow, log) && AllDone(cmd, flow, i, log)
    ensures Barrier(cmd, flow, log + Stamp(i, events))
  {
    hide Reached, DoneIn;
    var log' := log + Stamp(i, events);
    forall k, j | 0 <= k < |log'| && 0 <= j < log'[k].entry && Executed(cmd, flow, j)
      ensures DoneIn(log'[..k], j, flow[j])
    {
      if k < |log| {
        assert log'[..k] == log[..k];
      } else {
        assert log'[..k] == log + log'[|log|..k];
        DoneInLonger(log, log'[|log|..k], j, flow[j]);
      }
    }
  }

  lemma AllDoneAppend(cmd: Cmd, flow: seq<Entry>, i: nat, log: seq<Stamped>, events: seq<Event>)
    requires i < |flow| && AllDone(cmd, flow, i, log)
    requires forall s :: s in flow[i].sorter.graph.succ ==> Finished(s) in events
    ensures AllDone(cmd, flow, i + 1, log + Stamp(i, events))
  {}

  /** No event of an entry before all earlier executed entries are done; none at all after a failure or a break. */
  lemma {:induction false} FlowIsOrdered(cmd: Cmd, flow: seq<Entry>, i: nat, ok: bool, lists: Lists, log: seq<Stamped>,
                                         lists': Lists, log': seq<Stamped>)
    requires i <= |flow| && AllPrepared(flow) && Tidy(lists)
    requires ok ==> Reached(cmd, flow, i) && AllDone(cmd, flow, i, log)
    requires ok ==> forall s :: Unharmed(ClassOf(lists, s))
    requires FailStop(cmd, flow, log) && Barrier(cmd, flow, log) && InTurn(log) && OnlyBefore(log, i)
    requires FlowRuns(cmd, flow, i, ok, lists, log, lists', log')
    ensures FailStop(cmd, flow, log') && Barrier(cmd, flow, log') && InTurn(log')
    ensures !ok ==> log' == log
    decreases |flow| - i
  {
    hide Prepared, Tidy, ClassOf, EntryFails, Completes, FailStop, Barrier, DoneIn, InTurn;
    if i == |flow| {
    } else {
      var e := flow[i];
      if !ok {
        SkipAllRefines(lists, e.members);
        FlowIsOrdered(cmd, flow, i + 1, false, SkipAll(lists, e.members), log, lists', log');
      } else if Breaks(cmd, e.states) {
      } else if Passes(cmd, e.states) {
        FlowIsOrdered(cmd, flow, i + 1, true, lists, log, lists', log');
      } else {
        var acts, st :| Completes(e.script, e.sorter, lists, acts, st)
          && FlowRuns(cmd, flow, i + 1, st.lists.failed == [], st.lists, log + Stamp(i, st.log), lists', log');
        PhaseOutcome(e.script, e.sorter, lists, acts, st);
        PhaseVerdict(e, lists, st);
        FailStopAppend(cmd, flow, i, log, st.log);
        BarrierAppend(cmd, flow, i, log, st.log);
        AllDoneAppend(cmd, flow, i, log, st.log);
        InTurnAppend(log, i, st.log);
        FlowIsOrdered(cmd, flow, i + 1, st.lists.failed == [], st.lists, log + Stamp(i, st.log), lists', log');
      }
    }
  }

  /** A run from empty lists. */
  ghost predicate Run(cmd: Cmd, flow: seq<Entry>, lists: Lists, log: seq<Stamped>) {
    FlowRuns(cmd, flow, 0, true, NO_RESULTS, [], lists, log)
  }

  /** Every run can be completed: each phase has a schedule to its end, from whatever the phases before it left. */
  lemma {:induction false} FlowCompletes(cmd: Cmd, flow: seq<Entry>, i: nat, ok: bool, lists: Lists, log: seq<Stamped>)
      returns (lists': Lists, log': seq<Stamped>)
    requires i <= |flow| && AllPrepared(flow) && Tidy(lists)
    requires ok ==> forall s :: Unharmed(ClassOf(lists, s))
    ensures FlowRuns(cmd, flow, i, ok, lists, log, lists', log')
    decreases |flow| - i
  {
    hide Prepared, Tidy, ClassOf, EntryFails, Completes, PhaseEnd;
    lists', log' := lists, log;
    if i == |flow| {
    } else {
      var e := flow[i];
      if !ok {
        SkipAllRefines(lists, e.members);
        lists', log' := FlowCompletes(cmd, flow, i + 1, false, SkipAll(lists, e.members), log);
      } else if Passes(cmd, e.states) && !Breaks(cmd, e.states) {
        lists', log' := FlowCompletes(cmd, flow, i + 1, true, lists, log);
      } else if !Breaks(cmd, e.states) {
        var acts, st := PhaseCompletes(e, lists);
        PhaseOutcome(e.script, e.sorter, lists, acts, st);
        PhaseVerdict(e, lists, st);
        PhaseEndIsTidy(e, lists, st);
        lists', log' := FlowCompletes(cmd, flow, i + 1, st.lists.failed == [], st.lists, log + Stamp(i, st.log));
      }
    }
  }

  lemma PhaseCompletes(e: Entry, lists: Lists) returns (acts: seq<Action>, st: Phase)
    requires Prepared(e.sorter) && Tidy(lists)
    ensures Completes(e.script, e.sorter, lists, acts, st)
  {
    hide SorterInv, Cyclic, Tidy, Inv;
    StartInv(e.script, e.sorter, lists);
    acts, st := ScheduleCompletes(e.script, lists, Start(e.sorter, lists));
  }

  lemma PhaseEndIsTidy(e: Entry, base: Lists, st: Phase)
    requires PhaseEnd(e.script, e.sorter.graph, base, st)
    ensures Tidy(st.lists)
  {}

  lemma RunExists(cmd: Cmd, flow: seq<Entry>) returns (lists: Lists, log: seq<Stamped>)
    requires AllPrepared(flow)
    ensures Run(cmd, flow, lists, log)
  {
    hide Prepared;
    lists, log := FlowCompletes(cmd, flow, 0, true, NO_RESULTS, []);
  }

  lemma RunIsOrdered(cmd: Cmd, flow: seq<Entry>, lists: Lists, log: seq<Stamped>)
    requires AllPrepared(flow) && Run(cmd, flow, lists, log)
    ensures FailStop(cmd, flow, log) && Barrier(cmd, flow, log) && InTurn(log)
  {
    FlowIsOrdered(cmd, flow, 0, true, NO_RESULTS, [], lists, log);
  }

  // ---------------------------------------------------------------- which entries of the flow are executed

  lemma AllDoneAtEnd(cmd: Cmd, flow: seq<Entry>, i: nat, log: seq<Stamped>)
    requires i <= |flow| && AllDone(cmd, flow, i, log)
    requires i == |flow| || !Reached(cmd, flow, i) || Breaks(cmd, flow[i].states)
    ensures AllDone(cmd, flow, |flow|, log)
  {
    hide Reached, DoneIn, Breaks;
    forall j | i <= j < |flow| && Executed(cmd, flow, j)
      ensures false
    {
      ReachedEarlier(cmd, flow, i, j);
    }
  }

  lemma AllDonePass(cmd: Cmd, flow: seq<Entry>, i: nat, log: seq<Stamped>)
    requires i < |flow| && AllDone(cmd, flow, i, log) && !Executed(cmd, flow, i)
    ensures AllDone(cmd, flow, i + 1, log)
  {
    hide Executed, DoneIn;
  }

  lemma PhaseEndFinishes(e: Entry, base: Lists, st: Phase)
    requires PhaseEnd(e.script, e.sorter.graph, base, st)
    ensures Tidy(st.lists) && forall s :: s in e.sorter.graph.succ ==> Finished(s) in st.log
  {
    hide Doomed, Tidy, ClassOf, PhaseClass, AfterPreds, SentOf;
  }

  /** Every executed entry is gone through to its end. */
  lemma {:induction false} FlowFinishes(cmd: Cmd, flow: seq<Entry>, i: nat, ok: bool, lists: Lists, log: seq<Stamped>,
                                        lists': Lists, log': seq<Stamped>)
    requires i <= |flow| && AllPrepared(flow) && Tidy(lists)
    requires ok <==> Reached(cmd, flow, i)
    requires ok ==> forall s :: Unharmed(ClassOf(lists, s))
    requires AllDone(cmd, flow, i, log)
    requires FlowRuns(cmd, flow, i, ok, lists, log, lists', log')
    ensures AllDone(cmd, flow, |flow|, log')
    decreases |flow| - i
  {
    hide Prepared, Tidy, ClassOf, EntryFails, Completes, AllDone, PhaseEnd, Breaks, Passes, Unharmed;
    if i == |flow| || !ok || Breaks(cmd, flow[i].states) {
      AllDoneAtEnd(cmd, flow, i, log);
      if i < |flow| && !ok { NotOkKeepsLog(cmd, flow, i, lists, log, lists', log'); }
    } else if Passes(cmd, flow[i].states) {
      AllDonePass(cmd, flow, i, log);
      FlowFinishes(cmd, flow, i + 1, true, lists, log, lists', log');
    } else {
      var e := flow[i];
      var acts, st :| Completes(e.script, e.sorter, lists, acts, st)
        && FlowRuns(cmd, flow, i + 1, st.lists.failed == [], st.lists, log + Stamp(i, st.log), lists', log');
      PhaseOutcome(e.script, e.sorter, lists, acts, st);
      PhaseVerdict(e, lists, st);
      PhaseEndFinishes(e, lists, st);
      AllDoneAppend(cmd, flow, i, log, st.log);
      FlowFinishes(cmd, flow, i + 1, st.lists.failed == [], st.lists, log + Stamp(i, st.log), lists', log');
    }
  }

  lemma {:induction false} ReachedIfOpen(cmd: Cmd, flow: seq<Entry>, j: nat)
    requires j <= |flow|
    requires forall i :: 0 <= i < j ==> !Breaks(cmd, flow[i].states)
    requires forall i :: 0 <= i < j ==> Passes(cmd, flow[i].states) || !EntryFails(flow[i])
    ensures Reached(cmd, flow, j)
  {
    hide EntryFails;
    if j == 0 {
    } else {
      ReachedIfOpen(cmd, flow, j - 1);
    }
  }

  /** A standby, disable or return run stops for good at an ['active'] entry. */
  lemma ActiveEntryStops(cmd: Cmd, flow: seq<Entry>, lists: Lists, log: seq<Stamped>, i: nat)
    requires AllPrepared(flow) && Run(cmd, flow, lists, log)
    requires cmd == StandbyCmd || cmd == DisableCmd || cmd == ReturnCmd
    requires i < |flow| && flow[i].states == [Active]
    ensures forall k :: 0 <= k < |log| ==> log[k].entry < i
  {
    hide Run, Reached, EntryFails, Barrier, InTurn;
    RunIsOrdered(cmd, flow, lists, log);
    forall k | 0 <= k < |log|
      ensures log[k].entry < i
    {
      assert Executed(cmd, flow, log[k].entry);
      if log[k].entry > i { ReachedEarlier(cmd, flow, i, log[k].entry); }
    }
  }

  /** An active run passes over a ['standby', 'disable'] entry: nothing happens in it. */
  lemma StandbyEntryIsPassed(flow: seq<Entry>, lists: Lists, log: seq<Stamped>, i: nat)
    requires AllPrepared(flow) && Run(ActiveCmd, flow, lists, log)
    requires i < |flow| && flow[i].states == [Standby, Disable]
    ensures forall k :: 0 <= k < |log| ==> log[k].entry != i
  {
    hide Run, Reached, EntryFails, Barrier, InTurn;
    RunIsOrdered(ActiveCmd, flow, lists, log);
    assert Elements([Standby, Disable]) == {Standby, Disable};
    forall k | 0 <= k < |log|
      ensures log[k].entry != i
    {
      assert Executed(ActiveCmd, flow, log[k].entry);
    }
  }

  lemma PassesIff(cmd: Cmd, states: seq<Mode>)
    ensures Passes(cmd, states) <==> cmd == ActiveCmd && Standby in states && Disable in states && Active !in states
  {
    if Elements(states) == {Standby, Disable} {
      assert Standby in Elements(states) && Disable in Elements(states) && Active !in Elements(states);
    }
    if Standby in states && Disable in states && Active !in states {
      assert forall m :: m in Elements(states) <==> m == Standby || m == Disable;
    }
  }

  /**
   * Every other entry is gone through to its end, as long as no entry before it fails: all entries of a switchover or
   * failover, those of an active run that are not ['standby', 'disable'], and those of a standby, disable or return run
   * up to the first ['active'] one.
   */
  lemma OtherEntriesAreExecuted(cmd: Cmd, flow: seq<Entry>, lists: Lists, log: seq<Stamped>, j: nat)
    requires AllPrepared(flow) && Run(cmd, flow, lists, log) && j < |flow|
    requires match cmd
             case MoveCmd => true
             case StopCmd => true
             case ActiveCmd => !(Standby in flow[j].states && Disable in flow[j].states && Active !in flow[j].states)
             case _ => forall i :: 0 <= i <= j ==> flow[i].states != [Active]
    requires forall i :: 0 <= i < j ==>
               !EntryFails(flow[i]) || (cmd == ActiveCmd && flow[i].states == [Standby, Disable])
    ensures forall s :: s in flow[j].sorter.graph.succ ==> At(j, Finished(s)) in log
  {
    hide Prepared, EntryFails, FlowRuns;
    FlowFinishes(cmd, flow, 0, true, NO_RESULTS, [], lists, log);
    hide Reached, Passes;
    forall i | 0 <= i <= j
      ensures Passes(cmd, flow[i].states) <==> cmd == ActiveCmd && Standby in flow[i].states
                                               && Disable in flow[i].states && Active !in flow[i].states
    {
      PassesIff(cmd, flow[i].states);
    }
    ReachedIfOpen(cmd, flow, j);
    assert Executed(cmd, flow, j) && DoneIn(log, j, flow[j]);
  }

  // ---------------------------------------------------------------- the commands of a run

  /** The commands the log records for a service in one entry, in order. */
  function EntryCommands(log: seq<Stamped>, j: nat, s: Service): seq<Command> {
    if log == [] then [] else
      var e, before := log[|log| - 1], EntryCommands(log[..|log| - 1], j, s);
      if e.entry == j && e.event.Sent? && e.event.service == s then before + [e.event.command] else before
  }

  lemma {:induction false} EntryCommandsAppend(log: seq<Stamped>, i: nat, events: seq<Event>, j: nat, s: Service)
    ensures EntryCommands(log + Stamp(i, events), j, s) ==
            EntryCommands(log, j, s) + if j == i then SentOf(events, s) else []
    decreases |events|
  {
    var log' := log + Stamp(i, events);
    if events == [] {
      assert log' == log;
    } else {
      EntryCommandsAppend(log, i, events[..|events| - 1], j, s);
      assert log'[..|log'| - 1] == log + Stamp(i, events[..|events| - 1]);
    }
  }

  /**
   * What entry j sends for s: everything its worker does, unless the entry is not executed or the service is held
   * back.
   */
  ghost function CommandsOf(cmd: Cmd, flow: seq<Entry>, j: nat, s: Service): seq<Command> {
    if Executed(cmd, flow, j) && s in flow[j].sorter.graph.succ && !Doomed(flow[j].sorter.graph, flow[j].script, s)
    then OutcomeOf(flow[j].script, s).commands else []
  }

  ghost predicate CommandsUpTo(cmd: Cmd, flow: seq<Entry>, i: nat, log: seq<Stamped>) {
    forall j: nat, s :: EntryCommands(log, j, s) == if j < i then CommandsOf(cmd, flow, j, s) else []
  }

  lemma {:induction false} ReachedEarlier(cmd: Cmd, flow: seq<Entry>, i: nat, j: nat)
    requires i <= j <= |flow| && Reached(cmd, flow, j)
    ensures Reached(cmd, flow, i)
    ensures i < j ==> !Breaks(cmd, flow[i].states)
    decreases j
  {
    if i == j {
    } else {
      ReachedEarlier(cmd, flow, i, j - 1);
    }
  }

  /** If the run cannot get past entry i, the commands up to i are all there are. */
  lemma NothingMore(cmd: Cmd, flow: seq<Entry>, i: nat, log: seq<Stamped>)
    requires i <= |flow| && CommandsUpTo(cmd, flow, i, log)
    requires i == |flow| || !Reached(cmd, flow, i) || Breaks(cmd, flow[i].states)
    ensures CommandsUpTo(cmd, flow, |flow|, log)
  {
    hide EntryCommands, Reached, Doomed;
    forall j: nat | i <= j
      ensures !Executed(cmd, flow, j)
    {
      if Executed(cmd, flow, j) { ReachedEarlier(cmd, flow, i, j); }
    }
  }

  lemma PhaseEndCommands(e: Entry, base: Lists, st: Phase, s: Service)
    requires PhaseEnd(e.script, e.sorter.graph, base, st)
    ensures SentOf(st.log, s) == if s in e.sorter.graph.succ && !Doomed(e.sorter.graph, e.script, s)
                                 then OutcomeOf(e.script, s).commands else []
  {}

  lemma CommandsAppend(cmd: Cmd, flow: seq<Entry>, i: nat, log: seq<Stamped>, st: Phase, base: Lists)
    requires CommandsUpTo(cmd, flow, i, log) && Executed(cmd, flow, i)
    requires PhaseEnd(flow[i].script, flow[i].sorter.graph, base, st)
    ensures CommandsUpTo(cmd, flow, i + 1, log + Stamp(i, st.log))
  {
    hide EntryCommands, SentOf, Reached, Doomed, PhaseEnd, Stamp;
    forall j: nat, s
      ensures EntryCommands(log + Stamp(i, st.log), j, s) == if j < i + 1 then CommandsOf(cmd, flow, j, s) else []
    {
      EntryCommandsAppend(log, i, st.log, j, s);
      PhaseEndCommands(flow[i], base, st, s);
    }
  }

  lemma CommandsPass(cmd: Cmd, flow: seq<Entry>, i: nat, log: seq<Stamped>)
    requires CommandsUpTo(cmd, flow, i, log) && !Executed(cmd, flow, i)
    ensures CommandsUpTo(cmd, flow, i + 1, log)
  {}

  lemma {:induction false} FlowCommands(cmd: Cmd, flow: seq<Entry>, i: nat, ok: bool, lists: Lists, log: seq<Stamped>,
                                        lists': Lists, log': seq<Stamped>)
    requires i <= |flow| && AllPrepared(flow) && Tidy(lists)
    requires ok <==> Reached(cmd, flow, i)
    requires ok ==> forall s :: Unharmed(ClassOf(lists, s))
    requires CommandsUpTo(cmd, flow, i, log)
    requires FlowRuns(cmd, flow, i, ok, lists, log, lists', log')
    ensures CommandsUpTo(cmd, flow, |flow|, log')
    decreases |flow| - i
  {
    hide Prepared, Tidy, ClassOf, EntryFails, Completes, CommandsUpTo;
    if i == |flow| || !ok || Breaks(cmd, flow[i].states) {
      NothingMore(cmd, flow, i, log);
      if i < |flow| && !ok { NotOkKeepsLog(cmd, flow, i, lists, log, lists', log'); }
    } else if Passes(cmd, flow[i].states) {
      CommandsPass(cmd, flow, i, log);
      FlowCommands(cmd, flow, i + 1, true, lists, log, lists', log');
    } else {
      var e := flow[i];
      var acts, st :| Completes(e.script, e.sorter, lists, acts, st)
        && FlowRuns(cmd, flow, i + 1, st.lists.failed == [], st.lists, log + Stamp(i, st.log), lists', log');
      PhaseOutcome(e.script, e.sorter, lists, acts, st);
      PhaseVerdict(e, lists, st);
      CommandsAppend(cmd, flow, i, log, st, lists);
      FlowCommands(cmd, flow, i + 1, st.lists.failed == [], st.lists, log + Stamp(i, st.log), lists', log');
    }
  }

  lemma {:induction false} NotOkKeepsLog(cmd: Cmd, flow: seq<Entry>, i: nat, lists: Lists, log: seq<Stamped>,
                                         lists': Lists, log': seq<Stamped>)
    requires i <= |flow| && FlowRuns(cmd, flow, i, false, lists, log, lists', log')
    ensures log' == log
    decreases |flow| - i
  {
    if i == |flow| {
    } else {
      NotOkKeepsLog(cmd, flow, i + 1, SkipAll(lists, flow[i].members), log, lists', log');
    }
  }

  /** The commands of every entry and service in any run: no schedule adds, drops, repeats or reorders one. */
  lemma RunCommands(cmd: Cmd, flow: seq<Entry>, lists: Lists, log: seq<Stamped>)
    requires AllPrepared(flow) && Run(cmd, flow, lists, log)
    ensures forall j: nat, s :: EntryCommands(log, j, s) == CommandsOf(cmd, flow, j, s)
  {
    FlowCommands(cmd, flow, 0, true, NO_RESULTS, [], lists, log);
  }

  // ---------------------------------------------------------------- conservation

  /**
   * The services of entry j that the run accounts for: its nodes if it is executed, its members if it comes after a
   * failure.
   */
  ghost predicate Covered(cmd: Cmd, flow: seq<Entry>, j: nat, s: Service) {
    j < |flow| &&
    if Executed(cmd, flow, j) then s in flow[j].sorter.graph.succ
    else AfterFailure(cmd, flow, j) && s in flow[j].members
  }

  ghost predicate AfterFailure(cmd: Cmd, flow: seq<Entry>, j: nat) {
    exists i :: 0 <= i < j && Executed(cmd, flow, i) && EntryFails(flow[i])
  }

  predicate Listed(c: Class) { c != Unlisted }

  lemma {:induction false} ListedForGood(cmd: Cmd, flow: seq<Entry>, i: nat, ok: bool, c: Class, s: Service)
    requires i <= |flow| && Listed(c)
    ensures Listed(FlowClass(cmd, flow, i, ok, c, s))
    ensures c == Failed ==> FlowClass(cmd, flow, i, ok, c, s) == Failed
    decreases |flow| - i
  {
    hide EntryFails, Doomed;
    if i == |flow| {
    } else {
      var e := flow[i];
      if !ok {
        ListedForGood(cmd, flow, i + 1, false, if s in e.members then Worse(c, Skipped) else c, s);
      } else if Breaks(cmd, e.states) {
      } else if Passes(cmd, e.states) {
        ListedForGood(cmd, flow, i + 1, true, c, s);
      } else {
        AfterCommandsFrom(c, OutcomeOf(e.script, s).commands);
        ListedForGood(cmd, flow, i + 1, !EntryFails(e), PhaseClass(e.sorter.graph, e.script, c, s), s);
      }
    }
  }

  lemma PhaseLists(g: Graph, script: Script, c: Class, s: Service)
    requires s in g.succ
    ensures Listed(PhaseClass(g, script, c, s))
  {}

  /** A service covered by an entry not yet processed ends up listed. */
  lemma {:induction false} CoveredIsListed(cmd: Cmd, flow: seq<Entry>, i: nat, ok: bool, c: Class, j: nat, s: Service)
    requires i <= j && Covered(cmd, flow, j, s)
    requires ok <==> Reached(cmd, flow, i)
    ensures Listed(FlowClass(cmd, flow, i, ok, c, s))
    decreases |flow| - i
  {
    hide EntryFails, Doomed, Listed;
    var e := flow[i];
    if !ok {
      var c' := if s in e.members then Worse(c, Skipped) else c;
      if i == j {
        ListedForGoodAfterSkip(cmd, flow, i + 1, c, s);
      } else {
        CoveredIsListed(cmd, flow, i + 1, false, c', j, s);
      }
    } else if Breaks(cmd, e.states) {
      BreakCoversNothing(cmd, flow, i, j, s);
    } else if Passes(cmd, e.states) {
      if i == j { BreakCoversNothing(cmd, flow, i, j, s); }
      CoveredIsListed(cmd, flow, i + 1, true, c, j, s);
    } else {
      var c' := PhaseClass(e.sorter.graph, e.script, c, s);
      if i == j {
        PhaseLists(e.sorter.graph, e.script, c, s);
        ListedForGood(cmd, flow, i + 1, !EntryFails(e), c', s);
      } else {
        CoveredIsListed(cmd, flow, i + 1, !EntryFails(e), c', j, s);
      }
    }
  }

  lemma ListedForGoodAfterSkip(cmd: Cmd, flow: seq<Entry>, i: nat, c: Class, s: Service)
    requires i <= |flow|
    ensures Listed(FlowClass(cmd, flow, i, false, Worse(c, Skipped), s))
  {
    ListedForGood(cmd, flow, i, false, Worse(c, Skipped), s);
  }

  /** While the run is still ok, nothing has failed before: a break or a pass leaves no covered service. */
  lemma BreakCoversNothing(cmd: Cmd, flow: seq<Entry>, i: nat, j: nat, s: Service)
    requires i <= j < |flow| && Reached(cmd, flow, i)
    requires Breaks(cmd, flow[i].states) || (i == j && Passes(cmd, flow[i].states))
    ensures !Covered(cmd, flow, j, s)
  {
    hide EntryFails;
    if Executed(cmd, flow, j) && i < j { ReachedEarlier(cmd, flow, i, j); }
    if AfterFailure(cmd, flow, j) {
      var k :| 0 <= k < j && Executed(cmd, flow, k) && EntryFails(flow[k]);
      if k < i { ReachedEarlier(cmd, flow, k + 1, i); } else if i < k { ReachedEarlier(cmd, flow, i, k); }
      assert false;
    }
  }

  lemma FailureStops(cmd: Cmd, flow: seq<Entry>, j: nat)
    requires j <= |flow| && AfterFailure(cmd, flow, j)
    ensures !Reached(cmd, flow, j)
  {}

  /** A service that the rest of the run lists is covered by one of its entries. */
  lemma {:induction false} ListedIsCovered(cmd: Cmd, flow: seq<Entry>, i: nat, ok: bool, s: Service) returns (j: nat)
    requires i <= |flow| && Listed(FlowClass(cmd, flow, i, ok, Unlisted, s))
    requires if ok then Reached(cmd, flow, i) else AfterFailure(cmd, flow, i)
    ensures Covered(cmd, flow, j, s)
    decreases |flow| - i
  {
    hide EntryFails, Doomed;
    j := i;
    if !ok {
      FailureStops(cmd, flow, i);
      if i < |flow| && s !in flow[i].members { j := ListedIsCovered(cmd, flow, i + 1, false, s); }
    } else if i < |flow| && !Breaks(cmd, flow[i].states) {
      if Passes(cmd, flow[i].states) {
        j := ListedIsCovered(cmd, flow, i + 1, true, s);
      } else if s !in flow[i].sorter.graph.succ {
        j := ListedIsCovered(cmd, flow, i + 1, !EntryFails(flow[i]), s);
      }
    }
  }

  lemma CleanPhaseKeepsUnharmed(e: Entry, c: Class, s: Service)
    requires Prepared(e.sorter) && !EntryFails(e) && Unharmed(c)
    ensures Unharmed(PhaseClass(e.sorter.graph, e.script, c, s))
  {
    hide Prepared, Doomed;
    if s in e.sorter.graph.succ {
      if Doomed(e.sorter.graph, e.script, s) {
        FailsIfDoomed(e, s);
      } else {
        AfterWorkerFrom(c, OutcomeOf(e.script, s));
      }
    }
  }

  /** If the run skips anything, some service fails. */
  lemma {:induction false} SkipNeedsFailure(cmd: Cmd, flow: seq<Entry>, i: nat, c: Class, s: Service)
      returns (f: Service)
    requires i <= |flow| && AllPrepared(flow)
    requires Unharmed(c) && FlowClass(cmd, flow, i, true, c, s) == Skipped
    ensures forall d :: Unharmed(d) ==> FlowClass(cmd, flow, i, true, d, f) == Failed
    decreases |flow| - i
  {
    hide Prepared, Doomed, Unharmed;
    f := s;
    assert Unharmed(c);
    if i == |flow| || Breaks(cmd, flow[i].states) {
      assert false by { UnharmedIsNotSkipped(c); }
    } else if Passes(cmd, flow[i].states) {
      f := SkipNeedsFailure(cmd, flow, i + 1, c, s);
    } else {
      var e := flow[i];
      if EntryFails(e) {
        f :| f in e.sorter.graph.succ && !Doomed(e.sorter.graph, e.script, f)
             && AfterWorker(Unlisted, OutcomeOf(e.script, f)) == Failed;
        forall d | Unharmed(d)
          ensures FlowClass(cmd, flow, i, true, d, f) == Failed
        {
          AfterWorkerFrom(d, OutcomeOf(e.script, f));
          ListedForGood(cmd, flow, i + 1, false, Failed, f);
        }
      } else {
        CleanPhaseKeepsUnharmed(e, c, s);
        f := SkipNeedsFailure(cmd, flow, i + 1, PhaseClass(e.sorter.graph, e.script, c, s), s);
        forall d | Unharmed(d)
          ensures FlowClass(cmd, flow, i, true, d, f) == Failed
        {
          CleanPhaseKeepsUnharmed(e, d, f);
        }
      }
    }
  }

  lemma UnharmedIsNotSkipped(c: Class)
    requires Unharmed(c)
    ensures c != Skipped
  {}

  lemma RunOutcome(cmd: Cmd, flow: seq<Entry>, lists: Lists, log: seq<Stamped>)
    requires AllPrepared(flow) && Run(cmd, flow, lists, log)
    ensures Tidy(lists) && forall s :: ClassOf(lists, s) == FlowClass(cmd, flow, 0, true, Unlisted, s)
  {
    FlowOutcome(cmd, flow, 0, true, NO_RESULTS, [], lists, log);
  }

  /** The number of the four lists that contain s. */
  function ListsWith(b: Lists, s: Service): nat {
    (if s in b.done then 1 else 0) + (if s in b.warned then 1 else 0)
    + (if s in b.failed then 1 else 0) + (if s in b.skipped then 1 else 0)
  }

  lemma InOneListIfListed(b: Lists, s: Service)
    requires Tidy(b)
    ensures ListsWith(b, s) == if Listed(ClassOf(b, s)) then 1 else 0
  {}

  lemma ListedIffCovered(cmd: Cmd, flow: seq<Entry>, s: Service)
    ensures Listed(FlowClass(cmd, flow, 0, true, Unlisted, s)) <==> exists j: nat :: Covered(cmd, flow, j, s)
  {
    hide Covered, Listed, FlowClass;
    if Listed(FlowClass(cmd, flow, 0, true, Unlisted, s)) { var j := ListedIsCovered(cmd, flow, 0, true, s); }
    forall j: nat | Covered(cmd, flow, j, s)
      ensures Listed(FlowClass(cmd, flow, 0, true, Unlisted, s))
    {
      CoveredIsListed(cmd, flow, 0, true, Unlisted, j, s);
    }
  }

  /**
   * Conservation: exactly the covered services are listed, each in one list; nothing is skipped unless something
   * failed.
   */
  lemma RunConserves(cmd: Cmd, flow: seq<Entry>, lists: Lists, log: seq<Stamped>)
    requires AllPrepared(flow) && Run(cmd, flow, lists, log)
    ensures forall s :: ListsWith(lists, s) == if exists j: nat :: Covered(cmd, flow, j, s) then 1 else 0
    ensures lists.skipped != [] ==> lists.failed != []
  {
    hide Prepared, Run, Covered, ListsWith, Listed;
    RunOutcome(cmd, flow, lists, log);
    forall s
      ensures ListsWith(lists, s) == if exists j: nat :: Covered(cmd, flow, j, s) then 1 else 0
    {
      InOneListIfListed(lists, s);
      ListedIffCovered(cmd, flow, s);
    }
    if lists.skipped != [] {
      assert ClassOf(lists, lists.skipped[0]) == Skipped;
      var f := SkipNeedsFailure(cmd, flow, 0, Unlisted, lists.skipped[0]);
      assert ClassOf(lists, f) == Failed;
    }
  }

  // ---------------------------------------------------------------- runs in which every worker succeeds

  ghost predicate AllSucceed(flow: seq<Entry>) {
    forall j, s :: 0 <= j < |flow| && s in flow[j].sorter.graph.succ ==> Succeeds(OutcomeOf(flow[j].script, s))
  }

  predicate Succeeds(o: Outcome) {
    o.final.IsOk() && AfterWorker(Unlisted, o) == Done
  }

  lemma AncestorsSucceed(flow: seq<Entry>, j: nat, s: Service)
    requires AllPrepared(flow) && AllSucceed(flow) && j < |flow|
    ensures !Doomed(flow[j].sorter.graph, flow[j].script, s) && !EntryFails(flow[j])
  {
    hide Ancestor, ValidGraph, CountersRight, ReadyRight, Cyclic;
    assert ValidGraph(flow[j].sorter.graph);
    forall a, x | Ancestor(flow[j].sorter.graph, a, x)
      ensures a in flow[j].sorter.graph.succ
    {
      AncestorIsNode(flow[j].sorter.graph, a, x);
    }
  }

  lemma {:induction false} SuccessClass(cmd: Cmd, flow: seq<Entry>, i: nat, c: Class, s: Service)
    requires i <= |flow| && AllPrepared(flow) && AllSucceed(flow) && (c == Unlisted || c == Done)
    ensures FlowClass(cmd, flow, i, true, c, s) == Unlisted || FlowClass(cmd, flow, i, true, c, s) == Done
    decreases |flow| - i
  {
    hide Prepared, Doomed, EntryFails;
    if i == |flow| || Breaks(cmd, flow[i].states) {
    } else if Passes(cmd, flow[i].states) {
      SuccessClass(cmd, flow, i + 1, c, s);
    } else {
      AncestorsSucceed(flow, i, s);
      AfterCommandsFrom(c, OutcomeOf(flow[i].script, s).commands);
      SuccessClass(cmd, flow, i + 1, PhaseClass(flow[i].sorter.graph, flow[i].script, c, s), s);
    }
  }

  lemma ListedHasClass(b: Lists)
    requires Tidy(b)
    ensures b.failed != [] ==> ClassOf(b, b.failed[0]) == Failed
    ensures b.skipped != [] ==> ClassOf(b, b.skipped[0]) == Skipped
    ensures b.warned != [] ==> ClassOf(b, b.warned[0]) == Warned
    ensures forall s :: s in b.done <==> ClassOf(b, s) == Done
  {}

  /** If every worker succeeds, nothing fails, warns or is skipped, and every service of an executed entry is done. */
  lemma SuccessfulRun(cmd: Cmd, flow: seq<Entry>, lists: Lists, log: seq<Stamped>)
    requires AllPrepared(flow) && AllSucceed(flow) && Run(cmd, flow, lists, log)
    ensures lists.failed == [] && lists.skipped == [] && lists.warned == []
    ensures forall j: nat, s :: Executed(cmd, flow, j) && s in flow[j].sorter.graph.succ ==> s in lists.done
  {
    hide Prepared, Run, FlowClass, AllSucceed, Reached;
    RunOutcome(cmd, flow, lists, log);
    forall s
      ensures ClassOf(lists, s) == Unlisted || ClassOf(lists, s) == Done
    {
      SuccessClass(cmd, flow, 0, Unlisted, s);
    }
    ListedHasClass(lists);
    forall j: nat, s | Executed(cmd, flow, j) && s in flow[j].sorter.graph.succ
      ensures s in lists.done
    {
      assert Covered(cmd, flow, j, s) by { ExecutedIsCovered(cmd, flow, j, s); }
      ListedIffCovered(cmd, flow, s);
    }
  }

  lemma ExecutedIsCovered(cmd: Cmd, flow: seq<Entry>, j: nat, s: Service)
    requires Executed(cmd, flow, j) && s in flow[j].sorter.graph.succ
    ensures Covered(cmd, flow, j, s)
  {
    hide EntryFails, Reached;
  }

  // ---------------------------------------------------------------- which services end up warned

  ghost predicate WarnsIn(cmd: Cmd, flow: seq<Entry>, j: nat, s: Service) {
    && Executed(cmd, flow, j) && s in flow[j].sorter.graph.succ
    && !Doomed(flow[j].sorter.graph, flow[j].script, s)
    && AfterWorker(Unlisted, OutcomeOf(flow[j].script, s)) == Warned
  }

  lemma AfterWorkerIsWorse(c: Class, o: Outcome)
    ensures AfterWorker(c, o) == Worse(c, AfterWorker(Unlisted, o))
  {
    AfterCommandsFrom(c, o.commands);
    CommandsNeverSkip(o.commands);
  }

  lemma {:induction false} HarmStays(cmd: Cmd, flow: seq<Entry>, i: nat, ok: bool, c: Class, s: Service)
    requires i <= |flow| && !Unharmed(c)
    ensures FlowClass(cmd, flow, i, ok, c, s) == c
    decreases |flow| - i
  {
    hide EntryFails, Doomed;
    if i == |flow| || (ok && Breaks(cmd, flow[i].states)) {
    } else if !ok || Passes(cmd, flow[i].states) {
      HarmStays(cmd, flow, i + 1, ok, c, s);
    } else {
      AfterWorkerIsWorse(c, OutcomeOf(flow[i].script, s));
      HarmStays(cmd, flow, i + 1, !EntryFails(flow[i]), c, s);
    }
  }

  /** A service that is neither failed nor skipped in the end is warned exactly if the worker of some entry warns it. */
  lemma {:induction false} WarnedIff(cmd: Cmd, flow: seq<Entry>, i: nat, ok: bool, c: Class, s: Service)
    requires i <= |flow| && Unharmed(c) && Unharmed(FlowClass(cmd, flow, i, ok, c, s))
    requires if ok then Reached(cmd, flow, i) else AfterFailure(cmd, flow, i)
    ensures FlowClass(cmd, flow, i, ok, c, s) == Warned
            <==> c == Warned || exists j: nat :: i <= j && WarnsIn(cmd, flow, j, s)
    decreases |flow| - i
  {
    hide EntryFails, Doomed, AfterWorker, WarnsIn;
    if i == |flow| {
      NoMoreWarnings(cmd, flow, i, s);
    } else if !ok {
      FailureStops(cmd, flow, i);
      NoMoreWarnings(cmd, flow, i, s);
      var c' := if s in flow[i].members then Worse(c, Skipped) else c;
      if !Unharmed(c') { HarmStays(cmd, flow, i + 1, false, c', s); }
      WarnedIff(cmd, flow, i + 1, false, c', s);
    } else if Breaks(cmd, flow[i].states) {
      NoMoreWarnings(cmd, flow, i, s);
    } else if Passes(cmd, flow[i].states) {
      NotWarnedIn(cmd, flow, i, s);
      WarnedIff(cmd, flow, i + 1, true, c, s);
    } else {
      var c' := PhaseClass(flow[i].sorter.graph, flow[i].script, c, s);
      if !Unharmed(c') { HarmStays(cmd, flow, i + 1, !EntryFails(flow[i]), c', s); }
      WarnedIff(cmd, flow, i + 1, !EntryFails(flow[i]), c', s);
      WarnedHere(cmd, flow, i, c, s);
    }
  }

  lemma NoMoreWarnings(cmd: Cmd, flow: seq<Entry>, i: nat, s: Service)
    requires i == |flow| || (i < |flow| && (!Reached(cmd, flow, i) || Breaks(cmd, flow[i].states)))
    ensures forall j: nat :: i <= j ==> !WarnsIn(cmd, flow, j, s)
  {
    hide EntryFails, Doomed, AfterWorker, Reached, Breaks, Passes;
    forall j: nat | i <= j && Executed(cmd, flow, j)
      ensures false
    {
      ReachedEarlier(cmd, flow, i, j);
    }
  }

  lemma NotWarnedIn(cmd: Cmd, flow: seq<Entry>, i: nat, s: Service)
    requires i < |flow| && Passes(cmd, flow[i].states)
    ensures !WarnsIn(cmd, flow, i, s)
  {
    hide Doomed, AfterWorker, Reached;
  }

  lemma WarnedHere(cmd: Cmd, flow: seq<Entry>, i: nat, c: Class, s: Service)
    requires Executed(cmd, flow, i) && Unharmed(c)
    requires Unharmed(PhaseClass(flow[i].sorter.graph, flow[i].script, c, s))
    ensures PhaseClass(flow[i].sorter.graph, flow[i].script, c, s) == Warned
            <==> c == Warned || WarnsIn(cmd, flow, i, s)
  {
    hide Doomed, AfterWorker, Reached;
    AfterWorkerIsWorse(c, OutcomeOf(flow[i].script, s));
  }

  // ---------------------------------------------------------------- one module, two entries

  lemma ExecutedBefore(cmd: Cmd, flow: seq<Entry>, i: nat, j: nat)
    requires i < j && Executed(cmd, flow, i) && Executed(cmd, flow, j)
    ensures !EntryFails(flow[i])
  {
    hide EntryFails;
    ReachedEarlier(cmd, flow, i + 1, j);
  }

  /**
   * The stored sorter is not consumed by a phase: when a module is listed twice and both entries are executed, the
   * first sends all of its services everything, and the second again, except what its own failures hold back.
   */
  lemma ModuleTwice(cmd: Cmd, flow: seq<Entry>, lists: Lists, log: seq<Stamped>, i: nat, j: nat, s: Service)
    requires AllPrepared(flow) && Run(cmd, flow, lists, log)
    requires i < j && Executed(cmd, flow, i) && Executed(cmd, flow, j)
    requires flow[i].sorter == flow[j].sorter && s in flow[i].sorter.graph.succ
    ensures EntryCommands(log, i, s) == OutcomeOf(flow[i].script, s).commands
    ensures EntryCommands(log, j, s) ==
            if Doomed(flow[j].sorter.graph, flow[j].script, s) then [] else OutcomeOf(flow[j].script, s).commands
  {
    hide Run, Prepared, EntryCommands, Doomed, EntryFails, Reached;
    RunCommands(cmd, flow, lists, log);
    ExecutedBefore(cmd, flow, i, j);
    if Doomed(flow[i].sorter.graph, flow[i].script, s) { FailsIfDoomed(flow[i], s); }
  }
}
