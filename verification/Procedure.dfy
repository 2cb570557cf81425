/**
 * The run as the program performs it: a queue, running threads, a list of failed successors and
 * the shared result lists, all updated in place.  Every execution is shown to follow the step
 * relation, so everything proved over all schedules holds of it.
 */
module Procedures {
  import opened Graphs
  import opened Sorters
  import opened Results
  import opened Engine
  import opened Schedules
  import opened Flow

  lemma {:induction false} RunsAppend(script: Script, st: Phase, acts: seq<Action>, st': Phase, a: Action)
    requires Runs(script, st, acts, st') && Enabled(st', a)
    ensures Runs(script, st, acts + [a], Apply(script, st', a))
    decreases |acts|
  {
    hide Apply, Enabled;
    if acts == [] {
      assert ([] + [a])[1..] == [];
    } else {
      RunsAppend(script, Apply(script, st, acts[0]), acts[1..], st', a);
      assert (acts + [a])[1..] == acts[1..] + [a];
    }
  }

  class Runner {
    const results: ResultLists
    var queue: seq<Response>
    var workers: map<Service, nat>

    // the schedule so far and the state it has led to
    ghost var start: Phase
    ghost var acts: seq<Action>
    ghost var st: Phase

    constructor (results: ResultLists)
      ensures this.results == results && Idle()
    {
      this.results := results;
      queue, workers := [], map[];
    }

    predicate Idle()
      reads this
    {
      queue == [] && workers == map[]
    }

    ghost predicate OnSchedule(script: Script)
      reads this`start, this`acts, this`st
    {
      Runs(script, start, acts, st) && Inv(script, start.lists, st)
    }

    /** The fields hold what the state of the schedule says. */
    ghost predicate Shared()
      reads this, results
    {
      st.queue == queue && st.workers == workers && st.lists == results.Value()
    }

    ghost method Begin(script: Script, sorter: Sorter)
      requires Prepared(sorter) && Tidy(results.Value()) && Idle()
      modifies this`start, this`acts, this`st
      ensures st == start == Start(sorter, results.Value()) && acts == []
      ensures OnSchedule(script) && Shared()
    {
      start, acts := Start(sorter, results.Value()), [];
      st := start;
      StartInv(script, sorter, results.Value());
    }

    ghost method Step(script: Script, a: Action)
      requires OnSchedule(script) && Enabled(st, a)
      modifies this`acts, this`st
      ensures OnSchedule(script) && st == Apply(script, old(st), a)
      ensures st.sorter.graph == old(st).sorter.graph
      ensures StepsLeft(script, st) < StepsLeft(script, old(st))
    {
      hide Inv, Apply, Enabled, Runs, StepsLeft;
      RunsAppend(script, start, acts, st, a);
      StepInv(script, start.lists, st, a);
      StepCosts(script, start.lists, st, a);
      acts, st := acts + [a], Apply(script, st, a);
    }

    /** One running thread gets on with its work. */
    method Work(script: Script, s: Service)
      requires OnSchedule(script) && Shared() && s in workers
      modifies this, results
      ensures OnSchedule(script) && Shared()
      ensures start == old(start) && st == DoWork(script, old(st), s)
      ensures StepsLeft(script, st) < StepsLeft(script, old(st))
    {
      hide OnSchedule, StepsLeft;
      Step(script, Action.Work(s));
      var o, k := OutcomeOf(script, s), workers[s];
      if k < |o.commands| {
        workers := workers[s := k + 1];
        if o.commands[k].sorted && s !in results.skippedDueDepsServices {
          results.SortoutServiceResults(s, o.commands[k].verdict);
        }
      } else {
        workers := workers - {s};
        queue := queue + [Response(s, o.final)];
      }
    }

    /** Main-loop state that threads do not touch. */
    ghost predicate SameLoop(a: Phase, b: Phase) {
      a.sorter == b.sorter && a.pc == b.pc && a.batch == b.batch && a.failedSuccessors == b.failedSuccessors
    }

    /** The threads run for a while; with `untilAnswer`, until one of them has answered. */
    method LetThreadsRun(script: Script, untilAnswer: bool)
      requires OnSchedule(script) && Shared()
      requires untilAnswer ==> st.pc == Serving && st.batch == []
      modifies this, results
      ensures OnSchedule(script) && Shared() && SameLoop(st, old(st)) && start == old(start)
      ensures StepsLeft(script, st) <= StepsLeft(script, old(st))
      ensures untilAnswer ==> queue != []
    {
      hide OnSchedule, StepsLeft;
      while untilAnswer && queue == []
        invariant OnSchedule(script) && Shared() && SameLoop(st, old(st)) && start == old(start)
        invariant StepsLeft(script, st) <= StepsLeft(script, old(st))
        decreases StepsLeft(script, st)
      {
        AnswerIsComing(script);
        var s :| s in workers;
        Work(script, s);
      }
      var more: bool := *;
      while more && workers != map[]
        invariant OnSchedule(script) && Shared() && SameLoop(st, old(st)) && start == old(start)
        invariant StepsLeft(script, st) <= StepsLeft(script, old(st))
        invariant untilAnswer ==> queue != []
        decreases StepsLeft(script, st)
      {
        NonEmpty(workers);
        var s :| s in workers;
        Work(script, s);
        more := *;
      }
    }

    lemma AnswerIsComing(script: Script)
      requires OnSchedule(script) && Shared() && st.pc == Serving && st.batch == [] && queue == []
      ensures exists s :: s in workers
    {
      hide Runs, Inv;
      NoDeadlock(script, start.lists, st);
      NonEmpty(workers);
    }

    lemma NonEmpty(m: map<Service, nat>)
      ensures m != map[] ==> exists s :: s in m
    {
      if forall s :: s !in m { assert m == map[]; }
    }

    /** What the main loop holds locally. */
    ghost predicate Local(ts: TopologicalSorter, batch: seq<Service>, failedSuccessors: seq<Service>)
      reads this, ts
    {
      st.sorter == ts.State() && st.batch == batch && st.failedSuccessors == failedSuccessors
    }

    /** The body of the loop over a batch: hold the service back, or start its thread. */
    method HandOut(script: Script, ts: TopologicalSorter, batch: seq<Service>, failedSuccessors: seq<Service>)
      requires batch != [] && st.pc == Serving
      requires OnSchedule(script) && Shared() && Local(ts, batch, failedSuccessors)
      modifies this, results
      ensures OnSchedule(script) && Shared() && Local(ts, batch[1..], failedSuccessors) && st.pc == Serving
      ensures start == old(start) && StepsLeft(script, st) < StepsLeft(script, old(st))
    {
      hide OnSchedule, StepsLeft;
      Step(script, Hand);
      var s := batch[0];
      if s in failedSuccessors {
        results.SkipServiceDueDeps(s);
        queue := queue + [Response(s, FAILED)];
      } else {
        workers := workers[s := 0];
      }
    }

    /** The loop over a batch; threads already started may run between two of its rounds. */
    method HandOutBatch(script: Script, ts: TopologicalSorter, batch: seq<Service>, failedSuccessors: seq<Service>)
      requires OnSchedule(script) && Shared() && Local(ts, batch, failedSuccessors) && st.pc == Serving
      modifies this, results
      ensures OnSchedule(script) && Shared() && Local(ts, [], failedSuccessors) && st.pc == Serving
      ensures start == old(start) && StepsLeft(script, st) <= StepsLeft(script, old(st))
    {
      hide OnSchedule, StepsLeft;
      assert batch[0..] == batch;
      for i := 0 to |batch|
        invariant OnSchedule(script) && Shared() && Local(ts, batch[i..], failedSuccessors) && st.pc == Serving
        invariant start == old(start) && StepsLeft(script, st) <= StepsLeft(script, old(st))
      {
        assert batch[i..][1..] == batch[i + 1..];
        HandOut(script, ts, batch[i..], failedSuccessors);
        LetThreadsRun(script, false);
      }
      assert batch[|batch|..] == [];
    }

    /**
     * After the blocking read: poison the successors of a response that is not ok, mark the node done, sort the
     * response.
     */
    method Receive(script: Script, ts: TopologicalSorter, failedSuccessors: seq<Service>)
        returns (failedSuccessors': seq<Service>)
      requires queue != [] && st.pc == Serving
      requires OnSchedule(script) && Shared() && Local(ts, [], failedSuccessors)
      modifies this, results, ts
      ensures OnSchedule(script) && Shared() && Local(ts, [], failedSuccessors') && st.pc == Top
      ensures start == old(start) && StepsLeft(script, st) < StepsLeft(script, old(st))
    {
      hide OnSchedule, StepsLeft, SorterInv, EachOnce, Blame, ListsRight, Trace;
      HeadCanFinish(script);
      Step(script, Take);
      var r := queue[0];
      queue := queue[1..];
      failedSuccessors' := failedSuccessors;
      if !r.verdict.IsOk() {
        var successors := ts.Successors(r.service);
        failedSuccessors' := failedSuccessors + successors.value;
      }
      ts.MarkDone(r.service);
      if r.service !in results.skippedDueDepsServices {
        results.SortoutServiceResults(r.service, r.verdict);
      }
    }

    lemma HeadCanFinish(script: Script)
      requires OnSchedule(script) && st.pc == Serving && st.batch == [] && st.queue != []
      ensures CanFinish(st.sorter, st.queue[0].service) && ValidGraph(st.sorter.graph)
    {
      hide Runs, Blame, ListsRight, Trace;
      TakeHandOff(st);
      ExitIsValid(st);
    }

    lemma ReadyAreNodes(script: Script)
      requires OnSchedule(script)
      ensures forall n :: n in st.sorter.ready ==> n in st.sorter.npred
    {
      hide Runs, Blame, ListsRight, Trace, EachOnce;
    }

    lemma ExitIsIdle(script: Script)
      requires OnSchedule(script) && Shared() && st.pc == Exited
      requires Prepared(start.sorter) && start == Start(start.sorter, start.lists)
      ensures Idle() && Completes(script, start.sorter, start.lists, acts, st)
    {
      hide SorterInv, Cyclic, HandOff, Blame, ListsRight, Trace;
      RunKeepsGraph(script, start, acts, st);
      ExitIsQuiet(script, start.lists, st);
    }

    /** One round of the main loop: hand out what is ready, wait for one response, and read it. */
    method Round(script: Script, ts: TopologicalSorter, failedSuccessors: seq<Service>)
        returns (failedSuccessors': seq<Service>)
      requires st.pc == Top && CanProgress(st.sorter)
      requires OnSchedule(script) && Shared() && Local(ts, [], failedSuccessors)
      modifies this, results, ts
      ensures OnSchedule(script) && Shared() && Local(ts, [], failedSuccessors') && st.pc == Top
      ensures start == old(start) && StepsLeft(script, st) < StepsLeft(script, old(st))
    {
      hide OnSchedule, StepsLeft, GetReady, CanProgress;
      ReadyAreNodes(script);
      Step(script, Check);
      var batch := ts.TakeReady();
      HandOutBatch(script, ts, batch, failedSuccessors);
      LetThreadsRun(script, true);
      failedSuccessors' := Receive(script, ts, failedSuccessors);
    }

    /** process_ts_services: works on a copy of the stored sorter. */
    method ProcessTsServices(stored: TopologicalSorter, script: Script)
      requires Prepared(stored.State()) && Tidy(results.Value()) && Idle()
      modifies this, results
      ensures Completes(script, stored.State(), old(results.Value()), acts, st)
      ensures st.lists == results.Value() && Idle()
    {
      hide OnSchedule, StepsLeft, Prepared, Tidy, Completes, GetReady;
      ghost var base := results.Value();
      var ts := new TopologicalSorter.Copy(stored);
      var failedSuccessors: seq<Service> := [];
      Begin(script, stored.State());
      var active := ts.IsActive();
      while active
        invariant OnSchedule(script) && Shared() && Local(ts, [], failedSuccessors) && st.pc == Top
        invariant start == Start(stored.State(), base)
        invariant active == CanProgress(st.sorter)
        invariant fresh(ts)
        decreases StepsLeft(script, st)
      {
        failedSuccessors := Round(script, ts, failedSuccessors);
        active := ts.IsActive();
      }
      Step(script, Check);
      ExitIsIdle(script);
    }

    /** The rest of the flow still decides how the run ends. */
    ghost predicate Leads(cmd: Cmd, flow: seq<Entry>, base: Lists, i: nat, ok: bool, lists: Lists, log: seq<Stamped>)
      requires i <= |flow|
    {
      forall lists', log' :: FlowRuns(cmd, flow, i, ok, lists, log, lists', log') ==>
        FlowRuns(cmd, flow, 0, true, base, [], lists', log')
    }

    lemma LeadsAfterSkip(cmd: Cmd, flow: seq<Entry>, base: Lists, i: nat, lists: Lists, log: seq<Stamped>)
      requires i < |flow| && Leads(cmd, flow, base, i, false, lists, log)
      ensures Leads(cmd, flow, base, i + 1, false, SkipAll(lists, flow[i].members), log)
    {}

    lemma LeadsAfterPass(cmd: Cmd, flow: seq<Entry>, base: Lists, i: nat, lists: Lists, log: seq<Stamped>)
      requires i < |flow| && Leads(cmd, flow, base, i, true, lists, log)
      requires !Breaks(cmd, flow[i].states) && Passes(cmd, flow[i].states)
      ensures Leads(cmd, flow, base, i + 1, true, lists, log)
    {}

    lemma LeadsAfterPhase(cmd: Cmd, flow: seq<Entry>, base: Lists, i: nat, lists: Lists, log: seq<Stamped>,
                          acts: seq<Action>, st: Phase)
      requires i < |flow| && Leads(cmd, flow, base, i, true, lists, log)
      requires !Breaks(cmd, flow[i].states) && !Passes(cmd, flow[i].states)
      requires Completes(flow[i].script, flow[i].sorter, lists, acts, st)
      ensures Leads(cmd, flow, base, i + 1, st.lists.failed == [], st.lists, log + Stamp(i, st.log))
    {
      hide Completes, Stamp;
    }

    /** The loop that fails the rest of the flow. */
    method SkipServices(services: seq<Service>)
      modifies results
      ensures results.Value() == SkipAll(old(results.Value()), services)
    {
      for i := 0 to |services|
        invariant SkipAll(results.Value(), services[i..]) == SkipAll(old(results.Value()), services)
      {
        assert services[i..][0] == services[i] && services[i..][1..] == services[i + 1..];
        results.SkipServiceDueDeps(services[i]);
      }
    }

    /** run_dr_or_site_procedure: the stored sorters are read, never changed. */
    method RunDrOrSiteProcedure(cmd: Cmd, flow: seq<Entry>, sorters: seq<TopologicalSorter>)
        returns (ghost log: seq<Stamped>)
      requires |sorters| == |flow| && forall i :: 0 <= i < |flow| ==> sorters[i].State() == flow[i].sorter
      requires AllPrepared(flow) && Idle() && Tidy(results.Value())
      requires forall s :: Unharmed(ClassOf(results.Value(), s))
      modifies this, results
      ensures FlowRuns(cmd, flow, 0, true, old(results.Value()), [], results.Value(), log)
      ensures Idle()
    {
      hide Prepared, Tidy, ClassOf, FlowRuns, Completes, Leads, PhaseEnd, EntryFails, Unharmed;
      ghost var base := results.Value();
      var drStatus := true;
      log := [];
      LeadsFromStart(cmd, flow, base);
      for i := 0 to |flow|
        invariant Leads(cmd, flow, base, i, drStatus, results.Value(), log)
        invariant Tidy(results.Value()) && Idle()
        invariant drStatus ==> forall s :: Unharmed(ClassOf(results.Value(), s))
      {
        if !drStatus {
          LeadsAfterSkip(cmd, flow, base, i, results.Value(), log);
          SkipAllRefines(results.Value(), flow[i].members);
          SkipServices(flow[i].members);
          continue;
        }
        if (cmd == StandbyCmd || cmd == DisableCmd || cmd == ReturnCmd) && flow[i].states == [Active] {
          LeadsAtBreak(cmd, flow, base, i, results.Value(), log);
          return;
        }
        if cmd == ActiveCmd && flow[i].states != [] && (set m | m in flow[i].states) == {Standby, Disable} {
          LeadsAfterPass(cmd, flow, base, i, results.Value(), log);
          continue;
        }
        ghost var before := results.Value();
        ProcessTsServices(sorters[i], flow[i].script);
        PhaseOutcome(flow[i].script, flow[i].sorter, before, acts, st);
        PhaseVerdict(flow[i], before, st);
        PhaseEndIsTidy(flow[i], before, st);
        LeadsAfterPhase(cmd, flow, base, i, before, log, acts, st);
        log := log + Stamp(i, st.log);
        if results.failedServices != [] { drStatus := false; }
      }
      LeadsAtEnd(cmd, flow, base, drStatus, results.Value(), log);
    }

    lemma LeadsFromStart(cmd: Cmd, flow: seq<Entry>, base: Lists)
      ensures Leads(cmd, flow, base, 0, true, base, [])
    {}

    lemma LeadsAtBreak(cmd: Cmd, flow: seq<Entry>, base: Lists, i: nat, lists: Lists, log: seq<Stamped>)
      requires i < |flow| && Breaks(cmd, flow[i].states) && Leads(cmd, flow, base, i, true, lists, log)
      ensures FlowRuns(cmd, flow, 0, true, base, [], lists, log)
    {
      assert FlowRuns(cmd, flow, i, true, lists, log, lists, log);
    }

    lemma LeadsAtEnd(cmd: Cmd, flow: seq<Entry>, base: Lists, ok: bool, lists: Lists, log: seq<Stamped>)
      requires Leads(cmd, flow, base, |flow|, ok, lists, log)
      ensures FlowRuns(cmd, flow, 0, true, base, [], lists, log)
    {
      assert FlowRuns(cmd, flow, |flow|, ok, lists, log, lists, log);
    }
  }
}
