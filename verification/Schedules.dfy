/**
 * What holds of one phase under every schedule: the invariant of the main loop and its
 * workers, progress, a bound on the length of every schedule, and the outcome, which does
 * not depend on the schedule at all.
 */
module Schedules {
  import opened Graphs
  import opened Sorters
  import opened Results
  import opened Engine

  ghost predicate Blame(script: Script, st: Phase) {
    PoisonRight(script, st) && HeldRight(st) && QueueRight(script, st) && CountsRight(script, st)
  }

  ghost predicate Trace(script: Script, st: Phase) {
    SentRight(script, st) && StartsRight(st) && InOrder(st)
  }

  ghost predicate Inv(script: Script, base: Lists, st: Phase) {
    HandOff(st) && Blame(script, st) && ListsRight(script, base, st) && Trace(script, st)
  }

  // ---------------------------------------------------------------- the invariant is kept

  lemma StartInv(script: Script, sorter: Sorter, base: Lists)
    requires SorterInv(sorter, {}, {}) && Tidy(base)
    ensures Inv(script, base, Start(sorter, base))
  {
    StartHandOff(sorter, base);
  }

  lemma HandCounts(script: Script, st: Phase)
    requires CountsRight(script, st) && Enabled(st, Hand)
    ensures CountsRight(script, DoHand(st))
  {}

  lemma TakeCounts(script: Script, st: Phase)
    requires CountsRight(script, st) && Enabled(st, Take)
    ensures CountsRight(script, DoTake(st))
  {}

  lemma WorkCounts(script: Script, st: Phase, s: Service)
    requires CountsRight(script, st) && s in st.workers
    ensures CountsRight(script, DoWork(script, st, s))
  {}

  lemma BatchHeadIsNew(st: Phase)
    requires HandOff(st) && st.batch != []
    ensures st.batch[0] !in st.fin
  {}

  lemma RunningIsNotHeld(st: Phase, s: Service)
    requires HandOff(st) && HeldRight(st) && s in st.workers
    ensures s !in st.held
  {}

  lemma CheckBlame(script: Script, st: Phase)
    requires Blame(script, st) && Enabled(st, Check)
    ensures Blame(script, DoCheck(st))
  {}

  lemma CheckListsAndTrace(script: Script, base: Lists, st: Phase)
    requires ListsRight(script, base, st) && Trace(script, st) && Enabled(st, Check)
    ensures ListsRight(script, base, DoCheck(st)) && Trace(script, DoCheck(st))
  {
    assert forall s :: PlaceOf(DoCheck(st), s) == PlaceOf(st, s);
  }

  lemma CheckInv(script: Script, base: Lists, st: Phase)
    requires Inv(script, base, st) && Enabled(st, Check)
    ensures Inv(script, base, DoCheck(st))
  {
    hide HandOff, Blame, ListsRight, Trace;
    CheckHandOff(st);
    CheckBlame(script, st);
    CheckListsAndTrace(script, base, st);
  }

  lemma HandInv(script: Script, base: Lists, st: Phase)
    requires Inv(script, base, st) && Enabled(st, Hand)
    ensures Inv(script, base, DoHand(st))
  {
    hide SorterInv, EachOnce, Disjoint, Clean, Queued;
    hide PoisonRight, HeldRight, QueueRight, CountsRight, ListsRight, SentRight, StartsRight, InOrder;
    HandCounts(script, st);
    BatchHeadIsNew(st);
    HandOffIsClean(st);
    HandHandOff(st);
    HandPoison(script, st);
    HandHeld(st);
    HandQueue(script, st);
    HandLists(script, base, st);
    HandSent(script, st);
    HandStarts(st);
    HandInOrder(st);
  }

  lemma TakeInv(script: Script, base: Lists, st: Phase)
    requires Inv(script, base, st) && Enabled(st, Take)
    ensures Inv(script, base, DoTake(st))
  {
    hide SorterInv, EachOnce, Disjoint, Clean, Queued;
    hide PoisonRight, HeldRight, QueueRight, CountsRight, ListsRight, SentRight, StartsRight, InOrder;
    TakeCounts(script, st);
    TakeHandOff(st);
    HandOffIsClean(st);
    TakePoison(script, st);
    TakeHeld(st);
    TakeQueue(script, st);
    TakeLists(script, base, st);
    TakeSent(script, st);
    TakeStarts(st);
    TakeInOrder(st);
  }

  lemma WorkInv(script: Script, base: Lists, st: Phase, s: Service)
    requires Inv(script, base, st) && s in st.workers
    ensures Inv(script, base, DoWork(script, st, s))
  {
    hide SorterInv, EachOnce, Disjoint, Clean, Queued;
    hide PoisonRight, HeldRight, QueueRight, CountsRight, ListsRight, SentRight, StartsRight, InOrder;
    WorkCounts(script, st, s);
    RunningIsNotHeld(st, s);
    WorkHandOff(script, st, s);
    HandOffIsClean(st);
    WorkHeld(script, st, s);
    WorkPoisonAndQueue(script, st, s);
    WorkLists(script, base, st, s);
    WorkSent(script, st, s);
    WorkStarts(script, st, s);
    WorkInOrder(script, st, s);
  }

  lemma StepInv(script: Script, base: Lists, st: Phase, a: Action)
    requires Inv(script, base, st) && Enabled(st, a)
    ensures Inv(script, base, Apply(script, st, a))
    ensures Apply(script, st, a).sorter.graph == st.sorter.graph
  {
    hide Inv;
    assert Enabled(st, a);
    match a
    case Check => CheckInv(script, base, st);
    case Hand => HandInv(script, base, st);
    case Take => TakeInv(script, base, st);
    case Work(s) => WorkInv(script, base, st, s);
  }

  lemma {:induction false} RunInv(script: Script, base: Lists, st: Phase, acts: seq<Action>, st': Phase)
    requires Inv(script, base, st) && Runs(script, st, acts, st')
    ensures Inv(script, base, st') && st'.sorter.graph == st.sorter.graph
    decreases |acts|
  {
    hide Inv, Apply, Enabled;
    if acts == [] {
    } else {
      StepInv(script, base, st, acts[0]);
      RunInv(script, base, Apply(script, st, acts[0]), acts[1..], st');
    }
  }

  // ---------------------------------------------------------------- progress and termination

  /** The blocking read of the queue always has a response coming: some step is enabled until the loop exits. */
  lemma NoDeadlock(script: Script, base: Lists, st: Phase)
    requires Inv(script, base, st)
    ensures st.pc != Crashed
    ensures st.pc == Exited || exists a :: Enabled(st, a)
    ensures st.pc == Serving && st.batch == [] ==> st.queue != [] || st.workers != map[]
    ensures st.pc == Serving ==> st.sorter.ready == []
  {
    hide Blame, ListsRight, Trace, SorterInv, EachOnce;
    if st.pc == Top {
      assert Enabled(st, Check);
    } else if st.pc == Serving {
      var s :| s in Out(st);
      if st.batch != [] {
        assert Enabled(st, Hand);
      } else if st.queue != [] {
        assert Enabled(st, Take);
      } else {
        assert s in st.workers;
        assert Enabled(st, Work(s));
      }
    }
  }

  function Responses(script: Script, order: seq<Service>): seq<Response> {
    if order == [] then [] else [Response(order[0], OutcomeOf(script, order[0]).final)] + Responses(script, order[1..])
  }

  /** The commands a thread still has to send. */
  function CommandsLeft(script: Script, st: Phase, s: Service): nat
    requires s in st.workers
  {
    if st.workers[s] < |OutcomeOf(script, s).commands| then |OutcomeOf(script, s).commands| - st.workers[s] else 0
  }

  /** The next piece of work of a thread leaves the main loop where it is. */
  lemma WorkOn(script: Script, st: Phase, s: Service)
    requires s in st.workers
    ensures var next, o := DoWork(script, st, s), OutcomeOf(script, s);
            && next.pc == st.pc && next.batch == st.batch && next.sorter == st.sorter
            && next.failedSuccessors == st.failedSuccessors && next.fin == st.fin
            && (if st.workers[s] < |o.commands|
                then s in next.workers && CommandsLeft(script, next, s) < CommandsLeft(script, st, s)
                     && next.workers.Keys == st.workers.Keys && next.queue == st.queue
                     && next.workers - {s} == st.workers - {s}
                else next.workers == st.workers - {s} && next.queue == st.queue + [Response(s, o.final)])
  {}

  lemma RunsStep(script: Script, st: Phase, a: Action, acts: seq<Action>, st': Phase)
    requires Enabled(st, a) && Runs(script, Apply(script, st, a), acts, st')
    ensures Runs(script, st, [a] + acts, st')
  {
    hide Apply, Enabled;
    assert ([a] + acts)[1..] == acts;
  }

  lemma SplitOrder(order: seq<Service>)
    requires order != [] && Distinct(order)
    ensures order[0] !in order[1..] && Distinct(order[1..]) && Elements(order) == {order[0]} + Elements(order[1..])
  {
    assert forall i :: 0 <= i < |order[1..]| ==> order[1..][i] == order[i + 1];
    assert order == [order[0]] + order[1..];
  }

  lemma ResponsesStep(script: Script, queue: seq<Response>, order: seq<Service>)
    requires order != []
    ensures (queue + [Response(order[0], OutcomeOf(script, order[0]).final)]) + Responses(script, order[1..])
            == queue + Responses(script, order)
  {}

  lemma WorkIsEnabled(script: Script, st: Phase, s: Service)
    requires s in st.workers
    ensures Enabled(st, Work(s)) && Apply(script, st, Work(s)) == DoWork(script, st, s)
  {}

  lemma MinusBoth(m: map<Service, nat>, s: Service, others: set<Service>)
    ensures m - ({s} + others) == (m - {s}) - others
  {}

  /** Wherever the main loop is, the running threads can come to their ends in any order, and the others wait. */
  lemma {:induction false} AnyOrder(script: Script, st: Phase, order: seq<Service>)
      returns (acts: seq<Action>, st': Phase)
    requires Distinct(order) && forall s :: s in order ==> s in st.workers
    ensures Runs(script, st, acts, st')
    ensures st'.queue == st.queue + Responses(script, order) && st'.workers == st.workers - Elements(order)
    ensures st'.pc == st.pc && st'.batch == st.batch && st'.sorter == st.sorter
    ensures st'.failedSuccessors == st.failedSuccessors && st'.fin == st.fin
    decreases |order|, if order == [] then 0 else CommandsLeft(script, st, order[0]) + 1
  {
    if order == [] {
      acts, st' := [], st;
      assert Elements(order) == {} && Responses(script, order) == [];
      assert st.workers - Elements(order) == st.workers;
    } else {
      hide Runs, DoWork, Apply, OutcomeOf, Distinct, CommandsLeft, Elements, Responses, Enabled;
      var s := order[0];
      WorkOn(script, st, s);
      SplitOrder(order);
      var next := DoWork(script, st, s);
      if st.workers[s] < |OutcomeOf(script, s).commands| {
        acts, st' := AnyOrder(script, next, order);
        MinusBoth(next.workers, s, Elements(order[1..]));
        MinusBoth(st.workers, s, Elements(order[1..]));
      } else {
        acts, st' := AnyOrder(script, next, order[1..]);
        ResponsesStep(script, st.queue, order);
        MinusBoth(st.workers, s, Elements(order[1..]));
      }
      WorkIsEnabled(script, st, s);
      RunsStep(script, st, Work(s), acts, st');
      acts := [Work(s)] + acts;
    }
  }

  function Cost(o: Outcome, at: Place): nat {
    match at
    case Waiting => |o.commands| + 4
    case Running(k) => if k <= |o.commands| then |o.commands| - k + 3 else 0
    case Answered => 2
    case Over => 0
  }

  function CostOfAll(script: Script, ks: seq<Service>, st: Phase): nat {
    if ks == [] then 0
    else CostOfAll(script, ks[1..], st) + Cost(OutcomeOf(script, ks[0]), PlaceOf(st, ks[0]))
  }

  /** An upper bound on the number of steps still possible. */
  function StepsLeft(script: Script, st: Phase): nat {
    CostOfAll(script, st.sorter.graph.keys, st) + (if st.pc == Top then 1 else 0)
  }

  lemma {:induction false} CostSame(script: Script, ks: seq<Service>, st: Phase, st': Phase)
    requires forall s :: s in ks ==> PlaceOf(st', s) == PlaceOf(st, s)
    ensures CostOfAll(script, ks, st') == CostOfAll(script, ks, st)
  {
    if ks == [] {
    } else {
      CostSame(script, ks[1..], st, st');
    }
  }

  lemma {:induction false} CostMoves(script: Script, ks: seq<Service>, st: Phase, st': Phase, s: Service, from: Place,
                                     to: Place)
    requires Moves(st, st', s, from, to) && Distinct(ks) && s in ks
    ensures CostOfAll(script, ks, st') ==
            CostOfAll(script, ks, st) - Cost(OutcomeOf(script, s), from) + Cost(OutcomeOf(script, s), to)
  {
    if ks[0] == s {
      CostSame(script, ks[1..], st, st');
    } else {
      CostMoves(script, ks[1..], st, st', s, from, to);
    }
  }

  lemma OutIsNode(st: Phase, s: Service)
    requires HandOff(st) && s in Out(st)
    ensures Distinct(st.sorter.graph.keys) && s in st.sorter.graph.keys
  {}

  lemma HandCosts(script: Script, st: Phase)
    requires HandOff(st) && Enabled(st, Hand)
    ensures StepsLeft(script, DoHand(st)) < StepsLeft(script, st)
  {
    hide SorterInv, EachOnce, Out;
    HandOffIsClean(st);
    HandMoves(st);
    var s := st.batch[0];
    assert s in Out(st) by { BatchHeadIsOut(st); }
    OutIsNode(st, s);
    CostMoves(script, st.sorter.graph.keys, st, DoHand(st), s, Waiting,
              if s in st.failedSuccessors then Answered else Running(0));
  }

  lemma BatchHeadIsOut(st: Phase)
    requires st.batch != []
    ensures st.batch[0] in Out(st)
  {}

  lemma QueueHeadIsOut(st: Phase)
    requires st.queue != []
    ensures st.queue[0].service in Out(st)
  {}

  lemma TakeCosts(script: Script, st: Phase)
    requires st.queue != [] && HandOff(st) && Enabled(st, Take)
    ensures StepsLeft(script, DoTake(st)) < StepsLeft(script, st)
  {
    hide SorterInv, EachOnce, Out;
    HandOffIsClean(st);
    TakeHandOff(st);
    TakeMoves(st);
    QueueHeadIsOut(st);
    OutIsNode(st, st.queue[0].service);
    CostMoves(script, st.sorter.graph.keys, st, DoTake(st), st.queue[0].service, Answered, Over);
  }

  lemma WorkCosts(script: Script, st: Phase, s: Service)
    requires HandOff(st) && CountsRight(script, st) && s in st.workers
    ensures StepsLeft(script, DoWork(script, st, s)) < StepsLeft(script, st)
  {
    hide SorterInv, EachOnce;
    HandOffIsClean(st);
    WorkMoves(script, st, s);
    OutIsNode(st, s);
    var k := st.workers[s];
    CostMoves(script, st.sorter.graph.keys, st, DoWork(script, st, s), s, Running(k),
              if k < |OutcomeOf(script, s).commands| then Running(k + 1) else Answered);
  }

  lemma StepCosts(script: Script, base: Lists, st: Phase, a: Action)
    requires Inv(script, base, st) && Enabled(st, a)
    ensures StepsLeft(script, Apply(script, st, a)) < StepsLeft(script, st)
  {
    hide HandOff, ListsRight, Trace, PoisonRight, HeldRight, QueueRight, CountsRight;
    match a
    case Check => CostSame(script, st.sorter.graph.keys, st, DoCheck(st));
    case Hand => HandCosts(script, st);
    case Take => TakeCosts(script, st);
    case Work(s) => WorkCosts(script, st, s);
  }

  /** Every schedule is finite, with an explicit bound. */
  lemma {:induction false} ScheduleIsBounded(script: Script, base: Lists, st: Phase, acts: seq<Action>, st': Phase)
    requires Inv(script, base, st) && Runs(script, st, acts, st')
    ensures |acts| + StepsLeft(script, st') <= StepsLeft(script, st)
    decreases |acts|
  {
    hide Inv, Apply, Enabled, StepsLeft;
    if acts == [] {
    } else {
      StepInv(script, base, st, acts[0]);
      StepCosts(script, base, st, acts[0]);
      ScheduleIsBounded(script, base, Apply(script, st, acts[0]), acts[1..], st');
    }
  }

  /** Every schedule, however far it got, can be completed, and can do nothing but be completed. */
  lemma {:induction false} ScheduleCompletes(script: Script, base: Lists, st: Phase)
      returns (acts: seq<Action>, st': Phase)
    requires Inv(script, base, st)
    ensures Runs(script, st, acts, st') && st'.pc == Exited
    decreases StepsLeft(script, st)
  {
    hide Inv, Apply, Enabled, StepsLeft;
    NoDeadlock(script, base, st);
    if st.pc == Exited {
      acts, st' := [], st;
    } else {
      var a :| Enabled(st, a);
      StepInv(script, base, st, a);
      StepCosts(script, base, st, a);
      var rest;
      rest, st' := ScheduleCompletes(script, base, Apply(script, st, a));
      acts := [a] + rest;
      assert acts[1..] == rest;
    }
  }

  // ---------------------------------------------------------------- the end of a phase

  /** Every node is finished, no worker is left, and the queue is empty for the next phase. */
  lemma ExitIsQuiet(script: Script, base: Lists, st: Phase)
    requires Inv(script, base, st) && st.pc == Exited && !Cyclic(st.sorter.graph)
    ensures st.fin == st.sorter.graph.succ.Keys
    ensures st.batch == [] && st.workers == map[] && st.queue == []
  {
    hide Blame, ListsRight, Trace, EachOnce, Cyclic;
    ExitedIsInactive(st);
    InactiveMeansFinished(st.sorter, Out(st), st.fin);
    assert st.workers.Keys == {};
    if st.queue != [] { QueueHeadIsOut(st); }
    if st.batch != [] { BatchHeadIsOut(st); }
  }

  lemma ExitedIsInactive(st: Phase)
    requires HandOff(st) && st.pc == Exited
    ensures !CanProgress(st.sorter) && SorterInv(st.sorter, Out(st), st.fin)
  {}

  /** Some proper ancestor's worker does not answer ok. */
  ghost predicate Doomed(g: Graph, script: Script, s: Service) {
    exists a :: Ancestor(g, a, s) && !OutcomeOf(script, a).final.IsOk()
  }

  /** The nodes are all finished, and what the main loop held back follows its successor bookkeeping. */
  ghost predicate HeldByPreds(g: Graph, script: Script, held: set<Service>) {
    forall s :: s in g.succ ==> (s in held <==> exists p :: Edge(g, p, s) && Bad(script, held, p))
  }

  lemma {:induction false} HeldPropagates(g: Graph, script: Script, held: set<Service>, a: Service, via: seq<Service>,
                                          s: Service)
    requires ValidGraph(g) && HeldByPreds(g, script, held)
    requires Path(g, a, via, s) && Bad(script, held, a)
    ensures s in held
    decreases |via|
  {
    if via == [] {
      assert Edge(g, a, s) && s in g.succ;
    } else {
      assert Edge(g, a, via[0]) && via[0] in g.succ;
      HeldPropagates(g, script, held, via[0], via[1..], s);
    }
  }

  lemma DoomedInherits(g: Graph, script: Script, p: Service, s: Service)
    requires Edge(g, p, s) && (Doomed(g, script, p) || !OutcomeOf(script, p).final.IsOk())
    ensures Doomed(g, script, s)
  {
    EdgeIsAncestor(g, p, s);
    if Doomed(g, script, p) {
      var a :| Ancestor(g, a, p) && !OutcomeOf(script, a).final.IsOk();
      AncestorTransitive(g, a, p, s);
    }
  }

  /** In an acyclic graph that bookkeeping singles out exactly the services with a failed proper ancestor. */
  lemma HeldIsDoomed(g: Graph, script: Script, held: set<Service>)
    requires ValidGraph(g) && !Cyclic(g) && held <= g.succ.Keys && HeldByPreds(g, script, held)
    ensures forall s :: s in held <==> Doomed(g, script, s)
  {
    forall s | Doomed(g, script, s)
      ensures s in held
    {
      var a :| Ancestor(g, a, s) && !OutcomeOf(script, a).final.IsOk();
      var via :| Path(g, a, via, s);
      HeldPropagates(g, script, held, a, via, s);
    }
    HeldHasCause(g, script, held);
  }

  lemma HeldHasCause(g: Graph, script: Script, held: set<Service>)
    requires !Cyclic(g) && held <= g.succ.Keys && HeldByPreds(g, script, held)
    ensures forall s :: s in held ==> Doomed(g, script, s)
  {
    hide Doomed, Cyclic;
    var u := set s | s in held && !Doomed(g, script, s);
    if u != {} {
      forall s | s in u
        ensures HasPred(g, s, u)
      {
        var p :| Edge(g, p, s) && Bad(script, held, p);
        if Doomed(g, script, p) || !OutcomeOf(script, p).final.IsOk() { DoomedInherits(g, script, p, s); }
        assert p in u;
      }
      StuckMeansCycle(g, u);
      assert false;
    }
    forall s | s in held
      ensures Doomed(g, script, s)
    {
      assert s !in u;
    }
  }

  /** Where a phase takes a service: a function of the graph and the workers' outcomes alone. */
  ghost function PhaseClass(g: Graph, script: Script, base: Class, s: Service): Class {
    if s !in g.succ then base
    else if Doomed(g, script, s) then Worse(base, Skipped)
    else AfterWorker(base, OutcomeOf(script, s))
  }

  ghost predicate Completes(script: Script, sorter: Sorter, base: Lists, acts: seq<Action>, st: Phase) {
    Runs(script, Start(sorter, base), acts, st) && st.pc == Exited
  }

  ghost predicate Prepared(sorter: Sorter) {
    SorterInv(sorter, {}, {}) && !Cyclic(sorter.graph)
  }

  /** What a phase leaves behind, whatever the schedule. */
  ghost predicate PhaseEnd(script: Script, g: Graph, base: Lists, st: Phase) {
    && st.queue == [] && st.workers == map[] && st.batch == []
    && Tidy(st.lists)
    && (forall s :: ClassOf(st.lists, s) == PhaseClass(g, script, ClassOf(base, s), s))
    && (forall s :: SentOf(st.log, s) ==
          if s in g.succ && !Doomed(g, script, s) then OutcomeOf(script, s).commands else [])
    && (forall s :: multiset(st.log)[Started(s)] == if s in g.succ && !Doomed(g, script, s) then 1 else 0)
    && (forall s :: Finished(s) in st.log <==> s in g.succ)
    && AfterPreds(g, st.log)
  }

  lemma ExitHeld(script: Script, st: Phase)
    requires Blame(script, st) && st.fin == st.sorter.graph.succ.Keys && st.queue == [] && st.workers == map[]
    ensures HeldByPreds(st.sorter.graph, script, st.held) && st.held <= st.fin
  {}

  ghost predicate Quiet(st: Phase) {
    st.fin == st.sorter.graph.succ.Keys && st.queue == [] && st.workers == map[] && st.batch == []
  }

  lemma QuietPlaces(st: Phase)
    requires Quiet(st)
    ensures forall s :: PlaceOf(st, s) == if s in st.sorter.graph.succ then Over else Waiting
  {}

  lemma ExitLists(script: Script, base: Lists, st: Phase)
    requires ListsRight(script, base, st) && Quiet(st) && st.held <= st.fin
    ensures Tidy(st.lists)
    ensures forall s :: ClassOf(st.lists, s) ==
              if s !in st.sorter.graph.succ then ClassOf(base, s)
              else if s in st.held then Worse(ClassOf(base, s), Skipped)
              else AfterWorker(ClassOf(base, s), OutcomeOf(script, s))
  {
    hide Tidy, ClassOf, PlaceOf;
    QuietPlaces(st);
  }

  lemma ExitTrace(script: Script, st: Phase)
    requires Trace(script, st) && Quiet(st) && st.held <= st.fin
    ensures forall s :: SentOf(st.log, s) ==
              if s in st.sorter.graph.succ && s !in st.held then OutcomeOf(script, s).commands else []
    ensures forall s :: multiset(st.log)[Started(s)] == if s in st.sorter.graph.succ && s !in st.held then 1 else 0
    ensures forall s :: Finished(s) in st.log <==> s in st.sorter.graph.succ
    ensures AfterPreds(st.sorter.graph, st.log)
  {
    hide SentOf, AfterPreds, PlaceOf;
    QuietPlaces(st);
  }

  lemma ExitListsAndTrace(script: Script, base: Lists, st: Phase)
    requires ListsRight(script, base, st) && Trace(script, st) && Quiet(st)
    requires forall s :: s in st.held <==> Doomed(st.sorter.graph, script, s)
    requires st.held <= st.fin
    ensures PhaseEnd(script, st.sorter.graph, base, st)
  {
    hide ListsRight, Trace, Doomed, AfterPreds, SentOf, Tidy, ClassOf, AfterWorker;
    ExitLists(script, base, st);
    ExitTrace(script, st);
  }

  /** Schedule independence of a phase: every complete schedule ends the same way. */
  lemma PhaseOutcome(script: Script, sorter: Sorter, base: Lists, acts: seq<Action>, st: Phase)
    requires Prepared(sorter) && Tidy(base) && Completes(script, sorter, base, acts, st)
    ensures PhaseEnd(script, sorter.graph, base, st)
  {
    hide SorterInv, Cyclic, Tidy, HandOff, Blame, ListsRight, Trace, PhaseEnd, HeldByPreds;
    StartInv(script, sorter, base);
    RunInv(script, base, Start(sorter, base), acts, st);
    ExitIsQuiet(script, base, st);
    ExitHeld(script, st);
    ExitIsValid(st);
    HeldIsDoomed(st.sorter.graph, script, st.held);
    ExitListsAndTrace(script, base, st);
  }

  lemma ExitIsValid(st: Phase)
    requires HandOff(st)
    ensures ValidGraph(st.sorter.graph)
  {}

  /** Confluence: two complete schedules agree on the class of every service and on the commands sent to it. */
  lemma SchedulesAgree(script: Script, sorter: Sorter, base: Lists,
                       acts: seq<Action>, st: Phase, acts': seq<Action>, st': Phase)
    requires Prepared(sorter) && Tidy(base)
    requires Completes(script, sorter, base, acts, st) && Completes(script, sorter, base, acts', st')
    ensures forall s :: ClassOf(st.lists, s) == ClassOf(st'.lists, s)
    ensures forall s :: SentOf(st.log, s) == SentOf(st'.log, s)
    ensures st.sorter.graph == st'.sorter.graph
  {
    hide Prepared, Tidy;
    PhaseOutcome(script, sorter, base, acts, st);
    PhaseOutcome(script, sorter, base, acts', st');
    RunKeepsGraph(script, Start(sorter, base), acts, st);
    RunKeepsGraph(script, Start(sorter, base), acts', st');
  }

  lemma {:induction false} RunKeepsGraph(script: Script, st: Phase, acts: seq<Action>, st': Phase)
    requires Runs(script, st, acts, st')
    ensures st'.sorter.graph == st.sorter.graph
    decreases |acts|
  {
    if acts == [] {
    } else {
      RunKeepsGraph(script, Apply(script, st, acts[0]), acts[1..], st');
    }
  }
}
