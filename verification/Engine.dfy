/**
 * One phase of a run: the main loop that hands services out of the sorter, the workers it
 * starts, and the queue through which their responses come back.  A schedule is a sequence
 * of actions; any running worker may act at any point between two actions of the main loop.
 */
module Engine {
  import opened Graphs
  import opened Sorters
  import opened Results

  datatype Site = Site(name: string)

  datatype Mode = Active | Standby | Disable

  /** The fields of a status reply that sm-client looks at; "" stands for an absent field. */
  datatype Reply = Reply(mode: string, healthz: string, status: string, message: string)

  /**
   * A mode change sent for a service: where, which mode, the reply it was judged by, the verdict,
   * and whether the worker itself sorted the verdict into the result lists.
   */
  datatype Command = Command(site: Site, mode: Mode, reply: Reply, verdict: Verdict, sorted: bool)

  /** Everything a worker does: its commands in order, then the one response it queues. */
  datatype Outcome = Outcome(commands: seq<Command>, final: Verdict)

  type Script = map<Service, Outcome>

  function OutcomeOf(script: Script, s: Service): Outcome {
    if s in script then script[s] else Outcome([], FAILED)
  }

  datatype Response = Response(service: Service, verdict: Verdict)

  datatype Pc = Top | Serving | Exited | Crashed

  datatype Event =
    | Started(service: Service)
    | Held(service: Service)
    | Sent(service: Service, command: Command)
    | Finished(service: Service)

  /** `fin`, `held` and `log` are history; everything else is state of the program. */
  datatype Phase = Phase(
    sorter: Sorter,
    pc: Pc,
    batch: seq<Service>,               // handed out by the sorter, not yet looked at
    workers: map<Service, nat>,        // running workers, with the number of commands done
    queue: seq<Response>,
    failedSuccessors: seq<Service>,
    lists: Lists,
    fin: set<Service>,
    held: set<Service>,
    log: seq<Event>)

  datatype Action = Check | Hand | Take | Work(service: Service)

  function Start(sorter: Sorter, lists: Lists): Phase {
    Phase(sorter, Top, [], map[], [], [], lists, {}, {}, [])
  }

  predicate Enabled(st: Phase, a: Action) {
    match a
    case Check => st.pc == Top
    case Hand => st.pc == Serving && st.batch != []
    case Take => st.pc == Serving && st.batch == [] && st.queue != []
    case Work(s) => s in st.workers
  }

  function DoCheck(st: Phase): Phase {
    if CanProgress(st.sorter)
    then st.(pc := Serving, batch := st.sorter.ready, sorter := GetReady(st.sorter))
    else st.(pc := Exited)
  }

  function DoHand(st: Phase): Phase
    requires st.batch != []
  {
    var s, st' := st.batch[0], st.(batch := st.batch[1..]);
    if s in st.failedSuccessors
    then st'.(lists := Skip(st.lists, s), queue := st.queue + [Response(s, FAILED)],
              held := st.held + {s}, log := st.log + [Held(s)])
    else st'.(workers := st.workers[s := 0], log := st.log + [Started(s)])
  }

  function SuccessorsOf(g: Graph, s: Service): seq<Service> {
    if s in g.succ then g.succ[s] else []
  }

  /** `done` raises an error unless the sorter has passed the node out and not seen it finished. */
  function DoTake(st: Phase): Phase
    requires st.queue != []
  {
    var r := st.queue[0];
    if !CanFinish(st.sorter, r.service) then st.(pc := Crashed) else
      st.(queue := st.queue[1..],
          failedSuccessors := if r.verdict.IsOk() then st.failedSuccessors
                              else st.failedSuccessors + SuccessorsOf(st.sorter.graph, r.service),
          sorter := Finish(st.sorter, r.service),
          lists := SortoutUnlessSkipped(st.lists, r.service, r.verdict),
          pc := Top,
          fin := st.fin + {r.service},
          log := st.log + [Finished(r.service)])
  }

  function DoWork(script: Script, st: Phase, s: Service): Phase
    requires s in st.workers
  {
    var o, k := OutcomeOf(script, s), st.workers[s];
    if k < |o.commands| then
      var c := o.commands[k];
      st.(workers := st.workers[s := k + 1],
          lists := if c.sorted then SortoutUnlessSkipped(st.lists, s, c.verdict) else st.lists,
          log := st.log + [Sent(s, c)])
    else
      st.(workers := st.workers - {s}, queue := st.queue + [Response(s, o.final)])
  }

  function Apply(script: Script, st: Phase, a: Action): Phase
    requires Enabled(st, a)
  {
    match a
    case Check => DoCheck(st)
    case Hand => DoHand(st)
    case Take => DoTake(st)
    case Work(s) => DoWork(script, st, s)
  }

  /** The schedule leads from one state to the other. */
  ghost predicate Runs(script: Script, st: Phase, acts: seq<Action>, st': Phase)
    decreases |acts|
  {
    if acts == [] then st == st'
    else Enabled(st, acts[0]) && Runs(script, Apply(script, st, acts[0]), acts[1..], st')
  }

  // ---------------------------------------------------------------- who holds a service

  function Queued(q: seq<Response>): set<Service> {
    set r | r in q :: r.service
  }

  /** Passed out by the sorter and not finished: waiting in the batch, running, or answered. */
  function Out(st: Phase): set<Service> {
    Elements(st.batch) + st.workers.Keys + Queued(st.queue)
  }

  ghost predicate EachOnce(st: Phase) {
    && Distinct(st.batch)
    && (forall i, j :: 0 <= i < j < |st.queue| ==> st.queue[i].service != st.queue[j].service)
    && Elements(st.batch) !! st.workers.Keys !! Queued(st.queue)
  }

  /** Every node handed out and unfinished is in exactly one place, and the sorter knows exactly those. */
  ghost predicate HandOff(st: Phase) {
    && EachOnce(st)
    && SorterInv(st.sorter, Out(st), st.fin)
    && st.pc != Crashed
    && (st.pc != Serving ==> st.batch == [])
    && (st.pc == Serving ==> st.sorter.ready == [] && Out(st) != {})
    && (st.pc == Exited ==> !CanProgress(st.sorter))
  }

  lemma StartHandOff(sorter: Sorter, lists: Lists)
    requires SorterInv(sorter, {}, {})
    ensures HandOff(Start(sorter, lists))
  {}

  lemma OutAfterCheck(st: Phase)
    requires EachOnce(st) && st.pc == Top && st.batch == [] && CanProgress(st.sorter)
    requires Distinct(st.sorter.ready) && Elements(st.sorter.ready) !! Out(st)
    ensures EachOnce(DoCheck(st)) && Out(DoCheck(st)) == Out(st) + Elements(st.sorter.ready)
  {}

  lemma CheckHandOff(st: Phase)
    requires HandOff(st) && st.pc == Top
    ensures HandOff(DoCheck(st))
  {
    if CanProgress(st.sorter) {
      GetReadyKeepsInv(st.sorter, Out(st), st.fin);
      OutAfterCheck(st);
      if st.sorter.ready != [] {
        assert st.sorter.ready[0] in Out(DoCheck(st));
      }
    }
  }

  lemma OutAfterHand(st: Phase)
    requires EachOnce(st) && Enabled(st, Hand)
    ensures EachOnce(DoHand(st)) && Out(DoHand(st)) == Out(st)
  {
    var s, st' := st.batch[0], DoHand(st);
    assert st.batch == [s] + st'.batch;
    assert s in Elements(st.batch) && Elements(st'.batch) == Elements(st.batch) - {s};
    assert Queued(st.queue + [Response(s, FAILED)]) == Queued(st.queue) + {s};
  }

  lemma HandHandOff(st: Phase)
    requires HandOff(st) && Enabled(st, Hand)
    ensures HandOff(DoHand(st)) && Out(DoHand(st)) == Out(st)
  {
    OutAfterHand(st);
  }

  lemma OutAfterTake(st: Phase)
    requires EachOnce(st) && Enabled(st, Take) && CanFinish(st.sorter, st.queue[0].service)
    ensures st.queue[0].service in Out(st)
    ensures EachOnce(DoTake(st)) && Out(DoTake(st)) == Out(st) - {st.queue[0].service}
  {}

  /** `done` is only ever called on a passed-out unfinished node. */
  lemma TakeHandOff(st: Phase)
    requires st.queue != [] && HandOff(st) && Enabled(st, Take)
    ensures CanFinish(st.sorter, st.queue[0].service)
    ensures HandOff(DoTake(st)) && Out(DoTake(st)) == Out(st) - {st.queue[0].service}
  {
    assert st.queue[0].service in Queued(st.queue);
    DoneKeepsInv(st.sorter, Out(st), st.fin, st.queue[0].service);
    OutAfterTake(st);
  }

  lemma OutAfterWork(script: Script, st: Phase, s: Service)
    requires EachOnce(st) && s in st.workers
    ensures EachOnce(DoWork(script, st, s)) && Out(DoWork(script, st, s)) == Out(st)
  {
    var o := OutcomeOf(script, s);
    assert Queued(st.queue + [Response(s, o.final)]) == Queued(st.queue) + {s};
  }

  lemma WorkHandOff(script: Script, st: Phase, s: Service)
    requires HandOff(st) && s in st.workers
    ensures HandOff(DoWork(script, st, s)) && Out(DoWork(script, st, s)) == Out(st)
  {
    OutAfterWork(script, st, s);
  }

  // ---------------------------------------------------------------- the way of one service through a phase

  datatype Place = Waiting | Running(done: nat) | Answered | Over

  function PlaceOf(st: Phase, s: Service): Place {
    if s in st.fin then Over
    else if s in st.workers then Running(st.workers[s])
    else if s in Queued(st.queue) then Answered
    else Waiting
  }

  ghost predicate Moves(st: Phase, st': Phase, s: Service, from: Place, to: Place) {
    && PlaceOf(st, s) == from && PlaceOf(st', s) == to
    && (forall t :: t != s ==> PlaceOf(st', t) == PlaceOf(st, t))
  }

  ghost predicate Disjoint(st: Phase) {
    EachOnce(st) && Out(st) !! st.fin
  }

  lemma HandMoves(st: Phase)
    requires Disjoint(st) && Enabled(st, Hand)
    ensures var s := st.batch[0];
            Moves(st, DoHand(st), s, Waiting, if s in st.failedSuccessors then Answered else Running(0))
  {}

  lemma TakeMoves(st: Phase)
    requires Disjoint(st) && Enabled(st, Take) && CanFinish(st.sorter, st.queue[0].service)
    ensures Moves(st, DoTake(st), st.queue[0].service, Answered, Over)
  {}

  lemma WorkMoves(script: Script, st: Phase, s: Service)
    requires Disjoint(st) && s in st.workers
    ensures var k := st.workers[s];
            Moves(st, DoWork(script, st, s), s, Running(k),
                  if k < |OutcomeOf(script, s).commands| then Running(k + 1) else Answered)
  {}

  // ---------------------------------------------------------------- which services are held back

  ghost predicate Bad(script: Script, held: set<Service>, p: Service) {
    p in held || !OutcomeOf(script, p).final.IsOk()
  }

  ghost predicate BadPred(g: Graph, script: Script, held: set<Service>, fin: set<Service>, n: Service) {
    exists p :: p in fin && Edge(g, p, n) && Bad(script, held, p)
  }

  ghost predicate PoisonRight(script: Script, st: Phase) {
    forall n :: n in st.failedSuccessors <==> BadPred(st.sorter.graph, script, st.held, st.fin, n)
  }

  ghost predicate HeldRight(st: Phase) {
    && (forall s :: s in st.held ==> PlaceOf(st, s) == Answered || PlaceOf(st, s) == Over)
    && (forall s :: PlaceOf(st, s) != Waiting ==> (s in st.held <==> s in st.failedSuccessors))
  }

  ghost predicate QueueRight(script: Script, st: Phase) {
    forall r :: r in st.queue ==>
      r.verdict == if r.service in st.held then FAILED else OutcomeOf(script, r.service).final
  }

  lemma HandPoison(script: Script, st: Phase)
    requires PoisonRight(script, st) && Enabled(st, Hand) && st.batch[0] !in st.fin
    ensures PoisonRight(script, DoHand(st))
  {}

  lemma HandHeld(st: Phase)
    requires Disjoint(st) && HeldRight(st) && Enabled(st, Hand)
    ensures HeldRight(DoHand(st))
  {
    HandMoves(st);
  }

  lemma HandQueue(script: Script, st: Phase)
    requires Disjoint(st) && QueueRight(script, st) && Enabled(st, Hand)
    ensures QueueRight(script, DoHand(st))
  {
    assert st.batch[0] in Elements(st.batch);
    assert forall r :: r in st.queue ==> r.service in Queued(st.queue);
  }

  lemma TakePoison(script: Script, st: Phase)
    requires PoisonRight(script, st) && QueueRight(script, st)
    requires Enabled(st, Take) && CanFinish(st.sorter, st.queue[0].service)
    ensures PoisonRight(script, DoTake(st))
  {}

  ghost predicate Clean(st: Phase) {
    forall s, p :: PlaceOf(st, s) != Waiting && Edge(st.sorter.graph, p, s) ==> p in st.fin
  }

  lemma HandOffIsClean(st: Phase)
    requires HandOff(st)
    ensures Disjoint(st) && Clean(st)
  {
    forall s | PlaceOf(st, s) != Waiting
      ensures PredsFinished(st.sorter.graph, s, st.fin)
    {
      assert s in Out(st) + st.fin;
    }
  }

  /** Once a service has been handed out, no later failure can reach it. */
  lemma TakeHeld(st: Phase)
    requires Disjoint(st) && Clean(st) && HeldRight(st)
    requires Enabled(st, Take) && CanFinish(st.sorter, st.queue[0].service)
    ensures HeldRight(DoTake(st))
  {
    TakeMoves(st);
    var p, g := st.queue[0].service, st.sorter.graph;
    forall s | PlaceOf(st, s) != Waiting
      ensures s !in SuccessorsOf(g, p)
    {
      assert p in g.succ && s in g.succ[p] ==> Edge(g, p, s);
    }
  }

  lemma TakeQueue(script: Script, st: Phase)
    requires QueueRight(script, st) && Enabled(st, Take) && CanFinish(st.sorter, st.queue[0].service)
    ensures QueueRight(script, DoTake(st))
  {}

  lemma WorkHeld(script: Script, st: Phase, s: Service)
    requires Disjoint(st) && HeldRight(st) && s in st.workers
    ensures HeldRight(DoWork(script, st, s))
  {}

  lemma WorkPoisonAndQueue(script: Script, st: Phase, s: Service)
    requires PoisonRight(script, st) && QueueRight(script, st) && s in st.workers && s !in st.held
    ensures PoisonRight(script, DoWork(script, st, s)) && QueueRight(script, DoWork(script, st, s))
  {}

  // ---------------------------------------------------------------- the result lists

  /** Where the commands of a worker leave its service, before the final response is sorted. */
  function AfterCommands(c: Class, cs: seq<Command>): Class {
    if cs == [] then c else
      var last, before := cs[|cs| - 1], AfterCommands(c, cs[..|cs| - 1]);
      if last.sorted then Worse(before, VerdictClass(last.verdict)) else before
  }

  function AfterWorker(c: Class, o: Outcome): Class {
    Worse(AfterCommands(c, o.commands), VerdictClass(o.final))
  }

  /** The commands a service has sent by the time it is at the given place. */
  function SentBy(o: Outcome, held: bool, at: Place): seq<Command> {
    match at
    case Waiting => []
    case Running(k) => if k <= |o.commands| then o.commands[..k] else []
    case _ => if held then [] else o.commands
  }

  function ClassAt(base: Class, o: Outcome, held: bool, at: Place): Class {
    if held then Worse(base, Skipped)
    else if at == Over then AfterWorker(base, o)
    else AfterCommands(base, SentBy(o, held, at))
  }

  ghost predicate CountsRight(script: Script, st: Phase) {
    forall s :: s in st.workers ==> st.workers[s] <= |OutcomeOf(script, s).commands|
  }

  ghost predicate ListsRight(script: Script, base: Lists, st: Phase) {
    && Tidy(st.lists)
    && (forall s :: ClassOf(st.lists, s) ==
                    ClassAt(ClassOf(base, s), OutcomeOf(script, s), s in st.held, PlaceOf(st, s)))
  }

  lemma HandLists(script: Script, base: Lists, st: Phase)
    requires Disjoint(st) && HeldRight(st) && ListsRight(script, base, st) && Enabled(st, Hand)
    ensures ListsRight(script, base, DoHand(st))
  {
    HandMoves(st);
    SkipRefines(st.lists, st.batch[0]);
  }

  lemma SkippedAbsorbs(c: Class)
    ensures Worse(Worse(c, Skipped), Failed) == Worse(c, Skipped)
  {}

  lemma TakeLists(script: Script, base: Lists, st: Phase)
    requires Disjoint(st) && QueueRight(script, st) && ListsRight(script, base, st)
    requires Enabled(st, Take) && CanFinish(st.sorter, st.queue[0].service)
    ensures ListsRight(script, base, DoTake(st))
  {
    var r := st.queue[0];
    TakeMoves(st);
    SortoutRefines(st.lists, r.service, r.verdict);
    assert r in st.queue;
    SkippedAbsorbs(ClassOf(base, r.service));
  }

  lemma WorkLists(script: Script, base: Lists, st: Phase, s: Service)
    requires Disjoint(st) && HeldRight(st) && CountsRight(script, st) && ListsRight(script, base, st)
    requires s in st.workers
    ensures ListsRight(script, base, DoWork(script, st, s))
  {
    hide Disjoint, Tidy, ClassOf, SortoutUnlessSkipped;
    WorkMoves(script, st, s);
    assert PlaceOf(st, s) == Running(st.workers[s]);
    hide PlaceOf;
    var o, k := OutcomeOf(script, s), st.workers[s];
    if k < |o.commands| {
      SortoutRefines(st.lists, s, o.commands[k].verdict);
      assert o.commands[..k + 1][..k] == o.commands[..k];
    } else {
      assert o.commands[..k] == o.commands;
    }
  }

  // ---------------------------------------------------------------- the trace

  /** The commands the log records for one service, in order. */
  function SentOf(log: seq<Event>, s: Service): seq<Command> {
    if log == [] then [] else
      var e, before := log[|log| - 1], SentOf(log[..|log| - 1], s);
      if e.Sent? && e.service == s then before + [e.command] else before
  }

  lemma SentOfAppend(log: seq<Event>, e: Event, s: Service)
    ensures SentOf(log + [e], s) == if e.Sent? && e.service == s then SentOf(log, s) + [e.command] else SentOf(log, s)
  {}

  ghost predicate SentRight(script: Script, st: Phase) {
    forall s :: SentOf(st.log, s) == SentBy(OutcomeOf(script, s), s in st.held, PlaceOf(st, s))
  }

  /** A service is dispatched once when it is handed to a worker, and never when it is held back. */
  ghost predicate StartsRight(st: Phase) {
    && (forall s :: multiset(st.log)[Started(s)] == if PlaceOf(st, s) != Waiting && s !in st.held then 1 else 0)
    && (forall s :: Finished(s) in st.log <==> s in st.fin)
  }

  /** Whatever happens to a service, all its predecessors have finished before. */
  ghost predicate AfterPreds(g: Graph, log: seq<Event>) {
    forall i, p :: 0 <= i < |log| && !log[i].Finished? && Edge(g, p, log[i].service) ==> Finished(p) in log[..i]
  }

  lemma AfterPredsAppend(g: Graph, log: seq<Event>, e: Event)
    requires AfterPreds(g, log)
    requires e.Finished? || forall p :: Edge(g, p, e.service) ==> Finished(p) in log
    ensures AfterPreds(g, log + [e])
  {
    var log' := log + [e];
    forall i, p | 0 <= i < |log'| && !log'[i].Finished? && Edge(g, p, log'[i].service)
      ensures Finished(p) in log'[..i]
    {
      if i < |log| {
        assert log'[..i] == log[..i] && log'[i] == log[i];
      } else {
        assert log'[..i] == log;
      }
    }
  }

  lemma HandSent(script: Script, st: Phase)
    requires Disjoint(st) && HeldRight(st) && SentRight(script, st) && Enabled(st, Hand)
    ensures SentRight(script, DoHand(st))
  {
    hide Disjoint, PlaceOf, SentOf;
    var s := st.batch[0];
    HandMoves(st);
    assert OutcomeOf(script, s).commands[..0] == [];
    forall t
      ensures SentOf(DoHand(st).log, t) == SentOf(st.log, t)
    {
      SentOfAppend(st.log, if s in st.failedSuccessors then Held(s) else Started(s), t);
    }
  }

  lemma TakeSent(script: Script, st: Phase)
    requires Disjoint(st) && SentRight(script, st)
    requires Enabled(st, Take) && CanFinish(st.sorter, st.queue[0].service)
    ensures SentRight(script, DoTake(st))
  {}

  lemma WorkSent(script: Script, st: Phase, s: Service)
    requires Disjoint(st) && HeldRight(st) && CountsRight(script, st) && SentRight(script, st) && s in st.workers
    ensures SentRight(script, DoWork(script, st, s))
  {
    hide Disjoint, SentOf;
    WorkMoves(script, st, s);
    assert PlaceOf(st, s) == Running(st.workers[s]);
    hide PlaceOf;
    var o, k := OutcomeOf(script, s), st.workers[s];
    if k < |o.commands| {
      assert o.commands[..k + 1] == o.commands[..k] + [o.commands[k]];
      forall t {:trigger SentOf(st.log, t)} { SentOfAppend(st.log, Sent(s, o.commands[k]), t); }
    } else {
      assert o.commands[..k] == o.commands;
    }
  }

  lemma HandStarts(st: Phase)
    requires Disjoint(st) && HeldRight(st) && StartsRight(st) && Enabled(st, Hand)
    ensures StartsRight(DoHand(st))
  {
    HandMoves(st);
    var s := st.batch[0];
    var e := if s in st.failedSuccessors then Held(s) else Started(s);
    assert DoHand(st).log == st.log + [e];
  }

  lemma TakeStarts(st: Phase)
    requires Disjoint(st) && StartsRight(st)
    requires Enabled(st, Take) && CanFinish(st.sorter, st.queue[0].service)
    ensures StartsRight(DoTake(st))
  {}

  lemma WorkStarts(script: Script, st: Phase, s: Service)
    requires Disjoint(st) && StartsRight(st) && s in st.workers
    ensures StartsRight(DoWork(script, st, s))
  {}

  ghost predicate InOrder(st: Phase) {
    AfterPreds(st.sorter.graph, st.log)
  }

  lemma OutEventInOrder(st: Phase, e: Event)
    requires SorterInv(st.sorter, Out(st), st.fin) && StartsRight(st) && InOrder(st)
    requires e.service in Out(st)
    ensures AfterPreds(st.sorter.graph, st.log + [e])
  {
    assert PredsFinished(st.sorter.graph, e.service, st.fin);
    AfterPredsAppend(st.sorter.graph, st.log, e);
  }

  lemma HandInOrder(st: Phase)
    requires HandOff(st) && StartsRight(st) && InOrder(st) && Enabled(st, Hand)
    ensures InOrder(DoHand(st))
  {
    var s := st.batch[0];
    assert s in Elements(st.batch);
    OutEventInOrder(st, if s in st.failedSuccessors then Held(s) else Started(s));
  }

  lemma TakeInOrder(st: Phase)
    requires InOrder(st) && Enabled(st, Take) && CanFinish(st.sorter, st.queue[0].service)
    ensures InOrder(DoTake(st))
  {
    AfterPredsAppend(st.sorter.graph, st.log, Finished(st.queue[0].service));
  }

  lemma WorkInOrder(script: Script, st: Phase, s: Service)
    requires HandOff(st) && StartsRight(st) && InOrder(st) && s in st.workers
    ensures InOrder(DoWork(script, st, s))
  {
    hide SorterInv, EachOnce, StartsRight, AfterPreds;
    var o, k := OutcomeOf(script, s), st.workers[s];
    assert s in Out(st);
    if k < |o.commands| { OutEventInOrder(st, Sent(s, o.commands[k])); }
  }
}
