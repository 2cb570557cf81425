/**
 * The four shared result lists of a run and the two operations that move a service
 * between them, with the per-service automaton they implement.
 */
module Results {
  import opened Graphs

  /** The two flags of a service response that decide what happens to the service. */
  datatype Verdict = Verdict(serviceStatus: bool, allowFailure: bool) {
    predicate IsOk() { serviceStatus || allowFailure }
  }

  const FAILED := Verdict(false, false)

  datatype Lists = Lists(done: seq<Service>, warned: seq<Service>, failed: seq<Service>, skipped: seq<Service>)

  const NO_RESULTS := Lists([], [], [], [])

  /** list.remove on an element that is present, nothing otherwise. */
  function Without(s: seq<Service>, x: Service): seq<Service> {
    if s == [] then [] else if s[0] == x then s[1..] else [s[0]] + Without(s[1..], x)
  }

  function WithNew(s: seq<Service>, x: Service): seq<Service> {
    if x in s then s else s + [x]
  }

  function Sortout(b: Lists, s: Service, v: Verdict): Lists {
    if v.serviceStatus then
      if s !in b.failed && s !in b.warned && s !in b.done then b.(done := b.done + [s]) else b
    else if v.allowFailure then
      if s !in b.failed then b.(warned := WithNew(b.warned, s), done := Without(b.done, s)) else b
    else
      b.(failed := WithNew(b.failed, s), warned := Without(b.warned, s), done := Without(b.done, s))
  }

  function Skip(b: Lists, s: Service): Lists {
    if s in b.failed then b
    else b.(skipped := WithNew(b.skipped, s), done := Without(b.done, s), warned := Without(b.warned, s))
  }

  /** Every caller sorts a response only if the service has not been skipped. */
  function SortoutUnlessSkipped(b: Lists, s: Service, v: Verdict): Lists {
    if s in b.skipped then b else Sortout(b, s, v)
  }

  // ---------------------------------------------------------------- the automaton of one service

  datatype Class = Unlisted | Done | Warned | Failed | Skipped

  function ClassOf(b: Lists, s: Service): Class {
    if s in b.skipped then Skipped
    else if s in b.failed then Failed
    else if s in b.warned then Warned
    else if s in b.done then Done
    else Unlisted
  }

  function Rank(c: Class): nat {
    match c case Unlisted => 0 case Done => 1 case Warned => 2 case Failed => 3 case Skipped => 3
  }

  function VerdictClass(v: Verdict): Class {
    if v.serviceStatus then Done else if v.allowFailure then Warned else Failed
  }

  /** The later, if it is strictly worse: failed and skipped absorb everything. */
  function Worse(c: Class, d: Class): Class {
    if Rank(c) < Rank(d) then d else c
  }

  ghost predicate Tidy(b: Lists) {
    && Distinct(b.done) && Distinct(b.warned) && Distinct(b.failed) && Distinct(b.skipped)
    && (forall s :: s in b.done ==> s !in b.warned && s !in b.failed && s !in b.skipped)
    && (forall s :: s in b.warned ==> s !in b.failed && s !in b.skipped)
    && (forall s :: s in b.failed ==> s !in b.skipped)
  }

  lemma {:induction false} WithoutRemoves(s: seq<Service>, x: Service)
    requires Distinct(s)
    ensures Distinct(Without(s, x))
    ensures forall y :: y in Without(s, x) <==> y in s && y != x
  {
    if s == [] {
    } else {
      var t := s[1..];
      WithoutRemoves(t, x);
      assert s == [s[0]] + t;
      assert s[0] !in t;
    }
  }

  lemma WithNewAdds(s: seq<Service>, x: Service)
    requires Distinct(s)
    ensures Distinct(WithNew(s, x))
    ensures forall y :: y in WithNew(s, x) <==> y in s || y == x
  {}

  ghost predicate ChangesOnly(b: Lists, b': Lists, s: Service, c: Class) {
    Tidy(b') && ClassOf(b', s) == c && forall t :: t != s ==> ClassOf(b', t) == ClassOf(b, t)
  }

  /**
   * Sorting a response keeps the lists duplicate-free and disjoint and moves its own service only, and only upwards.
   */
  lemma SortoutRefines(b: Lists, s: Service, v: Verdict)
    requires Tidy(b)
    ensures ChangesOnly(b, SortoutUnlessSkipped(b, s, v), s, Worse(ClassOf(b, s), VerdictClass(v)))
  {
    WithoutRemoves(b.done, s);
    WithoutRemoves(b.warned, s);
    WithNewAdds(b.warned, s);
    WithNewAdds(b.failed, s);
  }

  /** Skipping moves anything but a failed service to the skipped list. */
  lemma SkipRefines(b: Lists, s: Service)
    requires Tidy(b)
    ensures ChangesOnly(b, Skip(b, s), s, Worse(ClassOf(b, s), Skipped))
  {
    WithoutRemoves(b.done, s);
    WithoutRemoves(b.warned, s);
    WithNewAdds(b.skipped, s);
  }

  datatype Op = Sort(service: Service, verdict: Verdict) | SkipIt(service: Service)

  function ApplyOp(b: Lists, op: Op): Lists {
    match op
    case Sort(s, v) => SortoutUnlessSkipped(b, s, v)
    case SkipIt(s) => Skip(b, s)
  }

  function OpClass(op: Op): Class {
    match op case Sort(_, v) => VerdictClass(v) case SkipIt(_) => Skipped
  }

  lemma OpRefines(b: Lists, op: Op)
    requires Tidy(b)
    ensures ChangesOnly(b, ApplyOp(b, op), op.service, Worse(ClassOf(b, op.service), OpClass(op)))
  {
    match op
    case Sort(s, v) => SortoutRefines(b, s, v);
    case SkipIt(s) => SkipRefines(b, s);
  }

  function ApplyOps(b: Lists, ops: seq<Op>): Lists
    decreases |ops|
  {
    if ops == [] then b else ApplyOps(ApplyOp(b, ops[0]), ops[1..])
  }

  /** The worst class the operations on s reach, in order. */
  function WorstOf(c: Class, ops: seq<Op>, s: Service): Class
    decreases |ops|
  {
    if ops == [] then c
    else WorstOf(if ops[0].service == s then Worse(c, OpClass(ops[0])) else c, ops[1..], s)
  }

  /** Over any trace of operations the four lists refine the product of the per-service automata. */
  lemma {:induction false} TraceRefines(b: Lists, ops: seq<Op>)
    requires Tidy(b)
    ensures Tidy(ApplyOps(b, ops))
    ensures forall s :: ClassOf(ApplyOps(b, ops), s) == WorstOf(ClassOf(b, s), ops, s)
    decreases |ops|
  {
    if ops == [] {
    } else {
      OpRefines(b, ops[0]);
      TraceRefines(ApplyOp(b, ops[0]), ops[1..]);
    }
  }

  /** Operations on different services commute, whatever they are. */
  lemma OpsCommute(b: Lists, x: Op, y: Op)
    requires Tidy(b) && x.service != y.service
    ensures forall s :: ClassOf(ApplyOp(ApplyOp(b, x), y), s) == ClassOf(ApplyOp(ApplyOp(b, y), x), s)
  {
    OpRefines(b, x);
    OpRefines(b, y);
    OpRefines(ApplyOp(b, x), y);
    OpRefines(ApplyOp(b, y), x);
  }

  // ---------------------------------------------------------------- the lists as the program holds them

  class ResultLists {
    var doneServices: seq<Service>
    var warnedServices: seq<Service>
    var failedServices: seq<Service>
    var skippedDueDepsServices: seq<Service>

    function Value(): Lists
      reads this
    {
      Lists(doneServices, warnedServices, failedServices, skippedDueDepsServices)
    }

    constructor ()
      ensures Value() == NO_RESULTS
    {
      doneServices, warnedServices, failedServices, skippedDueDepsServices := [], [], [], [];
    }

    method SortoutServiceResults(service: Service, v: Verdict)
      modifies this
      ensures Value() == Sortout(old(Value()), service, v)
    {
      if v.serviceStatus {
        if service !in failedServices && service !in warnedServices && service !in doneServices {
          doneServices := doneServices + [service];
        }
      } else if v.allowFailure {
        if service !in failedServices {
          if service !in warnedServices { warnedServices := warnedServices + [service]; }
          RemoveDone(service);
        }
      } else {
        if service !in failedServices { failedServices := failedServices + [service]; }
        RemoveWarned(service);
        RemoveDone(service);
      }
    }

    method SkipServiceDueDeps(service: Service)
      modifies this
      ensures Value() == Skip(old(Value()), service)
    {
      if service in failedServices { return; }
      if service !in skippedDueDepsServices { skippedDueDepsServices := skippedDueDepsServices + [service]; }
      RemoveDone(service);
      RemoveWarned(service);
    }

    method RemoveDone(service: Service)
      modifies this`doneServices
      ensures doneServices == Without(old(doneServices), service)
    {
      doneServices := RemoveFirst(doneServices, service);
    }

    method RemoveWarned(service: Service)
      modifies this`warnedServices
      ensures warnedServices == Without(old(warnedServices), service)
    {
      warnedServices := RemoveFirst(warnedServices, service);
    }
  }

  lemma {:induction false} WithoutSplit(s: seq<Service>, x: Service, i: nat)
    requires i <= |s| && x !in s[..i]
    ensures Without(s, x) == s[..i] + Without(s[i..], x)
  {
    if i == 0 {
      assert s[0..] == s;
    } else {
      assert s[0] in s[..i];
      assert s[1..][..i - 1] == s[..i][1..] && s[1..][i - 1..] == s[i..];
      WithoutSplit(s[1..], x, i - 1);
    }
  }

  method RemoveFirst(s: seq<Service>, x: Service) returns (r: seq<Service>)
    ensures r == Without(s, x)
  {
    for i := 0 to |s|
      invariant x !in s[..i]
    {
      if s[i] == x {
        WithoutSplit(s, x, i);
        return s[..i] + s[i + 1..];
      }
    }
    WithoutSplit(s, x, |s|);
    assert s[..|s|] == s;
    r := s;
  }
}
