/**
 * The status walk of site-manager: from one service along its dependencies in both directions,
 * over a graph that may be cyclic, with a result map that doubles as the visited set.
 */
module StatusCollection {
  import opened Graphs
  import opened Wrappers

  datatype SMObject = SMObject(after: seq<Service>, before: seq<Service>)

  /** The dictionary of services; every object is stored under its own name. */
  type SMDict = map<Service, SMObject>

  datatype Deps = Deps(after: seq<Service>, before: seq<Service>)

  datatype SMStatus = SMStatus(mode: string, status: string, health: string, message: string)

  /** A collected status, with the dependencies when they were asked for. */
  datatype Collected = Collected(status: SMStatus, deps: Option<Deps>)

  const NO_STATUS := SMStatus("--", "--", "--", "")

  datatype SMError = SMError(message: string, service: Option<Service>, problemCR: Option<Service>)

  const NO_NAME := "run-service value should be defined and have String type"
  const NO_SERVICE := "Service doesn't exist"
  const NO_DEPENDENCY := "Dependency defined in CR doesn't exist"

  const REQUEST_FAILED := "Service request failed, error: "

  /** What the two requests to a service give: a status, or the error message of the failed one. */
  datatype Answer = Status(status: SMStatus) | Failure(message: string)

  /** Dependencies in both directions, as one graph. */
  function DepGraph(dict: SMDict): Graph {
    Graph([], map s | s in dict :: dict[s].after + dict[s].before)
  }

  predicate DependsOn(dict: SMDict, s: Service, d: Service) {
    s in dict && (d in dict[s].after || d in dict[s].before)
  }

  lemma DepEdge(dict: SMDict, s: Service, d: Service)
    ensures Edge(DepGraph(dict), s, d) <==> DependsOn(dict, s, d)
  {}

  ghost predicate Reachable(dict: SMDict, from: Service, to: Service) {
    from == to || Ancestor(DepGraph(dict), from, to)
  }

  ghost predicate ReachableFrom(dict: SMDict, roots: seq<Service>, to: Service) {
    exists r :: r in roots && Reachable(dict, r, to)
  }

  lemma ReachDependency(dict: SMDict, s: Service, roots: seq<Service>, to: Service)
    requires ReachableFrom(dict, roots, to) && forall d :: d in roots ==> DependsOn(dict, s, d)
    ensures Reachable(dict, s, to)
  {
    var d :| d in roots && Reachable(dict, d, to);
    DepEdge(dict, s, d);
    EdgeIsAncestor(DepGraph(dict), s, d);
    if d != to { AncestorTransitive(DepGraph(dict), s, d, to); }
  }

  /** All dependencies of the services added to old are in now. */
  ghost predicate Closed(dict: SMDict, was: set<Service>, now: set<Service>) {
    forall s, d :: s in now && s !in was && DependsOn(dict, s, d) ==> d in now
  }

  /** A set that contains a service and all dependencies of its members contains everything reachable. */
  lemma {:induction false} ClosedReaches(dict: SMDict, now: set<Service>, a: Service, via: seq<Service>, b: Service)
    requires Closed(dict, {}, now) && a in now && Path(DepGraph(dict), a, via, b)
    ensures b in now
    decreases |via|
  {
    if via == [] {
      DepEdge(dict, a, b);
    } else {
      DepEdge(dict, a, via[0]);
      ClosedReaches(dict, now, via[0], via[1..], b);
    }
  }

  lemma ClosedIsReachable(dict: SMDict, now: set<Service>, root: Service)
    requires Closed(dict, {}, now) && root in now && forall s :: s in now ==> Reachable(dict, root, s)
    ensures forall s :: s in now <==> Reachable(dict, root, s)
  {
    forall s | Reachable(dict, root, s) && s != root
      ensures s in now
    {
      var via :| Path(DepGraph(dict), root, via, s);
      ClosedReaches(dict, now, root, via, s);
    }
  }

  /** The named dependency is not in the dictionary; the given parent, or a new service, has it. */
  ghost predicate BlamesDependency(dict: SMDict, was: set<Service>, now: set<Service>, parent: Option<Service>,
                                   roots: seq<Service>, e: SMError) {
    && e.message == NO_DEPENDENCY
    && e.service.Some? && e.service.value !in dict
    && ((e.problemCR == parent && e.service.value in roots)
        || (e.problemCR.Some? && e.problemCR.value in now - was
            && DependsOn(dict, e.problemCR.value, e.service.value)))
  }

  /** The named service was asked for the first time, and its request failed with the reported message. */
  ghost predicate BlamesRequest(ask: Service -> Answer, was: set<Service>, now: set<Service>, e: SMError) {
    && e.service.Some? && e.service.value in now - was && ask(e.service.value).Failure?
    && e == SMError(REQUEST_FAILED + ask(e.service.value).message, e.service, None)
  }

  /** Without dependencies only a missing root of the walk itself, or a failed request, can be blamed. */
  ghost predicate BlamesRightly(dict: SMDict, ask: Service -> Answer, withDeps: bool, was: set<Service>,
                                now: set<Service>, parent: Option<Service>, roots: seq<Service>, e: SMError) {
    || BlamesRequest(ask, was, now, e)
    || (BlamesDependency(dict, was, now, parent, roots, e) && (withDeps || parent.Some?))
  }

  /** Every new service answered, and with dependencies all of those are there, too. */
  ghost predicate WalkDone(dict: SMDict, ask: Service -> Answer, withDeps: bool, was: set<Service>, now: set<Service>) {
    (forall s :: s in now - was ==> ask(s).Status?) && (withDeps ==> Closed(dict, was, now))
  }

  /** What is stored for a service: an empty status if it did not answer, and else also the dependencies, if wanted. */
  predicate Recorded(dict: SMDict, ask: Service -> Answer, withDeps: bool, s: Service, got: Collected)
    requires s in dict
  {
    match ask(s)
    case Failure(_) => got == Collected(NO_STATUS, None)
    case Status(status) =>
      got == Collected(status, if withDeps then Some(Deps(dict[s].after, dict[s].before)) else None)
  }

  /** The walk's own part of the result: everything new is reachable, known and correctly reported. */
  ghost predicate WalkRight(dict: SMDict, ask: Service -> Answer, withDeps: bool, roots: seq<Service>,
                            was: map<Service, Collected>, now: map<Service, Collected>) {
    && (forall s :: s in was ==> s in now && now[s] == was[s])
    && (forall s :: s in now && s !in was ==> s in dict && ReachableFrom(dict, roots, s)
                                              && Recorded(dict, ask, withDeps, s, now[s]))
  }

  class StatusResponse {
    var services: map<Service, Collected>
    ghost var asked: seq<Service>     // every service whose status was requested, in order

    constructor ()
      ensures services == map[] && asked == []
    {
      services, asked := map[], [];
    }

    /** Each service is asked at most once, and exactly those in the result have been. */
    ghost predicate AskedOnce()
      reads this
    {
      Distinct(asked) && forall s :: s in asked <==> s in services
    }

    /** getServiceStatus, stored at once; on an error an empty status stays in the map. */
    method Ask(dict: SMDict, ask: Service -> Answer, withDeps: bool, s: Service) returns (ok: bool)
      requires AskedOnce() && s in dict && s !in services
      modifies this
      ensures AskedOnce() && ok == ask(s).Status?
      ensures s in services && services == old(services)[s := services[s]]
      ensures services[s].status == if ok then ask(s).status else SMStatus("--", "--", "--", "")
      ensures services[s].deps == if ok && withDeps then Some(Deps(dict[s].after, dict[s].before)) else None
    {
      asked := asked + [s];
      match ask(s) {
        case Failure(_) =>
          services := services[s := Collected(NO_STATUS, None)];
          ok := false;
        case Status(status) =>
          var deps := None;
          if withDeps {
            var entry := dict[s];
            deps := Some(Deps(entry.after, entry.before));
          }
          services := services[s := Collected(status, deps)];
          ok := true;
      }
    }

    /** collectServicesStatuses; the parent is only dereferenced for a missing service, and then there is one. */
    method Collect(roots: seq<Service>, dict: SMDict, ask: Service -> Answer, parent: Option<Service>, withDeps: bool)
        returns (err: Option<SMError>)
      requires AskedOnce()
      requires parent.None? ==> forall s :: s in roots ==> s in dict
      modifies this
      ensures AskedOnce() && WalkRight(dict, ask, withDeps, roots, old(services), services)
      ensures err.None? ==> forall s :: s in services && s !in old(services) ==>
                s in dict && ask(s) == Status(services[s].status)
                && services[s].deps == if withDeps then Some(Deps(dict[s].after, dict[s].before)) else None
      ensures err.None? ==> (forall s :: s in roots ==> s in services)
                            && WalkDone(dict, ask, withDeps, old(services).Keys, services.Keys)
      ensures err.Some? ==>
                BlamesRightly(dict, ask, withDeps, old(services).Keys, services.Keys, parent, roots, err.value)
      ensures !withDeps ==> services.Keys <= old(services).Keys + Elements(roots)
      decreases dict.Keys - services.Keys, 1
    {
      hide Distinct, WalkDone, WalkRight, BlamesRightly;
      ghost var was := services;
      NothingNew(dict, ask, withDeps, roots, services);
      for i := 0 to |roots|
        invariant AskedOnce() && WalkRight(dict, ask, withDeps, roots, was, services)
        invariant forall k :: 0 <= k < i ==> roots[k] in services
        invariant WalkDone(dict, ask, withDeps, was.Keys, services.Keys)
        invariant !withDeps ==> services.Keys <= was.Keys + Elements(roots)
        invariant was.Keys <= services.Keys
      {
        var s := roots[i];
        assert s in roots && s in Elements(roots);
        if s !in dict {
          BlameRoot(dict, ask, withDeps, parent, roots, was.Keys, services.Keys, s);
          return Some(SMError(NO_DEPENDENCY, Some(s), Some(parent.value)));
        }
        if s in services { continue; }
        ghost var before := services;
        NotMoreLeft(dict, was.Keys, services.Keys);
        err := Visit(s, dict, ask, withDeps);
        WalkOn(dict, ask, withDeps, roots, was, before, services, s);
        if err.Some? {
          BlameOn(dict, ask, withDeps, parent, roots, was.Keys, before.Keys, services.Keys, err.value);
          return;
        }
        DoneOn(dict, ask, withDeps, was.Keys, before.Keys, services.Keys);
      }
      WalkRecords(dict, ask, withDeps, roots, was, services);
      err := None;
    }

    /** What the loop does for a service that is not in the result yet. */
    method Visit(s: Service, dict: SMDict, ask: Service -> Answer, withDeps: bool) returns (err: Option<SMError>)
      requires AskedOnce() && s in dict && s !in services
      modifies this
      ensures AskedOnce() && s in services && WalkRight(dict, ask, withDeps, [s], old(services), services)
      ensures err.None? ==> WalkDone(dict, ask, withDeps, old(services).Keys, services.Keys)
      ensures err.Some? ==>
                BlamesRightly(dict, ask, withDeps, old(services).Keys, services.Keys, None, [], err.value)
      ensures !withDeps ==> services.Keys == old(services).Keys + {s}
      decreases dict.Keys - services.Keys, 0
    {
      hide Distinct, WalkDone, WalkRight, BlamesRightly;
      ghost var was := services;
      var ok := Ask(dict, ask, withDeps, s);
      AskedRight(dict, ask, withDeps, was, services, s);
      if !ok {
        BlameAsked(dict, ask, withDeps, was.Keys, services.Keys, s);
        return Some(SMError(REQUEST_FAILED + ask(s).message, Some(s), None));
      }
      ghost var mid := services;
      if withDeps {
        FewerLeft(dict, was.Keys, mid.Keys, s);
        err := Collect(dict[s].after, dict, ask, Some(s), withDeps);
        WalkDown(dict, ask, withDeps, dict[s].after, was, mid, services, s);
        if err.Some? {
          BlameDown(dict, ask, dict[s].after, was.Keys, mid.Keys, services.Keys, s, err.value);
          return;
        }
        ghost var mid2 := services;
        FewerLeft(dict, was.Keys, mid2.Keys, s);
        err := Collect(dict[s].before, dict, ask, Some(s), withDeps);
        WalkDown(dict, ask, withDeps, dict[s].before, was, mid2, services, s);
        if err.Some? {
          BlameDown(dict, ask, dict[s].before, was.Keys, mid2.Keys, services.Keys, s, err.value);
          return;
        }
        DoneDown(dict, ask, was.Keys, mid.Keys, mid2.Keys, services.Keys, s);
      } else {
        DoneAlone(dict, ask, was.Keys, mid.Keys, s);
      }
      err := None;
    }
  }

  lemma NothingNew(dict: SMDict, ask: Service -> Answer, withDeps: bool, roots: seq<Service>,
                   now: map<Service, Collected>)
    ensures WalkRight(dict, ask, withDeps, roots, now, now) && WalkDone(dict, ask, withDeps, now.Keys, now.Keys)
  {}

  /** What bounds the recursion: a visited service is no longer left to visit. */
  lemma FewerLeft(dict: SMDict, was: set<Service>, now: set<Service>, s: Service)
    requires s in dict && s !in was && s in now && was <= now
    ensures dict.Keys - now < dict.Keys - was
  {
    assert s in dict.Keys - was && s !in dict.Keys - now;
  }

  lemma NotMoreLeft(dict: SMDict, was: set<Service>, now: set<Service>)
    requires was <= now
    ensures dict.Keys - now <= dict.Keys - was
    ensures dict.Keys - now == dict.Keys - was || dict.Keys - now < dict.Keys - was
  {}

  lemma BlameRoot(dict: SMDict, ask: Service -> Answer, withDeps: bool, parent: Option<Service>, roots: seq<Service>,
                  was: set<Service>, now: set<Service>, s: Service)
    requires s in roots && s !in dict && parent.Some?
    ensures BlamesRightly(dict, ask, withDeps, was, now, parent, roots,
                          SMError(NO_DEPENDENCY, Some(s), Some(parent.value)))
  {}

  lemma BlameAsked(dict: SMDict, ask: Service -> Answer, withDeps: bool, was: set<Service>, now: set<Service>,
                   s: Service)
    requires s in now - was && ask(s).Failure?
    ensures BlamesRightly(dict, ask, withDeps, was, now, None, [],
                          SMError(REQUEST_FAILED + ask(s).message, Some(s), None))
  {}

  lemma AskedRight(dict: SMDict, ask: Service -> Answer, withDeps: bool, was: map<Service, Collected>,
                   now: map<Service, Collected>, s: Service)
    requires s in dict && s !in was && s in now && now == was[s := now[s]] && Recorded(dict, ask, withDeps, s, now[s])
    ensures WalkRight(dict, ask, withDeps, [s], was, now)
  {
    hide Recorded;
    assert s in [s];
  }

  /** A walk that is done reports what every new service answered, and what it depends on. */
  lemma WalkRecords(dict: SMDict, ask: Service -> Answer, withDeps: bool, roots: seq<Service>,
                    was: map<Service, Collected>, now: map<Service, Collected>)
    requires WalkRight(dict, ask, withDeps, roots, was, now) && WalkDone(dict, ask, withDeps, was.Keys, now.Keys)
    ensures forall s :: s in now && s !in was ==>
              s in dict && ask(s) == Status(now[s].status)
              && now[s].deps == if withDeps then Some(Deps(dict[s].after, dict[s].before)) else None
  {
    hide ReachableFrom, Closed;
    assert forall s :: s in now && s !in was ==> s in now.Keys - was.Keys;
  }

  /** A visit of one root is part of the walk over all of them. */
  lemma WalkOn(dict: SMDict, ask: Service -> Answer, withDeps: bool, roots: seq<Service>,
               was: map<Service, Collected>, before: map<Service, Collected>, now: map<Service, Collected>, s: Service)
    requires s in roots && WalkRight(dict, ask, withDeps, roots, was, before)
    requires WalkRight(dict, ask, withDeps, [s], before, now)
    ensures WalkRight(dict, ask, withDeps, roots, was, now) && before.Keys <= now.Keys
  {
    hide Recorded, Reachable;
  }

  /** A walk over dependencies of s is part of the visit of s. */
  lemma WalkDown(dict: SMDict, ask: Service -> Answer, withDeps: bool, deps: seq<Service>,
                 was: map<Service, Collected>, mid: map<Service, Collected>, now: map<Service, Collected>, s: Service)
    requires s in dict && (deps == dict[s].after || deps == dict[s].before)
    requires WalkRight(dict, ask, withDeps, [s], was, mid) && WalkRight(dict, ask, withDeps, deps, mid, now)
    ensures WalkRight(dict, ask, withDeps, [s], was, now) && was.Keys <= mid.Keys <= now.Keys
  {
    hide Recorded, Reachable;
    forall t | t in now && t !in mid
      ensures ReachableFrom(dict, [s], t)
    {
      hide ReachableFrom;
      ReachDependency(dict, s, deps, t);
      RootReaches(dict, [s], s, t);
    }
  }

  lemma RootReaches(dict: SMDict, roots: seq<Service>, s: Service, t: Service)
    requires s in roots && Reachable(dict, s, t)
    ensures ReachableFrom(dict, roots, t)
  {}

  lemma BlameOn(dict: SMDict, ask: Service -> Answer, withDeps: bool, parent: Option<Service>, roots: seq<Service>,
                was: set<Service>, before: set<Service>, now: set<Service>, e: SMError)
    requires was <= before <= now && BlamesRightly(dict, ask, withDeps, before, now, None, [], e)
    ensures BlamesRightly(dict, ask, withDeps, was, now, parent, roots, e)
  {}

  lemma BlameDown(dict: SMDict, ask: Service -> Answer, deps: seq<Service>, was: set<Service>, mid: set<Service>,
                  now: set<Service>, s: Service, e: SMError)
    requires s in dict && (deps == dict[s].after || deps == dict[s].before)
    requires was <= mid <= now && s in mid && s !in was
    requires BlamesRightly(dict, ask, true, mid, now, Some(s), deps, e)
    ensures BlamesRightly(dict, ask, true, was, now, None, [], e)
  {}

  lemma DoneOn(dict: SMDict, ask: Service -> Answer, withDeps: bool, was: set<Service>, before: set<Service>,
               now: set<Service>)
    requires was <= before <= now
    requires WalkDone(dict, ask, withDeps, was, before) && WalkDone(dict, ask, withDeps, before, now)
    ensures WalkDone(dict, ask, withDeps, was, now)
  {}

  lemma DoneAlone(dict: SMDict, ask: Service -> Answer, was: set<Service>, now: set<Service>, s: Service)
    requires now == was + {s} && ask(s).Status?
    ensures WalkDone(dict, ask, false, was, now)
  {}

  /** The service answered, and both walks over its dependencies are done. */
  lemma DoneDown(dict: SMDict, ask: Service -> Answer, was: set<Service>, mid: set<Service>, mid2: set<Service>,
                 now: set<Service>, s: Service)
    requires s in dict && ask(s).Status? && mid == was + {s} && mid <= mid2 <= now
    requires WalkDone(dict, ask, true, mid, mid2) && WalkDone(dict, ask, true, mid2, now)
    requires (forall d :: d in dict[s].after ==> d in mid2) && (forall d :: d in dict[s].before ==> d in now)
    ensures WalkDone(dict, ask, true, was, now)
  {}

  // ---------------------------------------------------------------- GetServiceStatus

  datatype Result = Collection(services: map<Service, Collected>) | Error(error: SMError)

  /** The services whose status the request is about. */
  ghost predicate Needed(dict: SMDict, withDeps: bool, root: Service, s: Service) {
    if withDeps then Reachable(dict, root, s) else s == root
  }

  /**
   * The status of a service, and with dependencies of everything reachable from it.  It succeeds exactly if all of
   * these are in the dictionary and answer.
   */
  method GetServiceStatus(name: Option<Service>, dict: SMDict, ask: Service -> Answer, withDeps: bool)
      returns (r: Result, ghost asked: seq<Service>)
    ensures name.None? ==> r == Error(SMError(NO_NAME, None, None))
    ensures name.Some? && name.value !in dict ==> r == Error(SMError(NO_SERVICE, name, None))
    ensures Distinct(asked)
    ensures r.Collection? <==>
            name.Some? && forall s :: Needed(dict, withDeps, name.value, s) ==> s in dict && ask(s).Status?
    ensures r.Collection? ==> forall s :: s in asked <==> s in r.services
    ensures r.Collection? ==> forall s :: s in r.services <==> Needed(dict, withDeps, name.value, s)
    ensures r.Collection? ==> forall s :: s in r.services ==>
              s in dict && ask(s) == Status(r.services[s].status)
              && r.services[s].deps == if withDeps then Some(Deps(dict[s].after, dict[s].before)) else None
    ensures r.Error? && name.Some? && name.value in dict ==>
              IsMissing(dict, name.value, r.error) || IsFailed(dict, ask, withDeps, name.value, r.error)
  {
    asked := [];
    if name.None? { return Error(SMError(NO_NAME, None, None)), []; }
    if name.value !in dict {
      assert Needed(dict, withDeps, name.value, name.value);
      return Error(SMError(NO_SERVICE, name, None)), [];
    }
    var response := new StatusResponse();
    var err := response.Collect([name.value], dict, ask, None, withDeps);
    asked := response.asked;
    assert name.value in [name.value];
    if err.Some? {
      ErrorNamesReachable(dict, ask, withDeps, name.value, response.services, err.value);
      return Error(err.value), asked;
    }
    CollectionIsNeeded(dict, ask, withDeps, name.value, response.services);
    r := Collection(response.services);
  }

  /** A reachable service has a dependency that is not in the dictionary. */
  ghost predicate IsMissing(dict: SMDict, root: Service, e: SMError) {
    && e.message == NO_DEPENDENCY && e.problemCR.Some? && Reachable(dict, root, e.problemCR.value)
    && e.service.Some? && e.service.value !in dict && DependsOn(dict, e.problemCR.value, e.service.value)
  }

  /** The request to a needed service failed, with that message. */
  ghost predicate IsFailed(dict: SMDict, ask: Service -> Answer, withDeps: bool, root: Service, e: SMError) {
    && e.service.Some? && Needed(dict, withDeps, root, e.service.value) && e.service.value in dict
    && ask(e.service.value).Failure?
    && e == SMError(REQUEST_FAILED + ask(e.service.value).message, e.service, None)
  }

  lemma OnlyRoot(dict: SMDict, ask: Service -> Answer, withDeps: bool, root: Service, now: map<Service, Collected>)
    requires WalkRight(dict, ask, withDeps, [root], map[], now)
    ensures forall s :: s in now ==> s in dict && Reachable(dict, root, s)
  {
    hide Recorded;
  }

  lemma ErrorNamesReachable(dict: SMDict, ask: Service -> Answer, withDeps: bool, root: Service,
                            now: map<Service, Collected>, e: SMError)
    requires root in dict && WalkRight(dict, ask, withDeps, [root], map[], now)
    requires BlamesRightly(dict, ask, withDeps, {}, now.Keys, None, [root], e)
    requires !withDeps ==> now.Keys <= {root}
    ensures IsMissing(dict, root, e) || IsFailed(dict, ask, withDeps, root, e)
    ensures exists s :: Needed(dict, withDeps, root, s) && !(s in dict && ask(s).Status?)
  {
    hide Reachable;
    OnlyRoot(dict, ask, withDeps, root, now);
    if BlamesRequest(ask, {}, now.Keys, e) {
      assert Needed(dict, withDeps, root, e.service.value);
    } else {
      StepReaches(dict, root, e.problemCR.value, e.service.value);
      assert Needed(dict, withDeps, root, e.service.value);
    }
  }

  lemma StepReaches(dict: SMDict, root: Service, s: Service, d: Service)
    requires Reachable(dict, root, s) && DependsOn(dict, s, d)
    ensures Reachable(dict, root, d)
  {
    DepEdge(dict, s, d);
    EdgeIsAncestor(DepGraph(dict), s, d);
    if root != s { AncestorTransitive(DepGraph(dict), root, s, d); }
  }

  lemma CollectionIsNeeded(dict: SMDict, ask: Service -> Answer, withDeps: bool, root: Service,
                           now: map<Service, Collected>)
    requires WalkRight(dict, ask, withDeps, [root], map[], now) && root in now
    requires WalkDone(dict, ask, withDeps, {}, now.Keys) && (!withDeps ==> now.Keys <= {root})
    ensures forall s :: s in now <==> Needed(dict, withDeps, root, s)
    ensures forall s :: s in now ==> s in dict && ask(s).Status?
  {
    hide Reachable;
    OnlyRoot(dict, ask, withDeps, root, now);
    if withDeps { ClosedIsReachable(dict, now.Keys, root); }
  }
}
