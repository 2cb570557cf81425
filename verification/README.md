# DRNavigator: verified model of the run engine, the planner and the status walk

DRNavigator moves services between two Kubernetes clusters. `sm-client` plans a procedure (switchover `move`,
failover `stop`, or a one-site command), validates it, and runs it phase by phase with one thread per service;
`site-manager` runs in each cluster, collects statuses along service dependencies and guards the names of the
resources that describe services. This project models both in Dafny and proves what they guarantee. Check it with
`dafny verify dfyconfig.toml`.

| file | what it models |
|---|---|
| `Graphs.dfy`, `Sorter.dfy` | dependency multigraphs, cycles; the incremental topological sorter, as a value with its counter invariant and as an object |
| `Results.dfy` | the done / warned / failed / skipped lists and the automaton of one service |
| `Engine.dfy`, `Schedules.dfy` | one phase: main loop, threads, queue; all schedules, progress, outcome |
| `Flow.dfy` | the flow of phases: outcome, barrier, fail-stop, commands, conservation |
| `Cluster.dfy`, `Worker.dfy`, `Safety.dfy` | site state, verdicts, polling, the two-site protocol; switchover, failover and one-site safety |
| `Procedure.dfy` | the same run with its queue, threads and lists updated in place, shown to follow the step relation |
| `Prepare.dfy`, `Validation.dfy`, `Restrictions.dfy`, `EndToEnd.dfy` | planning, validation, state restrictions, and the way from there to the end of the run |
| `Conservation.dfy` | which planned services a run reports |
| `Scenarios.dfy` | inputs on which the code falls short, each accepted by validation and run to its end |
| `DryRun.dfy` | the printed plan and its agreement with execution |
| `StatusCollector.dfy`, `Admission.dfy` | site-manager's status walk and the two admission webhooks |

## How concurrency and the sites are modelled

A phase is a step relation. A schedule is any sequence of enabled actions: the main loop tests the sorter, looks at
one service of a batch, or reads one response; between any two of those, any running thread may do its next piece of
work. A thread's behaviour is fixed per phase as a script (its commands, then one response). As the engine hands each
service out at most once per phase, letting the scripts range over all values covers every adaptive behaviour. A command
is one step: sending it, polling until the loop ends, and judging the data. `Started` is logged before the first command
of a service, so every statement about the order of log events also bounds the moment a command is sent.

The sites are adversaries: `World` gives, for each entry of the flow, each service and each site, either a refusal with
some data or an acceptance, followed by arbitrary answers to the status requests at arbitrarily late times; what the
worker is handed is what the polling loop computes from them. Replies are well formed and name their own service; a
status reply with code 200 carries mode, status and health; every thread ends. Each operation on the result lists is
atomic.

## Findings

- Polling does not always show the required mode. For `standby` it does exactly when the service's
  `allowedStandbyStateList` contains none of `down`, `degraded` and `--` (`Workers.PollingSoundIff`).
- A refused mode change is judged like a status. If the site that should go to standby refuses and reports its health
  `up`, the other site is activated with no poll at all (`Safety.RefusalSetsOffActivation`). An answer misleads if it
  does not show the service done, in the new role and up, and is taken for success all the same: by the sentinel message
  "Service doesn't exist", or, unless its status is `failed`, by `--force`, by a failed health that the service allows in
  standby, or as a refusal with the health `up`. Over every run the second command of a switchover comes only after the
  first site was seen done, in its new role and up, if and only if that site's answer does not mislead
  (`Safety.SwitchoverSafety`, `Safety.SplitSwitchoverSafety`).
- `sequence` is a list of free strings and no check looks at its head. With a head that is neither `standby` nor
  `active`, such as `["up"]`, a validated failover fails the service without asking any site
  (`Scenarios.SequenceUpFailsUnasked`). A failed service had its activation refused exactly when no executed entry got
  to it with such a head (`Safety.FailoverFailsOnlyByActivation`). A switchover of such a service sends nothing either
  (`Validation.MoveWorkersEnd`).
- Validation does not compare a service's module between the sites. The merged plan of an accepted move is that of the
  first site exactly when that site has all of the plan's services under the module
  (`Validation.AcceptedMergeIsTransparentIff`); `Scenarios.MergedPlanDiffers` is an accepted move where it is not.
- With `--run-services`, the restrictions are checked for the services whose module on the first available site is the
  one validated, while the plan of a one-site command comes from the named site. Acceptance guards a planned service
  exactly when its module on the first available site is in the flow (`Restrictions.AcceptanceGuardsIff`).
  `Scenarios.UncheckedServiceEndsForbidden` is an accepted standby run that takes an unchecked service into the
  forbidden state.
- With `--run-services`, `validate_operation` looks a service up under the default module when the first site does
  not know it. Acceptance of a move discharges all later lookups exactly when the flow names the default module
  (`Validation.DischargesIff`); `sm-client` itself reads that module's plan at line 128, so it does not get this far
  without it.
- The restriction check tests for the mode `---`, which no reply is mapped to. An unrecognised mode of the opposite
  site is therefore always accepted (`Restrictions.UnrecognisedIsPermitted`), and the check protects a service exactly
  when the reported mode is recognised or nothing could be forbidden anyway (`Restrictions.GuardsIff`).
  `Scenarios.UnrecognisedEndsForbidden` is an accepted run into a forbidden state.
- A v2 resource outside the `stateful` module is validated under `name.namespace` but stored under its bare name. Its
  creation keeps names unique exactly when the module is `stateful` (`Admission.V2KeepsUniqueIff`).
- The dry run skips an `['active']` entry where the run stops for good. They agree exactly when only such entries
  follow such an entry (`DryRun.PlanIsExecutedIff`); in `Scenarios.PlannedIsNotExecuted` the plan prints an operation
  that is never sent. The design document says the plan shows what will be executed; the model follows the code.
- After a failure the flow marks as skipped the services of the module on the first available site, not the services
  of the plan. A planned service of such an entry is reported exactly when an executed entry plans it, or that site
  knows it under the module of an entry after the failure (`Conservation.ListedIff`,
  `Conservation.SkippedIsListedIff`). A standby run on the second site loses a service that the first one does not
  have: it ends in none of the four lists (`Scenarios.PlannedServiceIsLost`).

## Model

| member | source | states |
|---|---|---|
| Sorters.DoneKeepsInv | sm_client/processing.py:103 | `done` on a passed-out node is accepted, and every counter stays equal to the number of edge occurrences from unfinished predecessors |
| Sorters.GetReadyKeepsInv | sm_client/processing.py:86 | handing out the ready nodes keeps the sorter invariant, with those nodes passed out |
| Sorters.CountsWithEdge | sm_client/prepare.py:27-30 | an edge added twice is counted twice |
| Sorters.InactiveMeansFinished | sm_client/processing.py:85 | on an acyclic graph the sorter is inactive only when every node is done |
| Sorters.TopologicalSorter.FindCycle | sm_client/prepare.py:76-85 | a cycle is reported if and only if some node is its own proper ancestor |
| Sorters.TopologicalSorter.Prepare | sm_client/prepare.py:91-92 | preparing reports a cycle exactly if there is one and establishes the sorter invariant |
| Sorters.TopologicalSorter.StaticOrder | sm_client/prepare.py:77 | the order is a function of the node table, and a permutation of the nodes with every edge forward, or a cycle is reported |
| Sorters.OrderIsTopo | sm_client/prepare.py:77 | the order that draining an acyclic graph batch by batch gives is topological |
| Sorters.TopologicalSorter.Successors | sm_client/data/structures.py:222-230 | the scan returns the successor list of the node, nothing for an unknown node |
| Results.SortoutRefines | sm_client/data/structures.py:196-215 | sorting a response of a service not skipped keeps the lists duplicate-free and disjoint and moves that service only, to the worse of its class and the verdict |
| Results.SkipRefines | sm_client/processing.py:57-68 | skipping moves everything but a failed service to the skipped list and changes no other service |
| Results.TraceRefines | sm_client/data/structures.py:196-215 | over any trace of guarded operations the four lists refine the per-service automaton with failed and skipped absorbing |
| Results.OpsCommute | sm_client/processing.py:57-68 | operations on different services commute |
| Results.ResultLists.SortoutServiceResults | sm_client/data/structures.py:196-215 | the in-place update computes the specified lists |
| Results.ResultLists.SkipServiceDueDeps | sm_client/processing.py:57-68 | the in-place update computes the specified lists |
| Engine.TakeHandOff | sm_client/processing.py:97-103 | in every state of the invariant `done` is called on a passed-out unfinished node, and that node alone leaves the set of those handed out |
| Schedules.TakeInv | sm_client/processing.py:97-105 | reading a response keeps the invariant: the failed successors are exactly the nodes with a finished predecessor that was held back or answered not ok, and no later failure reaches a service already handed out |
| Schedules.StepInv | sm_client/processing.py:83-107 | every action of the main loop or a thread keeps the invariant: each handed-out unfinished service is in exactly one of batch, threads and queue, lists and log agree with its progress |
| Schedules.NoDeadlock | sm_client/processing.py:97 | until the loop exits some step is enabled; the blocking read always has a response coming; all ready services are handed out before it |
| Schedules.AnyOrder | sm_client/processing.py:92-97 | schedules leave nothing out: wherever the main loop is, the running threads can come to their ends in any order |
| Schedules.ScheduleIsBounded | sm_client/processing.py:85-107 | every schedule is finite, with an explicit bound on its length |
| Schedules.ScheduleCompletes | sm_client/processing.py:85-107 | from every reachable state the phase can run to its exit |
| Schedules.ExitIsQuiet | sm_client/processing.py:105-107 | at the exit every node is finished, no thread is left and the shared queue is empty |
| Schedules.HeldIsDoomed | sm_client/processing.py:99-102 | in an acyclic graph the transitive poisoning reaches exactly the services with a proper ancestor that answers not ok |
| Schedules.PhaseOutcome | sm_client/processing.py:71-107 | every complete schedule ends with the same classes: skipped are exactly the services with a failed proper ancestor, all others are dispatched once and classified by their own outcome, and everything that happens to a service comes after its predecessors have finished |
| Schedules.SchedulesAgree | sm_client/processing.py:71-107 | confluence: any two complete schedules agree on the class of every service and on the commands sent to it |
| Flow.FlowOutcome | sm_client/processing.py:37-54 | the classes at the end of a run are a function of the flow and the outcomes, whatever the schedules |
| Flow.RunIsOrdered | sm_client/processing.py:40-54 | barrier and fail-stop: nothing of an entry happens before all services of earlier executed entries have finished, and nothing at all after a phase that left a failed service or after a break |
| Flow.ActiveEntryStops | sm_client/processing.py:46-47 | nothing happens in or after an [active] entry in a standby, disable or return run |
| Flow.StandbyEntryIsPassed | sm_client/processing.py:48-49 | nothing happens in a [standby, disable] entry of an active run |
| Flow.OtherEntriesAreExecuted | sm_client/processing.py:40-54 | as long as no entry before it fails, every service of any other entry is processed to its end: all entries of a move or stop, and those of the other commands that are not passed over or behind a stop |
| Flow.RunCommands | sm_client/processing.py:37-54 | no schedule adds, drops, repeats or reorders a command: each executed entry sends each service that is not held back exactly its worker's commands |
| Flow.ModuleTwice | sm_client/processing.py:82-83 | a phase does not consume the stored sorter: a module listed twice processes the same services twice |
| Flow.RunConserves | sm_client/processing.py:40-54 | a service is in exactly one list if it is in an executed entry or a member of an entry after a failure, and in none otherwise; something is skipped only if something failed |
| Flow.RunExists | sm_client/processing.py:37-54 | every run can be completed |
| Flow.PhaseVerdict | sm_client/processing.py:51-54 | a phase leaves a failed service exactly if some worker without failed ancestors fails its service, and skips nothing otherwise |
| Flow.SuccessfulRun | sm_client/processing.py:37-54 | if every worker succeeds, nothing fails, warns or is skipped and every service of an executed entry is done |
| Cluster.OppositeIsFound | sm_client/data/structures.py:15-24 | with two sites the loop finds the other one and nothing else |
| Cluster.GetOppositeSite | sm_client/data/structures.py:15-24 | the loop finds the last configured site other than the given one, nothing for an unknown site |
| Cluster.GetAvailableSites | sm_client/data/structures.py:124-126 | the sites that answered, in configuration order |
| Workers.ServiceStatusPolling | sm_client/processing.py:205-248 | at most timeout div 5 + 1 requests; ends on the first answer it may stop on, otherwise after the deadline with the health struck out; the data is the function of the answers that the worker uses |
| Workers.PollingSoundIff | sm_client/data/structures.py:176-194 | an ok verdict on polled data, neither forced nor by the sentinel message, shows the mode done and healthy: always for other modes, for standby exactly if the allowed list names no failed health |
| Workers.ProcessTargets | sm_client/processing.py:165-191 | the loop over the two sites with its early exit computes the specified commands and response |
| Workers.PollServiceRequiredStatus | sm_client/processing.py:200-265 | the command is judged by what polling hands back: the required mode with an accepted health, an error state, or a struck-out health |
| Workers.SetServiceStatus | sm_client/data/structures.py:176-194 | the sentinel message passes; else the health must not be failed, or be let in by the list for standby, or forced, and the status must not be failed |
| Workers.GetDrOperationSequence | sm_client/data/structures.py:98-122 | the mode changes of a switchover or failover in the order that the first element of the sequence asks for |
| Workers.GetEntryTarget | sm_client/processing.py:110-132 | the mode and the site that an entry with states gives to its services |
| Workers.ProcessServiceWithPolling | sm_client/processing.py:135-197 | the worker of a one-site or two-site procedure, with its polling loops, computes the specified outcome; what it sends, in which order, and how it is classified is spelled out by MoveWorkersEnd, StopTargets, StopWorker and OneSiteFrame |
| Safety.OneSiteFrame | sm_client/processing.py:110-164 | active, standby, disable and return runs send each service at most one command an entry, to the named site and in the mode of the command, `return` being a standby, for any flow and schedule |
| Safety.OkMeansConfirmedIff | sm_client/data/structures.py:176-194 | a verdict that is not tolerated is ok if and only if the answer shows the mode reached or misleads, polled or refused, forced or not |
| Safety.RefusalSetsOffActivation | sm_client/processing.py:180-191 | a site that refuses the standby and reports itself up sets off the activation of the other |
| Safety.SwitchoverSafety | sm_client/processing.py:165-191 | in every run of a move: with no sequence or one that begins with `standby` a service is sent the standby on the opposite site first and the activation of the named one at most after it, with one that begins with `active` the other way round; and the second command comes only after the first site was seen done, in its new role, and up, if and only if that site's answer does not mislead |
| Safety.SplitSwitchoverSafety | sm_client/processing.py:110-132 | the same if and only if for a module that the flow puts to standby in one entry and handles again in a later one |
| Safety.StopWorker | sm_client/processing.py:146-191 | a failover worker fails its service if and only if the sequence begins with no mode, and then it has asked no site, or the surviving site has the service and its answer neither shows it active nor misleads |
| Safety.StopWorkerClass | sm_client/processing.py:165-191 | a failover worker that does not fail its service warns it exactly if the passivated site answers the standby with a failed status, unless a refusal that is forgotten; nothing else of that answer counts |
| Scenarios.SequenceUpFailsUnasked | sm_client/data/structures.py:112-122 | with the sequence ["up"] a validated failover fails the service and sends it nothing, whatever the sites would answer |
| Safety.FailoverFailsExactly | sm_client/processing.py:37-54 | over every run of a stop the failed services are exactly those whose worker fails them in an executed entry with no failed ancestor |
| Safety.FailoverOrder | sm_client/data/structures.py:112-122 | over every run of a stop: by the sequence of the surviving site if it has the service, else of the named one, a service is sent the standby first and the activation after it, or the activation first and the standby only if that succeeds |
| Safety.FailoverWarnsExactly | sm_client/processing.py:166-173 | of the services a stop neither fails nor skips exactly those are warned whose worker warns them in an executed entry |
| Safety.FailoverFailsOnlyByActivation | sm_client/processing.py:166-191 | in a run of a stop a failed service has an active command on the surviving site whose response was not ok, if and only if no executed entry got to it with a sequence that begins with no mode |
| Safety.FailoverIgnoresPassivatedSite | sm_client/processing.py:166-173 | non-interference: in any two runs of a stop that see the same from the surviving site the same services fail and the same are skipped, whatever the passivated site does |
| Procedures.Runner.ProcessTsServices | sm_client/processing.py:71-107 | the in-place main loop follows a complete schedule of the step relation from the stored sorter, which it does not change, and leaves the queue empty |
| Procedures.Runner.RunDrOrSiteProcedure | sm_client/processing.py:37-54 | the in-place loop over the flow performs a run of the flow relation |
| Prepare.MakeOrderedServicesToProcess | sm_client/prepare.py:10-93 | no sorter exactly if the merged graph has a cycle; otherwise the prepared sorter of that graph, its one topological order that the library gives, and a flag that is true exactly if every listed dependency takes part |
| Prepare.AfterBeforeCheck | sm_client/prepare.py:33-52 | reports exactly the services with a missing dependency, missing `before` entries only where no `after` entry is missing |
| Prepare.BuildAfterBeforeGraph | sm_client/prepare.py:17-31 | fills the sorter with the specified graph |
| Prepare.GraphIsWanted | sm_client/prepare.py:25-31 | nodes are the participating services, edges exactly the first `after` and first `before` entries that take part |
| Prepare.PlanIsOrdered | sm_client/prepare.py:55-77 | the order lists, once, exactly the services that some site has under a module within the selected one, that are selected if any are, and that are not ignored; it respects every first `after` and `before` entry among them |
| Prepare.SubstringIff | sm_client/prepare.py:62 | a module fits exactly if it occurs somewhere in the selected one |
| Prepare.MergeIsUnion | sm_client/prepare.py:59-72 | the merged dependencies of a service are the union of those of the sites it takes part on |
| Prepare.MergeTransparentIff | sm_client/prepare.py:59-72 | when the sites agree the merged table, and with it sorter, order and flag, are those of the first site alone, if and only if every participating service takes part there |
| Validation.CheckServicesOnSites | sm_client/validation.py:25-39 | accepts exactly if every service is on every site |
| Validation.CheckDepsConsistency | sm_client/validation.py:106-150 | although each site is compared with one other only, acceptance is pairwise set equality over any number of sites |
| Validation.CheckSequenceConsistency | sm_client/validation.py:153-184 | acceptance is pairwise equality of the sequences |
| Validation.ValidateMoveOperation | sm_client/validation.py:207-222 | accepts exactly if both sites answer, all services exist on both, the plan has no issue, and dependencies and sequences agree |
| Validation.ValidateStopOperation | sm_client/validation.py:187-204 | accepts exactly if the surviving site answers and the plan is clean or still has something to do |
| Validation.MakeListToValidate | sm_client/validation.py:289-292 | the planned order, or those of --run-services whose module on the first available site, the default one if it does not know them, is the one validated |
| Validation.AcceptedMergeIsTransparentIff | sm_client/validation.py:207-222 | after an accepted move, with or without --run-services, the plan of a module is that of the first site alone, order included, if and only if the first site has all of the plan's services under the module |
| Scenarios.MergedPlanDiffers | sm_client/validation.py:207-222 | an accepted move whose merged plan has a service that the first site's plan does not have |
| Validation.MoveDischargesLookups | sm_client/validation.py:278-298 | after an accepted move every service of every plan is on both sites and both are available, with or without --run-services |
| Validation.DischargesIff | sm_client/validation.py:289-292 | with --run-services this holds on every cluster exactly when the flow names the default module |
| Validation.MoveWorkersEnd | sm_client/data/structures.py:98-122 | then no worker reads an absent key, and in a two-site entry it works on the opposite site in standby and the named one in active, in this order with no sequence or one that begins with `standby`, in the other with one that begins with `active`, and on none with any other head |
| Restrictions.CheckStateRestrictions | sm_client/validation.py:60-103 | accepts exactly if every listed service with restrictions of its own or for all answers on the opposite site, and none of either kind reads as the commanded mode here with the reported one there |
| Restrictions.SplitJoined | sm_client/validation.py:77-79 | a restriction written with dashes is read back as its parts |
| Restrictions.JoinedAgain | sm_client/validation.py:77-79 | and its parts are all that it says |
| Restrictions.ZipAt | sm_client/validation.py:77-79 | part i of a restriction is what it says of site i, in configuration order |
| Restrictions.UnrecognisedIsPermitted | sm_client/validation.py:89-101 | a covered service whose opposite mode is unrecognised is always accepted |
| Restrictions.GuardsIff | sm_client/validation.py:82-101 | acceptance rules out a restricted final state exactly if the reported mode is recognised or nothing could be restricted |
| Restrictions.ValidateSitesOperation | sm_client/validation.py:248-263 | accepts exactly if the site answers, it has all services, the plan is clean and every service is permitted; then no restriction, own or for all, reads as the state predicted for a listed service |
| Restrictions.AcceptanceGuardsIff | sm_client/validation.py:289-292 | whatever the restrictions and the answers, acceptance of the command permits a planned service if and only if there are no --run-services or its module on the first available site is in the flow |
| Restrictions.RestrictionSafety | sm_client/validation.py:248-263 | over every run of an accepted command, a service with restrictions and a recognised, unchanged opposite mode that is sent a command is commanded into a state that some restriction, its own or for all, reads as exactly if the check would not permit it, and never if it was checked |
| Restrictions.ReportedStateIsSafe | sm_client/validation.py:96-101 | the same by the modes the sites report, for a service that completes on an answer that does not mislead |
| Scenarios.UncheckedServiceEndsForbidden | sm_client/validation.py:289-292 | an accepted standby run with --run-services that takes an unchecked service into the forbidden state |
| Scenarios.UnrecognisedEndsForbidden | sm_client/validation.py:89-101 | an accepted standby run, the opposite mode unrecognised, that takes a checked service into the forbidden state |
| DryRun.PrintServiceOrder | sm-client:44-90 | every planned entry prints each service once with its operations, stage by stage, at the stage that is the length of its longest dependency chain counted on from the stages of the entries before |
| DryRun.PlanService | sm-client:67-86 | the operations printed for a service: the one of an entry with states, both of a two-site entry in the order of its sequence, or the one of the command |
| DryRun.StageStep | sm-client:64-89 | the nodes of one stage are exactly those whose longest chain has that length |
| DryRun.PlanIsExecutedIff | sm-client:52-59 | without failures the planned entries are the executed ones exactly if only breaking entries follow a breaking entry |
| DryRun.DryRunAgrees | sm-client:61-86 | then each executed entry sends each service that is where the command needs it exactly the planned operations in order |
| DryRun.PlannedRunFollowsDryRun | sm-client:137-157 | the same for every planned service after a validated move, and for every planned one-site command |
| Scenarios.PlannedIsNotExecuted | sm-client:56-57 | an accepted standby run whose plan prints an operation that is never sent |
| EndToEnd.PlanModule | sm-client:98-122 | planning with the fallback of a stop to the surviving site alone |
| EndToEnd.GetModuleServices | sm_client/data/structures.py:135-141 | the services that the first available site knows under the module |
| EndToEnd.EveryWorldHasARun | sm-client:126-158 | after a validated move no worker dies of a missing key and the run completes, whatever the sites do |
| EndToEnd.EveryWorldHasASiteRun | sm-client:126-158 | the same for a one-site command |
| EndToEnd.EveryWorldHasAStop | sm-client:98-112 | the same for a stop, each module planned over the available sites or by the fallback to the surviving one |
| EndToEnd.ValidatedSwitchoverIsSafe | sm_client/validation.py:207-222 | switchover safety, if and only if the answer does not mislead, with everything that planning and validation establish discharged |
| EndToEnd.PlainSwitchoverIsSafe | sm_client/processing.py:165-191 | in a validated, unforced move of a service that allows only `up`, without the sentinel message and without a refusal that is up, the exchange is always in order |
| EndToEnd.ConfirmedMoveSucceeds | sm_client/processing.py:165-191 | a validated move in which every answer shows the service in its new role sends both commands in the configured order, or the one of an entry with states, and ends with every planned service done and the other lists empty |
| EndToEnd.ConfirmedSiteRunSucceeds | sm_client/processing.py:137-164 | a one-site command whose answers show the mode sends one command to each service of the executed entries and ends with all of them done |
| EndToEnd.ValidatedFailoverIsTolerant | sm_client/validation.py:187-204 | the failed services of a validated stop are exactly those an executed entry fails; with a known head each of them had its activation refused |
| EndToEnd.ConfirmedFailoverSucceeds | sm_client/processing.py:166-191 | a validated stop in which the survivor shows the services active fails and skips nothing, whatever the other site does |
| Conservation.ListedIff | sm_client/processing.py:40-54 | for every command: a service is in exactly one list if an executed entry plans it or an entry after a failure finds it on the first available site, and in none otherwise |
| Conservation.SkippedIsListedIff | sm_client/processing.py:42-45 | a planned service of an entry after a failure that no executed entry plans is reported exactly if the first available site knows it under the module of such an entry |
| Conservation.MovedServicesAreListed | sm_client/processing.py:42-45 | after a validated move with equal modules on the sites every planned service of an executed entry or one after a failure is in exactly one list |
| Scenarios.PlannedServiceIsLost | sm_client/processing.py:43 | a validated standby run that ends with a planned service in none of the lists |
| StatusCollection.StatusResponse.Collect | site-manager/pkg/service/cr_manager.go:181-210 | terminates on cyclic dependencies, asks each service at most once, reports only reachable services, on success has stored the answer of every new service, with its dependencies if wanted, and is closed under dependencies, and blames a missing dependency on a service that has it or a failed request on the service asked; the parent is only read when there is one |
| StatusCollection.StatusResponse.Ask | site-manager/pkg/service/cr_manager.go:189-199 | stores the status that the service answered with its after and before lists if wanted, or an empty status |
| StatusCollection.GetServiceStatus | site-manager/pkg/service/cr_manager.go:127-142 | succeeds if and only if every needed service (with dependencies: every reachable one) is in the dictionary and answers, and then has exactly these, each with the status it answered and, if wanted, its after and before lists; otherwise the error names a reachable service and a dependency of it that is not in the dictionary, or a needed service whose request failed |
| StatusCollection.ClosedIsReachable | site-manager/pkg/service/cr_manager.go:193-206 | a reachable set closed under dependencies is the set of all reachable services |
| Admission.ConvertToDict | site-manager/pkg/service/cr_manager.go:258-314 | the loops build the dictionary in which new resources shadow legacy ones |
| Admission.DictHolds | site-manager/pkg/service/cr_manager.go:303-311 | a name in use maps to the new resource of that name if there is one, else to a legacy one |
| Admission.ValidateLegacy | site-manager/internal/controller/legacy/validator.go:40-54 | although shadowed names are seen only through their namesakes, the legacy check accepts exactly the names no other resource of either kind bears |
| Admission.ValidateCurrent | site-manager/internal/webhook/v3/sitemanager_webhook.go:99-117 | the search rejects exactly a name another new resource bears |
| Admission.AdmitKeepsUnique | site-manager/internal/controller/legacy/validator.go:108-121 | every admitted create, update or delete keeps names unique within each kind and UIDs distinct |
| Admission.AdmittedExactly | site-manager/internal/controller/legacy/validator.go:108-121 | what a request leaves in the store: a resource is created or replaced exactly if its name is free, of both kinds for a legacy one and of its own for a new one, a deletion takes that resource only, and nothing else changes |
| Admission.NamesStayUnique | site-manager/internal/webhook/v3/sitemanager_webhook.go:63-96 | the same over every history of requests |
| Admission.V2KeepsUniqueIff | site-manager/api/legacy/v2/cr_webhook.go:36-38 | creating a v2 resource keeps names unique on every store exactly if its module is stateful |

## Left out

- `graphlib.TopologicalSorter` is the Python standard library's and is not part of the repository: its documented behaviour is modelled (counters, successor lists, ready list); its depth-first cycle search is replaced by peeling off sources, with the same verdict.
- A command is one atomic step; the POST, its retries and each single poll are not interleaved with other threads one by one. They touch no shared state. The clock does not run backwards between two tests of the polling loop.
- Data races inside one list operation, and a thread that dies or answers for another service: each worker ends with one response naming its own service.
- HTTP, TLS, tokens, JSON and YAML, logging, tables, argument parsing and configuration loading; the shapes of `flow` and `restrictions` that loading enforces appear as preconditions (`ValidStates`).
- `run_status_procedure`, the `list` and `version` commands and `paas-geo-monitor`: nothing beyond calling everything once.
- `ProcessService`, reconcilers, converters of v1 and v3 and `applyDefaults` in site-manager: field copies and one request.
- Admission requests are atomic: two concurrent creations that both pass validation before either is stored are not modelled.
- Names of services and sites are compared for equality only; module names are strings, with the substring test of the module filter.
- Restrictions.RestrictionSafety: assumes that the opposite site keeps its mode during the run, because the check reads it only once.
- Validation.MoveDischargesLookups: assumes that a service's module is a substring of a configured module only if they are equal, because the filter is a substring test.
- Validation.AcceptedMergeIsTransparentIff: with --run-services assumes the same of the module, because the services to compare are picked by equality.
- Validation.MakeListToValidate: with --run-services and no available site the source raises an index error; the model gives an empty list, and every validator then refuses the command because the site it needs is not available.
