# Govisor, verified in Dafny

Govisor supervises services that depend on one another. A manager holds the services; each service
lists the names it depends on and the names it conflicts with, and any service that answers to a name
satisfies it. This project models the supervisor and what lies around it, and proves what it keeps.

## How the model is laid out

The state of a manager is a value, a `View` (`supervision.dfy`): the links, what the services declare,
their flags, version tags and restart policies, the manager's serial, and the history: every call made
of a provider with its answer, every refusal by a limiter, every fault found or pardoned, every limit
set, every service that joins or leaves. `Managers.Service` and `Managers.Manager` (`manager.dfy`) are
the objects of the source, with its fields updated in place by its recursive methods and loops. The
manager's ghost field `v` mirrors the fields (`Coupled`), and every method says what it does as a
relation between `old(mgr.v)` and `mgr.v`. `Ready()` is what holds whenever the lock is free: the fields are mirrored
and the state is `Settled`: no stop is in progress, every running service is entitled to run, no two
conflicting services are enabled, and no service that could run is left waiting. Every public operation
takes `Ready()` to `Ready()`.

The type `SoundView` carries what holds even in the middle of an operation: the links are those the
declarations call for; the serials are distinct and none is above the manager's; the history is one in
which every single provider call was safe when it was made, a provider was asked to start only when the
limiter's rule allowed it, and was refused only when the rule required it (`Traces.SafeEvent`,
`Traces.ByRule`); a service is marked failed, or stands refused by its limiter, exactly if its history
accounts for it; and its ring of start times holds the calls of `Start` its provider has had. What the
operations add to the history is part of their contracts, so a client can conclude from providers that
behave (`History.Blameless`) and services without limits, or with quotas to spare
(`Outcomes.WithinLimits`), that nobody is refused and nobody marked. `clients.dfy` uses the public
methods through their contracts alone.

| file | what is in it |
|---|---|
| `links.dfy`, `names.dfy`, `index.dfy` | the links; names and matching; the index from scratch and its incremental upkeep |
| `trace.dfy`, `history.dfy` | the events of a history; theorems over every history |
| `acyclic.dfy` | cycles; the running sets a graph allows, and when there is only one |
| `supervision.dfy`, `starting.dfy`, `stopping.dfy`, `operations.dfy`, `membership.dfy` | the state, the two recursions, the operations, joining and leaving |
| `limiter.dfy`, `rings.dfy` | the rule of the restart limiter and its ring |
| `manager.dfy` | the classes and their methods |
| `outcomes.dfy` | what a settled state amounts to |
| `exact.dfy` | which services run after each operation, exactly and on every graph |
| `runs.dfy` | runs of operations, step by step |
| `cycles.dfy` | two runs that a cyclic graph remembers |
| `leaning.dfy` | a run in which a service leans on one that is being stopped |
| `clients.dfy` | what a client can rely on, and some uses of the public methods |
| `watch.dfy`, `snapshot.dfy` | waiting for a serial; reading a service piecemeal |
| `process.dfy` | one operating system process under a service |
| `log.dfy` | the log ring |

The order in which Go goes through a map is left open (`Linkage.Next`, `Linkage.NextName`), the clock
is any one that does not run backwards (`Managers.Now`), and a provider may answer anything
(`Managers.ProviderAnswers`). Concurrency is modelled as steps that interleave freely: `Reaches` and
`Possible` quantify over all interleavings. Run `dafny verify dfyconfig.toml` to check everything.

## Where the code is not what its comments say

* The comment on `tooQuickly` (service.go:738-743) promises a second interval of cool-down. The
  second look at the ring never changes the answer: the limiter refuses exactly if the quota is used
  up and the latest attempt is less than a period old (`Managers.Service.TooQuickly`).
* The comment on `GetRecords` (log.go:88-93) offers its id as an Etag. `Clear` sets the id to the
  time, so a reader can miss a clear, and does so exactly if that time does not exceed the id it
  knows (`Logs.ClearNoticedOnlyIfLate`).
* `canRun` does not look at the `failed` flag of the service itself, so a failed service is tried
  again whenever something it depends on starts. `Waits` and `CanRun` are modelled that way.
* `setManager` links a provider under the first dependency name it answers to and no other, so
  `parents[d]` may lack services that match `d` (`Indexing.Index`).
* On a graph with cycles the running set can depend on history. `Cycles.CyclesRemember` gives two runs
  of operations from an empty manager, after which the same services are declared and enabled, nobody is
  at fault, and different services run. An acyclic graph is sufficient for what runs to be determined by
  what is enabled (`Outcomes.HistoryDoesNotShow`, `Outcomes.OnlyWhatIsEnabledMatters`). So it is, on any
  graph, if no services can hold on to one another that could not have been started one after the other
  (`Outcomes.SameWhereLeastIsGreatest`). `Acyclicity.DeterminedExactlyWhen` shows this condition to be
  the exact one for there to be a single set of services *consistent* with the links and with who may
  start. Not every consistent set is one that a run leads to: two services that need only each other are
  consistent both up and down, but never come up while the set of services stays as it is
  (`Outcomes.GroupStaysDown`).
* Likewise "a restart changes nothing" holds on acyclic graphs (`Outcomes.RestartChangesNothing`), and
  on any graph exactly if what goes down with the service can be built up again from what stays
  (`Exactness.RestartChangesNothingExactlyWhen`).
* While a stop is in progress a service may lean on one that is already being stopped, but only if it
  waits for its own stop and does not depend on the service whose provider is being called:
  the children of a service are stopped one after the other, and the second still runs while the first
  is stopped. `Leaning.OneLeansOnTheStopped` is a run in which this happens, on an acyclic graph. Whoever
  depends on the stopped service itself always has live providers (`History.EveryCallIsSafe`).

## Model

| member | source | states |
|---|---|---|
| `Names.MatchMeaning` | service.go:337-351 | A full name is met only by itself; a bare base name is met by itself and by each of its variants, and by nothing else. |
| `Names.FindMatch` | service.go:549-555 | The search through the dependency list stops at the first entry the service answers to. |
| `Indexing.IndexIsWellLinked` | service.go:543-579 | In the index defined from the declarations alone, `children` is exactly the inverse of `parents`, and `incompat` is symmetric and irreflexive. |
| `Indexing.LinkPair` | service.go:546-579 | One round of the loop of `setManager` links the two services in every way their declarations call for, in both directions. |
| `Indexing.LinkIsNextRound` | service.go:546-579 | One such round takes the index in which the new service is linked with some others to the index in which it is linked with one more. |
| `Indexing.OpposePair` | service.go:566-578 | Either conflict list sets the link, and it is set on both sides. |
| `Indexing.Unlink` | service.go:592-616 | The three loops of `delManager`, which go only through the service's own links, remove it from every link of every other service. |
| `Indexing.IndexWithout` | service.go:587-621 | What is left is the index from scratch of the remaining services. |
| `Indexing.AddThenDelete` | service.go:532-621 | Adding a service and deleting it again restores the links of all the others. |
| `Indexing.OnlyOneIndex` | service.go:546-579 | The per-service condition kept by the manager determines the whole index. |
| `Supervision.OnwardIsTransitive` | manager.go:70-79 | Over any sequence of operations, additions and removals included, each visible change of a service gives it a serial above every earlier serial of the manager, and nothing is taken from the history. |
| `Supervision.Retagged` | manager.go:73-79 | Giving one service the new serial keeps all serials distinct and none above the manager's. |
| `Starting.StartSucceeds` | service.go:642-657 | A service that comes up leaves running services as they were, and the only services that may now be waiting without excuse are its children. |
| `Starting.StartFails` | service.go:642-649 | A failed start leaves everybody's right to run as it was, and the service marked failed. |
| `Starting.NowUp` | service.go:653-657 | One more running service takes the right to run from nobody and gives it to none but its children. |
| `Starting.StartRefused` | service.go:634-636 | A start turned down by the limiter changes nothing but that answer. |
| `Starting.StartChild` | service.go:655-657 | The recursion on one child leaves one child fewer to visit, whatever it starts in turn. |
| `Starting.IdleShrinks` | service.go:627-658 | The set of services that are not running strictly shrinks before each recursive call, on cyclic graphs too. |
| `Stopping.StopBegins` | service.go:661-665 | Raising `stopping` takes the right to run from nobody but the service's children. |
| `Stopping.ChildStoppable` | service.go:665-670 | When the recursion enters a child, the stops in progress form a chain of dependents, and the set of running services not being stopped has strictly shrunk. |
| `Stopping.ChildStopped` | service.go:665-670 | A stopped child is off the list of services running without the right to, and no other has been added. |
| `Stopping.SafeToStop` | service.go:665-672 | When the provider is at last called, every other running service outside the chain keeps its dependencies; and they are live (enabled, not failed, not being stopped) if it depends on the stopped service, or if it does not await its own stop. |
| `Stopping.UnableIsNoHolder` | service.go:665-670 | Stopping a child that cannot run stops no services that have all the live providers they need among themselves. |
| `Stopping.StopEnds` | service.go:671-678 | Of the services running without the right to, none is added, and the service and its children are gone; nobody who could run has been stopped. |
| `Managers.Service.CanRun` | service.go:681-709 | The answer is whether the service is enabled, not stopping, has a live provider for each dependency name and no enabled conflict; an unmet dependency becomes the status, under a new serial unless it is the status already, and nothing else changes. |
| `Managers.Service.Satisfied` | service.go:685-701 | The nested loops find whether every dependency name has a live provider. |
| `Managers.Service.TooQuickly` | service.go:744-783 | Refuses exactly if the quota is used up and the latest attempt is less than a period old, every ring index in range; a refusal sets `rateLog`, which is cleared exactly when the quota is used up and an attempt is let through. |
| `Managers.Service.VisitChildren` | service.go:655-657 | The loop over the children, in any order and on any graph, ends with nobody newly waiting; every new failure is a failed start of the history, and every refusal one that the limiter's rule required at that moment. |
| `Managers.Service.Attempt` | service.go:627-654 | The time is put into the ring exactly if the provider is called, and the provider is called exactly if the service is able to run and the limiter agrees. |
| `Managers.Service.StartRecurse` | service.go:627-658 | The recursion terminates, calls the provider exactly if the service is able to run and the limiter lets it, sets flags and status by the answer, leaves no service waiting that was not waiting before, and keeps flags, status, serial and count of everything already running; all it adds to the history are calls of `Start` and refusals, of which each obeys the limiter's rule of its service, and any new mark comes of those. |
| `Managers.Service.StopRecurse` | service.go:660-679 | The recursion terminates, stops the service with the given status and whatever then has no right to run, each provider call safe and its own the last; it stops nobody who can run and no services that hold on to one another, and marks nobody. |
| `Managers.Service.Enable` | service.go:216-245 | Fails exactly if there is no manager or a linked conflict is enabled; otherwise the service is enabled and, if it can run, runs or has failed to start since the call, the limiter having nothing to say. Nothing stops, nobody is marked failed but by a failed start of the call, and nobody is refused but by the limiter's rule. |
| `Managers.Service.Disable` | service.go:250-270 | The service is neither enabled nor running, its provider is stopped last, and its fault is cleared unless it was disabled already; nothing is started, nothing else loses its enabling or its mark or gains one, no services that hold on to one another are stopped, and its status says so. |
| `Managers.Service.Restart` | service.go:274-299 | The enabled set stays; an enabled service is stopped, by way of a settled state, cleared of its fault and tried afresh; a disabled one is left alone; whoever ends up marked failed has a failed start of the call to show for it, and whoever is refused was so by the limiter's rule. |
| `Managers.Service.Clear` | service.go:304-321 | The fault is cleared, the service is tried afresh, nothing stops, nobody is marked failed but by a failed start of the call, and nobody is refused but by the limiter's rule. |
| `Managers.Service.Check` | service.go:327-332 | Checks the service as `checkService` does, or reports that there is no manager; on a fault nobody else gains or loses a mark. |
| `Managers.Service.CheckService` | service.go:711-736 | A failed service answers with its error, which is never none; a faulty one ends failed, down and with the fault as its status, and what depends on it alone goes down; nothing is started and nobody else is marked or unmarked. |
| `Managers.Service.SelfHeal` | service.go:785-790 | A failed service marked for restart gets one attempt; any other is left alone. |
| `Managers.Service.CheckAndHeal` | manager.go:273-279 | An enabled service is checked, and if the check reports anything, as it does of every failed service, one that is marked for restart gets an attempt. |
| `Managers.Service.SetProperty` | service.go:370-488 | What a service declares cannot be changed while it is in a manager; any other property gives it a new serial, even with a bad value; the policy is the old one with the given value; a new limit or period starts the count again, and is put on record. |
| `Managers.Service.constructor` | service.go:812-830 | A new service has the identity and the declarations it is given, is in no manager, down, and allowed ten starts, then one a minute. |
| `Managers.Manager.constructor` | manager.go:358-371 | An empty manager, its serial taken from the clock, its list unchanged so far and monitoring off, satisfies the invariant. |
| `Managers.Manager.BumpSerial` | manager.go:73-79 | Returns the manager's next serial. |
| `Managers.Manager.LinkService` | service.go:540-579 | The incremental linking computes the index from scratch of all services and the new one. |
| `Managers.Manager.AddService` | manager.go:161-179 | A taken name is refused and nothing changes; otherwise the service is added, down, with the next serials, the links are the index again, no other service changes, and the invariant is kept. |
| `Managers.Manager.DeleteService` | manager.go:182-195 | An enabled service is refused; otherwise it is unlinked and struck off the list of the manager it is in, be it this one or another, no other service changes, and the invariant is kept. |
| `Managers.Manager.Shutdown` | manager.go:336-346 | Ends with no services listed, and every service there was disabled, stopped and without a manager; every provider call on the way is safe. |
| `Managers.Manager.Tick` | manager.go:268-284 | While monitoring is on every service is visited, each enabled one checked, and every failed one that is marked for restart gets an attempt; the visits account for the whole change. |
| `Managers.Manager.Notify` | manager.go:299-309 | A service that gives notice is checked and healed in the same way, unless it is being checked. |
| `Clients.NobodyIsLeftWaiting` | service.go:627-658 | Whenever the lock is free, an enabled service with a running provider for each dependency name is running; or is marked failed by a failed start or a fault since which it has neither run nor been pardoned; or has been refused by the limiter at a moment when its limit, period and attempts on record required it, and neither asked to start nor forgiven since. |
| `Clients.DependenciesRun` | service.go:660-709 | Whenever the lock is free, a running service is enabled and not failed and has, for each dependency name, a provider that is running, enabled and not failed. |
| `Clients.NeverBoth` | service.go:165-170 | Two services of one manager that declare a conflict are never both enabled nor both running. |
| `Clients.RestartOne` | service.go:272-299 | With acyclic dependencies and nobody failed, a caller of `Restart` finds the same services enabled, and the same running unless a provider fails on the way or a limiter turns one down; where every service is without a limit or has some of its quota left, none does. |
| `Clients.DisableAndEnable` | service.go:213-270 | The same of a caller of `Disable` and then `Enable`, which is never turned down. |
| `Clients.NewPair` | govisor_test.go:234-251 | The two services of `TestDependencies`, made, told of the dependency and added to a manager, by the public methods, with the limits they are made with. |
| `Clients.EnableSecond` | govisor_test.go:252-257 | Enabling the dependent alone succeeds, and it does not run. |
| `Clients.EnableFirst` | govisor_test.go:259-265 | Enabling the provider starts both, unless a provider fails; the limits that services are made with leave room for it. |
| `Clients.DisableFirst` | govisor_test.go:267-274 | Disabling the provider stops both, although the dependent stays enabled. |
| `Operations.EnableEnds` | service.go:216-245 | Enabling an unopposed service and starting from it leaves a settled state. |
| `Operations.DisableEnds` | service.go:250-270 | Withdrawing a service and stopping from it leaves a settled state. |
| `Operations.RestartTurns` | service.go:286-297 | Between the two recursions of a restart the state is settled, nothing has been enabled that conflicts with the service, and no services that hold on to one another have been stopped. |
| `Operations.WithdrawLeaves` | service.go:265-268 | Disabling a service, or marking it failed, takes the right to run from no service but itself and its children. |
| `Operations.FaultEnds` | service.go:719-726 | A fault leaves a settled state with the service failed and down. |
| `Membership.Joining` | service.go:540-585 | Adding a disabled service keeps the state settled: nobody's right to run hangs on it. |
| `Membership.Parting` | service.go:587-621 | So does removing one. |
| `Outcomes.RunningIsFixpoint` | service.go:627-709 | Between operations the running services are exactly the enabled ones, not failed and not refused, whose every dependency name has a running provider, on cyclic graphs too. |
| `Outcomes.HistoryDoesNotShow` | service.go:627-709 | With acyclic links the running set depends on which services may start, not on history nor on the order maps are visited in. |
| `Outcomes.RestartChangesNothing` | service.go:272-299 | In an acyclic graph, from a state without faults, what `Restart` promises leaves the running set as it was, if no provider has failed between the two states and either no limiter has refused or every service was without a limit or had some of its quota left. |
| `Outcomes.RestartWithoutTrouble` | service.go:272-299 | If every service is without a limit or has some of its quota left before a restart, the limiter refuses nobody in it, unless a provider fails. |
| `Outcomes.StartWithoutTrouble` | service.go:744-752 | The same of any sequence of operations that only start services. |
| `Outcomes.DisableEnableChangesNothing` | service.go:213-270 | After a disable an enable of the same service always succeeds, and then, under the same conditions, the running set is as before. |
| `Outcomes.StaysFaultFree` | service.go:642-653 | As long as no provider fails and no limiter refuses, nobody comes to be marked. |
| `Outcomes.OnlyWhatIsEnabledMatters` | service.go:627-709 | If no provider has ever failed and no limiter refused, then with acyclic links, whatever has been added, removed and called, the running set is the one and only set of enabled services that has exactly those whose dependencies run. |
| `Outcomes.WhyDown` | service.go:627-658 | Whoever is down without need has the event that is to blame on record, and nothing since that takes the blame away; a refusal that is to blame was one the rule required. |
| `Outcomes.RunningIsBetween` | service.go:681-709 | On any graph what runs lies between what can be started one after the other and what can hold on to one another. |
| `Outcomes.SameWhereLeastIsGreatest` | service.go:681-709 | On any graph two settled states with the same links and the same startable services run the same services, if the two bounds agree. |
| `Outcomes.StartsPerPeriod` | service.go:738-783 | In every state of every run, no half-open window of one period holds more attempts than the limit, of those made since the count of a service began and those it brought along when it was added. |
| `Outcomes.TotalStarts` | service.go:738-783 | These attempts, beyond the limit, number at most one a period. |
| `Outcomes.AttemptsAreCalls` | service.go:637-643 | The attempts counted are those the service brought along, and then exactly the calls of its provider's `Start`, each with its answer, since the count began. |
| `Outcomes.LastStopIsSafe` | service.go:660-679 | The stop that ends a disable, or follows on a fault, is that of the service itself, and leaves every service that still runs with live providers for all its dependencies, on any graph. |
| `Cycles.CyclesRemember` | service.go:213-270 | Three services, two of which need each other, are added to an empty manager. In one run the two are enabled; in another the third, then the two are enabled and the third is disabled. The two end with the same services enabled and nobody at fault: none runs after the one, both after the other. |
| `Leaning.OneLeansOnTheStopped` | service.go:665-672 | Two services need a third; all are added and enabled, and the third is disabled. When the first of the two is stopped the second is up, does not depend on the first, and has no live provider, on an acyclic graph. |
| `Runs.Added` | manager.go:161-179 | From any settled state a new service can be added, with the index of the declarations as its links. |
| `Runs.Raised` | service.go:216-245 | A service whose dependencies are live and for which nobody waits is enabled and comes up, its provider asked to start once. |
| `Runs.RaisedInVain` | service.go:216-245 | A service that lacks a provider is enabled and stays down, nobody being called. |
| `Runs.Lowered` | service.go:250-270 | A service whose children can all do without it is disabled, and nobody else is stopped. |
| `Runs.ChildFelled` | service.go:665-670 | A child that cannot do without the service being stopped, and has no children, is stopped on its account. |
| `Exactness.DisableIsGreatest` | service.go:660-679 | On any graph, after a disable exactly the largest set of other services runs that was running and can hold on to one another. |
| `Exactness.FaultIsGreatest` | service.go:711-726 | The same after a fault. |
| `Exactness.EnableIsLeast` | service.go:627-658 | On any graph, after an enable exactly those services run that ran before or can be started from there one after the other. |
| `Exactness.ClearIsLeast` | service.go:304-321 | The same after a clear. |
| `Exactness.RestartIsBoth` | service.go:286-297 | After a restart the one follows the other. |
| `Exactness.RestartChangesNothingExactlyWhen` | service.go:272-299 | On any graph, from a state without faults, if no provider fails and no limiter refuses or has reason to, a restart leaves the running set as it was exactly if everything that runs can be started again from what can hold on without the service. |
| `Outcomes.ConflictsExclude` | service.go:216-245 | Services that declare a conflict are never both enabled nor both running. |
| `Outcomes.FlagTellsLastCall` | service.go:642-678 | Over every run, successful starts and stops of a provider alternate, and the running flag tells which came last. |
| `Outcomes.GroupStaysDown` | service.go:627-643 | A group that can lean only on itself stays down for as long as the set of services stays the same. |
| `Acyclicity.AcyclicMeansNoCycle` | service.go:546-564 | Peeling off services whose providers are all peeled reaches every service exactly if no non-empty set depends on itself. |
| `Acyclicity.OneRunningSet` | service.go:681-709 | On an acyclic graph only one set of services is consistent with a given set of startable ones. |
| `Acyclicity.DeterminedExactlyWhen` | service.go:681-709 | On any graph there is only one such set exactly if the least and the greatest agree. |
| `History.StartAndStopAlternate` | service.go:627-679 | In every safe history the successful calls of each provider go Start, Stop, Start, Stop. |
| `History.DependenciesAlwaysUp` | service.go:627-709 | With acyclic links, at every point of every history, also in the middle of an operation, each service that is up has a provider up for each dependency name. |
| `History.EveryCallIsSafe` | service.go:642-672 | With acyclic links, a provider is started only when every dependency name has a provider that is live (up, not failed); and stopped only when every service that stays up keeps its own. Every service that depends on the stopped one then has live ones, not being stopped either, whether or not it is itself on the way to be stopped; and so has every other, unless it is in the middle of being stopped or awaits its turn. |
| `History.OutermostStop` | service.go:671-673 | A stop at any point of any history with no other stop in progress leaves every service that stays up with live providers for all its dependencies. |
| `History.RecordIsOfCalls` | service.go:637-643 | The attempts the limiter has on record are exactly the calls made of the provider's `Start` since the count began, after those the service brought along. |
| `History.NoTroubleNoMark` | service.go:627-679 | Nobody is marked failed or refused without a failed start, a fault or a refusal in the history. |
| `History.QuotaLasts` | service.go:744-752 | While services are only started, and no start fails, a service with some of its quota left is never refused, and at every point is up or still has some left. |
| `History.StartsWithoutTrouble` | service.go:744-752 | So from a point of any history at which every service has some of its quota left, starting services meets no refusal, unless a provider fails. |
| `History.UnfoundedNeverRuns` | service.go:681-702 | Services each of which needs a provider from among themselves never start, on cyclic graphs too. |
| `RateLimits.RecordKeepsRing` | service.go:637-640 | Recording an attempt the rule lets through keeps the ring the latest part of the history, in order, and keeps attempts beyond the quota a period apart. |
| `RateLimits.RingHoldsLatest` | service.go:754-775 | The slot looked up is that of the latest attempt; both indices are in range, for a limit of one too. |
| `RateLimits.AtMostRatePerPeriod` | service.go:738-783 | Between resets, no half-open window of one period holds more attempts than the limit. |
| `RateLimits.TotalAttempts` | service.go:738-783 | Between resets, the attempts beyond the quota number at most one a period. |
| `Rings.PutKeeps` | service.go:637-640 | Writing the next element into the slot of its number keeps the ring the latest part of the sequence. |
| `Watching.StepKeepsInv` | manager.go:61-118 | Every step of an operation, a watcher or a timer keeps the protocol's invariant. |
| `Watching.NoLostWakeup` | manager.go:61-118 | In every interleaving, whenever the lock is free a watcher asleep and unsignalled watches a serial that has not moved, and its time is not up, although serials are assigned after the broadcast. |
| `Watching.OldValueMeansTimeUp` | manager.go:81-84 | A watch that returns the value it was given has expired. |
| `Watching.SerialsOnlyGrow` | manager.go:130-137 | No step makes a serial smaller. |
| `Watching.SleeperCanReturn` | manager.go:105-117 | A sleeper that has something to report can, with the lock free, return the current serial in three steps of its own. |
| `Snapshots.OneCommittedState` | server/server.go:143-165 | However the reads interleave with operations, what the loop has collected when it is left is one committed state of the service, and the Etag is its serial. |
| `Snapshots.EtagsTell` | server/server.go:165 | Etags are equal exactly if the serials are. |
| `Snapshots.NotModifiedIsTrue` | server/server.go:77-80 | A client whose Etag matches has seen the service as it is. |
| `Processes.SupervisorIsOrderly` | service.go:627-679 | The supervisor calls Start of a provider only when it is down and Stop only when it is up. |
| `Processes.StepKeepsInv` | process.go:110-129 | Every step of Start, Stop, the waiting goroutine and the process itself keeps the wait group, the field and the goroutines in step. |
| `Processes.AtMostOneAlive` | process.go:131-174 | At every step of every orderly run at most one process of a provider is alive. |
| `Processes.StartFindsNone` | process.go:131-174 | Start always finds the process field nil and no process alive. |
| `Processes.StoppedMeansExited` | process.go:243-267 | When Stop has returned the process has exited. |
| `Processes.UnderSupervision` | process.go:131-267 | So it is for every process under the supervisor: one at most, and none once the service is down. |
| `Processes.CheckReports` | process.go:110-129 | A process that has been started and not told to stop is reported by Check (process.go:269-277) exactly if it has ended and been waited for, and either ended with an error or was not meant to end; no earlier process has a part in it. |
| `Logs.TrimDropsNewlines` | log.go:59 | Trimming takes newlines off both ends and nothing else. |
| `Logs.LinesJoin` | log.go:61 | Splitting into lines loses nothing and leaves no newline. |
| `Logs.Log.Write` | log.go:51-77 | The ring, written in place, stands for the history with the new lines added under consecutive ids. |
| `Logs.Log.Clear` | log.go:79-86 | The history is empty and the id is the time. |
| `Logs.Log.GetRecords` | log.go:94-120 | Returns the latest lines since the last clear, as many as the ring holds, oldest first, with consecutive ids ending at the one returned; nothing if the caller has seen that id. |
| `Logs.SameIdSameLog` | log.go:88-92 | If every clear is stamped later than the id it replaces, the same id means the same log. |
| `Logs.ClearNoticedOnlyIfLate` | log.go:79-86 | Every reader notices a clear exactly if its time exceeds the id the reader knows. |

## Left out

- `parents`, `children` and `incompat` are fields of each service in the source; here they are fields of the manager, keyed by the identity of the service, so the aliasing of the inner maps is not captured.
- The rounds that update those links compute new maps (`Indexing.LinkPair`, `Indexing.Unlink`) which the manager then stores.
- `startTimes` is a field that holds a sequence, not a slice; a ghost field keeps, while the service is in no manager, the attempts it stands for.
- Managers.Service.CheckService: the error of a fault is stored with the mark, before the stops and not after them; nothing looks at it in between.
- Managers.Manager.BumpSerial: the wake-up of the watchers is not in this contract; it is a step of the protocol in `watch.dfy`.
- Managers.Service.Check: modelled as one step, although the source runs it without the manager's lock (service.go:327-332).
- Managers.Service.SetProperty: a negative rate limit is excluded by the precondition. The source accepts one, makes no ring for it (service.go:421-430), and the next attempt to start the service reads a slot of the ring that is not there and panics (service.go:744-755).
- The description, the logger and the notification callback of a service and the properties of its provider are not modelled, nor is their type checking beyond "wrong type".
- Managers.Manager.AddService: a service that is already in another manager is excluded by the precondition; the source panics.
- Managers.Manager.DeleteService: if the service is in another manager, the lock of that one is taken to be free as well; the source does not take it.
- Managers.Manager.Shutdown: gives out no serial for the disabling and the removal, as in the source, so nothing is claimed about versions across it.
- Managers.Manager.Tick: one round; the sleep between rounds and the `cleanup` flag are left out.
- Managers.Service.TooQuickly: `starts` is unbounded.
- Logs.Log.Write: the lazy initialisation before the lock is taken is left out; a log starts initialised.
- Waiting for a log to change (`Log.Watch`) is left out: a clear changes the id without waking anybody.
- Snapshots.OneCommittedState: says nothing of a service that is removed while it is read, nor of the `If-Modified-Since` header.
- Processes.AtMostOneAlive: which process a late stop timer kills is not modelled; a process may exit at any time.
- The stop command, signals, pipes and the output of processes are left out: a stop request is followed by an exit at some time.
- The text of messages and all loggers are left out; of the status only the values the code compares or sets.
- HTTP routing, JSON, authentication, the HTTP client and the command lines are left out.
