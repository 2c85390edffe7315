# A verified model of uptimemonitor

uptimemonitor is a service that probes HTTP, TCP, ICMP and DNS targets on a schedule, keeps the health of
each monitor in SQLite, opens and resolves incidents, and notifies operators. This project models the parts
where its correctness is hard to see and proves what they keep, for every input and every pattern of failed store
calls; where interleavings matter, over all of them, or over those that meet a stated condition whose necessity a
concrete run shows. `dafny verify dfyconfig.toml` checks all of it.

## How the model is laid out

- **The scheduler.** `SchedulerSpec` is a transition system whose steps are the critical sections and channel
  operations of the goroutines; a call of `fire` is split where it gives up the mutex. `Scheduler` is the
  object itself, with entries that are objects: each of its methods is proved to perform the step of the same
  name. `SchedulerSafety` proves the no-overlap rule of every run and `SchedulerDrain` progress.
- **One check.** `CheckRun` is `Pipeline.run` as the sequence of its store calls, each of which may fail.
  `Repositories` and `Pipeline` are the objects that make those calls; `World` puts checks and the lifecycle
  operations of `ServiceSpec` (object: `MonitorService`) into runs.
- **In literal terms.** `InFull` spells out every row and field that checks and lifecycle operations write, and
  `Eligibility` which monitors are checked automatically, in the fields of their rows.
- **What runs keep.** `Ledger` (incidents and faults), `Notifications` (keys), `Documents` (events behind
  incidents and jobs), `Origins` (what incidents say of their start), `Audit` (log, counters, toggles), `Mirror`
  (scheduler and table).
- **Requests.** `Requests` splits the lifecycle operations into their store calls, as `CheckRun` does for a check,
  and shows that a request alone does what `ServiceSpec` says.
- **Checks and requests side by side.** `Interleaving` lets any number of checks and requests make their calls in
  turn on shared tables. `Projection` shows that a call touches only the rows of its monitor, `Placement` where a
  request takes place, `Commute` which steps may change places, and `Serial` that the rows of a monitor end as if
  its own operations had run one at a time, under conditions on its toggles and requests that `Races` shows to
  be needed. `SoleCheck` asks only that a monitor has one check at a time; that is enough for `Pairing` (each
  recovery follows its outage), `Balance` (the incident ledger call by call) and `Counters` (the status row). `Reports` puts the scheduler under the monitor service, whose reports may come late (`LateReports`
  shows what that costs, `ReportMirror` what holds all the same), and `CheckEngine` joins scheduler, service and
  pipeline: there the no-overlap rule keeps the checks of a monitor apart. `CheckProgress` shows that the whole
  goes on.
- **Delivery.** `Retry` (attempts, backoff on 64-bit durations), `DeliverySpec` and `Delivery` (queue, workers,
  suppression of duplicates), `Shutdown` (checks that hand over jobs while the service stops).
- **Queries and stored values.** `History` (bucketing), `StoredTime`, `TimeText` and `Retention` (timestamps as text),
  `TargetConfig` and `TargetRepository` (secrets of notification targets).
- **DNS.** `DnsName` (names and the wire), `Resolver` (the resolver setting), `Deadline` (shares of time).

Code that updates state in place is modelled by classes and loops, each proved against a function on values;
the laws are then proved about those functions.

## Where the code does not keep what one might expect

Each of these is a lemma with the exact condition, or with a concrete run.

- Removing a monitor and registering its id again while an old check is in flight lets two workers check it at
  once (`SchedulerSafety.RemoveThenAddOverlaps`); `AddSafeExactly` gives the exact condition. The monitor service
  does not exclude it: an update and a delete of one monitor, requested side by side, may report in the wrong
  order (internal/monitor/service.go:142-149, 161-168), which `LateReports.LateReportOverlaps` turns into an overlap
  in full. It also leaves the deleted monitor on schedule for good (`LateReports.LateUpdateLingers`,
  `LateReports.LingersForGood`).
  `Reports.OverlapsExactly` says which runs are in danger, and `Reports.OrderlyNeverOverlaps` that none is if
  requests of one monitor do not overlap.
- "At most one open incident" fails after a disable while down (`Ledger.TwoOpenIncidents`);
  `Ledger.IncidentLedger` gives the exact count.
- A recovery whose last write fails after the incident was resolved leaves the monitor down with nothing to
  resolve, and no later check leads out of that (`LostWriteSticks`, `StuckForGood`, `StuckIsReachable`); a toggle does
  (`StuckEndsExactly`).
- A toggle that falls between a check's read and write of the state row is overwritten by the check
  (`Audit.DisableIsOverwritten`), exactly when none of the check's remaining calls fails and a recovery has
  something to resolve (`Audit.ToggleInsideCheck`); the service's own toggle departs from the state machine
  exactly when an enable meets up or down (`ToggleAgreesExactly`).
- The other way round, a toggle writes back the whole state row that it has read (internal/monitor/service.go:203,
  212). A check in between loses its counters and last-check fields, exactly when it gets to write them
  (`Races.CheckInsideToggle`, `Races.CounterIsLost`). State, incidents and jobs survive this:
  `Serial.ChecksSerialise` holds at level `Health` without excluding it.
- What survives both races, and requests that overlap and fail besides: distinct keys and documented incidents
  (`Notifications.EnqueuedKeysDistinct`, `Documents.IncidentsAreDocumented`), the pairing of recoveries
  (`Pairing.RecoveriesArePaired`), and an incident ledger with one more entry, for checks that save over a toggle
  what they had read as down (`Balance.LedgerOfCalls`). The counters survive the first (`Counters.CountersSum`).
- An update writes back the enabled flag that it has read (internal/monitor/service.go:130, 142). A
  disable inside it ends in a monitor that is enabled and paused, whatever checks follow, exactly when the update
  gets to write its row (`Races.DisableInsideUpdate`, `Audit.PausedOutlivesChecks`).
- A toggle logs its event after it has written the state row. A check that starts in between logs its change of
  state first. With an enable the log then no longer replays, with a disable it still does
  (`Races.EventComesLate`, `Races.EnableIsLoggedLate`).
- If the event of a lifecycle operation cannot be recorded after the row was written, the change is not reported
  and scheduler and table disagree (`Mirror.MirrorsExactly`): a deleted monitor goes on being checked
  (`Mirror.LostDeletionKeepsChecking`).
- The validator accepts any positive interval (internal/monitor/validate.go:39-65) but the table stores whole
  seconds, so a shorter interval reads back as zero and its ticker is gone once the row
  has been read back: after a restart (`Mirror.RestartKeepsTicker`, `Mirror.SubSecondStopsTicking`), or after a
  disable and an enable (`Mirror.TogglingKeepsTicker`).
- The comment at internal/store/sqlite/monitor.go:14-16 says that the stored timestamps sort lexically. The code
  stores fractions without trailing zeros, so this fails exactly when two instants share their second and one
  trimmed fraction is a proper prefix of the other (`StoredTime.TextOrderExactly`); midnight, for one, sorts after
  half a second past it (`StoredTime.MidnightSortsLast`), and pruning removes rows that are not yet due
  (`Retention.PrunedTooEarly`).
- The doubling of the backoff delay overflows for caps above 2^62 nanoseconds (`Retry.BackoffExactly`).
- The target repository's update, taken by itself, loses a stored secret exactly when it is made under a kind that
  does not call the field secret and leaves it out or empty (`TargetConfig.SecretLostExactly`), and it crashes on
  a JSON null in place of a config with secrets to restore (`TargetRepository.TargetRepo.Update`); `LosesSecret`
  and `CrashesOnNull` do so. Only direct callers of the repository get there: the update handler keeps the kind
  and passes no null on.
- At shutdown the notifier's workers leave when the context is cancelled, while the notifier is stopped only after
  the scheduler, which waits for its checks: a check that hands a job to a full queue then waits for good
  (`Shutdown.ShutdownCanHang`, `Shutdown.HangsForGood`).

## Model

| member | source | states |
|---|---|---|
| Monitors.NextState | internal/monitor/state.go:45-79 | the flags are determined by the endpoints: an event iff the state changes, an incident opens iff it enters down, resolves iff it goes from down to up; paused is left only by enable and entered only by disable |
| Scheduler.Scheduler.constructor | internal/scheduler/scheduler.go:66-80 | a new scheduler is the initial state, with at least one worker |
| Scheduler.Scheduler.Start | internal/scheduler/scheduler.go:84-93 | starting spawns idle workers once; a second start changes nothing |
| Scheduler.Scheduler.Upsert | internal/scheduler/scheduler.go:156-179 | a fresh entry object replaces the old one, carrying over its running flag; the old ticker is cancelled and a new one starts iff the scheduler runs and the monitor is enabled, not deleted and has a positive interval |
| Scheduler.Scheduler.Remove | internal/scheduler/scheduler.go:135-143 | the entry is gone and its ticker cancelled; jobs in flight stay |
| Scheduler.Scheduler.FireLock | internal/scheduler/scheduler.go:207-225 | the critical section of fire: locked iff the id is registered with its flag clear and the monitor is enabled, not deleted and has a positive interval, or the call is manual; then the flag of that very entry object is set and the call holds it |
| Scheduler.Scheduler.Poll | internal/scheduler/scheduler.go:227-232 | the first select: after cancellation the call releases the entry it locked, otherwise it goes on to the blocking one |
| Scheduler.Scheduler.Send | internal/scheduler/scheduler.go:233-235 | the send arm puts the job at the end of the queue, which stays within twice the number of workers |
| Scheduler.Scheduler.Abort | internal/scheduler/scheduler.go:227-239 | the cancelled arm stores false in the flag of the entry object that was locked, not of whatever is registered now |
| Scheduler.Scheduler.Take | internal/scheduler/worker.go:7-18 | a worker takes the oldest job |
| Scheduler.Scheduler.ClearRunning | internal/scheduler/worker.go:24-30 | the flag of whatever entry is registered under the id now is cleared, no other |
| Scheduler.Scheduler.Finish | internal/scheduler/worker.go:7-30 | when a check returns the flag is cleared and the worker is idle |
| Scheduler.Scheduler.Stop | internal/scheduler/scheduler.go:105-109 | only the first stop of a started scheduler has an effect: it cancels the context |
| Scheduler.Scheduler.Stopped | internal/scheduler/scheduler.go:110-118 | once all workers have exited and no ticker is inside fire the registrations are dropped |
| Eligibility.FireExactly | internal/scheduler/scheduler.go:184-216 | an automatic fire of a registered id with its flag clear is accepted iff its monitor is enabled, not deleted and has a positive interval; a manual one whatever these are |
| Eligibility.FireInFull | internal/scheduler/scheduler.go:207-225 | field by field: an accepted fire sets one flag and holds a job with the monitor as registered; a refused one changes nothing |
| Eligibility.UpsertInFull | internal/scheduler/scheduler.go:156-186 | field by field: the flag is kept, the old ticker cancelled, and one with the monitor's interval starts iff scheduler and monitor call for it |
| Eligibility.AbortInFull | internal/scheduler/scheduler.go:227-239 | field by field: an aborted call clears the flag of the entry object it locked and of no other under the same id |
| Eligibility.SendExactly | internal/scheduler/scheduler.go:66-80 | a blocked send is ready iff fewer than two jobs per worker are queued |
| SchedulerSafety.StepKeeps | internal/scheduler/scheduler.go:133-240 | every step of every goroutine keeps: at most one job in flight per monitor, flags set for registered monitors in flight, no flag left set before shutdown, queue within capacity |
| SchedulerSafety.NoOverlapInEveryRun | internal/scheduler/scheduler.go:133-240 | however the goroutines interleave, a monitor never has two jobs in flight; before shutdown the flag of a registered monitor is set iff it has one |
| SchedulerSafety.WorkersDisjoint | internal/scheduler/worker.go:7-18 | no two workers execute checks of one monitor at the same time |
| SchedulerSafety.AddSafeExactly | internal/scheduler/scheduler.go:156-179 | registering a monitor keeps its next trigger from overlapping iff the id is registered already or nothing of an earlier registration is in flight |
| SchedulerSafety.CheckStarts | internal/scheduler/scheduler.go:207-240 | from an idle scheduler a registered and triggered monitor reaches any idle worker in five steps |
| SchedulerSafety.RemoveThenAddOverlaps | internal/scheduler/scheduler.go:133-179 | a concrete run of two workers: remove and add while the old check executes, and both execute the same monitor |
| SchedulerDrain.MoveShrinks | internal/scheduler/scheduler.go:207-240 | every step that moves a job in flight uses up weight |
| SchedulerDrain.MovesAreBounded | internal/scheduler/scheduler.go:207-240 | however they are chosen, such steps cannot go on longer than the weight: there is no livelock |
| SchedulerDrain.SomethingMoves | internal/scheduler/scheduler.go:207-240 | no deadlock: before shutdown, while anything is in flight, some holder of a job can take a step |
| SchedulerDrain.Drains | internal/scheduler/worker.go:7-30 | from every reachable state before shutdown a run without new fires ends with nothing in flight and every flag clear |
| SchedulerDrain.ShutdownReleases | internal/scheduler/scheduler.go:227-239 | after cancellation all calls blocked in fire can return without any other goroutine's help |
| SchedulerDrain.SentInOrder | internal/scheduler/worker.go:7-18 | workers execute exactly the jobs that were sent, in the order sent: none dropped, repeated or overtaken |
| SchedulerDrain.StopIsFinal | internal/scheduler/scheduler.go:104-118 | in every run, when Stop returns no check executes, no tick is inside fire and nothing is registered; whatever is called after that, no worker takes a job again and no ticker starts |
| Store.FindOpenMeans | internal/store/sqlite/incident.go:125-140 | the lookup fails iff no incident of the monitor is open, and otherwise returns an open one with no later start text |
| Store.ResolveRowsCount | internal/store/sqlite/incident.go:49-66 | with unique ids, resolving an open row changes that row only and takes it out of its monitor's open ones |
| Store.Stored | internal/store/sqlite/monitor.go:225-228 | a monitor read back has its durations cut to the greatest whole number of seconds within them, and every other field unchanged |
| Store.WholeSecondsReturn | internal/store/sqlite/monitor.go:184-185 | durations in whole seconds come back exactly |
| Repositories.Database.OpenIncident | internal/store/sqlite/incident.go:32-44 | a row is appended or, on failure, nothing changes |
| Repositories.Database.ResolveIncident | internal/store/sqlite/incident.go:49-66 | succeeds iff some incident with the id is unresolved; only unresolved rows are written |
| Repositories.Database.FindOpenByMonitor | internal/store/sqlite/incident.go:125-140 | an error iff the call fails or nothing is open; otherwise an open incident of the monitor with no later start text |
| Repositories.Database.InsertMonitor | internal/store/sqlite/monitor.go:41-57 | a new id gets a row with durations in whole seconds (`Stored` says which); an existing one is an error |
| Repositories.Database.UpdateMonitor | internal/store/sqlite/monitor.go:121-137 | only a row that is not deleted is written |
| Repositories.Database.SoftDelete | internal/store/sqlite/monitor.go:143-153 | only a row that is not deleted is marked; nothing is removed |
| Repositories.Database.GetMonitor | internal/store/sqlite/monitor.go:61-74 | deleted and missing rows are not found |
| Repositories.Database.UpsertState | internal/store/sqlite/monitor_state.go:28-53 | the row of the monitor is replaced, no other |
| Repositories.Database.GetState | internal/store/sqlite/monitor_state.go:57-71 | the row of the monitor, or an error when it is missing |
| Pipeline.Pipeline.Run | internal/pipeline/pipeline.go:154-287 | the straight-line code makes exactly the calls of the step-by-step run, stopping at the first failure |
| Pipeline.Pipeline.EnqueueNotification | internal/pipeline/pipeline.go:294-302 | a job is appended iff a notifier is wired, the monitor wants notifications and the gate is open |
| World.CheckInClosedForm | internal/pipeline/pipeline.go:178-286 | making the store calls one by one, with any of them failing, comes to one explicit function of the tables |
| World.ToggleWritten | internal/monitor/service.go:188-225 | exactly when a toggle writes the monitor row and when the state row, and what it writes |
| World.CheckSummary | internal/pipeline/pipeline.go:178-286 | what a check leaves: the state row is written iff every earlier call it needs succeeded; an incident opens or resolves, and its job is enqueued, under exact conditions |
| InFull.OutageInFull | internal/pipeline/pipeline.go:196-286 | every row of a check that opens, field by field: the incident with the probe's error as reason, events, job, counters and times |
| InFull.RecoveryInFull | internal/pipeline/pipeline.go:196-286 | and of one that resolves: the latest open incident is closed with time and event |
| InFull.FirstSuccessInFull | internal/pipeline/pipeline.go:196-286 | a first success writes check, change and state rows and touches no incident |
| InFull.SteadyInFull | internal/pipeline/pipeline.go:196-286 | a check that changes nothing writes its row and the counters only; while paused it keeps the state |
| InFull.OpensExactly | internal/pipeline/pipeline.go:230-250 | with any faults, a check opens an incident iff it fails, read up or unknown and none of the calls up to that one fails; it is one, unresolved, with id, monitor, start, event and reason of the probe |
| InFull.OutageStops | internal/pipeline/pipeline.go:178-286 | the rows that a failing check of a monitor that is up leaves behind when one of its calls fails |
| InFull.RecoveryStops | internal/pipeline/pipeline.go:178-286 | the same of a check that ought to resolve, an incident that is not there included |
| Origins.IncidentsSayWhy | internal/pipeline/pipeline.go:230-250 | in every interleaving with any faults each new incident carries id, start, start event and reason of a failing check of its monitor, and no later call changes what an incident says of these |
| MonitorService.MonitorService.Create | internal/monitor/service.go:82-113 | valid input gets a row, an initial state unknown or paused, an event and a report, in this order, each only if the one before succeeded |
| MonitorService.MonitorService.Update | internal/monitor/service.go:129-151 | the enabled flag is kept from the stored row; the change is reported only after row and event are written |
| MonitorService.MonitorService.Delete | internal/monitor/service.go:156-170 | the row is marked, an event recorded, the monitor as it was reported |
| MonitorService.MonitorService.SetEnabled | internal/monitor/service.go:188-225 | no effect when the flag already has the value; otherwise row, state row, event and report, each only if the one before succeeded |
| MonitorService.MonitorService.Finish | internal/monitor/service.go:227-243 | the change is reported iff its event was recorded |
| InFull.CreateInFull | internal/monitor/service.go:82-113 | refused iff interval or timeout is not positive or another field invalid; otherwise monitor row, state row, event and report, field by field |
| InFull.UpdateInFull | internal/monitor/service.go:129-151 | the same of an update, which keeps the stored enabled flag and the state row |
| InFull.DeleteInFull | internal/monitor/service.go:156-170 | the same of a delete, which marks the row and removes nothing |
| InFull.ToggleInFull | internal/monitor/service.go:188-225 | the same of a toggle: state unknown or paused, counters and last checks kept; nothing when the flag has the value |
| Ledger.StepKeeps | internal/pipeline/pipeline.go:230-286 | how one operation with any faults moves the balance between open incidents and the down state |
| Ledger.IncidentLedger | internal/pipeline/pipeline.go:230-286 | in every run with any faults: open incidents + resolved with lost state write = (1 if down) + opened with lost state write + toggles while down |
| Ledger.FaultFreeConservation | internal/monitor/service.go:188-225 | without faults: open incidents = disables taken while down + (1 if down); and the state is paused iff the monitor is disabled |
| Ledger.OneIncidentExactlyWhileDown | internal/store/sqlite/incident.go:125-140 | without disables while down there is never more than one open incident, one exactly while down, and the lookup of a recovery succeeds exactly then |
| Ledger.TwoOpenIncidents | internal/monitor/service.go:188-225 | a run without faults that ends with two open incidents: create, fail, disable, enable, fail |
| Ledger.RecoversIffOpen | internal/pipeline/pipeline.go:250-286 | a fault-free success takes a down monitor to up iff it has an open incident |
| Ledger.StuckForGood | internal/pipeline/pipeline.go:250-286 | down without an open incident is closed under every further check of any monitor, whatever fails |
| Ledger.StuckEndsExactly | internal/monitor/service.go:188-225 | one operation, whatever fails in it, leads out of the stuck condition iff it is a toggle that writes the state row |
| Ledger.StuckByLedger | internal/pipeline/pipeline.go:250-286 | a run ends stuck iff it ends down and its resolutions with lost writes are one more than the openings with lost writes and toggles while down |
| Ledger.LostWriteSticks | internal/pipeline/pipeline.go:259-286 | a recovery that loses only its state write leaves the monitor stuck iff at most one incident was open |
| Ledger.StuckIsReachable | internal/pipeline/pipeline.go:259-286 | a concrete family of runs that ends stuck: create, one failure, one success that loses its state write |
| Projection.FindOpenProjects | internal/store/sqlite/incident.go:125-140 | rows of other monitors change neither whether an open incident is found nor which |
| Projection.CallProjects | internal/pipeline/pipeline.go:178-286 | a store call of a check acts on its monitor's rows as if there were no others, and on no other rows |
| Projection.LifecycleProjects | internal/monitor/service.go:82-225 | so does every lifecycle operation as a whole |
| Requests.RequestAlone | internal/monitor/service.go:82-243 | a request that runs alone, call by call, does what the operation is specified to do |
| Requests.StepProjects | internal/monitor/service.go:82-243 | a request's store call acts on its monitor's rows as if there were no others, and on no other rows |
| Interleaving.DoTracked | internal/pipeline/pipeline.go:178-286 | every store call of checks and requests, in any interleaving, keeps incident ids unique, rows keyed and what runs have found there |
| Placement.TakesPlace | internal/monitor/service.go:188-225 | at the call where a request takes place, the rest of it comes to the whole operation on the tables without its earlier writes |
| Commute.AsideCommutes | internal/monitor/service.go:129-170 | an operation that leaves the state row alone does in the middle of a check what it does after it, but for the place of its event |
| Commute.RunAlike | internal/pipeline/pipeline.go:178-286 | runs from tables alike at a level end alike at it: what a check or a toggle decides depends on the state only, and nothing reads the log |
| Serial.ChecksSerialise | internal/pipeline/pipeline.go:178-286 | with one check and one request of the monitor at a time and no toggle writing inside a check, any other interleaving and any faults: state, incidents, check rows and jobs end as if its operations had run one at a time; if no check writes inside a toggle, all rows; if no check starts on an unlogged toggle, the order of the log too |
| Races.ReachesHalfway | internal/monitor/service.go:188-212 | the state from which the race runs is that of a toggle after its first three calls |
| Races.CheckInsideToggle | internal/monitor/service.go:203-212 | a check inside a toggle leaves the health of the serial order, and its state rows iff the check does not get to write one |
| Races.CounterIsLost | internal/monitor/service.go:203-212 | a concrete run: a successful check inside a disable is on record and not counted |
| Races.DisableInsideUpdate | internal/monitor/service.go:129-142 | a disable inside an update leaves the monitor paused, and enabled iff the update is valid and writes its row |
| Races.InEitherOrder | internal/monitor/service.go:129-142 | one after the other, in either order, the two leave it disabled |
| Races.EventComesLate | internal/monitor/service.go:212-222 | from a log that replays, without faults: with a check between the write and the event of a toggle it replays to the final state iff the toggle is a disable |
| Races.EnableIsLoggedLate | internal/monitor/service.go:212-222 | a concrete run from the start whose log does not replay |
| Reports.BackgroundKeeps | internal/scheduler/scheduler.go:207-240 | steps of the scheduler's goroutines keep the invariant, and keep jobs in flight tied to rows: an unregistered id with a job in flight belongs to a deleted row |
| Reports.TurnKeeps | internal/app/service.go:135-144 | so do lifecycle operations, their reports in any order, and loading, call by call, as long as no report registers an unregistered id with a job in flight |
| Reports.OverlapsExactly | internal/app/service.go:135-144 | over every run of scheduler and service: two jobs of one monitor in flight, or a state one trigger away from it, are met iff such a report comes |
| Reports.OrderlyIsClean | internal/monitor/service.go:129-170 | if requests of one monitor do not overlap, no such report comes |
| Reports.OrderlyNeverOverlaps | internal/scheduler/scheduler.go:133-240 | the no-overlap rule of the service under that guard of its callers: any operations, faults, order of reports of different monitors and interleaving until Stop returns |
| LateReports.LateReportOverlaps | internal/monitor/service.go:142-168 | a run without the guard: an update's report comes after a delete's, and two workers check the monitor |
| LateReports.LingersForGood | internal/app/service.go:135-144 | a deleted monitor that is registered, with nothing of it outstanding, stays registered until Stop returns |
| LateReports.LateUpdateLingers | internal/monitor/service.go:142-168 | a run that gets there, with the deleted monitor still being checked |
| ReportMirror.OrderlyMirrors | internal/app/service.go:135-144 | with one request of a monitor at a time, no faults, no stop and no cancellation of the context, in any interleaving: a monitor with nothing outstanding is registered iff its row is live, as its row says up to whole seconds, and uncancelled tickers are one per eligible entry |
| ReportMirror.ServiceMirrors | internal/app/service.go:201-207 | so it is from startup on, and with nothing outstanding at all the scheduler mirrors the table |
| CheckEngine.ServiceNeverOverlaps | internal/scheduler/scheduler.go:133-240 | the no-overlap rule of the composed engine while reports are clean, with requests at any point of a check |
| CheckEngine.QueuedIsIdle | internal/scheduler/scheduler.go:207-240 | a queued job's monitor has no check in progress |
| CheckEngine.MoveCouples | internal/scheduler/worker.go:7-18 | every move of scheduler, service and pipeline keeps them coupled: each check in progress is that of its worker's job |
| CheckEngine.CleanIsUndisturbed | internal/scheduler/scheduler.go:207-240 | while reports are clean the scheduler keeps the checks of a monitor apart |
| CheckEngine.EngineSerialises | internal/scheduler/worker.go:7-30 | the composed engine from its start on any stored tables, any workers and faults, with clean reports: each monitor's rows are those of a serial replay of its own operations, at the level that its toggles and requests allow |
| CheckEngine.EngineKeepsTheLedger | internal/pipeline/pipeline.go:230-286 | the incident ledger holds of the composed engine, with checks inside toggles |
| CheckEngine.CleanIsOneAtATime | internal/scheduler/scheduler.go:207-240 | while reports are clean no second check of a monitor starts |
| CheckEngine.EnginePairs | internal/pipeline/pipeline.go:230-265 | the pairing of recoveries holds at every point of the composed engine with clean reports, whatever the requests |
| CheckEngine.EngineBalances | internal/pipeline/pipeline.go:230-286 | so does the ledger call by call |
| CheckEngine.OrderlyRunsAreClean | internal/app/service.go:135-144 | if requests of one monitor do not overlap, reports are clean and requests keep apart by themselves |
| CheckProgress.MoveShrinksEffort | internal/scheduler/worker.go:7-18 | every store call, take, return and send of the composed engine uses up effort |
| CheckProgress.ChecksEnd | internal/scheduler/worker.go:7-18 | such moves alone cannot go on for longer than the effort |
| CheckProgress.SomethingGoesOn | internal/scheduler/worker.go:7-18 | before shutdown, while anything is in flight, some check, worker or blocked send can go on |
| Notifications.EnqueuedKeysDistinct | internal/pipeline/pipeline.go:230-265 | from any stored tables, in every interleaving with any faults, checks of one monitor side by side included, no two enqueued jobs share incident and event type |
| Notifications.LedgerUnderInterleaving | internal/pipeline/pipeline.go:178-286 | the incident ledger holds of interleaved runs, told by the monitor's own operations, with checks inside toggles |
| Pairing.RecoveriesArePaired | internal/pipeline/pipeline.go:230-265 | at every point of every interleaving with one check of the monitor at a time, its checks notifying, without faults and with rising starts: each recovery directly follows the outage of the same incident; requests may overlap, fail and write inside checks |
| Balance.LedgerOfCalls | internal/pipeline/pipeline.go:230-286 | with one check of the monitor at a time, any requests and any faults: open incidents + resolved unsaved + saved after a toggle of what was down = (1 if down) + opened unsaved + taken out of down by a request |
| Counters.CountersSum | internal/pipeline/pipeline.go:267-283 | with one check of the monitor at a time, without faults in its checks and none of them writing inside a toggle, any requests: between checks the counters are the lengths of the success and failure runs ending the check log, and the last fields are those of the log |
| Documents.IncidentsAreDocumented | internal/pipeline/pipeline.go:230-265 | in every interleaving with any faults each incident's start, and its end if resolved, is logged under the recorded id, monitor and time; each job names such an event and an incident of its own monitor |
| Audit.AuditLogReplays | internal/pipeline/pipeline.go:220-286 | without faults, one check and one request of the monitor at a time, no toggle writing inside a check: paused iff disabled; if no check writes inside a toggle, the counters are the lengths of the success and failure runs ending its check log; if no check starts on an unlogged toggle, folding its events from its state at creation gives its current state, each fitting the state it meets |
| Audit.ToggleAgreesExactly | internal/monitor/service.go:203-214 | the service's toggle agrees with the state machine iff an enable meets paused or unknown |
| Audit.SavesWhatItRead | internal/pipeline/pipeline.go:178-286 | from its read on, a run writes either a row computed from that reading, whatever the row is by then, or none |
| Audit.WillSaveExactly | internal/pipeline/pipeline.go:199-286 | from its read on, a run gets to write its row iff none of the calls ahead fails and what it has to resolve is there |
| Audit.ToggleInsideCheck | internal/monitor/service.go:188-225 | after a toggle between a check's read and write, paused matches disabled iff that guard fails, which can be told before the toggle |
| Audit.DisableIsOverwritten | internal/monitor/service.go:188-225 | a concrete run: a disable inside the first successful check leaves the monitor disabled and up |
| Audit.PausedOutlivesChecks | internal/monitor/state.go:45-79 | no check moves a monitor out of paused |
| Mirror.LosesReportExactly | internal/monitor/service.go:82-225 | an operation writes a row without reporting it iff, by its input, the tables and the failing calls, it fails after that write and the row changes |
| Mirror.MirrorsExactly | internal/app/service.go:135-144 | after one lifecycle operation the scheduler still mirrors the table iff that guard does not hold |
| Mirror.LostDeletionKeepsChecking | internal/monitor/service.go:156-170 | a concrete run: a deletion whose event is not recorded leaves a deleted monitor on schedule |
| Mirror.FaultFreeReports | internal/monitor/service.go:82-225 | without faults an operation that writes a row reports it |
| Mirror.StartupMirrors | internal/app/service.go:201-207 | loading the live rows, in any order, makes ids, entries and uncancelled tickers match the table |
| Mirror.SchedulerMirrorsDatabase | internal/app/service.go:135-144 | after startup and any fault-free lifecycle operations the scheduler's ids are the live rows, entries equal their rows up to whole seconds, and uncancelled tickers are one per eligible entry |
| Eligibility.DatabaseTicks | internal/scheduler/scheduler.go:184-186 | after startup and any fault-free lifecycle operations a monitor has an uncancelled ticker iff its row is live and enabled and the reported interval positive; it has one, with that interval, and automatic fires of others are refused |
| Eligibility.QuietTicks | internal/scheduler/scheduler.go:184-186 | the same of every monitor with nothing outstanding, while requests run side by side |
| Eligibility.DisableStops | internal/monitor/service.go:188-225 | after a fault-free disable the monitor has no uncancelled ticker, automatic fires are refused, manual ones are not |
| Eligibility.ReenabledInterval | internal/store/sqlite/monitor.go:225-228 | created, disabled and enabled, a monitor ticks iff its interval is at least a second, at its interval cut to whole seconds |
| Mirror.RestartKeepsTicker | internal/store/sqlite/monitor.go:225-228 | a scheduled monitor is scheduled again after its row is read back iff its interval is at least one second |
| Mirror.SubSecondStopsTicking | internal/store/sqlite/monitor.go:225-228 | an accepted interval below a second ticks at first and never after a restart |
| Mirror.TogglingKeepsTicker | internal/monitor/service.go:188-225 | a created monitor that is disabled and enabled ticks again iff its interval is at least a second |
| Retry.BackoffDelay | internal/notify/delivery.go:320-338 | the loop computes the doubling function, wrap-around included |
| Retry.BackoffExactly | internal/notify/delivery.go:320-338 | the delay is min(initial * 2^(attempt-1), cap) for all positive attempts and initial delays iff the cap is at most 2^62 |
| Retry.UncappedExactly | internal/notify/delivery.go:320-338 | without a cap the delay is the true product iff that fits 64 bits |
| Retry.BackoffEdges | internal/notify/delivery.go:320-338 | no delay without an initial one; attempts below the first count as the first |
| Retry.SendWithRetry | internal/notify/delivery.go:240-266 | attempts are numbered from 1 up to the limit (1 for manual tests), all but the last failed, the result is success iff the last one succeeded, and the waits are the backoff delays |
| DeliverySpec.KeyTextInjective | internal/notify/delivery.go:303-315 | the text key determines incident and event type |
| DeliverySpec.JobsAreConserved | internal/notify/delivery.go:141-171 | for any class of jobs and any interleaving, accepted = queued + in a worker's hands + suppressed + delivered |
| DeliverySpec.DeliveredAtMostOnce | internal/notify/delivery.go:303-315 | for any jobs, duplicates included, at most one per key passes claim, and exactly one once all accepted jobs have been through it |
| DeliverySpec.DistinctNeverSuppressed | internal/notify/delivery.go:303-315 | jobs with distinct keys are never suppressed |
| DeliverySpec.TakenInOrder | internal/notify/delivery.go:141-163 | over every run the accepted jobs are, in order, those handed to workers and then those still queued |
| DeliverySpec.OneWorkerInOrder | internal/notify/delivery.go:141-153 | with one worker the jobs passed or suppressed are, in order, a prefix of those accepted: a recovery accepted after its outage is never claimed before it |
| DeliverySpec.QueueIsBounded | internal/notify/delivery.go:105-120 | in every run the queue holds at most 256 jobs, and accepts one iff it holds fewer |
| Delivery.DeliveryPipeline.Claim | internal/notify/delivery.go:303-315 | a job is claimed iff it has no incident or its text key is new, and then the key is remembered |
| Delivery.DeliveryPipeline.Enqueue | internal/notify/delivery.go:158-163 | a job enters the queue if there is room; it is dropped only after stop |
| Delivery.DeliveryPipeline.Take | internal/notify/delivery.go:141-153 | a worker takes the oldest queued job; that this is the order of acceptance is `TakenInOrder` |
| Delivery.DeliveryPipeline.Delivered | internal/notify/delivery.go:141-153 | a delivered job leaves the worker's hands and is counted once |
| Delivery.DeliveryPipeline.Stop | internal/notify/delivery.go:168-171 | up to its wait, stopping leaves queue, workers and remembered keys as they are |
| Delivery.CheckJobsAlwaysPass | internal/notify/delivery.go:303-315 | from any stored tables, checks of one monitor side by side included, no job that came from a check is ever suppressed, whatever failed in the checks and in whatever order jobs arrive and are taken |
| Delivery.NoticesInFull | internal/notify/delivery.go:303-315 | event type and text key of a check's job, spelled out |
| Shutdown.ReturnsExactly | internal/notify/delivery.go:141-163 | a check inside Enqueue can return iff the queue has room, the notifier is stopped, or one of its workers has not left |
| Shutdown.ReturnsWhileServing | internal/notify/delivery.go:132-153 | in every run it can until the service's context is cancelled |
| Shutdown.HangsForGood | internal/app/service.go:164-175 | full queue, workers gone, notifier not stopped: no step of anyone leads out, so the scheduler's Stop never returns |
| Shutdown.ShutdownCanHang | internal/notify/delivery.go:141-163 | for any number of delivery workers, a run from the start that gets there: 256 queued jobs, one more check, cancellation |
| StoredTime.SecondOrder | internal/store/sqlite/monitor.go:14-16 | the fixed-width part of the text sorts like the second of the proleptic Gregorian calendar it names |
| StoredTime.TailOrder | internal/store/sqlite/monitor.go:14-16 | within a second the rest sorts like the nanoseconds iff neither trimmed fraction properly extends the other |
| StoredTime.TextOrderExactly | internal/store/sqlite/monitor.go:14-16 | text order is time order iff the instants do not share their second with one trimmed fraction a proper prefix of the other |
| StoredTime.LaterSecondSortsLater | internal/store/sqlite/monitor.go:14-16 | instants of different seconds always sort in time order |
| StoredTime.WholeSecondSortsLast | internal/store/sqlite/monitor.go:14-16 | a whole second sorts after every later instant within it |
| StoredTime.MidnightSortsLast | internal/store/sqlite/monitor.go:14-16 | two given instants of 2026 in the wrong order |
| TimeText.ReadFormat | internal/store/sqlite/monitor.go:188-201 | every instant of the years 0 to 9999 reads back from its stored text, which has the shape of section 5.6 of RFC 3339 |
| TimeText.YearBegins | internal/store/sqlite/monitor.go:14-16 | the seconds by which instants are compared agree with the Gregorian count of leap days, and 1970 begins where it should |
| Retention.CheckResults.PruneOlderThan | internal/store/sqlite/check_result.go:78-91 | exactly the rows whose text is below the cutoff's go, the others stay in order, and their number is returned |
| Retention.PruneExactly | internal/store/sqlite/check_result.go:78-91 | an earlier second is always pruned, a later one never; within the cutoff's second the outcome is right iff neither trimmed fraction extends the other |
| Retention.PrunedTooEarly | internal/store/sqlite/check_result.go:78-91 | a row that starts within the cutoff's whole second, after it, is pruned all the same |
| History.QueryHistory | internal/store/tsdb/query.go:99-190 | the single pass over unordered series returns the answer defined bucket by bucket by filtering; an error iff the range is unsupported, the id empty or the store fails |
| History.AddSample | internal/store/tsdb/query.go:141-160 | adding one sample in place keeps every bucket equal to its filtered contents |
| History.IndexInRange | internal/store/tsdb/query.go:141-160 | a sample in the window has an index within the buckets, so the second guard never drops one |
| History.IndexExactly | internal/store/tsdb/query.go:141-160 | the index is i iff the sample lies within the reported bounds of bucket i |
| History.BucketsTile | internal/store/tsdb/query.go:35-41 | for every range the buckets are contiguous, equal and cover the window exactly |
| History.CountsConserved | internal/store/tsdb/query.go:99-190 | the buckets together hold each sample of the window once |
| History.AnswerIgnoresOrder | internal/store/tsdb/query.go:99-190 | any regrouping or reordering of series and samples gives the same answer |
| History.StateExactly | internal/store/tsdb/query.go:167-190 | for 0/1 samples: up iff non-empty and all ones, down iff some zero, unknown iff empty |
| History.Windows | internal/store/tsdb/query.go:35-41 | the windows last 1, 6, 24, 168 and 720 hours, in 60, 72, 96, 168 and 120 buckets, and end at the query time |
| History.PointsTile | internal/store/tsdb/query.go:167-173 | each point of the answer begins where the one before ends |
| History.AverageExactly | internal/store/tsdb/query.go:183-186 | for non-negative durations, n of them within a point's bounds: n * average <= 1000 * sum < n * (average + 1), and 0 if there are none |
| History.AverageBetween | internal/store/tsdb/query.go:183-186 | the average lies between the least and the greatest duration, in whole milliseconds |
| History.RatioExactly | internal/store/tsdb/query.go:175-182 | the ratio times the number of outcomes is their sum, 0 if there are none, and from 0 to 1 for outcomes of 0 and 1 |
| TargetConfig.Redact | internal/store/sqlite/notification_target.go:200-221 | the loop blanks the secret fields that are there and leaves the rest |
| TargetConfig.MergeBlankSecrets | internal/store/sqlite/notification_target.go:228-269 | the loop restores a stored secret iff the update does not fill it with a non-empty string |
| TargetConfig.WriteBackWhatWasRead | internal/store/sqlite/notification_target.go:200-269 | merge(redact(s), s) = s |
| TargetConfig.RedactTwice | internal/store/sqlite/notification_target.go:200-221 | redacting is idempotent |
| TargetConfig.MergeTwice | internal/store/sqlite/notification_target.go:228-269 | merging is idempotent in both readings: the same update again, or its own result |
| TargetConfig.ReadAfterWrite | internal/store/sqlite/notification_target.go:200-269 | a read after an update shows exactly the update's public fields, and a blank for each secret that update or store has |
| TargetConfig.SecretsSurvive | internal/store/sqlite/notification_target.go:153-169 | over any sequence of updates a stored secret is never lost: it is the last non-blank value sent, or the original |
| TargetConfig.SecretLostExactly | internal/store/sqlite/notification_target.go:228-269 | the repository's update, under any kind, loses a stored value iff that kind does not count the field as secret and it leaves it out or empty |
| TargetConfig.MergedInFull | internal/store/sqlite/notification_target.go:228-269 | a merge, field by field |
| TargetConfig.RedactedInFull | internal/store/sqlite/notification_target.go:200-221 | a redaction, field by field |
| TargetRepository.TargetRepo.Get | internal/store/sqlite/notification_target.go:65-97 | a live target with its secrets blanked; an error for missing, deleted and undecodable ones |
| TargetRepository.TargetRepo.Update | internal/store/sqlite/notification_target.go:153-169 | which error or crash occurs when, and on success the row's exact new contents, blank secrets restored |
| TargetRepository.TargetRepo.SoftDelete | internal/store/sqlite/notification_target.go:174-185 | succeeds iff the row is live, and marks only it |
| TargetRepository.TargetRepo.Patch | internal/ipc/notifications.go:229-280 | read redacted, overlay the supplied fields, refuse a blank name, write back, read again: without a config in the request, or with null, the stored one survives unchanged, secrets included, and the handler never crashes |
| TargetRepository.ShowsBlanks | internal/store/sqlite/notification_target.go:190-221 | what is shown has every field that the target's kind calls secret as empty text and the others as stored |
| TargetRepository.UpdateRestores | internal/store/sqlite/notification_target.go:190-269 | what is stored is the update with every secret of the kind that it leaves out or blanks as it was |
| TargetRepository.BlankNames | internal/ipc/notifications.go:400 | what a blank name is, by examples |
| TargetRepository.LosesSecret | internal/store/sqlite/notification_target.go:228-269 | a concrete caller that changes the kind and loses the token |
| TargetRepository.CrashesOnNull | internal/store/sqlite/notification_target.go:240-262 | a concrete caller whose null config crashes the update |
| DnsName.ValidDnsName | internal/monitor/validate.go:336-365 | the nested loops accept iff the trimmed name has 1 to 253 bytes and every label is well formed |
| DnsName.AcceptsExactlyNames | internal/monitor/validate.go:336-365 | that is exactly the grammar: labels joined by dots, with or without a final dot |
| DnsName.AcceptedNamesFitTheWire | internal/probe/dns.go:160-167 | for every accepted name fqdn is the trimmed name and one dot; its wire form has at most 255 octets and decodes to its labels |
| DnsName.WireDeterminesLabels | internal/probe/dns.go:99-102 | different label sequences have different wire forms |
| DnsName.WireInFull | internal/probe/dns.go:99-102 | on the wire each label follows those before it, as its length and its characters, and a zero octet comes last |
| Resolver.ResolverAddress | internal/monitor/validate.go:264-295 | the method computes the normal form or reports a malformed setting |
| Resolver.SplitJoinHostPort | internal/monitor/validate.go:294 | splitting undoes joining for bracket-free hosts and ports without a colon |
| Resolver.NormalFormRoundTrip | internal/monitor/validate.go:264-295 | the normal form of every accepted setting is its own normal form and splits into a valid host and a port in 1..65535 |
| Resolver.BareFormsGetDefaultPort | internal/monitor/validate.go:264-295 | an address or name without a port gets port 53, in brackets if it has a colon |
| Resolver.BracketedFormExactly | internal/monitor/validate.go:264-295 | a bracketed form without a port is accepted iff it is an IPv6 address, and gets port 53 |
| Resolver.PortsExactly | internal/monitor/validate.go:264-295 | a port written in decimal is accepted iff it is from 1 to 65535 |
| Deadline.QueryServers | internal/probe/dns.go:227-248 | each attempt gets its share; every server but the last tried was passed over; the reply is the last one's; without one the list, the time or the check ended |
| Deadline.ShareExactly | internal/probe/dns.go:253-259 | a share is the time left divided by the number of servers still to try, rounded down |
| Deadline.SharesAreFair | internal/probe/dns.go:253-259 | shares rise from at least an n-th of the budget, the last server gets all that is left, and the total used never exceeds the budget |
| Deadline.FirstAnswerWins | internal/probe/dns.go:227-248 | while time is left, the reply is that of the first server that answers within its share |
| Deadline.SilentServersCannotStarve | internal/probe/dns.go:218-248 | a server that answers within an n-th of the budget cannot be starved by the others: the query returns a reply |

## Left out

- Ties of `FindOpenByMonitor`: among open incidents with equal start text SQL may return any; the model returns the earliest row.
- Failure granularity: a failed store call is modelled as one without effect, and one verdict holds for all calls at a call site of a run; an error reported after the statement took effect is not modelled.
- Fresh ids are a hypothesis on the ids drawn, not derived from ULID generation; ids of events and checks are not assumed distinct.
- Serial.ChecksSerialise: two requests of one monitor side by side are excluded by condition; what they can do is shown in `Races` and `LateReports`, not characterised in full.
- Enqueueing a notification is one step with the store call before it, and reading the global gate is an input; that a full notification queue blocks a check is the subject of `Shutdown`, not of the composed engine.
- Pruning of check rows is no step of the interleaved runs; `Counters.CountersSum` and `Audit.AuditLogReplays` speak of the whole check log.
- Samples written to the time series store by a check, log lines and the manual flag of a run: they have no effect on the tables.
- Ticker goroutines are not stepped one by one: a fire may happen at any time for any id, which includes every tick.
- A fire before `Start` is not a step, as the documentation of ManualTrigger requires a started scheduler.
- Scheduler.Scheduler.Stop: its two waits are the guard of `Stopped`.
- Reports.OverlapsExactly: covers runs up to the last statement of Stop, which forgets the registrations.
- Mirror.SchedulerMirrorsDatabase: operations one after the other, each with its report; side by side they are the subject of `ReportMirror`.
- Delivery fans out over several targets, renders messages and records attempts in a table; the model delivers a job as one step and proves the retry loop for one target.
- Floating point: sums, ratios and averages of history are exact reals; NaN and histogram samples are not modelled.
- History.QueryHistory: every error of the store is one flag, and a zero query time, which the code replaces by the clock, is an input; sample times are whole milliseconds, so a sample belongs to the bucket whose bounds, rounded down to milliseconds, contain it.
- Resolver.NormalFormRoundTrip: what parses as an IP address is a parameter with three facts about its spelling (not empty, no brackets, a colon never comes alone).
- TargetConfig.MergeBlankSecrets: number precision and the order of keys are not modelled; JSON null is, in `TargetRepository`; values that are not strings are opaque.
- Delivery.DeliveryPipeline.Stop: the wait for its workers.
- Deadline.QueryServers: contexts without a deadline, and the UDP and TCP exchange itself; a server is a delay and an outcome.
- List and ListRecent of the repositories: their order is the text order analysed in `StoredTime`.
- Terminal interface, command line, IPC routes, HTTP, TCP and ICMP probes, providers, configuration files and migrations.
