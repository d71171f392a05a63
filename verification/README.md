# Event lifecycle engine: a verified model

The engine keeps events in a versioned table. Jobs dispatch them to a broker, adapters acquire a processing permit and
report success or failure, and every change goes through an UPDATE that commits only if the row still carries the
version of the snapshot the caller loaded. The UPDATE statements check nothing else: no status, no counters. Everything
the engine promises about attempts, retries and final states therefore rests on decisions taken from possibly stale
snapshots. This project models that engine and proves what holds in every interleaving.

`dafny verify dfyconfig.toml` checks all modules.

## How the modules fit together

| module | role |
|---|---|
| `EventModel`, `EventStore` | entities, commands, the event table as a class whose methods are the SQL statements |
| `Decisions` | what the lifecycle service decides from a snapshot, a configuration and the clock |
| `Lineage` | the laws of one event's life when every write is decided from the row just before it |
| `Protocol` | the concurrent machine: any number of publishers, jobs, permit seekers and reporters, one shared access per step |
| `Broker`, `AdapterContract`, `Reopening`, `RideTable`, `Rides` | results on top of the protocol |
| `Tightness` | runs that reach the bounds |
| `LifecycleService` | the service's methods in imperative form; the writes other clients commit in between are parameters |
| `Dispatcher` | message lifetime, from the publisher's bucket to the consumer's discard test |
| `TtlCache`, `ConfigService`, `ConfigProtocol` | the configuration cache: classes, and the machine of interleaved loads and writes |
| `Runner`, `AwaitingJob` | a job's nested loop with its limits, and the job that dispatches awaiting events |
| `Composition` | the service methods and the job as steps of the protocol |
| `JointEngine` | the protocol and the configuration cache in one machine, on one clock: what suspension does to dispatch |

The central theorem is `Protocol.EveryHistoryIsSequential`. In every reachable state of the concurrent machine, each
event's stored row is the last entry of a history in which every write was decided from the row directly before it,
although each operation works on whatever snapshot it once loaded. The laws of `Lineage`, proved by one induction over
sequential histories, then hold for every interleaving. The history, the version attached to a broker message, and the
read and store instants of a cache entry are auxiliary: no step reads them.

A step of the protocol is one access of shared state: a SELECT, an INSERT IGNORE, a versioned UPDATE, a payload write, a
broker publication, a clock advance. An operation keeps its snapshot, and later its command, between steps, may retry its
update as often as it likes, and may stop anywhere (`GiveUp`). Configurations are arbitrary at every decision, so the
results hold whatever is changed in the configuration table or served stale by the cache; only `JointEngine` ties a
dispatch to what its own load returned. Random numbers, sleeps and
the order of query results are nondeterministic. Times are whole nanoseconds; DATETIME(3) columns round to milliseconds.

## Where the documentation and the code differ

The model follows the code.

- `internal/model/status.go:30-39` calls PROCESSED final. Reports check no status (`internal/service/lifecycle.go:190-266`),
  so a late failure report can put a processed event back in the queue. `Reopening.ReopenedIffRetriesRemain` gives the
  exact condition, `Reopening.SomeProcessedEventCanReopen` a run that gets there, and `AdapterContract.TerminalStatesAbsorb`
  the contract under which it cannot happen. The same lines call FAILED final. No run sends a failed event back to the queue
  (`Protocol.NothingRevivesAFailedEvent`), but without the contract every failed event has a run in which a late success
  report makes it PROCESSED (`Reopening.FailedEventCanStillSucceed`).
- `internal/service/lifecycle.go:128` says a lost race returns nil. The retry loop around the fixed command exhausts its
  tries and the method returns an error; the nil exits after the loop (169-171, 415-417) are unreachable, which
  `LifecycleService.Service.WithRetry` proves for every interference.
- `internal/service/lifecycle.go:84-88` takes the first delay from the first list entry, whatever its attempt number, while
  retries look their number up. That is the delay configured for attempt 1, whatever the delays, exactly when the list is
  empty or begins with number 1 (`Decisions.FirstDelayIsItsOwnIff`); `Decisions.FirstDelayMayBeAnothers` is a list for which
  it is not. `Lineage.EveryAttemptUsesItsOwnDelay` joins this to the retries.
- `internal/service/dispatcher.go:80` promises the smallest bucket at least as long as the remaining time. The remaining time
  is first cut to whole seconds, so 30.5 s get a bucket of 30 s (`Dispatcher.HalfASecondIsNotCovered`).
  `Dispatcher.CoversRemainingIff` says exactly when the promise is kept. The more lenient end-to-end guarantee, that nothing is
  discarded more than two seconds early, has its own exact condition (`Dispatcher.NeverDiscardedEarlyIff`).
- `internal/job/suspended.go:9-10` and `internal/service/lifecycle.go:375` speak of suspended events past a due date. The query
  selects SLEEPING rows by `attempt_scheduled_at`; the status SUSPENDED never occurs (`Lineage.StatesAlwaysAgree`).
- `migrations/006_seed_ride_lifecycle.up.sql:10-74` stores `delay_seconds`, which `internal/model/config.go:18` does not decode,
  so every seeded delay is 0. No proved bound depends on the delays.
- `UpdateConfig` writes every column, the suspension flag included (`internal/repository/config_mysql.go:82-87`).

## Model

| member | source | states |
|---|---|---|
| `EventModel.StoredTime` | migrations/001_create_event.up.sql:10-12 | a stored instant is a whole number of milliseconds, at most half a millisecond away, and unchanged if it was whole already |
| `EventModel.GoDiv` | internal/service/lifecycle.go:94 | 64-bit division rounds toward zero for both signs of the dividend |
| `EventModel.ToLower` | internal/service/dispatcher.go:50 | the subject has the type's length and its letters lowered one by one |
| `EventStore.EventRepository.constructor` | internal/repository/event_mysql.go:75-78 | a new table is empty |
| `EventStore.EventRepository.Create` | internal/repository/event_mysql.go:80-112 | true exactly when the identifier was new; the table then gains version 1 of the row, otherwise nothing changes |
| `EventStore.EventRepository.Load` | internal/repository/event_mysql.go:114-127 | the stored row, or nothing if there is none |
| `EventStore.EventRepository.Find` | internal/repository/event_mysql.go:129-162 | only matching rows, each once, at most the limit, and all of them when fewer than the limit come back |
| `EventStore.EventRepository.ExecOptimistic` | internal/repository/event_mysql.go:164-289 | the six updates: a hit rewrites that statement's columns, moves the version on and stamps the row; a miss changes nothing and names the identifier and the expected version |
| `EventStore.VersionsOnlyGrow` | internal/repository/event_mysql.go:165-253 | whatever writes run, a row is never removed, its version never falls, and an unchanged version means an unchanged row |
| `EventStore.UpdateColumns` | internal/repository/event_mysql.go:164-253 | each of the six statements by its columns: the status it writes (FAILED for a failure), the columns it sets and to what, and that every other column stays |
| `EventStore.InsertColumns` | internal/repository/event_mysql.go:83-101 | the inserted row by its columns |
| `EventStore.NamesSurvive` | internal/repository/event_mysql.go:164-253 | no sequence of writes changes an event's type, flow, on-fail type or creation time |
| `Decisions.RetryDelayIsFirstMatch` | internal/service/lifecycle.go:274-280 | the delay is that of the first entry carrying the attempt number, and 0 if no entry carries it |
| `Decisions.FirstDelayIsItsOwnIff` | internal/service/lifecycle.go:84-88 | over all delays for these attempt numbers, the first attempt waits for the delay configured for attempt 1 exactly when there is no list or it begins with number 1 |
| `Decisions.FirstDelayMayBeAnothers` | internal/service/lifecycle.go:84-88 | entries (2, 5 s), (1, 0 s): the first attempt waits 5 s where attempt 1 is configured to wait for nothing |
| `Decisions.SpinoffRequests` | internal/service/lifecycle.go:211-218 | every spinoff is published in the reporter's flow with its own type, payload and on-fail type, in order |
| `Lineage.LineageIsLawful` | internal/service/lifecycle.go:75-456 | every sequential history keeps all laws at once: balance of the counters, bounds, agreement of states, unchanged identity and due date, finality of failure |
| `Lineage.Conservation` | internal/service/lifecycle.go:291-300 | attempts_left is the granted attempts less the switches, attempts_failed is switches plus failures, the version counts every committed write |
| `Lineage.WorkIsBounded` | internal/service/lifecycle.go:366-456 | with M attempts granted, at most M permits, M - 1 switches, M reactivations and M dispatches out of AWAITING_PROCESSING |
| `Lineage.StatesAlwaysAgree` | internal/service/lifecycle.go:97-114 | after every write: SLEEPING only while awaiting, ACTIVE only while awaiting or dispatched, INACTIVE exactly while being processed, processed or failed; SUSPENDED and CANCELED never |
| `Lineage.FailureIsFinal` | internal/service/lifecycle.go:257-265 | after a terminal failure only further terminal reports commit, and the event stays FAILED or PROCESSED |
| `Lineage.SwitchesCountFailures` | internal/service/lifecycle.go:272-296 | at every switch attempts_failed equals the number of earlier switches: no terminal failure came before it |
| `Lineage.SwitchUsesItsOwnDelay` | internal/service/lifecycle.go:270-300 | the k-th switch uses the delay configured for attempt k + 1 and sleeps exactly when that delay is positive |
| `Lineage.EveryAttemptUsesItsOwnDelay` | internal/service/lifecycle.go:84-100 | every attempt, the first included, is scheduled by the delay under its own number and sleeps exactly when that is positive; the first needs no list or one that begins with number 1 |
| `Lineage.StatusFollowsCause` | internal/repository/event_mysql.go:164-253 | in every history the status after a write is its operation's own: a failure leaves FAILED, a success PROCESSED, a permit BEING_PROCESSED, a dispatch DISPATCHED, the rest AWAITING_PROCESSING |
| `Lineage.PublicationLeaves` | internal/service/lifecycle.go:84-114 | the first row of every history: the request's names, all attempts of the configuration, and the schedule and both due dates from its delay and lifespan |
| `Lineage.WriteLeaves` | internal/service/lifecycle.go:129-456 | every later write of every history, column by column, on clock readings taken between the snapshot's commit and its own |
| `Lineage.DeadlineDecides` | internal/service/lifecycle.go:257-265 | a switch was judged before the due date fixed at publication and with more than one attempt left; a terminal failure had at most one left or was judged at or after that date |
| `Protocol.StepKeepsInv` | internal/service/lifecycle.go:129-456 | every step of every operation keeps the invariant: rows end their histories, snapshots are past entries, judgements lie between snapshot and now, messages and payloads belong to their event |
| `Protocol.RunKeepsInv` | internal/service/lifecycle.go:75-456 | whole runs keep the invariant, and histories and the clock only grow |
| `Protocol.EveryHistoryIsSequential` | internal/repository/event_mysql.go:165-289 | every interleaving of stale readers leaves each event with a history in which each write was decided from the row directly before it |
| `Protocol.ReachableRowsAreLawful` | internal/service/lifecycle.go:129-314 | in every reachable state the stored row obeys the balance, the agreement of states and the bounds on permits, switches, reactivations and dispatches |
| `Protocol.FindersSeeOnlyQueuedEvents` | internal/service/lifecycle.go:355-383 | the scheduled finder returns only awaiting or dispatched events, the expired-suspended finder only awaiting ones |
| `Protocol.FindersFindWhatIsDue` | internal/service/lifecycle.go:355-383 | each finder can hand out a row exactly when it has that finder's status or schedule state and was created, or its attempt scheduled, by now |
| `Protocol.NothingRevivesAFailedEvent` | internal/service/lifecycle.go:316-331 | once a failure committed, whatever runs next commits only success or failure reports for that event, never a dispatch, permit, switch or reactivation |
| `Protocol.CommitReplacesItsSnapshot` | internal/repository/event_mysql.go:267-289 | the row a commit replaces equals, field by field, the snapshot its command was computed from |
| `Protocol.OneCommitPerVersion` | internal/repository/event_mysql.go:267-289 | of two commits for one event in one run the later carries the larger version, so each version commits at most once |
| `Protocol.StaleNeverCommits` | internal/service/lifecycle.go:483-495 | an operation whose snapshot is stale never commits, however long it retries and whatever runs meanwhile |
| `Protocol.PayloadIsWriteOnce` | internal/service/processing.go:44-48 | every stored payload is the creator's, and every message carries the creator's payload or "{}" |
| `Protocol.OnlyOneInitiationCreates` | internal/service/processing.go:38-56 | after one initiation for an identifier, every later one, however interleaved, changes no row, no payload and no history and saves nothing |
| `Protocol.CreatorIsForever` | internal/repository/payload_memory.go:27-45 | once created, the creator's payload stays the only one recorded and the only one a load can return, in every continuation |
| `Protocol.EveryMessageIsInTime` | internal/service/dispatcher.go:44-47 | every message of every run passed its expiry test before its event's due date |
| `Protocol.FailureLeadsToOnFail` | internal/service/lifecycle.go:333-346 | a committed failure of an event that names an on-fail type leads to its publication, one that names none ends |
| `Protocol.OnFailAsksFor` | internal/service/lifecycle.go:334-341 | the publication asks for the on-fail type in the failed event's flow, with its payload or the empty one and no on-fail type of its own |
| `Protocol.SuccessLeadsToSpinoffs` | internal/service/lifecycle.go:210-222 | a committed success leads to the publication of its spinoffs, in order, in the event's flow |
| `Broker.OneMessagePerDispatch` | internal/service/lifecycle.go:396-428 | every message stems from a committed dispatch of its snapshot version, and no two from the same one |
| `AdapterContract.AtMostOneHolder` | internal/adapter/adapter.go:128-138 | if every report comes from a run that got the permit and reports once, an event has at most one holder, and only while BEING_PROCESSED |
| `AdapterContract.HolderNeverLosesTheRace` | internal/adapter/adapter.go:159-178 | under the contract, a report whose command is built commits at once, in every interleaving |
| `AdapterContract.TerminalStatesAbsorb` | internal/model/status.go:17-39 | under the contract, the row of a processed or failed event is never written again |
| `Reopening.ReopenedIffRetriesRemain` | internal/service/lifecycle.go:234-262 | without the contract, a finished event goes back to the queue in some continuation exactly when attempts and time are left now, or a failure report in flight saw the current row while they were |
| `Reopening.SomeProcessedEventCanReopen` | internal/service/lifecycle.go:190-205 | a concrete run reaches a PROCESSED event that can be reopened |
| `Reopening.FailedEventCanStillSucceed` | internal/model/status.go:20-39 | without the contract, every reachable FAILED event has a run in which it becomes PROCESSED |
| `Reopening.SomeEventFails` | internal/service/lifecycle.go:316-331 | a concrete run ends with a FAILED event and one failed attempt |
| `RideTable.ChainAdvances` | internal/adapter/adapter.go:34-77 | each ride step's success names the next type of the chain, and the last step names none |
| `RideTable.SpinoffsFollowTheTable` | internal/adapter/adapter.go:124-178 | though the adapter sees only the lowered subject, it reports the table's spinoff for the event's own type |
| `Rides.HeldReportFollowsTable` | internal/adapter/adapter.go:140-178 | a delivered message leads its holder to the table entry of the event it names |
| `Rides.StepKeepsChain` | internal/service/lifecycle.go:210-222 | every step keeps at most one carrier for each place of the chain, each with its parent processed and its seeded attempts granted |
| `Rides.RideIsBounded` | migrations/006_seed_ride_lifecycle.up.sql:1-75 | one RIDE_REQUESTED publication leads to at most 6 events, all of the root's flow type, and at most 13 permits in total, in every interleaving |
| `LifecycleService.PayloadRepository.Save` | internal/repository/payload_memory.go:26-32 | the payload is stored under the identifier, the others stay |
| `LifecycleService.PayloadRepository.Load` | internal/repository/payload_memory.go:34-45 | the stored payload, or nothing |
| `LifecycleService.ErrorLogRepository.Save` | internal/repository/errorlog_mysql.go:23-37 | the entry is appended, or nothing is if the database refuses |
| `LifecycleService.Service.WithRetry` | internal/service/lifecycle.go:480-495 | for any writes others commit between tries: success exactly when the first try hits, then one try, else all ten; the captured flag agrees; only a hit writes |
| `LifecycleService.BehindStaysBehind` | internal/service/lifecycle.go:483-495 | a command older than the row misses after any further writes |
| `LifecycleService.Service.FindRetryDelay` | internal/service/lifecycle.go:274-280 | the scan with its break computes the delay `RetryDelayIsFirstMatch` characterises |
| `LifecycleService.Service.Publish` | internal/service/lifecycle.go:74-125 | without a configuration nothing changes; for a new identifier exactly one row is added, with the request's type, flow and on-fail type, the configuration's attempts, schedule and both due dates, and the request's payload is stored under it; a taken identifier changes neither |
| `LifecycleService.EveryRequestIsPublished` | internal/service/lifecycle.go:210-222 | of a list of publications, every one whose type is configured and whose identifier nobody else takes ends with its row and its payload in place, whatever others write |
| `LifecycleService.Service.InitiateIdempotently` | internal/service/processing.go:36-56 | row and payload are written by the creating call only, and every call returns the row as it is after whatever others wrote meanwhile |
| `LifecycleService.Service.TryAcquireProcessingPermit` | internal/service/lifecycle.go:127-186 | refused unless the loaded row is dispatched; otherwise granted with the reloaded row and payload exactly when the first try hits and a payload exists by then, others writing rows and payloads in between; each other exit with its own error |
| `LifecycleService.Service.ReportSuccess` | internal/service/lifecycle.go:188-229 | the spinoffs are published in order, in the event's flow, only after the success committed; no status is checked |
| `LifecycleService.Service.ReportFailure` | internal/service/lifecycle.go:231-266 | an error log entry, whose failure changes nothing else; then, if nobody was faster: with more than one attempt left and before the row's due date the row goes back to the queue with one attempt fewer, otherwise it is FAILED and INACTIVE with one failed attempt more and the on-fail type is published |
| `LifecycleService.Service.ScheduleNextAttempt` | internal/service/lifecycle.go:268-314 | one attempt fewer, one failure more, scheduled by the delay of the next attempt |
| `LifecycleService.Service.MarkAsTerminallyFailed` | internal/service/lifecycle.go:316-353 | only after the failure committed, an event that names an on-fail type publishes one event of that type, in its own flow, with its payload or the empty one, and no on-fail type |
| `LifecycleService.Service.ProcessPendingEvent` | internal/service/lifecycle.go:385-434 | a suspended type or a lost race sends nothing and a committed dispatch sends at most one message, with the stored payload or "{}" |
| `LifecycleService.Service.SendToBroker` | internal/service/dispatcher.go:36-78 | no due date is rejected, and a due date not ahead exactly as expired; otherwise one message with the event's data and payload, its bucket and the whole second of publication |
| `LifecycleService.Service.FindPendingEvents` | internal/service/lifecycle.go:355-363 | awaiting events of the flow created by now, each once; all of them unless the batch is full |
| `LifecycleService.Service.FindScheduledEvents` | internal/service/lifecycle.go:365-373 | active events of the flow whose attempt was scheduled by now, each once; all of them unless the batch is full |
| `LifecycleService.Service.FindExpiredSuspendedEvents` | internal/service/lifecycle.go:375-383 | sleeping events of the flow whose attempt was scheduled by now, each once; all of them unless the batch is full |
| `LifecycleService.Service.ActivateSuspendedEvent` | internal/service/lifecycle.go:436-456 | the sleeping snapshot becomes active exactly when the first try hits |
| `Dispatcher.SelectTtlBucket` | internal/service/dispatcher.go:80-89 | the least bucket that covers the whole seconds remaining, the largest if none does |
| `Dispatcher.BucketIsMonotoneAndTight` | internal/service/dispatcher.go:15-16 | a longer remaining time never gets a smaller bucket; between 31 s and 7200 s the bucket is below three times the remaining seconds |
| `Dispatcher.CoversRemainingIff` | internal/service/dispatcher.go:80-89 | the bucket is the smallest at least as long as the remaining time itself exactly when that time exceeds no bucket by a fraction of a second and does not exceed the largest |
| `Dispatcher.HalfASecondIsNotCovered` | internal/service/dispatcher.go:80-89 | 30.5 s remaining get a bucket of 30 s |
| `Dispatcher.NeverDiscardedEarlyIff` | internal/adapter/adapter.go:102-116 | no message is discarded more than two seconds before the due date exactly when that date lies at most 86402 s after the dispatch's whole second |
| `Dispatcher.UnderADayNeverDiscardedEarly` | internal/service/dispatcher.go:44-70 | the guarantee covers every dispatch with under 86401 s left |
| `Dispatcher.PublishedOnlyInTime` | internal/service/dispatcher.go:39-71 | a message is published exactly when the event's due date lies ahead, and carries that event's data |
| `TtlCache.EntryIsLatestSet` | internal/service/cache.go:30-73 | after any sequence of sets, deletes and cleanups a key is present exactly if some set of it was neither replaced, deleted nor found expired since, and the entry is that set's |
| `TtlCache.TTLCache.Get` | internal/service/cache.go:30-56 | a hit is the unexpired entry read; cleanup removes only that key and only if the entry it then finds has expired, whatever ran between the two lock sections |
| `TtlCache.TTLCache.Set` | internal/service/cache.go:58-66 | the entry expires one lifetime from now |
| `TtlCache.TTLCache.Delete` | internal/service/cache.go:68-73 | the key is gone, the others stay |
| `ConfigService.ConfigRepository.FindByEventType` | internal/repository/config_mysql.go:54-68 | the row of the type, or nothing |
| `ConfigService.ConfigRepository.Save` | internal/repository/config_mysql.go:70-98 | an upsert of every column, the suspension flag included |
| `ConfigService.ConfigRepository.UpdateSuspensionState` | internal/repository/config_mysql.go:100-110 | only the flag changes, and only for an existing type |
| `ConfigService.EventConfigurationService.LoadConfig` | internal/service/configuration.go:30-44 | a hit is returned as cached and changes nothing; a miss returns the repository's row and caches it for one lifetime, a missing row is not cached, and every other key is as the others left it |
| `ConfigService.EventConfigurationService.Write` | internal/service/configuration.go:46-74 | update, suspend and unsuspend persist first and leave the type uncached |
| `ConfigService.EventConfigurationService.UpdateConfig` | internal/service/configuration.go:46-54 | the row becomes the configuration given, and the type is evicted |
| `ConfigService.EventConfigurationService.SuspendProcessing` | internal/service/configuration.go:56-64 | an existing row is suspended and otherwise unchanged, and the type is evicted |
| `ConfigService.EventConfigurationService.UnsuspendProcessing` | internal/service/configuration.go:66-74 | an existing row is active again and otherwise unchanged, and the type is evicted |
| `ConfigProtocol.StalenessIsBounded` | internal/service/configuration.go:32-44 | every configuration a load returns was the repository's at an instant no longer ago than 60 s plus the read-to-store time of the load that cached it |
| `ConfigProtocol.LaterLoadsSeeIff` | internal/service/configuration.go:30-74 | for any condition on configurations: after the eviction that ends a write, and while the row meets it, every later load returns one that meets it exactly if no load under way holds one that does not |
| `ConfigProtocol.FlagReachesLoads` | internal/service/configuration.go:56-74 | suspending and unsuspending an existing type sets the flag and nothing else, and loads begun after the eviction return that flag, under that exact condition |
| `ConfigProtocol.UpdateReachesLoads` | internal/service/configuration.go:46-54 | loads begun after an update return the very configuration saved, under that exact condition |
| `ConfigProtocol.SuspensionHoldsIffNoStaleReader` | internal/service/configuration.go:56-64 | after the eviction of a suspension, every later load sees the type suspended until somebody changes it, exactly if no load under way still holds an active row |
| `ConfigProtocol.StaleReaderDefeatsSuspension` | internal/service/configuration.go:37-43 | such a load stores the active row, and the next load is served it |
| `ConfigProtocol.UninterruptedLoad` | internal/service/configuration.go:32-44 | a load nobody interrupts returns the unexpired entry, else the row, cached for 60 s from now, else nothing, with an expired entry gone |
| `Runner.ProcessBatch` | internal/job/runner.go:132-150 | a prefix of the batch is processed in order, each event after one reading of the context; the totals count its outcomes; only a limit or an expired context cuts it short |
| `Runner.Execute` | internal/job/runner.go:95-160 | for every fetch and process behaviour it ends as `Cycle` says and accounts for it: limits kept, process calls within their sum less one, batches handled in order as prefixes, one reading of the context for each fetch and each event, and each way of stopping only for its own reason, the context only once it has expired |
| `Runner.CycleEndsWell` | internal/job/runner.go:107-156 | the same account for the rest of a cycle, from any point between two batches |
| `Runner.OutlivingContextIsNone` | internal/job/runner.go:100-102 | a cycle whose context outlives its readings ends as it would without a deadline |
| `AwaitingJob.FailsOnlyForItsOwnReason` | internal/service/lifecycle.go:386-434 | with nobody else writing, the call for a fetched event fails exactly if its type has no configuration or it was dispatched and could not be sent |
| `AwaitingJob.FoldSettles` | internal/job/awaiting.go:16-18 | with nobody else writing, every processed event ends dispatched, or of a suspended type, or of a type without a configuration |
| `AwaitingJob.Execute` | internal/job/awaiting.go:11-21 | if no limit is reached, no fetch fails and the context outlives the cycle, or if it ends on a short or empty batch that was worked off, no event that matched the last fetch is left that could have been dispatched; a batch size that is not positive moves nothing |
| `Composition.RunIsItsWrites` | internal/repository/event_mysql.go:80-253 | a run changes the event table by its inserts and versioned updates, in order, and by nothing else |
| `Composition.RetryLoopIsAttempt` | internal/service/lifecycle.go:157-171 | started in any reachable state, with any run of the others before its first try, the retry loop succeeds exactly when the protocol's operation commits there, and leaves the same rows |
| `Composition.PublishIsItsSteps` | internal/service/lifecycle.go:116 | the service's Publish is the protocol's BuildPublish, InsertRow and SavePayload: same rows, same payloads, with any runs of the others in between |
| `Composition.JobProcessIsService` | internal/job/awaiting.go:16-18 | alone on the table, the job's processing is the service's ProcessPendingEvent: same rows, error exactly where the service has one |
| `JointEngine.EveryDispatchHasItsLoad` | internal/service/lifecycle.go:386-401 | in every reachable joint state, each committed dispatch was decided on the configuration its own load of the event's type returned, and that was not suspended |
| `JointEngine.SuspensionStopsDispatch` | internal/service/configuration.go:56-64 | from a suspension of an existing type to its eviction and on, in every joint run that leaves the row suspended: with no stale reader at the eviction, every dispatch of the type that still commits was decided on a load begun before it |
| `JointEngine.SuspensionSilencesIdleType` | internal/service/lifecycle.go:386-394 | if moreover no job stands between its load and its update for the type, no dispatch of the type commits at all |
| `JointEngine.LateDispatchIffStaleReader` | internal/service/configuration.go:32-44 | with an event of the type waiting, some job whose load begins after the eviction can still dispatch exactly if a load under way holds an active row |
| `JointEngine.StepKeepsInv` | internal/service/lifecycle.go:386-401 | every step of either machine keeps both invariants and the match between operations, their loads and the dispatches |
| `Tightness.RideBoundIsReached` | internal/adapter/adapter.go:34-77 | in every flow some ride creates six events and is granted thirteen permits |
| `Tightness.AttemptBoundIsReached` | internal/service/lifecycle.go:257-265 | for every number of attempts M some reachable event has M permits and M - 1 switches |
| `Tightness.DispatchesAreUnbounded` | internal/service/lifecycle.go:366-373 | for every n some reachable event was dispatched more than n times without a single permit |

## Left out

- HTTP, MCP and WebSocket handlers, the NATS and Redis clients, SQL text, JSON, logging, metrics, migrations running and configuration files: I/O and wiring.
- Database and network errors on the versioned updates, in particular an update that commits and then reports an error; row deletion by `cmd/cleanup`; the nil dereference after a failed reload. Loads of existing rows succeed.
- `cmd/adapter-stub/main.go`: a copy of the adapter, modelled once.
- Broker delivery and every liveness claim: nothing recovers an event left in BEING_PROCESSED. Delays do not hold back dispatch either, since the awaiting job looks at the status only; no such claim is made.
- Configurations with `max_attempts` below 1, excluded by `EventModel.ValidConfig`: on 0 the service divides by zero (`internal/service/lifecycle.go:94`); negative values divide as usual, but an event granted no attempt is not modelled.
- Clocks that differ between instances. All readings come from one clock that never runs backwards. Finality of failure rests on it: on a host whose clock runs behind, a second report could still find time left.
- 64-bit and INT column overflow of counters and durations: integers are unbounded. The conversion of the remaining duration to a floating-point number of seconds (`internal/service/dispatcher.go:82`) is taken as exact; it is for every duration below the largest bucket.
- `EventModel.ToLower`: lowers ASCII letters only, not all of Unicode.
- `EventStore.EventRepository.Find`: string columns compare exactly, not by a case-insensitive collation.
- `LifecycleService.Service.Publish`: identifiers, configurations and clock readings are parameters. Any identifier may be drawn, so a repeated one is covered, and no property relies on uniqueness of random identifiers.
- In `JointEngine` only found events load their configuration through the cache; the other operations may use any configuration there, which only adds runs.
- `Tightness.AttemptBoundIsReached`: runs that reach the bounds on reactivations and on dispatches out of AWAITING_PROCESSING are not given.
- `AwaitingJob.Execute`: speaks of a job that is the only writer while it runs; with other writers the general results of `Protocol` apply.
- The scheduled and expired-suspended jobs: they wire the same `Runner.Execute` to finders and service methods that are modelled, and would repeat the awaiting job's proof. A fetch or process function acts on an explicit world value; Start, Stop and the ticker are not modelled.
- The adapter's discard test guards its permit request; in `Protocol` a run may skip the request for any reason, so `Dispatcher` treats the test on its own.
- `GetQueueSize`, the predicates of `internal/model/status.go`, notification callbacks and the WebSocket hub: one-line facts.
