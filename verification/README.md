# PulseBoard, verified

PulseBoard probes HTTP endpoints, opens and resolves incidents from the results, and shows them to tenants over REST,
WebSocket and server-sent events. This project models its core in Dafny and proves what it keeps.

`dafny verify dfyconfig.toml` checks everything.

## How it is modelled

Every `await` is a yield point. A component is a state with a step relation (`Enabled`/`Next`, `CanStep`/`After`);
operations in flight are part of the state, with their program counter and locals, and a step is either one database
call taking effect or the code between two awaits. Everything the environment decides (the document a query finds, a
fresh id, the clock, jitter, the state of a connection, a failing call) is a parameter of the step, so a theorem about
all runs covers every choice. Beside each machine stands a class with the source's own mutable fields and loops; the
contract of each of its methods says that it is exactly one step of the machine. The properties are then proved once,
about all runs of the machine. What a step decides, stores and says is also described field by field, apart from the
functions that compute it (Operations, LoadedCopies, CheckModel, Listing, Usage).

| area | files |
|---|---|
| incidents: the collection, the operations, serial equivalence, the audit trail | IncidentModel, IncidentEngine, IncidentService, Operations, Serialisation, AuditTrail, SignedNotes, Announcements |
| probes and events, end to end, over the scheduler's timers | CheckModel, ProbeWorld, LoadedCopies, TransitionStream, EndToEnd, OverlappingReloads, ProbeService |
| tenants and list queries | Tenancy, Listing, PagedRows, Paging, Numerals |
| the scheduler's timers | Timers, SchedulerInPlace |
| bus, WebSocket rooms and SSE streams | Realtime, RoomLedger, Delivery, RealtimeService |
| encoders and the parsers they are proved against | Digits, Json, Wire, Csv |
| idempotent ingestion | Usage |
| the latency window | Latency |

Some properties hold under every interleaving; others only when windows do not overlap, and then a short concrete run
shows that the hypothesis is needed. Both kinds are in the table. No proof relies on automatic induction: it is switched
off wherever it would apply.

Hypotheses speak about one check, one incident or one socket at a time; everything else in the run is free. A timer
probes through the document its load returned (`Copy`), so overlapping reloads give one check several memories. A copy
is believable when the verdict it remembers agrees with the results persisted so far. A change of a check's verdict is
missed when it is published through a copy that does not agree, or when the write that stores it takes effect but is
answered with an error.

What the proofs show about the source:

- Find-then-write without a condition: overlapping windows can leave two open incidents for a check
  (`OverlapDuplicates`) or take a resolved incident back (`OverlapRegresses`), although the model file calls `resolved`
  terminal. `WriteSafeExactly` and `WriteRegressesExactly` say exactly which writes do it, `AtMostOneAlongExactly` and
  `RanksNeverFallExactly` exactly which runs are free of it.
- Reloads that overlap leave two timers for one check. Their copies disagree: a failure is announced twice
  (`OldCopyRepeatsFailure`), or an incident outlives the recovery (`OldCopyLosesRecovery`). So does a write whose answer
  is lost (`LostAnswerLosesRecovery`). `ExactWhenBelieved` says exactly in which runs the events are right,
  `IncidentTellsExactly` exactly in which runs the incident is: fewer runs are wrong about the incident, since a failure
  announced twice does it no harm.
- A stop can leave an interval running that nothing stops; `StopIsCleanExactly` says exactly when it does not.
- The controller reports pages read by `parseInt`, the incident repository slices by `Number`;
  `ReportedPageIsSlicedPage` says exactly on which accepted texts they differ.
- The idempotency key is unique over all tenants; `AnswerBelongsToFirstTenant` says exactly when a caller is answered
  with another tenant's record.
- `CodeFlow.md` shows older listings; the model follows `src/`.

## Model

| member | source | states |
|---|---|---|
| `EndToEnd.IncidentTellsExactly` | src/scheduler.ts:87-123 | For every run that is careful about a check (its results and handlers do not overlap, its handlers' calls succeed, no stale update reopens one of its resolved incidents; operators may patch at any other moment, other checks are free) and in which no operator resolves its incidents by hand: at every point at rest the check has an active incident exactly if its last persisted result failed, if and only if no change of its verdict is missed. With resolving by hand: at every point at rest an active incident means that the last result failed, if and only if no recovery is missed while an incident is active |
| `EndToEnd.NeverTwoActive` | src/modules/incident/incident.service.ts:88-138 | In every such careful run, whatever the copies remember and whatever is missed, the check never has two active incidents |
| `EndToEnd.ActiveIncidentMeansFailing` | src/scheduler.ts:87-123 | The end of every careful run that misses no change (or, for the first direction, no recovery while an incident is active): at most one active incident; at rest an active incident means that the last persisted result failed, and, without resolving by hand, the converse |
| `EndToEnd.BelievedKeepsIncidentsTrue` | src/scheduler.ts:87-123 | Believable copies miss nothing, so careful runs with them end so |
| `EndToEnd.LastLoadKeepsIncidentsTrue` | src/scheduler.ts:175-194 | The same conclusion when the check is probed only through the copy of the load answered last, loads are answered between its probes, and no change is lost with the answer to its write |
| `EndToEnd.CalmReloadsKeepIncidentsTrue` | src/scheduler.ts:147-194 | The same conclusion when reloads and stops wait for the last reload to settle, no load is answered with a probe of the check in flight, and no change is lost with the answer to its write |
| `EndToEnd.WriteEffect` | src/modules/incident/incident.service.ts:88-138 | What one write, stale or not, does to "check c has an active incident" and to there being at most one, unless it reopens a resolved incident: an open makes it true, a resolve makes it false, any other write never makes it true and ends it only as a manual resolution of an active incident |
| `EndToEnd.RunChecks` | src/scheduler.ts:87-137 | The invariants behind it hold along whole careful runs that miss nothing, also between a result's write and its publish and while a handler works |
| `OverlappingReloads.FailureOpensAnIncident` | src/modules/incident/incident.service.ts:281-293 | A concrete careful run, over two timers, ends at rest with a failing check and its one open incident, so the hypotheses can be met |
| `OverlappingReloads.ManualResolveBreaksTheConverse` | src/modules/incident/incident.service.ts:194-222 | A concrete careful run in which an operator resolves by hand ends at rest with a failing check and no active incident |
| `OverlappingReloads.OverlappingReloadsLeaveTwoTimers` | src/scheduler.ts:147-194 | A concrete run, with no probe in flight at either load: two overlapping reloads leave two intervals for one check, each with its own copy |
| `OverlappingReloads.OldCopyLosesRecovery` | src/scheduler.ts:87-123 | The run goes on without overlapping probes or handlers: fail, pass, fail through the other copy, pass; at rest the last result passed and an incident is still active |
| `OverlappingReloads.LostAnswerLosesRecovery` | src/scheduler.ts:99-106 | A concrete run with one failure and one recovery, whose write takes effect but is answered with an error: at rest the last result passed and an incident is still active |
| `OverlappingReloads.StaleUpdateReopens` | src/modules/incident/incident.service.ts:205-222 | The write that careful runs leave out: after a concrete careful run, an operator's update that read the incident before its automatic resolution leaves a passing check, at rest, with an active incident |
| `TransitionStream.EventsAreChangePoints` | src/scheduler.ts:87-123 | If the results of a check do not overlap and come through believable copies, its events are exactly the change points of its persisted results, alternate strictly starting with a failure, and the tenant's channel carries the same events; a result whose write is refused counts nowhere |
| `TransitionStream.ExactWhenBelieved` | src/scheduler.ts:87-123 | For every run whose results of the check do not overlap: at every point with nothing waiting for its publish the events are the change points, if and only if every result was persisted through a copy whose remembered verdict agreed with the results before it, or, when the answer to its write was lost, repeated the verdict before it |
| `TransitionStream.NextResultIsExact` | src/scheduler.ts:87-123 | One result: whatever its verdict, handling it keeps the stream exact if and only if the surviving copy it comes through remembers a verdict that agrees with the results so far |
| `TransitionStream.LastLoadCopiesAreBelieved` | src/scheduler.ts:175-194 | If only the copy of the load answered last probes the check, loads are answered between its probes, and no change is lost with the answer to its write, every result comes through a believable copy |
| `TransitionStream.CalmReloadsProbeTheLastLoad` | src/scheduler.ts:147-232 | If reloads and stops wait for the last reload to settle, every probe starts from the load answered last |
| `TransitionStream.OnlyTheTenantHears` | src/scheduler.ts:104-119 | In every run at all, whatever its copies remember: every event about a check, and every message about it on the tenants' channels, carries the tenant of the check |
| `LoadedCopies.CopiesHoldWhatWasStored` | src/scheduler.ts:73-76 | However a run goes on after a load was answered: its copy of a check is in memory if and only if the check was stored and enabled at that moment; it still has the tenant, name, URL, expected status and latency limit stored then, whatever became of the check since, and remembers the last result published through it, or else the one stored then |
| `LoadedCopies.JudgedAsStored` | src/scheduler.ts:130-137 | A probe through a copy passes if and only if the response is the expected status stored when the copy's load was answered, within the latency limit stored then |
| `TransitionStream.EventsDependOnOwnResults` | src/scheduler.ts:109-121 | Two runs with the same persisted results of a check, whatever other tenants and checks do in them, have the same events of it, given believable copies |
| `OverlappingReloads.OldCopyRepeatsFailure` | src/scheduler.ts:147-194 | After overlapping reloads the second timer's copy announces a failure already announced: events [fail, fail] for results [fail, fail], with no overlapping results and no probe in flight at a load; the copy is not believable, yet no change is missed, so the incident stays right |
| `OverlappingReloads.ReloadInFlightRepeatsFailure` | src/scheduler.ts:175-194 | A load answered while a failing result waits for its write: a concrete run announces the failure twice |
| `ProbeWorld.ChangePointsAlternate` | src/scheduler.ts:109-121 | Change points of any result sequence alternate, start with a failure, and the last one says whether the check passes |
| `ProbeWorld.EveryTimerHasItsCopy` | src/scheduler.ts:147-168 | In every run, each running interval finds the document it closes over, so it can always probe |
| `Serialisation.Serialisable` | src/modules/incident/incident.service.ts:88-222 | Every interleaved run in which no write falls inside another operation's read-to-write window on the same check has the collection and the answers of a serial run of its operations, in commit order |
| `Serialisation.StepCommits` | src/modules/incident/incident.service.ts:88-222 | A single step changes the collection, and decides the answer, exactly as the operation it commits does when run alone; that operation has the request of the one that took the step |
| `Serialisation.DecidedIsAnswered` | src/modules/incident/incident.service.ts:88-246 | What counts as decided is what the caller is answered: at once, or after a write when the operation goes on, whatever others do in between |
| `Serialisation.DifferentChecksCommute` | src/modules/incident/incident.service.ts:88-138 | Whole operations on different checks can be done in either order with the same collection and the same answers |
| `Serialisation.ExclusiveRunIsSafe` | src/modules/incident/incident.service.ts:72-138 | In such runs no check gets two active incidents and no status goes back |
| `Serialisation.WriteSafeExactly` | src/modules/incident/incident.repo.ts:136-191 | Any write, stale or not, keeps at most one active incident per check if and only if it does not activate an incident beside an active one |
| `Serialisation.AtMostOneAlongExactly` | src/modules/incident/incident.service.ts:88-138 | Under every interleaving a check has at most one active incident at every point if and only if no write activates an incident beside one that is active at that moment |
| `Serialisation.WriteRegressesExactly` | src/modules/incident/incident.service.ts:205-222 | A write, stale or not, takes some status back if and only if it is a manual update, of an incident of its tenant, to a status below the one stored now |
| `Serialisation.RanksNeverFallExactly` | src/modules/incident/incident.service.ts:205-222 | Under every interleaving no step takes a status back if and only if no write is such a downgrade at its moment |
| `Serialisation.RegressionNeedsStaleRead` | src/modules/incident/incident.service.ts:205-222 | In every run of the service, an operation about to write a lower status than the stored one read an even lower status: it has been overtaken since its read |
| `Serialisation.OverlapDuplicates` | src/modules/incident/incident.service.ts:88-96 | A concrete run with two overlapping windows leaves two open incidents for one check |
| `Serialisation.OverlapRegresses` | src/modules/incident/incident.service.ts:205-222 | A concrete run with crossing windows takes a resolved incident back to monitoring, its resolution time kept |
| `IncidentEngine.AnyInterleavingKeeps` | src/modules/incident/incident.repo.ts:136-191 | Under every interleaving no incident disappears, tenant, check and opening time never change, notes only grow at the end, and a resolved incident has a resolution time |
| `IncidentEngine.NotesAreConserved` | src/modules/incident/incident.repo.ts:157-191 | Under every interleaving the notes of an incident are the earlier ones followed by exactly those the run's updates wrote, in write order |
| `AuditTrail.AuditTellsTheStory` | src/modules/incident/incident.service.ts:205-237 | If the operations on an incident do not overlap, their audit entries included, and no audit insert about it fails (other incidents are free): every entry starts from the status the entries before it replay to, the replay gives the stored status, no status goes back, and there are at most two status changes |
| `AuditTrail.CoherentClimbs` | src/modules/incident/incident.service.ts:72-76 | Along any coherent trail ranks never fall, and the number of status changes is bounded by the rank reached |
| `AuditTrail.WriteOwes` | src/modules/incident/incident.service.ts:99-147 | After an orderly write on an incident the one entry still owed leads from the replayed status to the stored one |
| `Announcements.ClientsHearTheTrail` | src/modules/incident/incident.service.ts:99-114 | In the same runs, once no audit insert about an incident is outstanding, the messages published about it are exactly its audit entries, in order, each on its own tenant's channel |
| `SignedNotes.EveryNoteIsSigned` | src/modules/incident/incident.service.ts:216-237 | In the same runs, once no audit insert about an incident is outstanding, the authors of its notes are, in order, the actors of exactly those of its entries that say they came with a note |
| `Operations.TransitionsClimb` | src/modules/incident/incident.service.ts:72-78 | A manual transition is permitted if and only if it keeps the status or goes up: from open to any, from monitoring to resolved |
| `Operations.OpenDecides` | src/modules/incident/incident.service.ts:88-96 | In any state: a failure is skipped if and only if the tenant's check has an open or monitoring incident; otherwise one is to be created |
| `Operations.ResolveDecides` | src/modules/incident/incident.service.ts:126-131 | In any state: a recovery is skipped if and only if there is none; otherwise one of them is to be resolved |
| `Operations.UpdateDecides` | src/modules/incident/incident.service.ts:206-215 | In any state: an update is not found if and only if the tenant has no such incident, an invalid transition, naming both statuses, if and only if it asks for less than the status read, and otherwise goes on to its write; the store is untouched |
| `Operations.GetAnswers` | src/modules/incident/incident.service.ts:175-179 | A read answers the tenant's own incident as stored, or not found |
| `Operations.CallStarts` | src/modules/incident/incident.service.ts:201-204 | A request is refused at once if and only if it is an update naming neither status nor note |
| `Operations.CreateStores` | src/modules/incident/incident.repo.ts:136-147 | In any state: the created incident is open, of the tenant and check that failed, opened and changed now, without notes; no other changes |
| `Operations.PatchStores` | src/modules/incident/incident.service.ts:216-224 | In any state: a resolve or an update sets the status, resolution time, last change and note of its one incident as asked, keeps its other fields and every other incident, and hands on the document as stored; without such an incident of the tenant nothing changes and an update is not found |
| `Operations.ResumeSays` | src/modules/incident/incident.service.ts:226-245 | In any state: the entry names tenant, incident, moment and actor (none for the automatic ones), and for an update the status read, the status asked for and whether it had a note; one message on the tenant's channel; the caller gets the document as written |
| `Operations.LogAppends` | src/modules/audit/audit.service.ts:83-97 | The entry is appended, or lost with its failing insert; nothing else changes |
| `Operations.OpenAlone` | src/modules/incident/incident.service.ts:88-117 | Run alone, a failure of a check without an unresolved incident leaves exactly one, one entry and one message |
| `Operations.ResolveAlone` | src/modules/incident/incident.service.ts:126-157 | Run alone, a recovery of a check with one unresolved incident leaves none: that one is resolved, with one entry and one message |
| `Operations.UpdateAlone` | src/modules/incident/incident.service.ts:194-246 | Run alone, an update of an own incident to the same or a higher status leaves it with the status asked for and the note, and its entry leads from the old status to the new one |
| `IncidentModel.IncidentRepo.FindById` | src/modules/incident/incident.repo.ts:98-107 | Finds the document by id only within the tenant |
| `IncidentModel.IncidentRepo.FindOpenByCheckId` | src/modules/incident/incident.repo.ts:113-126 | Answers an open or monitoring incident of the tenant's check, or none exactly when there is none |
| `IncidentModel.IncidentRepo.Create` | src/modules/incident/incident.repo.ts:136-147 | Adds one open document and changes no other |
| `IncidentModel.IncidentRepo.UpdateById` | src/modules/incident/incident.repo.ts:157-191 | Applies `$set` and `$push` to the tenant's document, or changes nothing and answers null |
| `IncidentService.Service.Begin` | src/modules/incident/incident.service.ts:202-204 | A request starts one operation; an update naming neither status nor note is refused and changes nothing |
| `IncidentService.Service.OpenAfterFind` | src/modules/incident/incident.service.ts:88-96 | The turn after the first read of an open is one step of the machine: skip, or go on to the insert |
| `IncidentService.Service.ResolveAfterFind` | src/modules/incident/incident.service.ts:126-131 | The turn after the first read of a resolve is one step of the machine: skip, or go on to the update |
| `IncidentService.Service.UpdateAfterFind` | src/modules/incident/incident.service.ts:206-215 | The turn after the first read of an update is one step: not found, invalid transition, or the update, judged by the status just read |
| `IncidentService.Service.CreateTakesEffect` | src/modules/incident/incident.service.ts:96-96 | The insert is one step of the machine |
| `IncidentService.Service.PatchTakesEffect` | src/modules/incident/incident.service.ts:216-224 | The update is one step of the machine, with the not-found answer of a manual update |
| `IncidentService.Service.Finish` | src/modules/incident/incident.service.ts:226-245 | The code after the write is one step: the audit entry with the status read before, the publication and the answer |
| `IncidentService.Service.AuditInsert` | src/modules/audit/audit.service.ts:83-97 | The entry is appended, or its failure is swallowed; nothing else changes |
| `ProbeService.ProbeHandler.HandleResult` | src/scheduler.ts:87-98 | The turn up to the write is one step of the world machine: the response is judged by the expected status and latency limit of the probing copy, and the verdict that copy remembers is noted |
| `ProbeService.ProbeHandler.PersistTakesEffect` | src/scheduler.ts:99-99 | The write is one step; a check deleted meanwhile is left alone |
| `ProbeService.ProbeHandler.PersistRejected` | src/scheduler.ts:130-137 | A refused write ends the result without an event |
| `ProbeService.ProbeHandler.PersistAnswerLost` | src/scheduler.ts:99-106 | A write that takes effect but is answered with an error changes the stored verdict, without an event and without an update of the copy |
| `ProbeService.ProbeHandler.OnProbeEvent` | src/modules/incident/incident.service.ts:281-293 | The handler runs inside the publish up to its first read: open for a failure, resolve for a recovery |
| `ProbeService.ProbeHandler.FinishResult` | src/scheduler.ts:101-122 | The code after the write is one step: the probing copy is updated, whichever load it is from; the event on both channels; the handler started |
| `ProbeService.ProbeHandler.LoadAnswered` | src/scheduler.ts:73-76 | An answered load adds one new copy for each enabled check as stored; older copies stay with the timers that hold them |
| `ProbeService.ProbeHandler.ProbeStarts` | src/scheduler.ts:160-166 | An interval probes through the copy it closes over |
| `CheckModel.Verdict` | src/modules/check/check.service.ts:172-201 | A probe passes if and only if there was a response with the expected status within the latency limit; a network failure has status code 0 |
| `CheckModel.CreatedAsAsked` | src/modules/check/check.repo.ts:122-127 | A created check is the tenant's, has every field as asked for and no result; the caller gets it, and a signal is due |
| `CheckModel.UpdatedAsAsked` | src/modules/check/check.repo.ts:135-151 | An update of an own check sets exactly the fields it names; the caller gets the check as stored, and a signal is due; any other check is not found, unchanged, and signals nothing |
| `CheckModel.RemovedOrRead` | src/modules/check/check.service.ts:83-134 | Removing an own check removes it and no other; reading one answers it as stored; other tenants' checks are not found |
| `CheckModel.RecordedSetsTheResult` | src/scheduler.ts:99-99 | A written result changes the last result of its check, no other field and no other check; a check that is gone stays gone |
| `CheckModel.CheckRepo.Serve` | src/modules/check/check.service.ts:62-133 | Create, update, remove and get change exactly the tenant's document, answer accordingly, and leave a signal due exactly when a document was written |
| `CheckModel.CheckRepo.SetLastResult` | src/scheduler.ts:99-99 | Sets the last result of an existing check and nothing else |
| `Tenancy.OtherTenantsDoNotMatter` | src/modules/incident/incident.repo.ts:46-190 | Deleting every other tenant's steps from any interleaved run of requests, handlers and result writes leaves every answer to tenant t, list queries included, and all of t's incidents, checks, audit entries, messages and operations unchanged |
| `Tenancy.StepSeparates` | src/modules/check/check.repo.ts:65-166 | One step: another tenant's leaves t's part alone; t's own is possible on t's part alone and has the same effect and result there |
| `Tenancy.ReadsAreOwn` | src/modules/audit/audit.service.ts:107-142 | Incident, check and audit listings are answered from the tenant's own documents |
| `Timers.IntervalsAccountedFor` | src/scheduler.ts:147-194 | After any run the live intervals of a check are the tracked one, if any, plus one for each time a jitter callback fired while the check was tracked |
| `Timers.CalmRunsTrackExactlyTheEnabledChecks` | src/scheduler.ts:175-232 | If reloads and stops begin only when the last reload has settled: no interval is ever overwritten and every interval closes over a copy of the load answered last; with no signal outstanding a settled scheduler runs exactly one interval for each enabled check and none other, or none at all if its last load was rejected; after a stop nothing runs or waits |
| `Timers.StopIsCleanExactly` | src/scheduler.ts:224-231 | Nothing runs in any continuation of a stop without a new start, if and only if at the stop no jitter timeout is outstanding, every reload under way has been answered with no checks, and every running interval is tracked |
| `Timers.StopDuringJitterLeavesAnInterval` | src/scheduler.ts:210-231 | A concrete run in which a stop during the jitter leaves an interval running |
| `Timers.OneMoreScheduled` | src/scheduler.ts:147-168 | Scheduling a whole load is scheduling its checks one by one, in any order |
| `SchedulerInPlace.Scheduler.ClearAll` | src/scheduler.ts:180-183 | The loop over `timers` clears every tracked interval, then the map |
| `SchedulerInPlace.Scheduler.BeginReload` | src/scheduler.ts:175-184 | A reload up to its await |
| `SchedulerInPlace.Scheduler.StartScheduler` | src/scheduler.ts:206-219 | Subscribing and beginning the first reload is one step of the machine |
| `SchedulerInPlace.Scheduler.ServeCheck` | src/modules/check/check.service.ts:62-133 | A check request up to its await: one database call, and a signal due exactly when a document was written |
| `SchedulerInPlace.Scheduler.PublishChange` | src/modules/check/check.service.ts:62-133 | The publish after the await starts a reload exactly when the scheduler is subscribed |
| `SchedulerInPlace.Scheduler.DatabaseAnswers` | src/scheduler.ts:73-76 | The query answers the enabled checks of that moment |
| `SchedulerInPlace.Scheduler.ScheduleCheck` | src/scheduler.ts:147-168 | Drops a tracked interval, then adds the jitter timeout |
| `SchedulerInPlace.Scheduler.FinishReload` | src/scheduler.ts:186-189 | The loop after the await schedules every loaded check; it equals the one-step definition |
| `SchedulerInPlace.Scheduler.ReloadFails` | src/scheduler.ts:191-193 | A failed load schedules nothing |
| `SchedulerInPlace.Scheduler.JitterElapsed` | src/scheduler.ts:160-167 | The jitter callback starts an interval and overwrites the tracked handle |
| `SchedulerInPlace.Scheduler.StopScheduler` | src/scheduler.ts:224-231 | Stopping unsubscribes and clears the tracked intervals, but no jitter timeout |
| `RoomLedger.LedgerAlwaysHolds` | src/realtime/ws.ts:103-163 | After every run: rooms are never empty, rooms and handlers have the same keys, each room has exactly one listener on the bus and on its own channel, each open SSE connection exactly one, and there are no others of theirs |
| `RoomLedger.LeavingTwiceIsLeavingOnce` | src/realtime/ws.ts:150-162 | However many steps lie between them, a later close or error event of a socket that has left changes nothing |
| `RoomLedger.LeftForGood` | src/realtime/ws.ts:131-163 | After its first close or error event a socket is never in a room again |
| `RoomLedger.ShutForGood` | src/realtime/ws.ts:191-207 | After the shutdown rooms and handlers stay empty: no socket joins and no heartbeat runs |
| `RoomLedger.ForeignListenersStay` | src/realtime/pubsub.ts:87-101 | Over any run the registrations of any other listener are exactly those its own subscriptions and unsubscriptions leave: rooms, streams and the shutdown never touch them |
| `RoomLedger.NothingLeftOnTheBus` | src/realtime/ws.ts:191-207 | After `close()` and the closing of every SSE request the bus holds no listener of either |
| `RoomLedger.RoomUnsubscribes` | src/realtime/pubsub.ts:99-101 | Removing a room's handler removes exactly that room's listener |
| `RoomLedger.StreamUnsubscribes` | src/realtime/sse.ts:130-137 | Closing one stream removes exactly that stream's listener |
| `Delivery.ExactDelivery` | src/realtime/ws.ts:87-101 | What a socket was sent is, in order and once each, exactly what was published on its tenant's channel or broadcast to its tenant while it was joined, open and not over the buffer limit |
| `Delivery.ExactStreaming` | src/realtime/sse.ts:66-82 | What a response was written is exactly its tenant's events and its keep-alives from its opening to its end; its keep-alive can tick exactly until its request closes or a tick finds the response ended |
| `Delivery.ShutdownTerminates` | src/realtime/ws.ts:191-207 | A socket is terminated by the shutdown if and only if it was in its room just then |
| `Delivery.NothingAfterTheEnd` | src/realtime/sse.ts:56-61 | After `terminateAllSse`, or after the request's close, nothing more is written to a response, however the run goes on |
| `Delivery.PunctualSocketsAreKept` | src/realtime/ws.ts:150-152 | A socket that sends a pong between every two heartbeats that find it in its room is never terminated by one, whenever it connected |
| `Delivery.SilentSocketsAreDropped` | src/realtime/ws.ts:171-182 | A socket that stays in its room and sends no pong between two heartbeats is terminated by the second |
| `Delivery.ClearedFlagMeansSilence` | src/realtime/ws.ts:171-182 | A cleared liveness flag means a heartbeat, with the socket in its room, that has not been answered since |
| `RealtimeService.Bus.Subscribe` | src/realtime/pubsub.ts:87-89 | The channel has one more listener, the last; every other channel is as before |
| `RealtimeService.Bus.Unsubscribe` | src/realtime/pubsub.ts:99-101 | Removes the most recent registration of the handler, if any, and no other |
| `RealtimeService.Server.Emit` | src/realtime/pubsub.ts:74-76 | Calls every listener registered at the start of the publish, in order |
| `RealtimeService.Server.BroadcastToRoom` | src/realtime/ws.ts:87-101 | The loop sends to exactly the room's sockets that are open and within the buffer limit |
| `RealtimeService.Server.EnsureRoomSubscription` | src/realtime/ws.ts:119-127 | Subscribes once per room |
| `RealtimeService.Server.RemoveFromRoom` | src/realtime/ws.ts:103-117 | Leaves the room; the last to leave removes room, handler and listener |
| `RealtimeService.Server.OnConnection` | src/realtime/ws.ts:131-147 | A socket without a tenant joins nothing; any other joins its room |
| `RealtimeService.Server.OnPong` | src/realtime/ws.ts:150-152 | Raises the flag |
| `RealtimeService.Server.OnGone` | src/realtime/ws.ts:154-162 | Close and error events are one step of the machine |
| `RealtimeService.Server.Heartbeat` | src/realtime/ws.ts:171-182 | The nested loops look at every socket once: the silent are terminated, the others pinged |
| `RealtimeService.Server.Close` | src/realtime/ws.ts:191-207 | Unsubscribes every room handler, terminates every socket in a room and empties both maps |
| `RealtimeService.Server.TerminateRooms` | src/realtime/ws.ts:199-201 | The nested loops terminate every socket of every room |
| `RealtimeService.Server.SseWrite` | src/realtime/sse.ts:66-73 | Writes one event unless the response has ended |
| `RealtimeService.Server.SseKeepAlive` | src/realtime/sse.ts:76-82 | Writes one comment, or clears its own interval when the response has ended |
| `RealtimeService.Server.IncidentSse` | src/realtime/sse.ts:93-129 | Opening a stream is one step of the machine; a request without a tenant opens none |
| `RealtimeService.Server.OnRequestClose` | src/realtime/sse.ts:132-138 | Clears the interval, leaves the set, unsubscribes, ends the response |
| `RealtimeService.Server.TerminateAll` | src/realtime/sse.ts:56-61 | The loop ends every active response and empties the set |
| `Wire.FramesReadBack` | src/realtime/sse.ts:66-82 | For every sequence of events and keep-alives, a client following section 9.2.6 of the WHATWG HTML standard decodes exactly the payloads, in order |
| `Wire.StreamReadsBack` | src/realtime/sse.ts:117-131 | For every run, the events a client decodes are exactly the payloads published to its stream while it was open |
| `Wire.StreamTimeline` | src/realtime/stream.ts:76-126 | The documents are written in order, all of them unless the cursor fails or the response is found ended just there; the body then parses (RFC 8259) to an object with exactly those items, and one cut off lacks its closing brackets and nothing else |
| `Wire.TimelineReadsBack` | src/realtime/stream.ts:103-125 | A finished timeline parses (RFC 8259) to an object whose items are exactly those documents in order |
| `Json.StringifyIsReadBack` | src/realtime/stream.ts:113-113 | What `JSON.stringify` writes parses back to the same value, strings with any characters included |
| `Json.WrittenIsPrintable` | src/realtime/sse.ts:66-73 | Written JSON holds no control character, hence no line end |
| `Csv.ExportIncidents` | src/modules/incident/incident.controller.ts:127-218 | The three refusals in order, each with its reason, the range limit being 90 days; otherwise a reader following RFC 4180 gets the header and exactly the first rows, which are all of them unless the cursor fails or the response is found ended just there |
| `Csv.StreamRows` | src/modules/incident/incident.controller.ts:183-200 | The loop writes whole rows in order; it stops before the last one only where the cursor fails or the response is found ended, and never later |
| `Csv.RowLine` | src/modules/incident/incident.controller.ts:189-199 | Read back as a record, the line gives the row's six fields, and those the row: the check name may hold anything |
| `Csv.ExportReadsBack` | src/modules/incident/incident.controller.ts:183-207 | For every row list with arbitrary check names, a reader following section 2 of RFC 4180 gets back the header and exactly the rows |
| `Csv.QuotedReadsBack` | src/modules/incident/incident.controller.ts:192-192 | Any check name, with commas, quotes and line breaks, survives quoting |
| `Usage.IngestionIsIdempotent` | src/modules/usage/usage.service.ts:54-88 | Under every interleaving, failing calls and lost answers included: at most one record per key; a stored record never changes; exactly one call stored it, by an insert at its time, with the tenant, key, kind and payload that call began with; every answered call with that key got that record |
| `Usage.DuplicatePathFinds` | src/modules/usage/usage.service.ts:74-82 | The lookup after a duplicate-key error always finds the record, so the error is never rethrown for that reason |
| `Usage.AnswerBelongsToFirstTenant` | src/modules/usage/usage.model.ts:66-66 | However the run goes on, a call is answered with another tenant's record if and only if a record with its key and another tenant is there when its insert reaches the store |
| `Usage.SecondTenantGetsFirstRecord` | src/modules/usage/usage.service.ts:74-82 | A concrete run in which the second tenant to use a key is answered with the first one's record |
| `Usage.UsageService.InsertTakesEffect` | src/modules/usage/usage.service.ts:59-65 | The insert stores the record, or is refused exactly when the key is taken |
| `Usage.UsageService.AnswerCreated` | src/modules/usage/usage.service.ts:66-70 | A stored record is answered with `created: true` |
| `Usage.UsageService.InsertAnswerLost` | src/modules/usage/usage.service.ts:85-87 | An insert that takes effect but is answered with another error is rethrown; its record stays |
| `Usage.UsageService.LookupAnswered` | src/modules/usage/usage.service.ts:74-87 | The catch path answers the original with `created: false`, or rethrows |
| `Latency.DurationWindow.Record` | src/common/middleware/requestLogger.ts:44-51 | The window becomes the last 500 of the old window and the new value, oldest first |
| `Latency.DurationWindow.RecordAll` | src/common/middleware/requestLogger.ts:44-51 | After any series the window is exactly the last 500 values in order, and the buffer holds them as a multiset |
| `Latency.DurationWindow.Percentile` | src/common/middleware/requestLogger.ts:57-62 | The index is in range; zero on an empty window, and otherwise, for p > 0, a value of the window with at least p percent of it at or below and fewer than p percent below |
| `Latency.PercentileIsNearestRank` | src/common/middleware/requestLogger.ts:57-62 | For 0 < p <= 100: the value occurs, at least p percent of the window are at most it, fewer than p percent are below it |
| `Latency.PercentileIsMonotone` | src/common/middleware/requestLogger.ts:57-62 | A higher percentile is never a smaller value |
| `Latency.SortIsSorted` | src/common/middleware/requestLogger.ts:59-59 | The sorted copy is sorted and holds the same values |
| `Paging.PagesCover` | src/common/http.ts:59-77 | Pages 1 to ceil(total / limit) put together are the whole result with no gap or overlap; a page is empty exactly when its number is larger |
| `Paging.QueryIsRead` | src/common/paginate.ts:70-82 | Whatever the texts: the page is the number read from 1 on, and otherwise 1; the limit is the number read, moved into 1 to 100, and 20 for zero or none; in both readings |
| `Paging.EveryQueryAsksForAPage` | src/common/paginate.ts:70-82 | Any pair of strings, malformed or out of range, asks for one of those pages, with a limit from 1 to 100 |
| `Paging.ReportedPageIsSlicedPage` | src/modules/incident/incident.controller.ts:68-73 | For every text the schema accepts: the page the controller reports equals the page the repository sliced if and only if the text is a decimal literal with a positive whole part and a zero (or no) exponent, or else has the value 1 |
| `Paging.ReportedLimitIsSlicedLimit` | src/modules/incident/incident.controller.ts:68-73 | The same for the limit and the value 20; values of 100 written with a negative exponent agree as well, through the clamp |
| `Paging.TenthPageReportedAsFirst` | src/modules/incident/incident.controller.ts:68-73 | The page asked for as 1e1 or 0xa is sliced as the tenth and reported as the first |
| `Numerals.ParseIntOf` | src/common/paginate.ts:70-77 | On every text: `parseInt` takes the whole part of what `Number` reads as a decimal literal, and the zero of a prefixed one |
| `Numerals.PrefixIsBase` | src/modules/incident/incident.repo.ts:67-70 | The prefix, in either case, says base 16, 8 or 2; no other text is prefixed |
| `Numerals.PrefixedNumber` | src/modules/incident/incident.repo.ts:67-70 | `Number` reads a prefixed literal in the base of its prefix |
| `Numerals.RadixIsPositional` | src/modules/incident/incident.repo.ts:67-70 | The value of such a literal is positional, with letters of either case from 10 to 15 |
| `Numerals.ExponentIsPlain` | src/modules/incident/incident.repo.ts:67-70 | An exponent without a sign is the value of its digits |
| `Numerals.ExponentIsSigned` | src/modules/incident/incident.repo.ts:67-70 | With a sign it is that value, or after a minus its negation |
| `Numerals.ExponentDecides` | src/modules/incident/incident.repo.ts:67-70 | An accepted number is equal to, more or less than its literal's positive whole part exactly as its exponent is zero, positive or negative |
| `Paging.PlainReadingsAgree` | src/modules/incident/incident.repo.ts:67-70 | On plain decimal strings and absent parameters both readings agree in page, limit and skip |
| `Listing.FindAll` | src/modules/incident/incident.repo.ts:46-92 | The filter built part by part, the sort and the slice equal the declarative listing |
| `Listing.EveryRowMatches` | src/modules/incident/incident.repo.ts:50-66 | Every listed row is a stored document of the tenant with the asked status and check, opened within the asked range |
| `Listing.PagesListEveryIncidentOnce` | src/modules/incident/incident.repo.ts:46-92 | The answers to a query for all its pages, put together, hold each incident of the tenant that meets the filters once, as stored, and no other, newest or oldest first by opening or last change; `total` is their number, and the query is answered with the page it asks for |
| `Listing.PagesListEveryCheckOnce` | src/modules/check/check.repo.ts:65-99 | The same for checks: tenant, enabled or disabled, text search and sort field |
| `Listing.PagesListEveryEntryOnce` | src/modules/audit/audit.service.ts:107-142 | The same for audit entries: time range, action and target, newest first |
| `Listing.OwnEntries` | src/modules/audit/audit.service.ts:116-118 | What is listed from are the tenant's entries, as often as they are in the log, and no others |
| `Listing.AuditQueryIsRead` | src/modules/audit/audit.service.ts:111-113 | A query of the log asks for page 1 and 20 rows unless it says otherwise, and for 1 to 100 rows |

## Left out

- Timestamps `createdAt`/`updatedAt`, probe error texts, populated names and the other display fields that decide nothing.
- Express wiring, authentication, roles, tenant and membership CRUD, validation schemas: they would add only easy members.
- The HTTP request of a probe, real time and randomness are inputs; the first probe of an interval and the later ones are both `Request` steps of a running interval, at any moment.
- MongoDB: single-document calls are atomic, ids are fresh, the unique index rejects duplicates, sorting is a total order with ties by id, and a listing and its count see the same collection.
- Identifiers, tenants and times of the incident core are abstract numbers; in `Realtime` a tenant is the string of the URL; in `Csv` ids and ISO times are given texts.
- Number texts in queries: `parseInt` and `Number` are modelled on every string, with exact values; rounding to a double (beyond 2^53, or for very long literals) is not.
- JSON numbers are integers and strings hold Unicode scalar values; fractions and lone surrogates are not part of this model.
- Mongoose's trimming of texts, and notes that become empty by it.
- Text search and the sort field of the check listing are arbitrary functions of the document; the handling of an unknown sort field is not modelled.
- The export's own selection of rows (status, range, opening order) and its file name; the rows are an arbitrary list.
- `getTimeline`: it returns at most 100 audit entries, although its comment promises the full trail; the code is the listing already modelled.
- The order in which one heartbeat visits sockets, and the transport: a terminated socket's 'close' arrives as a later event, and a connection's state changes by `LinkChanges` steps.
- Sockets and requests without a tenant are refused; the refusal text is not modelled.
- `Latency.DurationWindow.Percentile`: the ceiling is exact, where the source rounds in floating point; durations are whole milliseconds and p is at most 100, as at both call sites.
- `Usage.IngestionIsIdempotent`: a call that ends in an error gets no promise, except that what it stored stays.
- `EndToEnd.IncidentTellsExactly`: a check request's database write is always followed by its signal; and the incident handler is subscribed before the first probe, as the start-up order in src/server.ts:159-175 arranges.
- `Tenancy.OtherTenantsDoNotMatter`: reloads are not steps of that machine, and any tenant's check request triggers one for all; what a reload can change for another tenant is which events its results give, and `TransitionStream.EventsDependOnOwnResults` says that with believable copies they depend on those results alone.
- `Csv.ExportReadsBack`: identifiers and times are taken to hold no comma, quote or line end, as ObjectId and ISO texts do.
- `Serialisation.DifferentChecksCommute`: about operations that name a check or an existing incident; an update of an unknown id writes nothing.
- Clean-up functions of `initIncidentSubscriptions` and the process shutdown order.
