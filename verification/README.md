# Verification of the task manager's stateful cores

Dafny models of the parts of the task manager whose correctness depends on interleaving, rounding,
crashes or arithmetic, with proofs over every run. `dafny verify dfyconfig.toml` checks them.

| files | models |
|---|---|
| `Wrappers` | `Option`, and members of nonempty collections |
| `TaskTable`, `BudgetProtocol`, `BudgetSafety`, `BudgetLocks`, `BudgetOwners`, `BudgetAdmission`, `BudgetLimits`, `BudgetSolvency`, `BudgetRefunds`, `BudgetService` | The per-day time budget: create, set, complete and status-change transactions, statement by statement, under row locks |
| `TimerEngine`, `TimerStore`, `TimerStoreRuns`, `Availability` | The browser's timers, their store, and the incremental ledger against the server's recomputation |
| `FrameCodec`, `IpcClient`, `IpcClientLife`, `IpcHub`, `IpcProtocol`, `IpcEmission`, `IpcRecovery` | The daemon-to-browser channel: codecs, the client's queue, the hub, both ends interleaved, recovery |
| `SettingsDisk`, `SettingsProtocol`, `SettingsSafety`, `SettingsLasting`, `SettingsBackup` | Crash-safe settings on a disk that may lose power |
| `Ranking`, `RankingService`, `Scoring`, `WeightLearning` | The task ranking, exploration, pins, scores, and the nightly weight update |
| `OverdueScan` | The paginated overdue batch and its idempotent upsert |
| `PrimaryElection` | Election of the primary tab, as a timed system |
| `CaptureRing` | The audio ring buffer between pushers and a drain thread |

Concurrent parts are transition systems: a step function over an event, folded over any sequence of
events. A sequence of events is one interleaving, an event that is not enabled leaves the state as it
is, and invariants are proved for every sequence. Code that updates state in place is a class whose
methods are proved against the functions the transition systems use.

## What the proofs showed

These are places where the code does not do what its documentation or tests suggest, with the exact condition.

- FINISH (`taskStatusService.ts:46-53`) stores the reported elapsed time unchecked, unlike
  `completeTask`. Allocated time stays within the budget over all runs if and only if reports are not
  negative (`ReportsDecideSafety`).
- `completeTask` does not look at the task's status, so an archived or completed task can be completed
  again. `CompletionHarmlessExactly` says when that can charge the budget, and `RevivedTaskOverdraws` is
  a run in which it makes a create overdraw it.
- `setAvailableTime` compares with the allocated sum only, so the remaining time may become negative
  (`ShrinkingOverdraws`). With covered completions it never does if and only if every accepted budget
  also covers what is consumed
  (`SolventExactly`).
- FINISH records no refund, and a task completed twice is refunded twice. `RefundsMatchExactly` says when
  the refunds are the unspent time; `EarlyFinishIsNotRefunded` is a run in which they are not.
- The ledger's reducers take bare numbers. Completing or deleting a task carried over midnight, deleting
  a completed one, or completing one again drives the browser's number away from the server's, with the exact
  condition in `LedgerRefinesTable` and a run in `CarriedRefundParts`.
- The ledger and the server round in opposite directions on an exact half second (`HalfSecondParts`).
- START on a ticking timer drops unsettled time; elapsed time is the ticking time if and only if no START
  does (`ElapsedIsTickingTime`).
- A timer under the empty id escapes the automatic pause (`StartKeepsOneTickingExactly`, `EmptyIdEscapes`).
- The browser's encoder cuts a type or length that does not fit, where the daemon's refuses
  (`BrowserRoundTripExactly`).
- A directory sync that fails is swallowed, and then a completed first save may be lost
  (`DirectorySyncDecides`).
- When delivery of a new notification throws, its row is counted as created and as failed
  (`CountersAgreeExactly`).
- The election settles for every message delay up to a second and for none above (`SecondIsTheBound`);
  at the instant T + 2000 + delay itself a beat that is due must have been taken (`DueBeatMatters`).

## How the source is modelled

- Budget: READ COMMITTED, one statement per event. A statement reads the last committed tables; a
  transaction's writes appear when it commits. The last write and COMMIT are one event. Locks are read
  off the stages of open transactions. The advisory lock is per (user, day). Requests that fail
  validation open no transaction. A task's id is its position in the table.
- Ledger: the browser's reset and the server's new service date come at the same moment. A call the server
  refuses has no effect in the browser.
- Timers and weights use reals, and the rounded score is an integer number of hundredths.
- IPC: events are the blocks between two awaits and single browser callbacks. A block that sends to
  several clients is split before each send, which only adds interleavings. Trigger ids are fresh and
  nonempty (random UUIDs in the source). Payloads are opaque. When the daemon drops a connection, what it
  had sent may still arrive or be lost, and what it had not read is gone.
  A browser may hold one socket while others that it has dropped or replaced still deliver, open or
  close, as after `stop()` and `connect()`, or when the reconnect timer fires beside a new connection.
  `DaemonClientLife` takes the browser's client alone, under any caller and any sockets, with its timer.
- Settings: `rename()` replaces a directory entry atomically (IEEE Std 1003.1, `rename()`). A power loss
  leaves the last synced directory or a later version of it, and arbitrary content in files not synced.
  A process crash may cut a write short. Serialisation is a pair of functions; the theorems assume that
  parsing undoes rendering.
- Ranking: a library sort is any sort, justified by `SortedIsUnique`. The random draw and the order of
  equal categories in a hash set are left open.
- Overdue batch: each page is one read of the table; `OverdueScan` keeps the table fixed during a scan and
  `OverdueMoving` does not. Rows come in key order; a fault per row says whether its upsert or its delivery throws.
  The local day of an instant is any monotone function. A message is its kind, days and title.
- Election: instants are whole milliseconds, timers fire when due, messages are delivered in any order
  within the delay bound. Tab ids are integers, ordered as the id strings are.
- Capture: `append`, `popleft`, the emptiness test, and setting, clearing and reading the flag are each
  atomic. Threads between their append and their `set()` are counted.

## Model

| member | source | states |
|---|---|---|
| `BudgetSafety.EveryInterleavingIsSafe` | alarm-system/src/services/availableTimeService.ts:59-220 | From consistent tables, after any interleaving of create, set, complete, status-change, archive, release, snooze and rollback steps: every slot has allocated <= budget, and at most one task per slot is flagged priority and neither completed nor archived. Assumes FINISH reports are absent or not negative. |
| `BudgetSafety.StepKeepsInv` | alarm-system/src/services/availableTimeService.ts:135-169 | One statement of one transaction keeps the invariant behind that theorem: row locks have one holder, and what each open transaction has read still bounds the committed tables. |
| `BudgetSafety.CommitCreate` | alarm-system/src/services/availableTimeService.ts:160-167 | A create that commits keeps the invariant, including the reads of every other open transaction. |
| `BudgetSafety.CommitSetBudget` | alarm-system/src/services/availableTimeService.ts:206-218 | A budget change that commits keeps allocated <= budget, although it looks only at the allocated sum. |
| `BudgetSafety.ReplaceRelaxes` | alarm-system/src/services/priorityTaskService.ts:55-69 | Replacing a row by one that takes no more of its slot, such as releasing the priority flag or archiving, keeps the invariant at every interleaving. |
| `BudgetSafety.TaskStep` | alarm-system/src/services/taskStatusService.ts:46-53 | The second completion path, FINISH, which takes only the task row's lock, keeps the invariant at every interleaving. |
| `TaskTable.ShareByStatus` | alarm-system/src/services/availableTimeService.ts:73-91 | A Pending or Snoozed row takes its estimate of the slot, a Completed one the smaller of its elapsed time and its estimate, an Archived one nothing; only the two unfinished states count as allocated. |
| `BudgetSafety.SnoozeFreesNothing` | alarm-system/src/services/priorityTaskService.ts:55-69 | In every state, snoozing leaves the allocated and the used sum of every slot as they were, and an unlocked Pending row does become Snoozed. |
| `BudgetSafety.ArchiveFreesTheShare` | alarm-system/src/services/availableTimeService.ts:73-91 | Archiving returns to the slot exactly what the row took of it, its estimate if it was Pending or Snoozed, and nothing to any other slot. |
| `BudgetAdmission.AdmissionNeverOverdraws` | alarm-system/src/services/availableTimeService.ts:139-167 | Over every run with nonnegative FINISH reports whose committed completions are covered (they charge no more than their row takes up), a create about to commit still satisfies allocated + consumed + duration <= total in the tables of that moment, even if completions committed between its two reads. A refused FINISH writes nothing and is no completion. |
| `BudgetAdmission.ActiveCompletionsNeverOverdraw` | alarm-system/src/services/availableTimeService.ts:139-198 | The same when every completion that commits finds its row active and with an estimate, which a caller can read under the row lock. |
| `BudgetAdmission.CompletionHarmlessExactly` | alarm-system/src/services/availableTimeService.ts:172-198 | completeTask does not look at the task's status. A completion raises allocated + consumed for no report whatever exactly when the task has an estimate and is active, has nothing left to charge, or was already charged in full. |
| `BudgetAdmission.UseRisesExactly` | alarm-system/src/services/availableTimeService.ts:73-91 | Apart from creating commits, a step raises allocated + consumed in no slot if and only if it commits no uncovered completion. |
| `BudgetLimits.ReportsDecideSafety` | alarm-system/src/services/taskStatusService.ts:46-53 | With FINISH reports bounded below by v, allocated <= budget holds over all runs if and only if v >= 0: the code does not check the value, and -1 breaks it. |
| `BudgetLimits.NegativeReportOverallocates` | alarm-system/src/services/taskStatusService.ts:46-53 | The concrete run: FINISH reports -1 s, then a 121 s task is admitted to a 120 s budget. |
| `BudgetLimits.BlockedByRunnable` | alarm-system/src/services/availableTimeService.ts:59-71 | A transaction that cannot advance waits for the transaction that holds the row it needs, and that one can advance: no wait is longer than one link, so no interleaving deadlocks. |
| `BudgetLocking.LocksProtect` | alarm-system/src/services/availableTimeService.ts:59-91 | Over any run of other transactions, while one holds its lock what it found under it stands: a task row unchanged, a slot's budget unchanged, its allocated sum an upper bound. |
| `BudgetLocking.SlotWaitsExactly` | alarm-system/src/services/availableTimeService.ts:59-71 | Inserting a missing budget row, and locking it, wait if and only if another create or budget change of that slot has inserted or locked it. |
| `BudgetLocking.PriorityWaitsExactly` | alarm-system/src/services/availableTimeService.ts:149-159 | The key of the priority check waits if and only if another request of that slot is checking. |
| `BudgetLocking.TaskWaitsExactly` | alarm-system/src/services/taskStatusService.ts:30-36 | Locking a task's row waits if and only if another completion or status change has locked that row. |
| `BudgetLocking.NewRow` | alarm-system/src/services/availableTimeService.ts:160-167 | A created task is pending and unstarted: it takes its duration of its slot and of no other, has used none of it, and can be started. |
| `BudgetOwners.StrangersChangeNothing` | alarm-system/src/services/taskStatusService.ts:29-79 | Over any interleaving of other users' requests, aborts and snoozes of other rows, every task, budget and refund of a user stays as it is. |
| `BudgetOwners.SingleUpdates` | alarm-system/src/services/priorityTaskService.ts:55-69 | Archiving and releasing write one column of the owner's row when nobody holds it, and otherwise nothing. |
| `BudgetOwners.ActionWrites` | alarm-system/src/services/taskStatusService.ts:46-79 | An accepted action changes nothing but its row, which then shows what the action asks for; FINISH completes it and takes over a reported time, the others leave all but the timer. |
| `BudgetSolvency.SetBudgetStaysSolventExactly` | alarm-system/src/services/availableTimeService.ts:203-220 | From tables in which no remaining time is negative, a budget change that is decided keeps it so if and only if it is refused or the new budget covers allocated + consumed. The code compares with allocated only. |
| `BudgetSolvency.SolventExactly` | alarm-system/src/services/availableTimeService.ts:135-220 | Over every run with nonnegative reports and covered completions, allocated + consumed <= total holds for every slot in every state if and only if each budget change meets that guard when it is decided. |
| `BudgetSolvency.ShrinkingOverdraws` | alarm-system/src/services/availableTimeService.ts:203-220 | The concrete run: a 60 s task is completed, then a budget of 0 is accepted, and the remaining time is -60 s. |
| `BudgetSolvency.RevivedTaskOverdraws` | alarm-system/src/services/availableTimeService.ts:172-198 | The concrete run: an archived 60 s task is completed after a 120 s create has read both sums of a 120 s budget, and the create is about to overdraw it. |
| `BudgetRefunds.RefundsMatchExactly` | alarm-system/src/services/availableTimeService.ts:172-200 | Over every interleaving, the refunds recorded for each task are the time it left unspent in every state if and only if every completion finds nothing unspent so far, every FINISH reports at least the estimate, and every archived task left nothing unspent. |
| `BudgetRefunds.StepMatchesExactly` | alarm-system/src/services/taskStatusService.ts:46-53 | One step keeps that if and only if it meets its guard; FINISH stores an elapsed time and records no refund. |
| `BudgetRefunds.EarlyFinishIsNotRefunded` | alarm-system/src/services/taskStatusService.ts:46-53 | The concrete run: a 60 s task finished after 20 s leaves 40 s unspent and none refunded. |
| `BudgetService.AvailableTimeService.LockAndGetTotal` | alarm-system/src/services/availableTimeService.ts:59-71 | The slot's row exists afterwards, nothing else changed, and the total read is its budget. |
| `BudgetService.AvailableTimeService.ReserveAndCreateTask` | alarm-system/src/services/availableTimeService.ts:135-169 | Each error exactly on its condition and with nothing written; on success exactly one new row; the result equals the protocol's transaction run alone. |
| `BudgetService.AvailableTimeService.CompleteTask` | alarm-system/src/services/availableTimeService.ts:172-200 | Each error exactly on its condition; the row is completed, a refund is recorded when positive and returned; equals the protocol's transaction run alone. |
| `BudgetService.AvailableTimeService.SetAvailableTime` | alarm-system/src/services/availableTimeService.ts:203-220 | Refuses exactly when the new budget is below the allocated sum; equals the protocol's transaction run alone. |
| `BudgetService.AvailableTimeService.ApplyAction` | alarm-system/src/services/taskStatusService.ts:29-79 | The transition table decides; FINISH completes the row and takes over a reported elapsed time; equals the protocol's transaction run alone. |
| `TaskTransitions.ActionsByRow` | alarm-system/src/state/taskTransitions.ts:15-62 | For every row and instant, read off its columns: which actions are refused, and the timer status each accepted action leads to. |
| `TaskTransitions.DisplaysFollowActions` | alarm-system/src/state/taskTransitions.ts:15-42 | What is shown after each accepted action, whatever the deadline; and an open row with an idle timer shows whether its deadline has passed. |
| `BudgetService.SoloCreate` | alarm-system/src/services/availableTimeService.ts:135-169 | What a create does to the tables when no other transaction interleaves. |
| `BudgetService.SoloTask` | alarm-system/src/services/taskStatusService.ts:29-79 | What a completion or status change does when no other transaction interleaves. |
| `LedgerRefinement.LedgerRefinesTable` | frontend/src/lib/availability.js:12-22 | Over any run of set, create, delete, complete and midnight, on tasks of any age and state, the incremental remaining time equals the server's recomputation plus one second per half-second completion of the day in every state if and only if every event settles: a refund goes only to a task of the day that is active, was refunded nothing before or, if deleted, reserved nothing; and a deletion gives back only what was reserved that day and not refunded. |
| `LedgerRefinement.LedgerCloseToTable` | alarm-system/src/services/availableTimeService.ts:73-91 | When every event settles, the two differ by at most a second per task completed that day, and are equal when those elapsed times are whole seconds. |
| `LedgerRefinement.RefundAgainstCharge` | frontend/src/lib/timerEngine.js:98-100 | Rounding the refund on one side and the reported time on the other differ exactly on the half second. |
| `LedgerRefinement.StepStaysExactly` | alarm-system/src/routes/notificationRoutes.ts:118-127 | From a ledger in order, one event leaves the two numbers in agreement if and only if it settles; that covers deleting a completed task, which the route accepts, and deleting or completing one carried over midnight. |
| `LedgerRefinement.CarriedRefundParts` | frontend/src/stores/timerStore.js:81-98 | The concrete run: a timer outlives midnight, and its refund of 3000 s is paid into a day that never reserved the time. |
| `LedgerRefinement.HalfSecondParts` | frontend/src/lib/timerEngine.js:98-100 | The concrete run: 10 s estimated, completed after 4.5 s; the browser shows one second more than the server. |
| `LedgerRefinement.AcceptedExactly` | alarm-system/src/routes/notificationRoutes.ts:118-127 | A deletion is accepted if and only if the task is not yet removed, a report if and only if it is at least minus half a second on a task there is. |
| `TimerTheorems.ElapsedIsTickingTime` | frontend/src/lib/timerEngine.js:36-96 | Under a non-decreasing clock a completed timer holds the time of an independent stopwatch, which knows no ticks, less what STARTs on a ticking timer threw away; so it is the stopwatch's time if and only if every START settles. |
| `TimerTheorems.TickSchedulesDoNotMatter` | frontend/src/lib/timerEngine.js:45-60 | Two schedules of the same user actions with different ticks complete to the same timer and the same refund. |
| `TimerTheorems.ErasingTicks` | frontend/src/lib/timerEngine.js:45-60 | Removing every tick from a run leaves a timer that a single tick makes the same. |
| `TimerTheorems.EveryOperationBalances` | frontend/src/lib/timerEngine.js:36-96 | remaining + elapsed = estimated is kept by every operation, including hidden-gap and drift correction. |
| `TimerTheorems.StartSettlesExactly` | frontend/src/lib/timerEngine.js:36-43 | START on a timer loses no ticking time if and only if it was not ticking or has just ticked. |
| `TimerTheorems.OvertimeExactly` | frontend/src/lib/timerEngine.js:45-60 | A timer kept in balance is in overtime after a tick if and only if its estimate is used up. |
| `TimerTheorems.CorrectionsEnterOvertime` | frontend/src/lib/timerEngine.js:67-89 | The same for the hidden-gap and the drift correction; the latter leaves a timer that is not ticking in its state. |
| `TimerTheorems.RefundIsTheRemainder` | frontend/src/lib/timerEngine.js:97-100 | The refund of a timer kept in balance is what remains of it, rounded, and nothing below half a second. |
| `TimerTheorems.StartedAtFirst` | frontend/src/lib/timerEngine.js:36-43 | Over any run a timer's start is the instant of its first START. |
| `TimerTheorems.PausedAtPause` | frontend/src/lib/timerEngine.js:54-65 | Over any run a timer has the instant of its pause exactly while it is paused. |
| `TimerStoreSpec.AtMostOneTicking` | frontend/src/stores/timerStore.js:19-98 | After any calls with nonempty ids at most one timer is running or in overtime, and it is the active one. |
| `TimerStoreSpec.StartKeepsOneTickingExactly` | frontend/src/stores/timerStore.js:19-31 | Starting keeps that if and only if no timer is ticking under the empty id, which the code takes for "no active task". |
| `TimerStoreSpec.EmptyIdEscapes` | frontend/src/stores/timerStore.js:19-31 | The concrete run: two calls on an empty store after which two timers tick. |
| `TimerStoreRuns.EveryTimerIsARun` | frontend/src/stores/timerStore.js:19-98 | Over any calls the store holds exactly the tasks started, its active task is the one last chosen and not completed since, and each timer is what the engine makes of the operations the calls bring to it: a choice of another task pauses the chosen one, the interval ticks all. |
| `TimerStoreRuns.NoSecondCountsTwice` | frontend/src/stores/timerStore.js:19-98 | Over any calls with nonempty ids and without the two corrections, all timers together count at most the time that has passed. |
| `TimerStoreClass.TimerStore.StartTimer` | frontend/src/stores/timerStore.js:19-31 | The auto-pause and the start, as the specification of the call. |
| `TimerStoreClass.TimerStore.PauseTimer` | frontend/src/stores/timerStore.js:33-36 | The pause; a missing timer throws and leaves the store as it was. |
| `TimerStoreClass.TimerStore.ResumeTimer` | frontend/src/stores/timerStore.js:38-48 | The auto-pause and the resume; a missing timer throws and leaves the store as it was. |
| `TimerStoreClass.TimerStore.TickTimer` | frontend/src/stores/timerStore.js:51-65 | The loop over all timers ticks exactly the ticking ones, each once. |
| `TimerStoreClass.TimerStore.ApplyHiddenGap` | frontend/src/stores/timerStore.js:68-75 | The gap reaches the active timer only. |
| `TimerStoreClass.TimerStore.CompleteTask` | frontend/src/stores/timerStore.js:81-98 | The timer is settled and done, the active id is cleared when it was this one, and the refund is returned. |
| `FrameCodec.FrameRoundTrip` | audio-daemon/src/audio_daemon/protocol.py:44-60 | For every type < 2^16 and body < 2^32 bytes, decoding an encoded frame followed by any bytes returns that type and body. |
| `FrameCodec.BrowserRoundTripExactly` | frontend/src/lib/ipcProtocol.js:28-39 | Both encoders emit the same bytes, and the browser's frame decodes to what was sent, if and only if type and length fit their fields. |
| `FrameCodec.DecodedFrameIsEncoded` | audio-daemon/src/audio_daemon/protocol.py:49-60 | Every accepted buffer starts with the encoding of the frame read from it: the decoder accepts nothing else. |
| `FrameCodec.DecodeBrowser` | frontend/src/lib/ipcProtocol.js:41-54 | The browser's decoder accepts the same buffers as the daemon's and extracts the same type and body. |
| `FrameCodec.EncodeBrowser` | frontend/src/lib/ipcProtocol.js:28-39 | The bytes written in place are the header and body, in that layout. |
| `FrameCodec.SetUint` | frontend/src/lib/ipcProtocol.js:28-39 | A little-endian store writes exactly its field and nothing around it, cutting the value to the field. |
| `FrameCodec.LittleEndianRoundTrip` | audio-daemon/src/audio_daemon/protocol.py:44-60 | Reading back a little-endian field gives the value modulo the field's range. |
| `IpcSafety.EveryInterleaving` | audio-daemon/src/audio_daemon/ipc.py:95-195 | In every state reachable by interleaving daemon blocks and browser callbacks: pending and acks are exactly the emitted, unacknowledged triggers; nobody is forgotten; acknowledgements come only from receipts; only emitted triggers travel; queues stay within their bound. |
| `IpcSafety.NoTriggerIsLost` | audio-daemon/src/audio_daemon/ipc.py:181-191 | Over any disconnects and reconnects an emitted trigger is still pending, or some browser has received it; and an emitter reports success only for a trigger that was received. |
| `IpcSafety.QuietMeansSent` | audio-daemon/src/audio_daemon/ipc.py:144-195 | When no flush to a client and no broadcast of a trigger is running, that pending trigger's send to the client raised, or its TRIGGER_EVENT is on the wire to the client, or a browser has received the trigger, or the wire is gone. |
| `IpcSafety.StepKeepsPending` | audio-daemon/src/audio_daemon/ipc.py:181-187 | One block keeps pending and acks equal to emitted minus acknowledged. |
| `IpcSafety.StepKeepsOwed` | audio-daemon/src/audio_daemon/ipc.py:189-195 | One block keeps: each pending trigger was sent to each registered client, or a flush or an emitter still owes it. |
| `IpcSafety.BroadcastDelivers` | audio-daemon/src/audio_daemon/ipc.py:144-160 | A step of a broadcast whose send does not raise appends TRIGGER_EVENT of its trigger, and nothing else, to the client's wire. |
| `IpcSafety.FlushDelivers` | audio-daemon/src/audio_daemon/ipc.py:95-111 | The same for a step of the flush to a new connection. |
| `IpcSafety.StepKeepsDelivering` | audio-daemon/src/audio_daemon/ipc.py:144-195 | One block keeps: each attempted send that did not raise has its TRIGGER_EVENT in the wire, or the browser has received the trigger, or the wire is gone. |
| `IpcSafety.StepKeepsAcks` | frontend/src/api/daemonIpc.js:87-119 | One block keeps: every acknowledgement queued, on the wire or counted is of a received trigger, and client queues stay within maxQueue. |
| `IpcRecovery.ReconnectDrainsPending` | frontend/src/api/daemonIpc.js:53-119 | From any reachable state, dropped acknowledgements or not, there is a continuation in which one idle browser reconnects and nothing stays pending. |
| `IpcEmission.EmitReachesAll` | audio-daemon/src/audio_daemon/ipc.py:144-165 | With clients connected and nothing in between, one call puts FOCUS_WINDOW and then TRIGGER_EVENT on the wire of each client whose sends do not raise, in that order, and nothing on any other wire; then it waits, with the trigger pending. |
| `IpcEmission.EmitWaitsForClients` | audio-daemon/src/audio_daemon/ipc.py:144-160 | With no client connected nothing is sent, and the trigger is pending for the next connection. |
| `IpcEmission.EmitEndsExactly` | audio-daemon/src/audio_daemon/ipc.py:174-187 | A waiting emitter reports success if and only if its trigger is acknowledged, and failure on its timeout. |
| `IpcEmission.DroppedGetsNothing` | audio-daemon/src/audio_daemon/ipc.py:95-119 | No event adds a frame to a connection that the daemon has dropped. |
| `IpcLinks.NothingBeforeTheFlush` | audio-daemon/src/audio_daemon/ipc.py:95-111 | Nothing is read from a connection, nor its end noticed, before its flush is over. |
| `IpcLinks.DropLosesTheUnread` | audio-daemon/src/audio_daemon/ipc.py:105-116 | When a connection's end is noticed it is unregistered and what came up unread is lost; what went down may still arrive, and every pending trigger stays pending. |
| `IpcLinks.HeartbeatIsAnswered` | frontend/src/api/daemonIpc.js:103-119 | A heartbeat on an idle connection that the browser holds comes back as exactly one acknowledgement. |
| `DaemonClientSpec.SendAllKeepsNewest` | frontend/src/api/daemonIpc.js:87-101 | Offline the queue holds exactly the newest maxQueue frames, oldest first; online everything is sent in order and the queue is not touched. |
| `DaemonClientSpec.FlushSendsOrKeeps` | frontend/src/api/daemonIpc.js:87-91 | Reconnecting sends the whole queue in order, or keeps it whole if the socket is not open after all. |
| `DaemonClientSpec.SendAllInventsNothing` | frontend/src/api/daemonIpc.js:87-101 | Every frame sent or queued was queued before or given now. |
| `DaemonClientClass.DaemonIpcClient.SendFrame` | frontend/src/api/daemonIpc.js:93-101 | Send or queue with drop-oldest, as specified; the result says which. |
| `DaemonClientClass.DaemonIpcClient.Flush` | frontend/src/api/daemonIpc.js:87-91 | The in-place flush loop is the specified flush. |
| `DaemonClientClass.DaemonIpcClient.Receive` | frontend/src/api/daemonIpc.js:103-119 | Heartbeats and triggers are acknowledged, and heartbeats alone are not forwarded. |
| `DaemonClientSpec.FailuresBackOff` | frontend/src/api/daemonIpc.js:79-85 | Over any run of failed attempts the waits never get shorter and stay between 100 ms and 5 s. |
| `DaemonClientSpec.BackOffStartsAfresh` | frontend/src/api/daemonIpc.js:61-85 | After a connection that opened, the waits of a run of failures start at 100 ms, double up to 1600 ms, and are 5 s from the sixth on. |
| `DaemonClientSpec.StoppedStaysAway` | frontend/src/api/daemonIpc.js:34-42 | Once stopped, no closing socket and no failing constructor sets a timer. |
| `DaemonClientLife.NeverStranded` | frontend/src/api/daemonIpc.js:27-85 | Over any life of the client, it has a socket or a timer for the next one if and only if its caller has told it to connect and not to stop since. |
| `DaemonClientLife.FramesKeepTheirOrder` | frontend/src/api/daemonIpc.js:57-101 | Over any life, the frames handed to sockets followed by the queue are the offered frames in their order, none twice, all of them if and only if none was dropped from a full queue; nothing is queued while frames can be sent. |
| `DaemonClientLife.ConnectedExactly` | frontend/src/api/daemonIpc.js:53-75 | The client calls itself connected if and only if a socket has opened and none has closed, and no stop come, since. |
| `DaemonClientLife.SentExactly` | frontend/src/api/daemonIpc.js:93-101 | A frame is handed over if and only if the client is connected through an open socket, and otherwise queued last, at the cost of the oldest exactly when the queue is full. |
| `DaemonClientLife.ConnectTries` | frontend/src/api/daemonIpc.js:27-32 | Connecting keeps the socket there is; otherwise it tries for one unless the client takes itself for connected, and a failure leads to a retry. |
| `IpcHubSpec.PopRemoves` | audio-daemon/src/audio_daemon/ipc.py:181-187 | Resolving an acknowledgement takes out one place of the pending list, that of the trigger with the id, and joins the rest in order; or, with no such trigger, changes nothing. |
| `IpcHubSpec.PutReplaces` | audio-daemon/src/audio_daemon/ipc.py:144-149 | A trigger whose id is already pending takes the place of the first entry that has it; the others keep theirs. |
| `IpcHubSpec.RegisterPutsLast` | audio-daemon/src/audio_daemon/ipc.py:95-116 | A connection that registers comes last and only once, and one that leaves is taken out; the others stay in their order. |
| `IpcHubSpec.LaunchesExactly` | audio-daemon/src/audio_daemon/ipc.py:167-172 | A trigger launches the application if and only if no client is connected and it comes a debounce or more after the initial mark and after every earlier launch. |
| `IpcHubSpec.LaunchesApart` | audio-daemon/src/audio_daemon/ipc.py:144-172 | Over any sequence of triggers two launches of the application are at least the debounce apart, and none comes while a client is connected. |
| `IpcHubClass.IpcHub.BeginEmit` | audio-daemon/src/audio_daemon/ipc.py:144-172 | The block up to the first await: pending, acks, the clients to focus, and the debounced relaunch when nobody is connected. |
| `IpcHubClass.IpcHub.ResolveAck` | audio-daemon/src/audio_daemon/ipc.py:181-187 | An empty or missing id changes nothing; otherwise the trigger leaves pending and its emitter is woken. |
| `IpcHubClass.IpcHub.Accept` | audio-daemon/src/audio_daemon/ipc.py:95-111 | A connection is registered, and what its flush owes is what is pending then. |
| `SettingsSafety.LoadReturnsASave` | audio-daemon/src/audio_daemon/settings/atomic_writer.py:24-57 | After any history of saves, process crashes and power losses, load returns the last completed settings or settings whose save began since, never a mixture; defaults too only while no save has completed, or where the directory cannot be synced. |
| `SettingsSafety.CompletedSaveSticks` | audio-daemon/src/audio_daemon/settings/atomic_writer.py:24-40 | Where the directory can be synced, a save that returned is what loads until the next one begins, across any crashes. |
| `SettingsSafety.InterruptedSaveIsAtomic` | audio-daemon/src/audio_daemon/settings/atomic_writer.py:24-40 | Where the directory can be synced, one interrupted save leaves its own settings or the ones completed before it. |
| `SettingsLasting.LostSettingsStayLost` | audio-daemon/src/audio_daemon/settings/atomic_writer.py:24-57 | What loads right after a power loss goes on loading, through any further crashes, unless settings whose save begins later replace it: settings once lost never come back by themselves. |
| `SettingsSafety.DirectorySyncDecides` | audio-daemon/src/audio_daemon/settings/atomic_writer.py:59-68 | A completed first save survives every power loss if and only if the directory sync works; the code swallows its failure. |
| `SettingsSafety.StepKeepsInv` | audio-daemon/src/audio_daemon/settings/atomic_writer.py:24-40 | Each system call and each crash keeps: every directory a power loss may bring back has a synced main file holding one of those settings. |
| `SettingsWriter.AtomicSettingsWriter.Save` | audio-daemon/src/audio_daemon/settings/atomic_writer.py:24-40 | The method is the protocol's seven steps in order. |
| `SettingsWriter.AtomicSettingsWriter.Load` | audio-daemon/src/audio_daemon/settings/atomic_writer.py:42-57 | Main, else backup, else defaults. |
| `SettingsWriter.UndisturbedSave` | audio-daemon/src/audio_daemon/settings/atomic_writer.py:24-40 | Run without a crash, the crashable protocol does what the method does. |
| `SettingsBackup.LoadByContents` | audio-daemon/src/audio_daemon/settings/atomic_writer.py:42-57 | Load is main if it parses, else the backup if that parses, else the defaults. |
| `SettingsBackup.SaveKeepsPrevious` | audio-daemon/src/audio_daemon/settings/atomic_writer.py:24-40 | A save leaves the new settings in main, what main held before in the backup, and no temporary file. |
| `SettingsBackup.DamagedMainFallsBack` | audio-daemon/src/audio_daemon/settings/atomic_writer.py:42-57 | After any history of saves and crashes, one more save and a main file damaged after it, load returns what loaded before that save; the defaults only if the backup is damaged as well. |
| `SettingsBackup.SecondSaveBacksUpFirst` | audio-daemon/src/audio_daemon/settings/atomic_writer.py:24-40 | After a first and a second save the second loads, and the first again once main is damaged. |
| `SettingsBackup.CrashCutsTheWriteShort` | audio-daemon/src/audio_daemon/settings/atomic_writer.py:24-40 | A process crash during the write of the temporary file or of the backup leaves what was written of it there; at any other moment it leaves every file as it is. |
| `SettingsBackup.SecondPowerLossIsIdle` | audio-daemon/src/audio_daemon/settings/atomic_writer.py:24-40 | What a power loss leaves is on the disk: losing power again changes nothing. |
| `RankingOrder.StrictTotalOrder` | src/main/java/com/teamsigma/taskmanager/priority/PriorityService.java:28-42 | BY_PRIORITY is irreflexive, asymmetric, transitive, and total on responses with different ids; red goes first, then the higher score (RankedByKeys has the other keys). |
| `RankingOrder.SortedIsUnique` | src/main/java/com/teamsigma/taskmanager/priority/PriorityService.java:73-86 | A multiset of responses has one sorted arrangement, so any sort gives this ranking. |
| `RankingOrder.RankedByKeys` | src/main/java/com/teamsigma/taskmanager/priority/PriorityService.java:28-42 | In the sorted ranking each task outranks every lower one by the first key that differs: red; higher score; higher urgency, none counting as 0; higher importance; fewer minutes; smaller id, a missing one last. |
| `RankingOrder.RankingIgnoresArrival` | src/main/java/com/teamsigma/taskmanager/priority/PriorityService.java:73-86 | Permuted inputs with distinct ids rank identically before exploration. |
| `RankingPasses.PrioritizedOutput` | src/main/java/com/teamsigma/taskmanager/priority/PriorityService.java:64-113 | After sorting, exploration and pins: a permutation with unchanged scores; the pinned tasks first; in each part no task precedes a red one unless it is red, and of two tasks that exploration did not flag the higher outranks the lower key by key; without a pick each part is in priority order. |
| `RankingPasses.ExplorationKeepsTheRest` | src/main/java/com/teamsigma/taskmanager/priority/ExplorationService.java:37-117 | Exploration keeps the top task, moves its pick to rank 2 at most, and keeps the order of all the others. |
| `RankingPasses.ExplorationDecides` | src/main/java/com/teamsigma/taskmanager/priority/ExplorationService.java:37-67 | Exploration picks if and only if there are tasks and logs, the draw is below 0.05 and no task is red; otherwise every exploration flag is cleared and nothing else changes. |
| `RankingPasses.PickIsLeastCompleted` | src/main/java/com/teamsigma/taskmanager/priority/ExplorationService.java:69-87 | The pick is the first task of a category that at most as many log entries carry as carry any candidate's, counted as sets of entries. |
| `RankingPasses.OnlyThePickIsTouched` | src/main/java/com/teamsigma/taskmanager/priority/ExplorationService.java:89-103 | The pick lands on rank 2, or stays on 1 or 2, flagged and told the number of log entries of its category; the other tasks come as they were. |
| `RankingPasses.PinSays` | src/main/java/com/teamsigma/taskmanager/priority/PriorityService.java:103-106 | A pinned task is marked; the reason it had is dropped if and only if there was none or its text is white space, and otherwise follows the mark; nothing else of it changes. |
| `RankingPasses.PartsKeepOrder` | src/main/java/com/teamsigma/taskmanager/priority/PriorityService.java:96-113 | Pinning is stable: the pinned and the other tasks are taken from the explored ranking at increasing places, none left out; so each part also inherits red-first and priority order. |
| `RankingServices.ApplyExplorationMode` | src/main/java/com/teamsigma/taskmanager/priority/ExplorationService.java:37-110 | The in-place pass explores only below the 5% draw, with history and no red task, and picks the first task of a least-completed category. |
| `RankingServices.ApplyPins` | src/main/java/com/teamsigma/taskmanager/priority/PriorityService.java:96-113 | The loop splits into pinned and rest and marks the pinned; both are subsequences of the input that together use every place. |
| `RankingServices.GetPrioritizedTasks` | src/main/java/com/teamsigma/taskmanager/priority/PriorityService.java:64-94 | The three passes in sequence: a permutation of the scored responses with unchanged scores, pinned first, and in each part red first and, but for tasks flagged by exploration, ordered key by key. |
| `Scoring.ScoreInUnit` | src/main/java/com/teamsigma/taskmanager/priority/DefaultDynamicPriorityStrategy.java:21-57 | Under nonnegative weights summing to 1 every score is in [0, 1]. |
| `Scoring.LevelThresholds` | src/main/java/com/teamsigma/taskmanager/priority/UrgencyEvaluator.java:47-92 | In whole units: red iff at most 61 minutes are left, yellow iff 62 to 243, stale iff no deadline and at least 3 postponements. |
| `Scoring.ScoreMonotone` | src/main/java/com/teamsigma/taskmanager/priority/DefaultDynamicPriorityStrategy.java:34-53 | More importance and a nearer deadline never lower a score; postponing never raises it when there is a deadline and never lowers it when there is none. |
| `Scoring.UrgencyMonotone` | src/main/java/com/teamsigma/taskmanager/priority/UrgencyEvaluator.java:47-54 | A nearer deadline is never less urgent. |
| `Scoring.FirstWeightIsImportance` | src/main/java/com/teamsigma/taskmanager/priority/DefaultDynamicPriorityStrategy.java:34-53 | The first weight alone gives the importance in fifths, in proportion. |
| `Scoring.SecondWeightIsUrgency` | src/main/java/com/teamsigma/taskmanager/priority/DefaultDynamicPriorityStrategy.java:34-53 | The second weight alone gives the urgency, in proportion. |
| `Scoring.PartsAddUp` | src/main/java/com/teamsigma/taskmanager/priority/DefaultDynamicPriorityStrategy.java:34-57 | The score is what the first two weights give alone less the third weight's share of the delay, and never below zero. |
| `Scoring.HalfLives` | src/main/java/com/teamsigma/taskmanager/priority/UrgencyEvaluator.java:47-92 | A deadline now or past is fully urgent, two hours off half so; five postponements without a deadline are half urgent, and five with one cost the whole penalty. |
| `Scoring.ReciprocalsAreLinear` | src/main/java/com/teamsigma/taskmanager/priority/UrgencyEvaluator.java:47-92 | Each further two hours adds one to the reciprocal of the deadline factor; the aging factor stands to its complement as the postponements to five. |
| `Scoring.HundredthsRound` | src/main/java/com/teamsigma/taskmanager/priority/DefaultDynamicPriorityStrategy.java:34-53 | The displayed hundredths are the score rounded half up. |
| `WeightLearning.EveryNightKeeps` | src/main/java/com/teamsigma/taskmanager/priority/WeightUpdateDelegate.java:45-164 | Over any run of nights weights stay nonnegative with sum 1, w1 starting in [0.5, 0.9] stays there, and w2:w3 is preserved whenever w2 + w3 > 0. |
| `WeightLearning.PickyNights` | src/main/java/com/teamsigma/taskmanager/priority/WeightUpdateDelegate.java:91-136 | Four consecutive picky nights reach exactly 0.90, with lower bounds for one, two and three. |
| `WeightLearning.BoostGrows` | src/main/java/com/teamsigma/taskmanager/priority/WeightUpdateDelegate.java:91-136 | The boost is 20% exactly up to one half snoozed, 30% exactly from all snoozed, and grows in proportion between. |
| `WeightLearning.NormalNights` | src/main/java/com/teamsigma/taskmanager/priority/WeightUpdateDelegate.java:138-164 | After n normal nights w1 is exactly 0.05 n lower, or 0.5 if that is less, until it is within 1e-9 of 0.5, where it stays; eight nights suffice. |
| `WeightLearning.PickyExactly` | src/main/java/com/teamsigma/taskmanager/priority/WeightUpdateDelegate.java:45-89 | A day is picky if and only if 10 times the completed low-effort logs exceed 7 times the low-effort logs and twice the snoozed important logs exceed the important logs, counted as sets of log positions by minutes, stars and activity; the snoozed rate is that share. |
| `WeightLearning.OneMoreImportant` | src/main/java/com/teamsigma/taskmanager/priority/WeightUpdateDelegate.java:63-75 | One more log with at least 4 stars: snoozed, it keeps a picky day picky; completed, it keeps a normal day normal. |
| `WeightLearning.PickyNightExactly` | src/main/java/com/teamsigma/taskmanager/priority/WeightUpdateDelegate.java:91-136 | A picky night raises w1 by 20% and a fifth of what the snoozed share of the important logs exceeds one half by, and at most to 0.9. |
| `WeightLearning.FailsExactly` | src/main/java/com/teamsigma/taskmanager/priority/WeightUpdateDelegate.java:91-97 | Without an error of its own a user fails if and only if there is no profile and the day is picky, by the same index sets. |
| `WeightLearning.LearnedScoreInUnit` | src/main/java/com/teamsigma/taskmanager/priority/DefaultDynamicPriorityStrategy.java:34-53 | Whatever the learning history, a task's score stays in [0, 1]. |
| `WeightLearning.UsersAreIndependent` | src/main/java/com/teamsigma/taskmanager/priority/AdaptiveWeightEngine.java:58-96 | The batch gives a user exactly what a run on that user's logs alone gives, whichever other users fail. |
| `WeightServices.LearnAndAdjustWeights` | src/main/java/com/teamsigma/taskmanager/priority/AdaptiveWeightEngine.java:46-106 | The loop, in any order of users, leaves the batch result and counts exactly the failing users. |
| `WeightServices.WeightUpdateDelegate.UpdateWeightForUser` | src/main/java/com/teamsigma/taskmanager/priority/WeightUpdateDelegate.java:45-89 | The night's pattern decides between boost and decay; a failure leaves the profile alone. |
| `WeightServices.WeightUpdateDelegate.AdjustUserProfileWeights` | src/main/java/com/teamsigma/taskmanager/priority/WeightUpdateDelegate.java:91-136 | The boost as specified; a missing profile fails. |
| `WeightServices.WeightUpdateDelegate.DecayTowardBaseline` | src/main/java/com/teamsigma/taskmanager/priority/WeightUpdateDelegate.java:138-164 | The decay as specified; a missing profile is left missing. |
| `OverdueScan.PaginationIsOnePass` | alarm-system/src/queue/overdueNotificationScheduler.ts:50-123 | On a table that does not change during the scan, ordered by distinct ids, and for every page size >= 1, the keyset-paginated scan ends and does what one unpaginated pass does, whichever rows fail. |
| `OverdueMoving.NobodyTwice` | alarm-system/src/queue/overdueNotificationScheduler.ts:57-72 | When the table changes between pages in any way, the handled ids still strictly increase: no task is handled twice in a scan. |
| `OverdueMoving.SteadyTaskIsVisited` | alarm-system/src/queue/overdueNotificationScheduler.ts:57-72 | When the table changes between pages, a task that is a candidate at every read of a scan that ends is handled. |
| `OverdueMoving.EndsOnAShortPage` | alarm-system/src/queue/overdueNotificationScheduler.ts:57-123 | A scan ends if and only if not all its pages were full, and reads nothing after that. |
| `OverdueMoving.VisitedWereCandidates` | alarm-system/src/queue/overdueNotificationScheduler.ts:57-72 | When the table changes between pages, every handled row was a candidate at the read that returned it. |
| `OverdueScan.OverdueNotificationScheduler.RunDailyScan` | alarm-system/src/queue/overdueNotificationScheduler.ts:47-124 | The nested loops leave the table, the pushes and the counters of that single pass. |
| `OverdueScan.OverdueNotificationScheduler.HandleOne` | alarm-system/src/queue/overdueNotificationScheduler.ts:72-118 | One row: skipped, failed, updated, or inserted and pushed. |
| `OverdueScan.CursorCutsThere` | alarm-system/src/queue/overdueNotificationScheduler.ts:60-72 | Moving the cursor to a page's last id leaves exactly the rows behind the page. |
| `OverdueScan.VisitsExactly` | alarm-system/src/queue/overdueNotificationScheduler.ts:58-71 | Every unfinished task with a positive id that is a day or more overdue is visited, once, in id order, for any monotone day function. |
| `OverdueScan.SelectedExactly` | alarm-system/src/queue/overdueNotificationScheduler.ts:57-72 | A scan looks at exactly the tasks not done whose deadline is before now, with an id beyond the cursor. |
| `OverdueScan.NoticeByDays` | alarm-system/src/notifications/messages.ts:65-81 | One day earns OVERDUE_1DAY, two OVERDUE_2DAY, three or more DELETE_CONFIRM, none or fewer no notice. |
| `OverdueScan.PassStoresNotices` | alarm-system/src/queue/overdueNotificationScheduler.ts:72-112 | After a pass without a failing upsert each visited task that is overdue has its notice of the day stored, for its owner, unread and not dismissed if the row is new, and with the flags of the old row otherwise. |
| `OverdueScan.CoarseFilterIsSafe` | alarm-system/src/notifications/overdue.ts:37-50 | The coarse filter drops no task whose overdue days are >= 1. |
| `OverdueScan.CountersAgreeExactly` | alarm-system/src/queue/overdueNotificationScheduler.ts:72-118 | scanned = created + skipped + failed if and only if no new notification's delivery throws. |
| `OverdueScan.TallyBalances` | alarm-system/src/queue/overdueNotificationScheduler.ts:72-118 | Every handled row is counted once, and once more when its delivery throws; created is the number of rows the table gained; all of those but the undelivered were pushed. |
| `OverdueScan.PushedAtMostOnce` | alarm-system/src/queue/overdueNotificationScheduler.ts:82-112 | Over any history of scans and user actions each (task, service date) is pushed at most once, what was pushed is stored, and flags a user set stay set. |
| `OverdueScan.FlagsAreTheUsers` | alarm-system/src/queue/overdueNotificationScheduler.ts:82-112 | Over any history a row is read, or dismissed, at the end if and only if it was at the start or a user marked it since. |
| `OverdueScan.ScanKeepsPushes` | alarm-system/src/queue/overdueNotificationScheduler.ts:82-112 | One pass keeps every read and dismissed flag, and pushes only rows it inserted. |
| `OverdueScan.RerunIsIdle` | alarm-system/src/queue/overdueNotificationScheduler.ts:82-112 | After a pass in which no upsert failed, a rerun with the same now creates nothing, pushes nothing and leaves the table unchanged. |
| `ElectionSafety.ElectionSettles` | frontend/src/lib/primaryTab.js:15-41 | Once tabs stop opening and closing at T and messages take at most 1000 ms, after T + 2000 + delay every tab's view is the live set and exactly the smallest id is primary; at that very instant this holds for the tabs with no beat due. |
| `ElectionLimit.DueBeatMatters` | frontend/src/lib/primaryTab.js:15-41 | The exception is real: at exactly T + 2000 + delay a tab whose due beat is not yet taken may still take a closed tab for the primary. |
| `ElectionLimit.SecondIsTheBound` | frontend/src/lib/primaryTab.js:15-41 | Every run settles in that way if and only if the delay is at most 1000 ms: one millisecond more, and two tabs can disagree again and again for ever. |
| `ElectionSafety.HeardIsFresh` | frontend/src/lib/primaryTab.js:15-19 | A live tab heard of since T is never old enough to be dropped. |
| `ElectionSafety.ViewIsLive` | frontend/src/lib/primaryTab.js:15-41 | Late enough, no live tab is missing from a view and no closed one is left in it. |
| `ElectionSafety.TimeNeverStuck` | frontend/src/lib/primaryTab.js:37-41 | The timed model always has a next step: time may pass, or a due beat or message may happen. |
| `PrimaryTab.Elector.Recompute` | frontend/src/lib/primaryTab.js:15-25 | The loop drops exactly the silent peers, the primary is the smallest id left, and the caller is told exactly when it changes. |
| `PrimaryTab.Elector.OnMessage` | frontend/src/lib/primaryTab.js:28-33 | A message refreshes its sender and recomputes. |
| `PrimaryTab.Elector.OnBeat` | frontend/src/lib/primaryTab.js:37-41 | A beat refreshes the tab itself and recomputes. |
| `CaptureSafety.EveryInterleaving` | audio-daemon/src/audio_daemon/capture.py:55-71 | For any interleaving of pushes and the drain thread: the ring is a suffix of the pushed frames within its bound; handled frames come in push order, none twice; nothing is lost if and only if no push found the ring full; no wakeup is lost. |
| `CaptureSafety.DrainsWithoutTimeout` | audio-daemon/src/audio_daemon/capture.py:59-71 | Once pushers have set the flag the drain thread hands over the whole ring, in order, with no timeout expiring. |
| `CaptureSafety.DrainRests` | audio-daemon/src/audio_daemon/capture.py:59-76 | Left alone once all flags are set, the drain thread ends if it was told to stop, and otherwise sleeps with the flag clear and the ring empty; it hands over the whole ring first, unless it was about to test a raised stop flag. |
| `CaptureSafety.EveryCallSetsTheFlag` | audio-daemon/src/audio_daemon/capture.py:55-76 | In every run in which wake.set() comes only from pushes and stops, the setters counted are exactly those still to come, each raises the flag, and the stop flag is up if and only if a stop was requested. |
| `CaptureSafety.DrainKeepsInv` | audio-daemon/src/audio_daemon/capture.py:59-71 | Each atomic action of the drain thread keeps the invariant. |
| `CaptureSafety.AppendKeepsInv` | audio-daemon/src/audio_daemon/capture.py:55-57 | A push, dropping the oldest frame or not, keeps the invariant. |
| `CaptureBroadcast.Runner.Push` | audio-daemon/src/audio_daemon/capture.py:55-57 | The frame is appended within the bound and the flag is set. |
| `CaptureBroadcast.Runner.DrainOnce` | audio-daemon/src/audio_daemon/capture.py:59-71 | The drain loop hands over the whole ring in order. |
| `CaptureBroadcast.AudioCaptureBroadcaster.FeedFrame` | audio-daemon/src/audio_daemon/capture.py:123-128 | Every subscribed runner gets the frame once, and no other runner is touched. |
| `CaptureBroadcast.AudioCaptureBroadcaster.Subscribe` | audio-daemon/src/audio_daemon/capture.py:105-110 | The new runner, with an empty ring of the default size, is published last and the others stay. |
| `CaptureBroadcast.AudioCaptureBroadcaster.Unsubscribe` | audio-daemon/src/audio_daemon/capture.py:112-117 | The removed runner is stopped; the others keep their places and their rings. |
| `CaptureBroadcast.WithoutKeepsOrder` | audio-daemon/src/audio_daemon/capture.py:112-117 | Removing a runner leaves those before it and those after it in their order. |

## Left out

- TimerTheorems.ElapsedIsTickingTime: does not cover hidden-gap and drift corrections, which may count time twice; `HiddenGapExactly` says when they do not.
- TimerStoreRuns.NoSecondCountsTwice: does not cover the two corrections either, nor the empty id, under which `EmptyIdEscapes` has two timers tick.
- SettingsSafety.LoadReturnsASave: assumes that parsing undoes rendering; migration and validation of settings are inside the parser and are not modelled.
- IpcRecovery.ReconnectDrainsPending: shows that a draining continuation exists; fairness of the network is not modelled.
- ElectionSafety.ElectionSettles: assumes punctual timers; throttling of background tabs is not modelled, nor the single-context fallback without BroadcastChannel.
- CaptureBroadcast.Runner.DrainOnce: has no push in between; interleaved pushes are the subject of `CaptureSafety`.
- CaptureBroadcast.AudioCaptureBroadcaster.Unsubscribe: does not join the stopped thread, whose timeout is a matter of the operating system.
- PrimaryElection, IpcProtocol and CaptureRing over-approximate message order and scheduling; no probability or fairness is stated.
- `getAvailability` reads its sums outside a transaction, so its snapshot may be stale; only the sums themselves are modelled.
- The unique index on active priority tasks is not modelled; the proof shows that the transactions never run into it.
- Redis caches for priority and badge counts: entries may outlive what they describe, and no agreement holds.
- Task updates outside the modelled requests, such as rescheduling a task to another day.
- JSON text and UTF-8 decoding of frame bodies: bodies are bytes.
- Configuration frames beyond their place in the queue, status pushes and heartbeat timing.
- Floating-point rounding, NaN, and null categories in the exploration pass.
- Levels of audio frames, microphone streams, sockets, browser launching and the real file system.
- HTTP routing, authentication, rate limiting, React components, speech parsing, service installation: plumbing without stateful invariants.
