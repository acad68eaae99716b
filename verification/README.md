# Rakazo: verified models of the run protocol, the thread log and their helpers

Rakazo lets people give work to bots. A task becomes a *run*; workers claim runs under a lease,
stream an agent's events into the thread's log, and finalize the run. This project models that
machinery in Dafny and proves what it promises.

`dafny verify dfyconfig.toml` checks everything.

How the source's forms appear here:

* Objects and closures that change state are classes whose methods are proved against functions on
  values (`RunStore`, `EffectTable`, `JobReconciler`, `StreamingRedactor`, `BotHome`, `LockTable`,
  `PiRuntimeCredentialStore`, `InMemoryJobQueue`, `PostgresRealtimeFanout`, `ChangeLatch`,
  `RoutineTable`). Loops are loops.
* What happens between two `await`s, two database calls or two processes is a step. A whole system is
  a step function over values, a behaviour is a sequence of steps in any order, and the main results
  speak of every behaviour.
* A conditional `updateMany` and a transaction are one atomic step, a `findUnique` on a key is a
  lookup in a unique index. A call may also land and still be reported to its caller as failed.

The parts:

| files | subject |
|---|---|
| `RunState`, `RunRows`, `RunProtocol`, `RunInvariants`, `RunTheorems`, `RunFencing`, `RunStale` | the run lease protocol: any number of workers and sessions, stop, send, answer, crashes, expiry |
| `EffectLedger` | tool effects and their replay |
| `Reconciler` | the periodic sweep over due runs and routines |
| `Cron`, `CronText`, `CronFields`, `RoutineClaims` | when a schedule fires, and the claim of one instant |
| `CronPresets`, `CronRoundTrips`, `Numerals` | schedules in everyday terms and as cron expressions |
| `LogFollower`, `RealtimeClient` | following the log, and the notification client behind it |
| `ThreadView`, `ThreadViewAgrees` | the projection of the log and the web client's reducer |
| `ThreadSnapshots`, `SnapshotClients` | the snapshot a client starts from, and the clients that do |
| `MessagePages`, `HistoryWindow`, `HistoryRuns` | pages of history and how a client merges them |
| `Redactor`, `RedactorSafety` | streaming and one-shot redaction of secrets |
| `HomeStore`, `PromiseLock`, `Credentials` | the crash-safe home commit, promise-chain locks, the credential store |
| `JobQueue` | the keyed in-memory job queue |
| `ToolNames`, `ToolNameTheorems` | model-facing tool names |

## What turned out not to hold

Each of these is stated with a concrete behaviour, and the property is proved under the exact or a
checkable condition.

* The fence of a claim is computed from an earlier read and not compared by the claim
  (packages/adapters/src/executor.ts:203-229). Two sessions of one worker that read before either
  claims share a fence; the first can then finalize, or put back in the queue, a run that the second
  is running (`RunStale`). Such a twin is exactly what it takes (`RunFencing.ClaimLeavesHolderIff`,
  `RunFencing.LostLeaseStaysLost`); other stale reads are harmless, and sessions with owner ids of their
  own have no twins (`RunFencing.DistinctOwnersAreTwinFree`). At-most-once finalization needs no fencing.
* `threads.answer` sets a run to `queued` whatever its status (apps/api/src/router.ts:566-569). It is
  the only step that moves a terminal run (`RunTheorems.TerminalStepIff`), and a terminal run stays as it
  is if and only if none reaches one (`RunTheorems.TerminalForeverIff`). Results over whole behaviours
  assume no more than that.
* The transition table (packages/core/src/run-state.ts:12-21) lacks edges the protocol takes: leased to
  leased, running to queued, and completed and cancelled to queued (`RunTheorems.EdgesOfProtocol`).
* A job queue that is started again after `close` dispatches a job whose `enqueue` was waiting when
  it closed (`JobQueue.RestartAfterCloseDispatches`). An enqueue waiting then is exactly what it takes
  (`JobQueue.AfterCloseDispatchesIff`).
* A routine instant can create two runs: a rename writes back the `nextRunAt` it read before a claim
  (`RoutineClaims.RenameFiresAgain`), and a new schedule set within the second by which a claim may be
  early can name the claimed instant again (`RoutineClaims.NewScheduleFiresAgain`).
  `RoutineClaims.StepKeepsDueLaterIff` says exactly which writes do this; for an update that keeps the
  schedule, `RoutineClaims.KeptScheduleIff` reduces it to a comparison the handler could make. What such
  a write leaves behind is exactly a table from which an instant can fire out of order
  (`RoutineClaims.DueLaterIff`).
* A refresh that replaces the shown history while a page load is under way leaves a hole that no later
  page load fills (`HistoryRuns.ReplacedDuringLoadLeavesHole`). `HistoryRuns.StepKeepsWindowIff` says
  exactly which arrivals keep the window.
* A valid tool name that occurs twice can take a later tool's valid name
  (`ToolNameTheorems.RepeatedNameTakesLaterOne`), although the comment at
  packages/adapters/src/pi-runtime.ts:295-299 speaks of valid names as reserved first. They are all kept
  if and only if none of them occurs twice (`ToolNameTheorems.AllValidAreKeptIff`).
* A secret that is part of "[redacted]" appears in redacted text (`RedactorSafety.PartOfTheTokenLeaks`);
  without brackets, nothing else does, streaming or one secret after the other
  (`RedactorSafety.AlwaysHidesIff`, `RedactorSafety.AlwaysHidesInPassesIff`). So can a secret
  that starts as it ends or goes on as it starts (`RedactorSafety.TokenThenTextLeaks`,
  `RedactorSafety.TextThenTokenLeaks`); `RedactorSafety.OneSecretHidesIff` is exact.
* The reducer keeps a progress bubble open when its run ends without a final message, and shows a
  subagent again whose event comes after its stored block; the projection does neither
  (`ThreadViewAgrees.OpenBubbleOutlivesItsRun`, `ThreadViewAgrees.LateSubagentIsShownAgain`). These two,
  a message id that comes twice and a second stored block of one subagent are all that parts them
  (`ThreadViewAgrees.AgreeFromTheStartIff`).
* The snapshot that the API gives a client shows a bubble again that a message has closed
  (`SnapshotClients.ClosedBubbleComesBack`), knows only the newest active run's subagents, and only the
  last page. `SnapshotClients.SnapshotShowsIff` says exactly when it shows what the projection shows.
* The search for the next date looks at minutes and hours alone (packages/core/src/cron.ts:140-146): a
  weekly or monthly schedule fires every day at its time, one for every so many days at every midnight
  (`CronFields.PresetMatchesIff`).
* Six-field cron expressions are read as five-field ones, and leading zeros and odd spacing are lost
  (`CronRoundTrips.CronRoundTripIff` is exact).

## Model

| member | source | states |
|---|---|---|
| RunRows.RunStore.ClaimRun | packages/adapters/src/executor.ts:211-230 | the claim changes the row exactly when it is queued, waiting, or leased or running with an expired lease, and then to a five-minute lease of this worker and fence |
| RunRows.RunStore.StartRun | packages/adapters/src/executor.ts:232-245 | leased becomes running only for the owner and fence that hold it |
| RunRows.RunStore.AddAttempt | packages/adapters/src/executor.ts:246-248 | a running attempt row with the fence is added, nothing else changes |
| RunRows.RunStore.RenewLease | packages/adapters/src/executor.ts:1033-1044 | only the holder of a running run moves its expiry |
| RunRows.RunStore.PauseRun | packages/adapters/src/executor.ts:738-807 | only the holder of a running run makes it wait, giving up the lease |
| RunRows.RunStore.ReleaseRun | packages/adapters/src/executor.ts:981-1001 | only the holder of a running run puts it back in the queue, giving up the lease |
| RunRows.RunStore.UpdateAttempt | packages/adapters/src/executor.ts:753-756 | exactly one attempt row changes its status |
| RunRows.RunStore.Append | packages/db/src/events.ts:153-170 | an event takes the thread's next sequence number, which moves on by one |
| RunRows.RunStore.CreateMessage | packages/db/src/messages.ts:18-36 | a message takes the thread's next message number, which moves on by one |
| RunRows.RunStore.Publish | packages/adapters/src/executor.ts:1050-1071 | a message row, and an event that names it by its number, each with its own next number |
| RunRows.RunStore.ClearProgress | packages/adapters/src/executor.ts:1046-1048 | exactly the progress events go |
| RunRows.RunStore.FinalizeRun | packages/db/src/events.ts:65-151 | the transaction commits as a whole, or leaves every row as it was, by whether lease and attempt are still there |
| RunRows.RunStore.StopRun | apps/api/src/router.ts:502-508 | every active run is cancelled; a run that is over is left alone |
| RunRows.RunStore.StopThread | apps/api/src/router.ts:493-516 | with nothing in between, an active run is cancelled and its progress events go; otherwise nothing changes |
| RunRows.RunStore.CancelQueuedRun | apps/api/src/router.ts:482-489 | only a queued run is cancelled by a newer send |
| RunRows.RunStore.AnswerRun | apps/api/src/router.ts:566-569 | the status becomes queued whatever it was |
| RunInvariants.FinalizeWritesAll | packages/db/src/events.ts:65-151 | a committed finalization leaves one finished attempt, the task, one end event and, when completed, one final message with its event just before the end event |
| RunInvariants.StepKeepsRowsOk | packages/adapters/src/executor.ts:211-245 | every step keeps, unless an answer reaches a run that is over: leased or running has an owner and an expiry, terminal and only terminal has a completion time, numbers in the log lie below the counters |
| RunInvariants.StepKeepsAttemptsOk | packages/adapters/src/executor.ts:246-248 | every step keeps the attempt rows in line with where their sessions stand, each session with its own attempt and fence |
| RunInvariants.StepKeepsAgreement | packages/db/src/events.ts:65-151 | every step keeps, unless an answer reaches a run that is over: run, attempts, task, messages and end events tell the same story |
| RunTheorems.AlwaysInv | packages/adapters/src/executor.ts:203-1013 | all three hold in every reachable state, as long as no answer reaches a run that is over |
| RunTheorems.TerminalStepIff | packages/core/src/run-state.ts:10-39 | from a terminal status a step leaves the run row alone if and only if it is not an answer |
| RunTheorems.TerminalForever | packages/core/src/run-state.ts:10-39 | as long as no answer reaches one, a terminal run row never changes again |
| RunTheorems.TerminalForeverIff | apps/api/src/router.ts:566-569 | over any behaviour, terminal run rows never change again if and only if no answer reaches one |
| RunTheorems.FinalizesAtMostOnce | packages/db/src/events.ts:72-91 | two finalizations never both commit, even with stale fences |
| RunTheorems.EverythingAgrees | packages/db/src/events.ts:65-151 | completed (failed) status, attempt, task, end event and final message each hold exactly when the others do, and each is there at most once |
| RunTheorems.EdgesOfProtocol | packages/core/src/run-state.ts:12-25 | every status change is in the table, except running to queued, and completed or cancelled to queued by an answer |
| RunTheorems.LeaseEndsSoon | packages/adapters/src/executor.ts:1033-1044 | no lease ends later than five minutes from now, in any behaviour |
| RunTheorems.NoRunIsStranded | packages/adapters/src/job-reconciler.ts:127-145 | one lease from now, the reconciler's filter takes exactly the runs that are neither over nor waiting, and the claim guard exactly those that are not over |
| RunTheorems.AnyWorkerRecovers | packages/adapters/src/executor.ts:203-245 | from any reachable state of a live run, one lease later a session left alone gets it running under its name and the next fence |
| RunFencing.AlwaysTracked | packages/adapters/src/executor.ts:203-230 | in any behaviour a session claims at most once, and whoever holds a lease has a claim that landed with its fence |
| RunFencing.AlwaysFenced | packages/adapters/src/executor.ts:209-230 | with current reads: fences of landed claims strictly rise, the row carries the latest, and the owner of a live row is the latest claimant |
| RunFencing.ClaimOutranksIff | packages/adapters/src/executor.ts:203-230 | a landing claim outranks all earlier ones if and only if its read is still current |
| RunFencing.ClaimLeavesHolderIff | packages/adapters/src/executor.ts:203-230 | in any reachable state: after a landing claim, and with every later claim landing beside no twin, an earlier holder can still change the run through its lease if and only if the claim landed beside a twin, an earlier holder of the same worker with the same fence |
| RunFencing.FencesDiffer | packages/adapters/src/executor.ts:209-230 | two sessions that ever held the lease have different fences |
| RunFencing.HolderIsLatest | packages/adapters/src/executor.ts:209-230 | a session's fence is the row's if and only if its claim was the last to land |
| RunFencing.OnlyLatestWrites | packages/adapters/src/executor.ts:232-245 | where only the last claimant fits the live row, a conditional write of any other session changes no row |
| RunFencing.LostLeaseStaysLost | packages/adapters/src/executor.ts:1033-1044 | after another session's claim landed beside no twin, and with no later one landing beside one, the earlier holder never again starts, renews, pauses, finalizes or releases, whatever was read when and whatever is answered |
| RunFencing.CurrentReadsAreTwinFree | packages/adapters/src/executor.ts:203-230 | claims whose reads are current land beside no twin |
| RunFencing.DistinctOwnersAreTwinFree | packages/adapters/src/executor.ts:211-230 | sessions under owner ids of their own have no twins, whatever they read |
| RunFencing.AlwaysHoldersRun | packages/db/src/events.ts:93-106 | while no claim lands beside a twin, a session inside its try block that fits the live row has a running attempt |
| RunFencing.AttemptIsAvailable | packages/db/src/events.ts:93-106 | while no claim lands beside a twin, the "attempt was not available" error is unreachable |
| RunStale.StaleClaim | packages/adapters/src/executor.ts:203-230 | a claim with a stale fence lands and takes over |
| RunStale.StaleReadLetsOldHolderFinalize | packages/adapters/src/executor.ts:203-230 | then the old holder finalizes the run that the new one is running |
| RunStale.StaleReadReachesTheThrow | packages/db/src/events.ts:106 | then the "attempt was not available" error is reachable, and its handler requeues a running run |
| EffectLedger.EffectTable.FindUnique | packages/adapters/src/executor.ts:1080-1082 | the lookup step of the machine: a completed row is replayed in its stored form, an intended one fails the call, no row lets it go on |
| EffectLedger.EffectTable.CreateIntended | packages/adapters/src/executor.ts:1094-1104 | the create step of the machine: the row is intended and owned by this caller, or another caller was faster and nothing is written |
| EffectLedger.EffectTable.CompleteEffect | packages/adapters/src/executor.ts:1107-1119 | the completing step of the machine: the row of this caller holds the stored form of what its body returned |
| EffectLedger.EffectTable.ApplyTool | packages/adapters/src/executor.ts:366-383 | one call on any table: it gives what its own body returned, or the stored form of a completed row, or fails on an intended one; the body starts exactly in the first case |
| EffectLedger.EffectTable.ApplyTwice | packages/adapters/src/executor.ts:1073-1119 | a call repeated under the same execution id starts no body, and gives the stored form of what the first one returned |
| EffectLedger.BodyStartsAtMostOnce | packages/adapters/src/executor.ts:366-383 | over all callers and crashes, two started bodies never share an execution id |
| EffectLedger.CompletedForever | packages/adapters/src/executor.ts:1107-1119 | no row disappears and a completed row never changes |
| EffectLedger.RepeatedCallReplaysOrFails | packages/adapters/src/executor.ts:366-383 | once a body has started, a later lookup replays exactly what that body produced, or fails while nothing is stored |
| Reconciler.JobReconciler.ReconcileOnce | packages/adapters/src/job-reconciler.ts:104-185 | one pass: followers do nothing; all jobs are sent at once, and when any are lost the others land and both cursors stay; a full pass enqueues its pages and moves them |
| Reconciler.OrderedSorts | packages/adapters/src/job-reconciler.ts:142 | the listing holds the same keys in strictly rising (time, id) order |
| Reconciler.PageStartsAfterPrefix | packages/adapters/src/job-reconciler.ts:110-117 | the cursor filter leaves exactly the rest of the listing, ties included |
| Reconciler.SweepFrom | packages/adapters/src/job-reconciler.ts:104-185 | from any page boundary the remaining passes read the rest once and end without a cursor |
| Reconciler.PassesIs | packages/adapters/src/job-reconciler.ts:171-180 | a sweep of n rows takes n / batch + 1 passes |
| Reconciler.SweepEnqueuesEachRunOnce | packages/adapters/src/job-reconciler.ts:104-185 | on a frozen table that many passes read each due run exactly once, in order, and no other |
| Reconciler.RunSweep | packages/adapters/src/job-reconciler.ts:104-185 | that many passes of the reconciler enqueue one job for each due run, in order, and end without a cursor, whatever routines are due |
| Cron.NextCronDate | packages/core/src/cron.ts:135-153 | the result is the least whole minute strictly after the start that matches; the fallback is taken exactly when there are fewer than five fields or no minute of the day matches |
| Cron.NextCronDateIsUnique | packages/core/src/cron.ts:135-153 | that promise admits one result |
| Cron.NextCronDateAscends | packages/core/src/cron.ts:135-153 | a later start never gives an earlier result |
| Cron.NoneInTwoDays | packages/core/src/cron.ts:143-151 | 1442 steps without a match mean that no minute of any day matches |
| CronFields.NumberMatchesIff | packages/core/src/cron.ts:194 | a plain number matches its value and no other |
| CronFields.StepMatchesIff | packages/core/src/cron.ts:183-186 | a step matches its multiples and zero, a step of zero matches nothing |
| CronFields.RangeMatchesIff | packages/core/src/cron.ts:187-190 | a range matches from its first to its last value, both included |
| CronFields.ListMatchesIff | packages/core/src/cron.ts:191-193 | a list matches its members |
| CronFields.PresetMatchesIff | packages/core/src/cron.ts:36-50 | a minute matches a preset's expression if and only if the clock shows the preset's time, or a multiple of its step |
| CronFields.PresetFiresNext | packages/core/src/cron.ts:135-153 | the next date of a preset is the first whole minute after the start at which its clock shows that; the search never gives up on a preset |
| RoutineClaims.RoutineTable.ClaimRoutine | packages/adapters/src/executor.ts:162-188 | the compare-and-set moves the row and creates one run, or changes nothing |
| RoutineClaims.RoutineTable.WakeRoutine | packages/adapters/src/executor.ts:146-201 | a wake-up for another instant or one over a second away claims nothing; otherwise the claim of the specification |
| RoutineClaims.StepKeepsDueLaterIff | packages/adapters/src/executor.ts:157-167 | what is due next stays after all that was claimed, unless an update writes an instant that is not, and exactly then |
| RoutineClaims.ClaimsAscend | packages/adapters/src/executor.ts:146-201 | while updates are timely, claimed instants strictly rise, so each creates at most one run |
| RoutineClaims.ClaimsAscendBetweenEdits | packages/adapters/src/executor.ts:146-201 | from any state, as long as no update is written, for any interleaving of workers: the instants claimed from then on strictly rise and lie before what is due next |
| RoutineClaims.DueLaterIff | packages/adapters/src/executor.ts:157-167 | for an active routine whose claims so far rise, what is due next lies after all of them if and only if no instant can be claimed out of order without a further update |
| RoutineClaims.NothingFiresEarly | packages/adapters/src/executor.ts:94-102 | no instant is claimed more than a second early |
| RoutineClaims.KeptScheduleIff | apps/api/src/router.ts:894-917 | an update that keeps the schedule is harmless if and only if the instant it read is still the one due when it writes |
| RoutineClaims.ImmediateEditIsTimely | apps/api/src/router.ts:894-917 | an update that takes no time is timely if it keeps the schedule or all claimed instants are past |
| RoutineClaims.RenameFiresAgain | apps/api/src/router.ts:901-917 | a rename overlapping a claim makes the same instant fire twice |
| RoutineClaims.NewScheduleFiresAgain | packages/adapters/src/executor.ts:99 | so does a new schedule within the early second |
| CronPresets.WordsOfJoin | packages/core/src/cron.ts:54-55 | splitting joined words gives the words back |
| CronRoundTrips.ParseOfFormat | packages/core/src/cron.ts:155-168 | reading a formatted clock gives the hour of the day, and the first two digits of the minutes |
| CronRoundTrips.PresetRoundTripIff | packages/core/src/cron.ts:36-102 | a preset survives the way through cron if and only if it is canonical |
| CronRoundTrips.CronRoundTripIff | packages/core/src/cron.ts:36-102 | an expression survives the way through a preset if and only if it is trimmed, not empty and, when it names an everyday schedule, plainly written |
| LogFollower.PageIs | packages/db/src/events.ts:180-191 | a page is the first events after the cursor, rising, none skipped up to its horizon |
| LogFollower.YieldsEachOnceInOrder | packages/db/src/events.ts:193-226 | events come out once each in rising order, and every surviving event up to the cursor has come out |
| LogFollower.AsleepMissesNothing | packages/db/src/events.ts:256-283 | while the follower sleeps, every event whose notification was delivered has been yielded |
| LogFollower.YieldedGrows | packages/db/src/events.ts:201-219 | what was yielded stays yielded and the cursor never goes back |
| LogFollower.ChangeLatch.Notify | packages/db/src/events.ts:260-263 | to the latch of every follower it does what the step of a signal does |
| LogFollower.ChangeLatch.WaitForChange | packages/db/src/events.ts:265-282 | to the latch of every follower that read this generation it does what the step of waiting does |
| LogFollower.ChangeLatch.Finish | packages/db/src/events.ts:269-278 | to the latch of every follower it does what a timeout or an abort does |
| LogFollower.SignalAroundWait | packages/db/src/events.ts:256-283 | a signal before or behind the wait leaves the follower awake, and it sleeps only without one |
| LogFollower.ScanToEnd | packages/db/src/events.ts:211-219 | one undisturbed turn yields exactly the events after the cursor, whatever the batches |
| RealtimeClient.PostgresRealtimeFanout.AddSubscriber | packages/adapters/src/realtime.ts:73-80 | subscribing adds the subscriber and starts a connect when there is none, and is refused once closed |
| RealtimeClient.PostgresRealtimeFanout.RemoveSubscriber | packages/adapters/src/realtime.ts:81-87 | the subscriber goes, and an empty topic with it |
| RealtimeClient.PostgresRealtimeFanout.Connect | packages/adapters/src/realtime.ts:104-121 | a connect starts only when open, subscribed, without a client and with none under way; a client factory that throws leaves an attempt that only has to settle |
| RealtimeClient.PostgresRealtimeFanout.OnListening | packages/adapters/src/realtime.ts:122-132 | the candidate is installed and everybody told to catch up, or disposed of when it is not wanted any more |
| RealtimeClient.PostgresRealtimeFanout.NotifySubscribersToCatchUp | packages/adapters/src/realtime.ts:153-167 | every subscriber of every topic is told once |
| RealtimeClient.PostgresRealtimeFanout.HandleDisconnect | packages/adapters/src/realtime.ts:169-175 | only the loss of the current client or candidate counts, and schedules a reconnect |
| RealtimeClient.PostgresRealtimeFanout.ScheduleReconnectTimer | packages/adapters/src/realtime.ts:177-190 | one timer at most, and none when closed or unsubscribed |
| RealtimeClient.PostgresRealtimeFanout.CloseFanout | packages/adapters/src/realtime.ts:90-98 | closing drops subscribers, timer and candidate |
| RealtimeClient.PostgresRealtimeFanout.FinishClose | packages/adapters/src/realtime.ts:99-101 | and then the client |
| RealtimeClient.NeverStuck | packages/adapters/src/realtime.ts:104-190 | open, subscribed and without a client means that an attempt can move on or a reconnect timer can fire |
| RealtimeClient.ReconnectsInFive | packages/adapters/src/realtime.ts:104-190 | from every open and subscribed state at most five steps of its own lead to an installed client, when the factory works and the candidate gets to listen |
| RealtimeClient.AtMostOneLiveClient | packages/adapters/src/realtime.ts:115-138 | never two live connections, installed or under way |
| RealtimeClient.ClosedLeavesNothing | packages/adapters/src/realtime.ts:90-102 | after close every connection ever created is disposed of |
| RealtimeClient.InstalledMeansCaughtUp | packages/adapters/src/realtime.ts:129-132 | with a client installed, no subscriber is left that missed signals and was not told |
| ThreadView.ProjectMessages | packages/core/src/events.ts:3-86 | the loop computes the projection of the whole log |
| ThreadViewAgrees.StreamingIffBubbleOpen | packages/core/src/events.ts:43-81 | the projection has a bubble exactly when progress came after the last message or end of a run |
| ThreadViewAgrees.FoldsRelated | apps/web/src/lib/thread-events.ts:39-102 | from any list that shows what the projection of a prefix shows, reducer and projection stay related over the rest of a well-formed log |
| ThreadViewAgrees.ReadersAgree | apps/web/src/lib/thread-events.ts:39-102 | so both end with the same messages by id, and the stored ones in the same order |
| ThreadViewAgrees.AgreeThroughoutIff | apps/web/src/lib/thread-events.ts:39-102 | a client that starts after a well-formed prefix agrees with the projection at once and after every event if and only if it starts with what the projection shows and the whole log is well formed |
| ThreadViewAgrees.AgreeFromTheStartIff | packages/core/src/events.ts:3-86 | over any log whatever, a client that starts empty agrees with the projection after every event if and only if the log is well formed |
| ThreadViewAgrees.OpenBubbleOutlivesItsRun | apps/web/src/lib/thread-events.ts:39-102 | a run ending under an open bubble is where they differ |
| ThreadViewAgrees.LateSubagentIsShownAgain | apps/web/src/lib/thread-events.ts:128-131 | so is a subagent event after its stored block |
| ThreadSnapshots.SameLiveIff | apps/api/src/router.ts:1312-1331 | the live subagents behind the page are those of the projection if and only if each was last heard of from the active run |
| ThreadSnapshots.SameBubbleIff | apps/api/src/router.ts:1312-1325 | the snapshot's bubble is the projection's if and only if the open bubble is the active run's and nothing the run streamed before it was closed is carried into it; with none open, if and only if the run has streamed nothing |
| SnapshotClients.SnapshotShowsIff | apps/api/src/router.ts:1295-1332 | the snapshot shows what the projection shows if and only if the page holds all stored messages and live subagents and bubble fit |
| SnapshotClients.SnapshotClientAgreesIff | apps/web/src/lib/thread-events.ts:39-102 | a client that took a snapshot after a well-formed prefix agrees with the projection from then on if and only if the snapshot fits and the whole log is well formed |
| SnapshotClients.ClosedBubbleComesBack | apps/api/src/router.ts:1312-1325 | a message published in mid-run closes the bubble for the projection, and the snapshot shows it again |
| MessagePages.PageIs | apps/api/src/thread-message-pages.ts:4-25 | a page is the last messages before the cursor, ascending, and its cursor is its first number exactly when something older exists |
| MessagePages.PageIsStable | apps/api/src/thread-message-pages.ts:4-25 | appending to the log never changes the page behind a cursor |
| MessagePages.LoadAllMessages | apps/api/src/thread-message-pages.ts:27-40 | for every page size of at least one the loop ends with the whole log as the first query found it, also when it grows meanwhile |
| MessagePages.MergeMessagesById | packages/core/src/message-pages.ts:56-66 | the filter with its set of seen ids keeps the first of each |
| MessagePages.MergeKeepsOneOfEach | packages/core/src/message-pages.ts:56-66 | ids come out distinct and none is lost |
| HistoryWindow.WindowIdsAreDistinct | packages/core/src/message-pages.ts:6-10 | a window shows no id twice |
| HistoryWindow.WindowHasNoGap | packages/core/src/message-pages.ts:6-10 | neighbours ascend and no message of the log lies between them |
| HistoryWindow.WindowCursorIsRight | packages/core/src/message-pages.ts:6-10 | the cursor is missing exactly when nothing older exists, and otherwise the first number shown |
| HistoryWindow.LowestIsFirst | packages/core/src/message-pages.ts:40-43 | the lowest number of a snapshot is that of its first stored message, live ones aside |
| HistoryWindow.RefreshKeepsWindowIff | packages/core/src/message-pages.ts:12-54 | a merged refresh gives a window if and only if the fresh page starts inside the loaded history or right behind it |
| HistoryWindow.PrependKeepsWindowIff | packages/core/src/message-pages.ts:24-34 | an older page gives a window if and only if it reaches the loaded history and does not start inside it |
| HistoryWindow.ThreadsNeverMix | packages/core/src/message-pages.ts:12-54 | messages of a page and of the loaded history are only ever put together when both are of one thread |
| HistoryWindow.OtherThreadKeepsWindow | packages/core/src/message-pages.ts:16-28 | a refresh of another thread replaces the history, an older page of another thread leaves it alone |
| HistoryRuns.StepKeepsWindowIff | apps/web/src/pages/Shell.tsx:102-150 | a step of a client keeps its window if and only if what arrives fits |
| HistoryRuns.AlwaysWindow | apps/web/src/pages/Shell.tsx:102-150 | over any run of fitting steps the history is a window |
| HistoryRuns.LoadReachesBack | apps/web/src/pages/Shell.tsx:128-150 | a load asked with the current cursor brings exactly the page before the window |
| HistoryRuns.CarefulRunsKeepTheWindow | apps/web/src/pages/Shell.tsx:102-150 | everything fits when merged refreshes are at most a page ahead and never behind, and replacing ones avoid page loads |
| HistoryRuns.ReplacedDuringLoadLeavesHole | apps/web/src/pages/Shell.tsx:112-140 | a replacing refresh during a page load leaves a hole behind a missing cursor |
| Redactor.CandidatesAre | packages/core/src/events.ts:129 | the values searched for are exactly the nonempty secrets, longest first |
| Redactor.FirstMatchIsLongest | packages/core/src/events.ts:143 | where several secrets match, a longest is replaced |
| Redactor.DrainSplitsScan | packages/core/src/events.ts:133-154 | what a drain wrote, followed by a scan of what it kept and anything later, is the scan of it all |
| Redactor.DrainText | packages/core/src/events.ts:139-153 | the offset loop computes the drain |
| Redactor.StreamingRedactor.Drain | packages/core/src/events.ts:133-154 | both kinds of drain, and the one without secrets, which lets the text through |
| Redactor.StreamingRedactor.Push | packages/core/src/events.ts:157-160 | output so far is a prefix of the scan of all input, and the buffer stays shorter than the longest secret |
| Redactor.StreamingRedactor.Finish | packages/core/src/events.ts:161-163 | then the output is that scan, and the buffer is empty |
| Redactor.RedactStream | packages/core/src/events.ts:128-165 | any chunking gives one leftmost, longest-first scan of the joined text |
| RedactorSafety.SplitJoinIsScan | packages/core/src/events.ts:116-121 | splitting at a secret and joining is a scan for it |
| RedactorSafety.FrontIsReflected | packages/core/src/events.ts:139-153 | a hideable text at the front of a scan's output was at the front of its input |
| RedactorSafety.ScanNeverContains | packages/core/src/events.ts:128-165 | a scan for hideable secrets contains none of them |
| RedactorSafety.AlwaysHidesIff | packages/core/src/events.ts:128-165 | streaming, a list of secrets without brackets is hidden in every text if and only if no nonempty secret of it is part of the word "redacted" |
| RedactorSafety.RedactStreamHides | packages/core/src/events.ts:128-165 | so streaming output hides all of them |
| RedactorSafety.RedactSecretsHides | packages/core/src/events.ts:116-121 | after each replacement pass, every secret so far is hidden and none comes back |
| RedactorSafety.PartSurvives | packages/core/src/events.ts:116-121 | a part of the replacement text that occurs in a text survives every pass |
| RedactorSafety.AlwaysHidesInPassesIff | packages/core/src/events.ts:116-121 | one after the other, a list of secrets without brackets is hidden in every text if and only if no nonempty secret of it is part of the word "redacted" |
| RedactorSafety.OneSecretAgrees | packages/core/src/events.ts:116-165 | with one secret both redactors give the same text |
| RedactorSafety.PartOfTheTokenLeaks | packages/core/src/events.ts:145 | in any list, a secret inside the replacement text "[redacted]" is written by its own replacement |
| RedactorSafety.TokenThenTextLeaks | packages/core/src/events.ts:145 | a secret that is an end of the replacement and any text behind it comes out of a replacement followed by that text |
| RedactorSafety.TextThenTokenLeaks | packages/core/src/events.ts:145 | a secret that from some place on agrees with the start of the replacement comes out of its own front followed by it, when that front can stand there without being taken for the secret |
| RedactorSafety.OneSecretHidesIff | packages/core/src/events.ts:116-165 | one secret, whatever its characters, is hidden in every text if and only if it is not part of the replacement, does not start as that ends, and does not go on as that starts behind such a front |
| HomeStore.BotHome.RecoverInterruptedCommit | packages/adapters/src/home.ts:178-182 | recovery brings back the old tree exactly when the home is missing, and never changes what the home stands for |
| HomeStore.BotHome.RemovePrevious | packages/adapters/src/home.ts:64-74 | removal stopped after any file leaves the home as it was |
| HomeStore.BotHome.CopyToStaging | packages/adapters/src/home.ts:284-300 | a finished copy equals its source, a stopped one touches only staging |
| HomeStore.BotHome.SwapIn | packages/adapters/src/home.ts:65-73 | two renames: the new tree is in place, or the home stands for the old one |
| HomeStore.BotHome.Replace | packages/adapters/src/home.ts:62-75 | the try block stopped after any prefix leaves the whole old tree or the whole new one |
| HomeStore.BotHome.Commit | packages/adapters/src/home.ts:53-80 | so does a commit with recovery and cleanup, and a successful one installs the new tree |
| HomeStore.BotHome.CommitAll | packages/adapters/src/home.ts:53-80 | over any commits and crashes the home is one whole tree, no older than the last that succeeded |
| PromiseLock.LockTable.Enter | packages/adapters/src/home.ts:184-192 | a caller queues behind the tail and becomes it |
| PromiseLock.LockTable.Leave | packages/adapters/src/home.ts:193-198 | leaving resolves the caller's promise and drops the entry only if it is still the tail |
| PromiseLock.OneHolderInOrder | packages/adapters/src/executor.ts:1288-1305 | whoever has entered, everybody who came before for that key is out: no two holders, first come first served |
| PromiseLock.WatcherOutwaits | packages/adapters/src/home.ts:201-203 | a reader that got through outwaited every writer there before it |
| PromiseLock.NeverStuck | packages/adapters/src/home.ts:184-199 | while somebody has not left, somebody holds the lock or can take it now |
| PromiseLock.FreeMeansSettled | packages/adapters/src/home.ts:190-192 | with everybody before out, the promise waited for has resolved, dropped entries included |
| Credentials.PiRuntimeCredentialStore.Remove | packages/adapters/src/pi-credentials.ts:65-74 | a delete has its whole specified effect: the credential goes and nothing is published, or an aborted call changes nothing |
| Credentials.PiRuntimeCredentialStore.Apply | packages/adapters/src/pi-credentials.ts:48-60 | an update is stored and published once, or a failure leaves the credential |
| Credentials.PiRuntimeCredentialStore.RunInOrder | packages/adapters/src/pi-credentials.ts:41-74 | calls that do not overlap leave the credential at their fold, and each gets the value of its turn |
| Credentials.AlwaysProgress | packages/adapters/src/pi-credentials.ts:41-74 | in every interleaving the settled calls are a prefix, at most one is under way, on the credential they left |
| Credentials.EndsAsInOrderFold | packages/adapters/src/pi-credentials.ts:41-74 | the credential is the in-order fold of the settled calls and each promise got the value of that fold |
| JobQueue.InMemoryJobQueue.CancelTimer | packages/adapters/src/wakeup.ts:94-100 | a cancel disarms the key's timer and forgets it |
| JobQueue.InMemoryJobQueue.Arm | packages/adapters/src/wakeup.ts:119-143 | scheduling arms a timer of at most the maximum delay and makes it the key's |
| JobQueue.InMemoryJobQueue.BeginEnqueue | packages/adapters/src/wakeup.ts:88-92 | a closed queue refuses; a keyed job cancels and then waits, another is armed at once |
| JobQueue.InMemoryJobQueue.OnTimer | packages/adapters/src/wakeup.ts:121-138 | a fired timer does nothing for a lost key, re-arms when early, and otherwise dispatches if there are handlers |
| JobQueue.InMemoryJobQueue.StopQueue | packages/adapters/src/wakeup.ts:106-111 | no handlers, no timers, no keys |
| JobQueue.InMemoryJobQueue.CloseQueue | packages/adapters/src/wakeup.ts:113-117 | the first close also stops, later ones do nothing |
| JobQueue.DispatchedOnceAndOnTime | packages/adapters/src/wakeup.ts:119-143 | every job is dispatched at most once and never early |
| JobQueue.DroppedNeverDispatched | packages/adapters/src/wakeup.ts:94-124 | a replaced, cancelled or cleared job is never dispatched, in any interleaving of enqueues |
| JobQueue.CancelAndReplaceDrop | packages/adapters/src/wakeup.ts:88-100 | a cancel drops its key's job, and so does arming another under the key |
| JobQueue.StopDropsEverything | packages/adapters/src/wakeup.ts:106-117 | a stop leaves nothing armed and drops what was |
| JobQueue.NothingAfterClose | packages/adapters/src/wakeup.ts:113-134 | nothing is dispatched after close unless the queue is started again |
| JobQueue.RestartAfterCloseDispatches | packages/adapters/src/wakeup.ts:88-117 | started again, it can dispatch a job caught in its wait |
| JobQueue.AfterCloseDispatchesIff | packages/adapters/src/wakeup.ts:88-134 | once closed, some continuation dispatches a job if and only if an enqueue was in its wait when the queue closed |
| JobQueue.RearmsShrink | packages/adapters/src/wakeup.ts:126-139 | an early timer leaves at least the maximum delay less to wait when it re-arms |
| ToolNames.NormalizedIsSafe | packages/adapters/src/pi-runtime.ts:285-293 | every normalized name can be sent, valid names stay as they are, and normalizing twice changes nothing |
| ToolNames.NormalizedReadsAlike | packages/adapters/src/pi-runtime.ts:287-292 | before the cut, allowed characters other than underscores stay in order, none is added, and no underscore stands at either end |
| ToolNames.RunsBecomeOne | packages/adapters/src/pi-runtime.ts:290 | a run of other characters leaves one underscore |
| ToolNames.StableToolNameHash | packages/adapters/src/pi-runtime.ts:336-343 | the loop computes the 32-bit hash text |
| ToolNames.HashIsShort | packages/adapters/src/pi-runtime.ts:336-343 | it has one to seven allowed characters |
| ToolNames.NumberedDiffer | packages/adapters/src/pi-runtime.ts:315-319 | different suffix numbers give different names, also when the base is cut |
| ToolNames.FirstFree | packages/adapters/src/pi-runtime.ts:315-319 | the suffix search ends with a name that is not taken |
| ToolNames.ChooseName | packages/adapters/src/pi-runtime.ts:306-323 | the search loop, ended by counting taken names ahead, finds the chosen name |
| ToolNames.NormalizeAgentToolNames | packages/adapters/src/pi-runtime.ts:300-324 | the list with its growing set of used names is the specified one |
| ToolNameTheorems.NamesAreDistinct | packages/adapters/src/pi-runtime.ts:300-324 | no two tools get the same name |
| ToolNameTheorems.NamesAreSafe | packages/adapters/src/pi-runtime.ts:300-334 | every name has 1 to 64 allowed characters |
| ToolNameTheorems.InvalidNeverTakesValid | packages/adapters/src/pi-runtime.ts:301-312 | a tool with an invalid name never takes a valid name of the list |
| ToolNameTheorems.ValidIsKeptIff | packages/adapters/src/pi-runtime.ts:306-323 | a valid name is kept if and only if no earlier tool was given it |
| ToolNameTheorems.DistinctValidAreKept | packages/adapters/src/pi-runtime.ts:300-324 | a valid name is kept when no valid name occurs twice up to it |
| ToolNameTheorems.AllValidAreKeptIff | packages/adapters/src/pi-runtime.ts:295-324 | the valid names of a list are all kept if and only if no valid name occurs in it twice |
| ToolNameTheorems.RepeatedNameTakesLaterOne | packages/adapters/src/pi-runtime.ts:311-313 | a repeated valid name can take a later valid one |

## Left out

- SnapshotClients.SnapshotShowsIff: the queries of a snapshot are read at one moment, at which every stored message has its event, in the same order; progress rows deleted by then are not in the log. Stored messages are compared without number and time of storage, which a row and its event do not share. No progress event without a run has the run's id for its own id. Nothing is claimed about snapshots of a log that is not well formed.
- RedactorSafety.AlwaysHidesIff: for lists without brackets, and RedactorSafety.OneSecretHidesIff for one secret with any characters; in a list with brackets the secrets also change each other's fronts and rests, and no condition is given for that.
- RunFencing.LostLeaseStaysLost: for claims that land beside no twin; ClaimLeavesHolderIff and RunStale show what a twin can do.
- RunTheorems.TerminalForever: for behaviours in which no answer reaches a run that is over; TerminalForeverIff shows that this is exact.
- ToolNameTheorems.NamesAreSafe: for fewer than 2^32 tools, the most a JavaScript array holds.
- CronRoundTrips.PresetRoundTripIff: steps are whole numbers of any size; fractions and numbers beyond 2^53 are not part of this model, nor are presets with fields left out.
- Cron.NextCronDate: seconds are cut in UTC, as in every time zone whose offset is a whole number of minutes; numbers with a fraction in a field are not part of this model. Day, month, weekday and time zone play no part in the source, and nothing else is claimed about them.
- Run columns that no guard reads: `startedAt`, the attempt's `error` and `finishedAt`, the bot's `updatedAt`.
- `computer.release` only enqueues a job for a waiting run, which the protocol allows at any time (apps/api/src/router.ts:655-668).
- When the heartbeat renews: a session may renew at any time, or never.
- Ordinary event appends are not fenced in the source; only the conditional writes are claimed to be.
- Ids ordered by the database are numbers here; message ids are typed instead of carrying the prefixes "progress:" and "subagent:", so a stored message whose own id starts with one is not part of this model.
- HomeStore.BotHome.CopyToStaging: `copyDir` skips entries it cannot read and links that leave the home; copying here copies everything.
- Read-only tools, which bypass the effect ledger (packages/adapters/src/executor.ts:371-373).
- Whether a refreshed credential is a new one is decided by its value here and by object identity in the source, so publishing an equal copy again is not part of this model.
- Readers that call `recoverInterruptedCommit` without the lock while a commit runs.
- The delay and jitter of a reconnect, the size limit of a notification, and the delivery of one notification to the subscribers of its topic.
- Live messages reduced into a client's history between two refreshes: the windows are about snapshots and pages.
- Switching threads in a client, which starts from a fresh snapshot.
- Unicode normalization of tool names is an abstract function on text.
- The mobile client's own reducer, which drops progress at subagent events.
- Sandboxes, computers, connectors, HTTP, OAuth, push, memory, React and Electron code, and the language model, which is an arbitrary sequence of events.
- `createGate`, the peer send budget, namespaced tool parsing, activity, service windows and run budgets: small or not invariant.
