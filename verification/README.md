# Delegated execution: a model and its proofs

The repository connects a caller to a responder through message queues. The caller dispatches a
request and waits; the responder queues it, runs an executor, signs what comes out and sends it
back; either side may die and start again. This project models that exchange in Dafny and proves
what its parts promise, over every run rather than for one call.

- **Journal and snapshot** (`ExecutionJournal`, `SnapshotStore`): the append-only record of
  attempts with its open-attempts query, and the last-write-wins state table.
- **Responder** (`ResponderState`, `ResponderRuntime`, `Admission`): the task table, request index,
  priority queue and worker set, as values and as the object whose methods assign them in place; and
  what an inbox pass makes of the envelopes it takes up.
- **Responder over crashes** (`ResponderWorld`): all steps between two awaits, a process that can die
  between any two of them, boots from the snapshot, inbox passes that may overlap, and reconciliation.
  `AtMostOnce` bounds executions over arbitrary runs; `DuplicateChecks` and `ReusedNames` say exactly
  what overlapping passes and reused names do to that; `AttemptDiscipline`, `CalmRuns` and
  `NoLostEnvelopes` give the invariants of calm runs; `CrashWindows`, `StrandedCalls`, `StrandingRun`
  and `SharedAttemptRun` take the places apart where calls get lost; `SchedulerCalls` says when what a
  boot finds in the queue starts.
- **Reconciliation** (`Reconciliation`, `ReportCanonical`): what one pass leaves open, and the
  order-independent form a report is signed over.
- **Results** (`Results`, `ResponderTasks`, `ResultBuilder`, `ArtifactChannel`, `Base64`, `Outcomes`):
  executions, packages, signatures, envelopes, the two ways artifacts travel, and what the journal says.
- **Caller** (`CallerRequests`, `CallerRequestObject`, `CallerLifecycle`, `ResultRoute`,
  `CallerInbox`, `CallerRestart`, `EventBatching`): the request record, its verifier and timeouts, runs
  of one record, the route that waits for a body, the inbox pass, the pass over crashes, and the
  background sync.
- **Both ends** (`EndToEnd`, `ResultExchange`, `ResultContext`, `LocalHub`): one request from dispatch to
  verdict; the whole exchange with replays, redelivery and strangers who send what they like, and whose
  result a request ends up with; the hub between them.
- **Smaller cores** (`EnvFile`, `ResponderIdentity`, `InputNormalizer`, `SupervisorFence`,
  `SupervisorRuntime`): the env file and its PEM escaping, the input normaliser, and the
  supervisor's launch fence.

`dafny verify dfyconfig.toml` checks everything.

## How the original is represented

- A step of a state machine is the code between two awaits. Steps that are not enabled change
  nothing, so every finite sequence of steps is a run.
- Clocks are parameters, identifiers come from a supply of unused names, and everything a remote
  party may answer (platform, artifact store, token introspection, the executor) is an arbitrary
  parameter or step argument.
- Signatures are ideal (section 5.1 of RFC 8032): a signature names its key and the bytes it was made
  for. Of the canonical form that is signed it is assumed that it ignores the signature, and, where a
  signature is to vouch for a whole package, as a stated hypothesis that it leaves nothing else out.
  Digests are an arbitrary function; where bytes are concluded from digests, freedom from collisions
  is a stated hypothesis.
- What may be re-run and which reports the protocol accepts are uninterpreted predicates on the
  recorded data.
- *Calm* runs are those in which every inserted task has an id that is not in the table and an attempt
  id not used before, no other insertion of a call falls between a pass's duplicate check of it and its
  insertion, the journal and the snapshot can be written, and no crash falls between a start row and
  the save after it. Crashes anywhere else are allowed. The bound on executions needs of all this only
  that no inserted task takes an id from the table.

## Where the code does less than its comments say

- `packages/responder-runtime-core/src/index.js:964-966` says a restart during an outage must not
  quietly erase a call. Reporting keeps that promise; a re-run does not quite: its superseded row is
  written before the queue is saved, and a crash in between strands the call for good
  (`CrashWindows.SupersededSurvivesIffSaved`, `StrandingRun.RunThatStrands`,
  `StrandedCalls.StrandedForever`).
- The terminal row is what keeps a finished attempt from being reopened (lines 715-716 of the same
  file), and a crash after the result was sent and before the row reopens it
  (`CrashWindows.DeliveredIsReopenedIffUnrecorded`).
- A sender may name the task and the attempt, and the duplicate check looks at the request only, so
  two requests under one task id run one of them twice and the other never, and two under one attempt
  id can strand the second (`ReusedNames.ReusedTaskIdRunsTwice`,
  `ReusedNames.RequestsKeepTheirTasksExactlyWhen`, `SharedAttemptRun.SharedAttemptStrands`,
  `ReusedNames.AttemptStaysUniqueExactlyWhen`).
- Nothing keeps a background inbox pass and one asked for by the pull route apart, and two passes over
  one envelope run it twice
  (`DuplicateChecks.OverlappingPassesRunTwice`; `DuplicateChecks.InsertionIsSafeExactlyWhen` gives the
  exact condition, `DuplicateChecks.NoStaleChecks` what it is worth over whole runs).
- A boot does not call the scheduler, so a task it finds queued waits for the next insertion, run end or
  re-run (`SchedulerCalls.HydratedQueueWaitsExactlyWhen`, `SchedulerCalls.QueueLeftWaiting`).
- A pass acks on the adapter's own queue, whatever queue it was told to poll
  (`ResponderRuntime.PassEmptiesExactlyWhen`, `ResponderRuntime.PolledElsewhere`).
- The caller's inbox pass acks each result before it saves what they settled, so a crash in between loses
  acked results (`CallerRestart.ResultSurvivesIffSaved`, `CallerRestart.NothingIsLostExactlyWhen`,
  `CallerRestart.AckedThenTimedOut`).
- Message ids are the sender's choice, and an ack removes the first message of its id
  (`LocalHub.AckTakesItsOwnExactlyWhen`, `LocalHub.SharedIdLosesTheFirst`).
- A verdict is called terminal, but the result route does not look again after it waited for the body
  (`ResultRoute.FinalExactlyWhen`, `ResultRoute.TimedOutThenSucceeded`).
- A settled request can be prepared again, and then names another responder than the package it holds
  (`ResultContext.HoldsItsOwnExactlyWhen`, `ResultContext.ReassignedAfterwards`).
- A pinned key does not keep unsigned packages out: one without a signature is accepted unless it says
  itself that its signature was invalid (`ResultExchange.UnsignedExactlyWhen`,
  `ResultExchange.UnsignedSucceeds`).
- Artifacts are matched by name only, so two of one name with different content, or artifacts on a
  result that is not ok, are refused by the caller although the responder sent them intact
  (`EndToEnd.SameNameIsRefused`, `EndToEnd.ErrorWithArtifactIsRefused`; `EndToEnd.InlineDelivery`
  gives the verdict for every execution).
- An acknowledgement is not always remembered: an ack event without a time clears it
  (`CallerLifecycle.AckLostExactlyWhen`, `CallerLifecycle.UntimedAckForgets`).
- The fence of a final stop comes down when an overlapping stop that is not final returns
  (`SupervisorFence.FenceStaysUpExactlyWhen`, `SupervisorFence.LaunchedAfterFinalStop`).
- Input normalisation is not idempotent for every schema: a listed string with white edges is accepted,
  trimmed, and refused the next time (`InputNormalizer.SecondPassExactlyWhen`).

## Model

| member | source | states |
|---|---|---|
| `ExecutionJournal.Journal.Append` | packages/sqlite-store/src/index.js:149-187 | an entry with a missing boot, call or attempt id is refused and changes nothing; any other becomes the last row of its service, and its sequence number counts all rows of the shared table |
| `ExecutionJournal.Journal.ListInterruptedAttempts` | packages/sqlite-store/src/index.js:194-226 | the nested query over the table shared by all services returns, in sequence order, exactly this service's start rows of other boots that no closing row of this service names |
| `ExecutionJournal.ReportedExactlyWhen` | packages/sqlite-store/src/index.js:194-226 | a row is reported exactly when it is a start, of another boot if one is to be left out, and no row that is not a start names its attempt |
| `ExecutionJournal.QueryRefinesObserver` | packages/sqlite-store/src/index.js:84-88 | the query equals what an observer holds who reads the journal row by row, adds each start and drops every start of an attempt when it closes |
| `ExecutionJournal.ClosedStaysClosed` | packages/sqlite-store/src/index.js:124-138 | an attempt once closed is never reported again in any extension of the journal, not even after a second start row |
| `ExecutionJournal.OpenOnlyShrinks` | packages/sqlite-store/src/index.js:194-226 | whatever is appended, nothing already written becomes open that was not open before |
| `ExecutionJournal.ClosedAcrossTable` | packages/sqlite-store/src/index.js:205-214 | a closing row counts within its own service only |
| `SnapshotStore.Store.Save` | packages/sqlite-store/src/index.js:44-55 | after a save the service loads exactly the saved state, and the table holds one row for it beside the untouched rows of the others |
| `SnapshotStore.Store.Load` | packages/sqlite-store/src/index.js:37-42 | the newest row of the service, or nothing |
| `SnapshotStore.LastWriteWins` | packages/sqlite-store/src/index.js:37-56 | over any interleaving of services sharing the table, a load returns the service's own last write, or what was there before |
| `ResponderState.SortPermutes` | packages/responder-runtime-core/src/index.js:1118-1128 | sorting the queue keeps exactly the ids that were in it |
| `ResponderState.SortSorts` | packages/responder-runtime-core/src/index.js:1118-1128 | the queue ends up ordered by priority, then by enqueue time |
| `ResponderState.SortStable` | packages/responder-runtime-core/src/index.js:1118-1128 | tasks of equal priority and enqueue time keep their order |
| `ResponderState.SortUnique` | packages/responder-runtime-core/src/index.js:1118-1128 | sorted and stable within ties determines the queue: any such arrangement is the one computed |
| `ResponderState.WorkersByCase` | packages/responder-runtime-core/src/index.js:1004-1006 | a positive override wins, else the process's own positive count, else one; zero reads as unset and a negative override means one |
| `ResponderRuntime.PassTakesPrefix` | packages/responder-runtime-core/src/index.js:1082-1108 | a scheduling pass takes a prefix off the queue, starts exactly the known tasks in it in order, stops only with an empty queue or full workers, and never exceeds the worker bound |
| `ResponderRuntime.OneRowEach` | packages/responder-runtime-core/src/index.js:1008-1018 | a pass writes one start row for each task it starts |
| `ResponderRuntime.StartedAreRecorded` | packages/responder-runtime-core/src/index.js:1008-1018 | over a queue without repetitions the tasks a pass starts are running under the class their start row records, row by row in queue order, each row naming its boot, request, attempt and hotline, and every other task is as it was |
| `ResponderRuntime.Runtime.Hydrate` | packages/responder-runtime-core/src/index.js:793-810 | a snapshot replaces tasks, index and queue, nothing is active, and the worker count is at least one; without a snapshot nothing changes |
| `ResponderRuntime.Runtime.AppendEntry` | packages/responder-runtime-core/src/index.js:147-157 | an entry the journal refuses is dropped silently, any other is written |
| `ResponderRuntime.Runtime.ScheduleProcessQueue` | packages/responder-runtime-core/src/index.js:1008-1108 | the loop computes the scheduling pass on the fields in place, writes exactly its start rows and saves after each, and ends with an empty queue or full workers |
| `ResponderRuntime.PassIsSaved` | packages/responder-runtime-core/src/index.js:1012-1019 | what a pass saves last knows every request known before, and is the state the pass ends in when it began saved and the table knows every queued task |
| `ResponderRuntime.Runtime.EnqueueTask` | packages/responder-runtime-core/src/index.js:1110-1132 | the task is remembered, queued in order and saved before anything is scheduled, and then scheduled, each start saved again |
| `ResponderRuntime.Runtime.CompleteTask` | packages/responder-runtime-core/src/index.js:685-692 | the task ends completed with a package that verifies under the responder's key and names its own request; request, attempt and rank stay, and so does everything else |
| `ResponderRuntime.Runtime.RecordTerminal` | packages/responder-runtime-core/src/index.js:715-726 | one terminal row is written that says delivered for an ok package and failed for any other, and the journal then holds the attempt as closed |
| `Outcomes.DeliveredExactlyWhen` | packages/responder-runtime-core/src/index.js:717-725 | the terminal row says delivered exactly when the executor reported ok and its artifacts were not too large |
| `ResultBuilder.FinishedPackage` | packages/responder-runtime-core/src/index.js:228-339 | the package of a finished task names the task's request and verifies under the responder's key |
| `ResponderRuntime.Runtime.RetireTask` | packages/responder-runtime-core/src/index.js:1075-1080 | the worker is freed and the state saved before the queue is scheduled again, each start saved again |
| `ResponderRuntime.TakenInIsKnown` | packages/responder-runtime-core/src/index.js:1195-1241 | after an envelope addressed to this responder its request is in the index, and no request leaves the index |
| `Admission.AdmittedAsAsked` | packages/responder-runtime-core/src/index.js:526-570 | an envelope meant for this responder, of an unknown request and welcome, leaves under its request id a task with its responder, hotline, display code and priority, the pass's clock as enqueue time and the sender as reply address |
| `Admission.TurnedAwayIsAnswered` | packages/responder-runtime-core/src/index.js:1211-1241 | turned away, its record is completed at once with a signed error of the given code, and nothing is queued |
| `Admission.OthersAreLeftAlone` | packages/responder-runtime-core/src/index.js:1153-1159 | an envelope that names another responder, or a hotline not served here, changes nothing, is answered by nothing and is not acked |
| `Admission.KnownIsReplayed` | packages/responder-runtime-core/src/index.js:1169-1193 | a known request changes nothing; if it is finished its stored package goes out again, to whoever asks now |
| `Admission.UrgentFirst` | packages/responder-runtime-core/src/index.js:1110-1128 | of two requests one pass admitted and that still wait after it, the one whose envelope carries the smaller priority is ahead in the queue, and under equal priorities the one that arrived earlier |
| `ResponderRuntime.Runtime.ProcessInbox` | packages/responder-runtime-core/src/index.js:1134-1252 | one pass accepts, rejects or deduplicates each polled envelope and sends stored results again; it acks exactly those addressed to this responder, on the adapter's own queue, so the polled queue changes if and only if it is that one and something was handled; every known request is in the saved snapshot |
| `ResponderRuntime.PassEmptiesExactlyWhen` | packages/responder-runtime-core/src/index.js:1250-1250 | a pass takes something off the queue it polled if and only if the receiver polled is the adapter's own and something polled is addressed to this responder |
| `ResponderRuntime.PolledElsewhere` | packages/responder-runtime-core/src/index.js:1533-1548 | polled under another receiver's name, an envelope is accepted and acked and still queued, so the next pass takes it up again |
| `ResponderRuntime.Runtime.ReconcileEach` | packages/responder-runtime-core/src/index.js:902-984 | the loop computes the pass on values, counting re-runs, reports and what stays unreported |
| `ResponderRuntime.Runtime.ReconcileInterruptedAttempts` | packages/responder-runtime-core/src/index.js:874-992 | inspected is the sum of re-run, reported and unreported; the outcome is the one `Reconciliation.PassSettlesTasks` describes; the state is saved when something changed, scheduled when something is re-run with each start saved again, and left alone otherwise |
| `Reconciliation.PassSettlesTasks` | packages/responder-runtime-core/src/index.js:895-984 | over every state and list of attempts: each attempt is re-run, reported or left exactly as class, executor, task, protocol and platform say; a task whose last decided attempt was reported is failed and marked reconciled, one whose last decided attempt is re-run is queued under the attempt drawn for it, and every other task, the index and the workers stay |
| `Reconciliation.PassRowsSay` | packages/responder-runtime-core/src/index.js:907-975 | one superseded row for each re-run and one reconciled, failed row for each report, naming its call, attempt and class, and no other rows |
| `Reconciliation.PassPartitions` | packages/responder-runtime-core/src/index.js:902-984 | every inspected attempt lands in exactly one of the three lists |
| `Reconciliation.PassIsJustified` | packages/responder-runtime-core/src/index.js:904-922 | only attempts whose recorded class may auto-rerun are re-run, and only valid reports the platform accepted are counted as reported |
| `Reconciliation.ClosingRowsClose` | packages/sqlite-store/src/index.js:194-226 | whatever closing rows reach the journal, some lost or not, the open attempts afterwards are the earlier ones less those closed, and never more |
| `Reconciliation.PassRows` | packages/responder-runtime-core/src/index.js:907-913 | the rows of a pass close an attempt exactly when an occurrence of it was re-run or reported |
| `Reconciliation.PassLeavesUnreported` | packages/responder-runtime-core/src/index.js:874-992 | after a pass whose rows were written the open attempts are those never re-run or reported, exactly the unreported ones when each attempt started once, and none when nothing is unreported |
| `Reconciliation.PassRowsAreRecordable` | packages/responder-runtime-core/src/index.js:907-975 | no row of a pass over recorded attempts is refused by the journal |
| `Reconciliation.AcceptedReportsLeaveNone` | packages/responder-runtime-core/src/index.js:935-984 | when every report is valid and accepted, nothing is left unreported |
| `Reconciliation.CalmAttemptsAreDistinct` | packages/responder-runtime-core/src/index.js:1012-1018 | in calm runs every attempt did start once, so the hypothesis of the previous statement is met; calm runs use no attempt id twice |
| `ReportCanonical.CanonicalizeReport` | packages/responder-runtime-core/src/index.js:824-832 | the loop yields the defined fields of the report in key order |
| `ReportCanonical.CanonicalIgnoresKeyOrder` | packages/responder-runtime-core/src/index.js:817-832 | two reports holding the same defined values have the same canonical form, however their keys were inserted |
| `ReportCanonical.CanonicalIsStable` | packages/responder-runtime-core/src/index.js:817-832 | canonicalising a canonical report changes nothing |
| `AtMostOnce.InvocationsBounded` | packages/responder-runtime-core/src/index.js:895-922 | over every sequence of steps, crashes and restarts in which no inserted task takes an id the table holds, the executor is invoked for a call at most once, plus once per superseded row, plus once per stale duplicate check or lost superseded row |
| `AtMostOnce.UnnamedIsFresh` | packages/responder-runtime-core/src/index.js:526-538 | an insertion whose sender names no task id always meets that condition |
| `AtMostOnce.StepKeepsBudget` | packages/responder-runtime-core/src/index.js:1008-1080 | every step that takes no task id from the table keeps both budgets of a call: what memory may still invoke, and what a crash would bring back from the snapshot |
| `AtMostOnce.RunKeepsJustified` | packages/responder-runtime-core/src/index.js:903-914 | in every reachable journal a superseded row names a recorded start of the same call whose recorded class may auto-rerun |
| `DuplicateChecks.NoStaleChecks` | packages/responder-runtime-core/src/index.js:1169-1242 | where no other insertion of a call falls between a pass's check of it and its insertion, no insertion ever finds its request known |
| `DuplicateChecks.InsertionIsSafeExactlyWhen` | packages/responder-runtime-core/src/index.js:1169-1242 | after a run that was careful so far, going on in any way inserts no known request if and only if no other pass holds the inserted call checked; if one does, it can insert the call a second time right away |
| `DuplicateChecks.OnePassIsCareful` | packages/responder-runtime-core/src/index.js:1134-1242 | passes that do not overlap, with no direct post of a request a pass has just checked, meet that condition |
| `DuplicateChecks.UnrecoverableExecutesAtMostOnce` | packages/responder-runtime-core/src/index.js:857-873 | in such runs a call whose recorded class may not auto-rerun is executed at most once ever, however often the process dies and whatever the journal loses |
| `DuplicateChecks.OverlappingPassesRunTwice` | packages/responder-runtime-core/src/index.js:1169-1242 | two passes that poll the same envelope and both find its request unknown invoke the executor twice for one call, without any crash or superseded row |
| `ReusedNames.ReusedTaskIdRunsTwice` | packages/responder-runtime-core/src/index.js:526-538 | two requests that name one task id: the later replaces the earlier in the table and is executed twice, the earlier never, without a crash, a superseded row or a stale check |
| `ReusedNames.RequestsKeepTheirTasksExactlyWhen` | packages/responder-runtime-core/src/index.js:996-1002 | in every state such a run reaches, an insertion leaves every request leading to its own task if and only if the task id was not in the table |
| `ReusedNames.QueueStaysDistinctExactlyWhen` | packages/responder-runtime-core/src/index.js:1110-1128 | queueing a task keeps the queue free of repetitions if and only if its id was not queued |
| `ReusedNames.AttemptStaysUniqueExactlyWhen` | packages/responder-runtime-core/src/index.js:526-538 | queueing a task keeps its attempt unique if and only if the attempt was neither started nor waiting |
| `ReusedNames.SharedAttemptClosesBoth` | packages/sqlite-store/src/index.js:194-226 | when two calls start under one attempt id, the terminal row of one hides the other from every later query of any journal |
| `SharedAttemptRun.SharedAttemptStrands` | packages/responder-runtime-core/src/index.js:526-538 | a concrete careful run of two requests naming one attempt: the first is delivered, the second started and never ended, and after a crash no query finds it and nothing will run it |
| `CalmRuns.DurableStateIsConsistent` | packages/responder-runtime-core/src/index.js:1012-1019 | in every durable state of a calm run an attempt has at most one start row, and a call is open or queued at most once altogether |
| `CalmRuns.CalmInvocationsBounded` | packages/responder-runtime-core/src/index.js:895-922 | in calm runs the executor is invoked for a call at most once more than the journal holds superseded rows for it |
| `CalmRuns.CalmInsertsUnknown` | packages/responder-runtime-core/src/index.js:1169-1195 | in calm runs every insertion finds its request unknown: a consequence of the check, not part of what calm means |
| `CalmRuns.InterruptedIsIdle` | packages/responder-runtime-core/src/index.js:874-892 | what an earlier boot left open is neither queued nor running in this boot, nor queued in the snapshot |
| `CalmRuns.SchedulerStaysInShape` | packages/responder-runtime-core/src/index.js:1082-1132 | under every interleaving queue and workers hold distinct known tasks, apart from each other and within the worker bound |
| `CalmRuns.StartsTheFirst` | packages/responder-runtime-core/src/index.js:1086-1088 | unless a re-run was pushed since the last sort, the next task to start has minimal priority, and among those minimal arrival, of all that wait |
| `CalmRuns.CalmRunsDisciplined` | packages/responder-runtime-core/src/index.js:1008-1252 | the invariant behind these statements holds in every state a calm run reaches |
| `SchedulerCalls.HydratedQueueWaitsExactlyWhen` | packages/responder-runtime-core/src/index.js:793-815 | a boot that finds a known task queued starts something, over every continuation, if and only if a call of the scheduler goes through, and until something makes the code call it the hydrated queue stays as it was |
| `SchedulerCalls.StartsExactlyWhenCalled` | packages/responder-runtime-core/src/index.js:1082-1108 | while a known task waits and no worker is busy, something is started in a continuation if and only if a call of the scheduler goes through |
| `SchedulerCalls.QueueLeftWaiting` | packages/responder-runtime-core/src/index.js:986-990 | it happens: a task posted and saved, a crash before it starts, and the next boot has it queued with nothing to reconcile |
| `SchedulerCalls.DriveIsARun` | packages/responder-runtime-core/src/index.js:1082-1108 | with starts confined to calls of the scheduler the responder still goes through a run of the steps all other statements are about |
| `CrashWindows.SupersededSurvivesIffSaved` | packages/responder-runtime-core/src/index.js:907-922 | after any calm run, a crash behind the superseded row strands the call if and only if the save had not happened yet; after the save it is queued |
| `StrandedCalls.StrandedForever` | packages/responder-runtime-core/src/index.js:874-922 | a stranded call stays stranded: no continuation without reused task ids ever invokes it, opens it or queues it again |
| `StrandingRun.RunThatStrands` | packages/responder-runtime-core/src/index.js:895-922 | a concrete calm run of one posted task and two crashes ends with the call stranded and never invoked |
| `CrashWindows.TornStartIsOpenAndQueued` | packages/responder-runtime-core/src/index.js:1012-1019 | a crash after the start row leaves the attempt open, and also queued if and only if the save had not happened yet |
| `CrashWindows.CalmRunsSendFirst` | packages/responder-runtime-core/src/index.js:685-726 | in calm runs whatever is at its terminal row or past it has sent the result of its attempt |
| `CrashWindows.DeliveredIsReopenedIffUnrecorded` | packages/responder-runtime-core/src/index.js:715-726 | after any calm run, an attempt about to get its terminal row has had its result sent, and a crash leaves it to be found by the next boot if and only if the row was not written |
| `CrashWindows.CalmRunsCloseStarted` | packages/responder-runtime-core/src/index.js:907-975 | in calm runs every closing row names an attempt with a start row |
| `NoLostEnvelopes.NoEnvelopeIsLost` | packages/responder-runtime-core/src/index.js:1175-1248 | at every point of a calm run whose inbox passes do not overlap, each delivered envelope is still in the inbox, or was acked with its request in the snapshot the next boot starts from |
| `ResultBuilder.Materialize` | packages/responder-runtime-core/src/index.js:263-291 | size, digest and base64 text of an artifact all follow from its bytes, and the base64 text decodes to them |
| `ResultBuilder.FinishTask` | packages/responder-runtime-core/src/index.js:685-739 | whatever the executor returned, even null, the task ends completed with a signed package, and nothing else of it changes |
| `ResultBuilder.UnnamedStayApart` | packages/responder-runtime-core/src/index.js:276-291 | artifacts keep the names, types and ids the executor gave, and those it did not name are told apart by their place |
| `EndToEnd.PackageSaysWhatWasReturned` | packages/responder-runtime-core/src/index.js:228-261 | an ok execution that is not too large comes out with its output and one declaration for each of its artifacts, with their own sizes and digests; whatever else is executed, the package is an error without output or artifacts |
| `Results.SignVerifies` | packages/responder-runtime-core/src/index.js:330-339 | a signed package verifies under a key exactly when that key signed it |
| `Base64.DecodeEncode` | packages/responder-runtime-core/src/index.js:263-291 | base64 decoding undoes encoding for every byte sequence |
| `Base64.RestoreUrlEncode` | packages/transports/gmail/src/index.js:18-20 | swapping the alphabet back and recomputing the padding restores the plain base64 text |
| `Base64.UrlRoundTrip` | packages/transports/gmail/src/index.js:9-21 | url-safe decoding undoes url-safe encoding for every byte sequence |
| `LocalHub.Hub.Send` | packages/transports/local/src/index.js:53-63 | the message goes to the end of its receiver's queue and to no other |
| `LocalHub.Hub.Poll` | packages/transports/local/src/index.js:65-70 | the first messages up to the limit, without removing any |
| `LocalHub.FirstFewIsTheFront` | packages/transports/local/src/index.js:65-70 | what a poll shows is a front of the queue, as long as the limit or as the queue itself, whichever is shorter |
| `LocalHub.Hub.Ack` | packages/transports/local/src/index.js:72-80 | the search and splice remove the first message of the id and nothing else, and report whether there was one |
| `LocalHub.Adapter.Poll` | packages/transports/local/src/index.js:65-70 | an adapter polls the receiver it is told, else its own |
| `LocalHub.Adapter.Ack` | packages/transports/local/src/index.js:72-80 | an adapter acks on the receiver it is told, else its own, and touches no other queue |
| `LocalHub.BlockedExactlyWhen` | packages/transports/local/src/index.js:65-80 | a pass over the front of a queue leaves it as it was if and only if it handles nothing there |
| `LocalHub.LeavesOnlyByAck` | packages/transports/local/src/index.js:53-80 | over every history of a hub, the messages never acked are queued as often as they were sent and in the order they were sent |
| `LocalHub.UnackedStays` | packages/transports/local/src/index.js:53-80 | a message nobody acked is still there to be polled |
| `LocalHub.AckTakesItsOwnExactlyWhen` | packages/transports/local/src/index.js:72-80 | an ack meant for the i-th message of any queue takes that one off if and only if no earlier message shares its id |
| `LocalHub.SharedIdLosesTheFirst` | packages/transports/local/src/index.js:53-80 | it happens: of two messages under one id, which a sender may choose, an ack meant for the later removes the earlier |
| `ArtifactChannel.UploadExecutionArtifacts` | packages/artifact-client/src/index.js:153-173 | every artifact is either committed or reported as a failure |
| `ArtifactChannel.CompleteUpload` | packages/artifact-client/src/index.js:153-173 | with no failure, and only then, every upload was committed and the i-th descriptor stands for the i-th artifact |
| `ArtifactChannel.ResolveArtifactDescriptors` | packages/artifact-client/src/index.js:180-205 | every descriptor yields an attachment or a failure, and there is no failure exactly when every download passes the checksum gate |
| `ArtifactChannel.ResolvedIsGated` | packages/artifact-client/src/index.js:104-138 | whatever the platform serves, each attachment names one of the descriptors and carries its bytes and size, and those bytes hash to the checksum the platform holds |
| `CallerRequests.FirstNamed` | packages/caller-controller-core/src/index.js:549-552 | the first attachment of a name, or none |
| `CallerRequests.Judge` | packages/caller-controller-core/src/index.js:629-694 | the verdict is terminal and never a timeout, and success requires an accepted signature and every declared artifact bound |
| `CallerRequests.VerdictExactlyWhen` | packages/caller-controller-core/src/index.js:586-694 | each refusal happens exactly when its own check is the first to fail, the context check failing exactly on another request id, another given version, or another responder, hotline or display code than the record has set; success exactly when nothing fails |
| `CallerRequests.EvaluationExactlyWhen` | packages/caller-controller-core/src/index.js:400-454 | an evaluation ends a request exactly when its delivery timeout or its hard timeout is due, under that code; otherwise all it does is ask, exactly from the soft deadline on while undecided |
| `CallerRequests.PreparedThenDispatched` | packages/caller-controller-core/src/index.js:1042-1070 | what is dispatched after a preparation names the request, the ids asked for or else already set, the granted display code first, and a default priority of five |
| `CallerRequests.ReadFirstPlace` | packages/caller-controller-core/src/index.js:511-541 | a package is taken from the first place that holds one, and a parse error is reported exactly when none does and the text does not parse |
| `CallerRequestObject.VerifyArtifactBindings` | packages/caller-controller-core/src/index.js:543-569 | the loop accepts exactly when every declared artifact agrees with the first attachment of its name, or nothing is declared and nothing attached |
| `CallerRequestObject.CallerRequest.Evaluate` | packages/caller-controller-core/src/index.js:400-454 | it reports a transition exactly when one of the two timeouts is due, records time and code then, and otherwise changes nothing but the question to the user |
| `CallerRequestObject.CallerRequest.SetSent` | packages/caller-controller-core/src/index.js:576-584 | the first sending time is kept, before the new deadline the delivery timeout cannot fire, and from then on it does exactly when nobody acknowledged and nobody keeps waiting |
| `CallerRequestObject.CallerRequest.ApplyResult` | packages/caller-controller-core/src/index.js:629-694 | the fields after verification in its fixed order, always ending terminal, with a context mismatch exactly when one of the five comparisons fails |
| `CallerRequestObject.CallerRequest.ApplyEvents` | packages/caller-controller-core/src/index.js:1136-1159 | only an ack event on an open, not yet acked request changes the record, which is acked then at the time of the first such event; the answer says whether there was one |
| `CallerRequestObject.CallerRequest.Decide` | packages/caller-controller-core/src/index.js:1626-1643 | nobody is asked again; stopping leaves nothing open, and after deciding to wait no evaluation at any time ends the request; a settled one keeps its verdict |
| `CallerRequestObject.CallerRequest.Prepare` | packages/caller-controller-core/src/index.js:959-1008 | a pinned signer is never replaced, success leaves both ids known and the delivered signer pinned, and failure leaves the record exactly as it was |
| `CallerRequestObject.CallerRequest.Handle` | packages/caller-controller-core/src/index.js:1363-1645 | each route or loop acting on the object is the step the runs are made of: settled requests keep status and package, and coherence is kept |
| `CallerLifecycle.TerminalIsAbsorbing` | packages/caller-controller-core/src/index.js:8-9 | over all routes and loops as whole steps a terminal status never changes, nor the package it was decided on |
| `ResultRoute.FinalExactlyWhen` | packages/caller-controller-core/src/index.js:1589-1595 | with the wait inside the result route taken apart, a verdict is final over every continuation if and only if no post that found the request open still waits for its body |
| `ResultRoute.PromptRunsAreFinal` | packages/caller-controller-core/src/index.js:1589-1595 | in runs where no body arrives after its request was settled meanwhile, every verdict is final from the moment it is reached |
| `ResultRoute.TimedOutThenSucceeded` | packages/caller-controller-core/src/index.js:1589-1595 | a post finds the request open, the hard timeout ends it, and the body that arrives then makes it succeed |
| `CallerLifecycle.StaysCoherent` | packages/caller-controller-core/src/index.js:1635-1641 | stop_wait implies terminal, and confirmation is asked for only while the decision is pending |
| `CallerLifecycle.DeadlinesNeverMove` | packages/caller-controller-core/src/index.js:456-501 | the deadlines fixed at creation and the request id never change |
| `CallerLifecycle.HardDeadlineFinalizes` | packages/caller-controller-core/src/index.js:437-451 | an evaluation at or after the hard deadline leaves the request open only if it was open under continue_wait; otherwise the whole run ends terminal |
| `CallerLifecycle.WaitingNeverTimesOut` | packages/caller-controller-core/src/index.js:400-454 | under continue_wait no evaluation times the request out |
| `CallerLifecycle.HardTimeoutNeedsDeadline` | packages/caller-controller-core/src/index.js:436-451 | when every evaluation comes before the hard deadline, or requests are not ended automatically, no run ends in the hard timeout |
| `CallerLifecycle.RequestsHaveTheirTime` | packages/caller-controller-core/src/index.js:456-501 | a request created with `softS` and `hardS` seconds is not ended by the clock before `hardS`, ends then if left to itself, and its user is asked from `softS` on |
| `CallerLifecycle.AckLostExactlyWhen` | packages/caller-controller-core/src/index.js:1145-1148 | an acknowledgement is forgotten by one kind of step only, an ack event without a time on a record that left ACKED |
| `CallerLifecycle.AcknowledgedNeverUndelivered` | packages/caller-controller-core/src/index.js:410-425 | once acknowledged, and with timed ack events, the delivery timeout never fires, not even after a re-dispatch |
| `CallerLifecycle.UntimedAckForgets` | packages/caller-controller-core/src/index.js:1145-1148 | with an untimed ack event an acknowledged request does time out as undelivered |
| `CallerInbox.CallerState.TakeOne` | packages/caller-controller-core/src/index.js:757-811 | an envelope is acked exactly when its body does not parse but it names a request, or its package names a known request |
| `CallerInbox.HandledExactlyWhen` | packages/caller-controller-core/src/index.js:757-778 | an envelope is handled exactly when its text does not parse but it names a request, or its package names a known one |
| `CallerInbox.AbsorbedExactly` | packages/caller-controller-core/src/index.js:757-804 | an open request its unparsable text is about is refused for that, an open request its package is about gets the verdict on it, settled ones stay, and no other record changes |
| `CallerInbox.CallerState.PollInbox` | packages/caller-controller-core/src/index.js:740-818 | each acked envelope names a request that is terminal afterwards, or an unknown one and then its body did not parse |
| `CallerInbox.AbsorbAllSettles` | packages/caller-controller-core/src/index.js:757-811 | a pass settles the requests it acks for and overturns nothing already terminal |
| `CallerInbox.UnreadStays` | packages/caller-controller-core/src/index.js:771-778 | envelopes that share no id with a handled one stay queued, in order |
| `CallerInbox.InboxBlockedExactlyWhen` | packages/caller-controller-core/src/index.js:750-778 | a pass leaves the queue as it was exactly when it can handle none of the ten envelopes at its front, whatever waits behind them |
| `CallerRestart.ResultSurvivesIffSaved` | packages/caller-controller-core/src/index.js:805-815 | a result taken up and judged is known after a crash, with its verdict and package, if and only if the table was saved between the judgement and the crash |
| `CallerRestart.NothingIsLostExactlyWhen` | packages/caller-controller-core/src/index.js:805-815 | over every run with any crashes, every acked result is settled on disk at each point if and only if each ack came after a save that held its verdict |
| `CallerRestart.AckedThenTimedOut` | packages/caller-controller-core/src/index.js:805-815 | it happens: a good result is judged and acked, the caller dies before it saves, the queue is empty and the request times out |
| `EventBatching.BatchingIsExact` | packages/caller-controller-core/src/index.js:825-852 | every batch has between one and the configured number of requests of one client, and client by client the batches are that client's active requests in table order, each once |
| `EventBatching.EachSyncedOnce` | packages/caller-controller-core/src/index.js:825-852 | all batches together hold each active request with a client exactly once |
| `EventBatching.SyncGroup` | packages/caller-controller-core/src/index.js:846-876 | the inner loop cuts one client's requests into batches and applies every answer |
| `EventBatching.BatchSizeByCase` | packages/caller-controller-core/src/index.js:842-842 | the configured size if it is positive, one if it is negative, 25 if there is none |
| `EventBatching.SyncedAsAnswered` | packages/caller-controller-core/src/index.js:846-887 | a request is acked at the time of the first ack the platform reports if it is open, not acked yet and has a client; after that only its clock counts |
| `EventBatching.SyncActiveRequests` | packages/caller-controller-core/src/index.js:820-893 | the nested loops amount to one update per request: its own events if it is active and has a client, then its timeouts |
| `EndToEnd.ContextSurvives` | packages/caller-controller-core/src/index.js:586-608 | the package built from a dispatched envelope matches the context the caller checks |
| `EndToEnd.InlineBinding` | packages/caller-controller-core/src/index.js:543-569 | inline attachments bind a package exactly when artifacts of one name agree |
| `EndToEnd.InlineDelivery` | packages/caller-controller-core/src/index.js:629-694 | for every execution the verdict is the one it deserves under the right key: success for ok, sized and valid, schema refusal, size failure or the responder's code otherwise; and a signature refusal under any other key |
| `EndToEnd.SucceededHoldsTheOutput` | packages/caller-controller-core/src/index.js:629-694 | over either channel and however the platform behaves, a request that ends succeeded holds a package with the executor's own output and artifacts |
| `EndToEnd.ResultGoesBack` | packages/responder-runtime-core/src/index.js:341-396 | the result of a dispatched request goes to whoever dispatched it, names the request and carries its package |
| `EndToEnd.SameNameIsRefused` | packages/caller-controller-core/src/index.js:549-552 | an ok result with two different artifacts of one name, small, valid, signed and sent intact, is refused |
| `EndToEnd.ErrorWithArtifactIsRefused` | packages/caller-controller-core/src/index.js:543-548 | an error result that carries an artifact is refused as badly attached instead of failing with its own code |
| `EndToEnd.ChannelDelivery` | packages/responder-runtime-core/src/index.js:341-396 | over the artifact channel the verdict is the same, when uploads fall back to inline bytes or the platform keeps what it was given |
| `EndToEnd.LossRulesOutSuccess` | packages/artifact-client/src/index.js:126-138 | however the platform misbehaves, losing one artifact of a name of its own rules success out |
| `ResultExchange.StaysHonest` | packages/caller-controller-core/src/index.js:782-811 | whoever else sends or posts, everything issued is signed and digested, no envelope carries a forged signature, and a succeeded record holds a package that passed every check against the attachments it was judged with |
| `ResultExchange.UnsignedExactlyWhen` | packages/caller-controller-core/src/index.js:610-627 | over every run of a record with a pinned key, it ends succeeded on a package the responder did not sign if and only if that package carries no signature and does not declare its signature invalid |
| `ResultExchange.UnsignedSucceeds` | packages/caller-controller-core/src/index.js:610-627 | a record with a pinned key succeeds on an unsigned package that anyone put into its queue |
| `ResultExchange.SignatureNamesPackage` | packages/caller-controller-core/src/index.js:610-627 | a package under a signature the responder issued is the package that signature was issued for |
| `ResultExchange.SignedMeansServed` | packages/caller-controller-core/src/index.js:629-694 | over every run with replays, redeliveries and strangers, a record succeeded on a signature holds an ok package the responder issued for this request, and every artifact behind it arrived with its size and digest |
| `ResultContext.HoldsItsOwnExactlyWhen` | packages/caller-controller-core/src/index.js:586-608 | over every run, a succeeded request holds at each point a package about itself from the responder, hotline and display code it names, if and only if it is never prepared for another after it succeeded |
| `ResultContext.ReassignedAfterwards` | packages/caller-controller-core/src/index.js:959-1008 | it happens: prepared for another responder after it succeeded, a request holds the package of the first |
| `ResultContext.SignedHoldsTheOutput` | packages/caller-controller-core/src/index.js:629-694 | a pinned record succeeded on a signature holds exactly what an executor returned in some step of the run, output and artifacts, for this request |
| `EnvFile.ParseEnvText` | packages/runtime-utils/src/index.js:147-163 | the loop returns what the lines say, later ones winning |
| `EnvFile.LineReadsBack` | packages/runtime-utils/src/index.js:147-163 | a printed line with a good key parses to that key and the cleaned value |
| `EnvFile.CleanedExactlyWhen` | packages/runtime-utils/src/index.js:15-20 | a value comes back unchanged exactly when its edges are not white and it is not in quotes |
| `EnvFile.RoundTripsExactlyWhen` | packages/runtime-utils/src/index.js:147-191 | parsing the printed file returns the same map if and only if every key and every value is good |
| `EnvFile.UpdateEnvFile` | packages/runtime-utils/src/index.js:193-211 | undefined updates are skipped, null removes only when asked to, and the file written is the printed result |
| `EnvFile.LastUpdateDecides` | packages/runtime-utils/src/index.js:193-211 | whatever the updates, the last one about a key decides: its value is there, or after a null that removes it is gone |
| `EnvFile.UntouchedStays` | packages/runtime-utils/src/index.js:193-211 | a key no update is about keeps what it had |
| `EnvFile.UpdateReadsBack` | packages/runtime-utils/src/index.js:193-211 | whatever the file held before, reading it back after good updates gives the updated map with each value cleaned |
| `ResponderIdentity.UnescapeEncode` | apps/ops/src/config.js:74-80 | unescaping undoes escaping exactly for texts without a backslash followed by an n |
| `ResponderIdentity.ReadsBackExactlyWhen` | apps/ops/src/config.js:74-80 | a PEM goes through an env entry unchanged exactly when it is not empty, holds no literal escape and has safe edges |
| `ResponderIdentity.WrittenKeysReadBack` | apps/ops/src/config.js:647-662 | whatever the file held, each written key is read back exactly when it survives the trip, and the responder id with them when its edges are clean |
| `ResponderIdentity.FirstGivenIsFirst` | apps/ops/src/config.js:630-646 | the first candidate that is there and not empty names the responder, and the random one only when there is none |
| `ResponderIdentity.OpsState.EnsureResponderIdentity` | apps/ops/src/config.js:630-663 | existing keys are used and nothing is written; otherwise the generated pair is written, re-read from the file, and returned exactly when it survives |
| `InputNormalizer.AcceptedExactlyWhen` | apps/caller-skill-adapter/src/server.js:580-664 | a value is accepted exactly when it has the type and the choices its schema demands, and only trimming changes it |
| `InputNormalizer.TypesMean` | apps/caller-skill-adapter/src/server.js:612-664 | an integer is a finite number that a whole number equals, so every integer is a number, and every other type takes its own kind only |
| `InputNormalizer.ComplaintsMean` | apps/caller-skill-adapter/src/server.js:580-664 | a refused value comes back as it was under one complaint, choices before type, and a warning means exactly that an accepted string lost white edges |
| `InputNormalizer.AllSettleExactlyWhen` | apps/caller-skill-adapter/src/server.js:585-611 | every accepted value settles in one pass exactly when the trimmed form of every string choice is a choice |
| `InputNormalizer.Findings.NormalizeValueBySchema` | apps/caller-skill-adapter/src/server.js:580-664 | the value, the complaint and the warning of one field |
| `InputNormalizer.ValidatePreparedInput` | apps/caller-skill-adapter/src/server.js:666-728 | the two loops compute the report over all fields and requirements; an unsupported schema is the only error then |
| `InputNormalizer.AcceptedInput` | apps/caller-skill-adapter/src/server.js:666-728 | no errors exactly when every field is allowed with its type and choices and every requirement is met, and then the result has the input's own fields in normal form |
| `InputNormalizer.SecondPassExactlyWhen` | apps/caller-skill-adapter/src/server.js:666-728 | validating an accepted input again returns it unchanged without errors or warnings exactly when no declared string was trimmed out of its choices |
| `SupervisorFence.OneLiveChildPerService` | apps/ops/src/supervisor.js:1448-1543 | under every interleaving a live child is the registered process of its service, one per service at most |
| `SupervisorFence.OrderlyRunsAreFenced` | apps/ops/src/supervisor.js:3138-3156 | in every reachable state each final stop has ruled out what its phase promises: pending starts after the drain, live children after their sweep, everything after its return |
| `SupervisorFence.FinalStopIsFinal` | apps/ops/src/supervisor.js:3138-3156 | once a final stop has returned nothing is live, nothing is being launched and nothing can be |
| `SupervisorFence.OneRoundDrains` | apps/ops/src/supervisor.js:3145-3148 | a final stop drains in one round, so the bound of sixteen is never what ends the drain |
| `SupervisorFence.FenceStaysUpExactlyWhen` | apps/ops/src/supervisor.js:3153-3155 | from any state with the fence up it stays up through a continuation if and only if no stop that is not final returns in it |
| `SupervisorFence.LaunchedAfterFinalStop` | apps/ops/src/supervisor.js:3138-3156 | a final stop and another one overlap: the final one returns, the other takes the fence down, and a service is launched and lives |
| `SupervisorRuntime.WaitForProcessExit` | apps/ops/src/supervisor.js:1226-1232 | polling every 50 ms sees the exit exactly when it happens within the timeout |
| `SupervisorRuntime.HonoursExactlyWhen` | apps/ops/src/supervisor.js:1246-1253 | a signal counts as honoured within three seconds of SIGTERM or two of SIGKILL, and an embedded server always |
| `SupervisorRuntime.Runtime.BeginEnsure` | apps/ops/src/supervisor.js:1448-1459 | refuse while stopping, hand out a current process, join a pending start, or register one new launch |
| `SupervisorRuntime.Runtime.StopProcessInfo` | apps/ops/src/supervisor.js:1234-1253 | an embedded server is gone once closed, a child exactly when it honours SIGTERM within three seconds or SIGKILL within two more |
| `SupervisorRuntime.Runtime.StopManagedServices` | apps/ops/src/supervisor.js:3138-3156 | at most one drain round, no pending start left, no live child if signals are honoured, and no launch possible after a final stop |

## Left out

- HTTP servers, routing, headers, body reading and fetch wrappers: only the state change of each route is modelled.
- Lifecycle events, progress beats, metrics, heartbeats, timelines and log lines: observational, taken as steps that change nothing and do not throw.
- Cryptography itself, PEM parsing and key normalisation: ideal signatures and an arbitrary digest stand in for them.
- Result canonicalisation, recoverability classes and report validation: their package is not part of this model.
- Payload, constraints, delays, leases, usage and timing fields: carried along by the code and never inspected by the modelled branches.
- The difference between an output that is `null` and none at all: both are no output.
- Numbers that are not numbers (a malformed priority, size limit, deadline or batch size): priorities, sizes and deadlines are integers here.
- Where a result is addressed: one reply address, not the three candidates of the code.
- A responder that changes its identity at run time by registering with the platform: identity is part of the fixed configuration.
- Hydrate: leaves out identity, hotlines and heartbeat, which the code also takes from the snapshot; identity is fixed here and nothing modelled reads the other two.
- Downloading the caller's input artifacts before a run: a failure there ends as an error execution, which the model allows as any execution.
- Deferred executions: a run that ends without finalizing is covered by the world's steps, the route that completes one later is not.
- Executors, subprocess adapters and their timeouts: an execution is an arbitrary result.
- Resolving a `local://` address to a receiver name, message timestamps and the hub's health and peek operations: the hub is addressed by receiver name.
- Relay, email and Gmail transports beyond base64url: network clients.
- What the runtime's base64 decoder does after a padding character in the middle of malformed text: every character outside the alphabet is skipped here.
- Wall-clock text: times are integers in milliseconds, so two instants that print alike are equal.
- The task table of the sources shares task objects between map and callers; here tasks are values and every write goes through the table.
- Killing whatever holds a service's port, health polling and the embedded relay's server: the launch is one step that yields a child or fails.
- The order of keys the locale picks for the env file: the theorems hold for every order.
- Values in an env update that are not strings: the model has strings, null and undefined.
- Draft building, catalog scoring, configuration merging, secret stores, sessions and the user interface: outside the modelled cores.
- ValidatePreparedInput: says nothing about the value returned beside the error for an unsupported schema, which is the candidate itself.
- ProcessInbox: one uninterrupted pass; overlapping passes are the steps of `ResponderWorld`, whose theorems do not use this method. Rejections are saved here at once, where the code sends the result first.
- StartsTheFirst: applies while nothing was pushed behind the sorted order, because a re-run is appended without sorting.
