# The presigned-upload protocol, verified

One workflow runs per upload, over three pieces of shared state: the `uploads` table, the object
store, and the workflow engine's histories, signals and timers. The code of each piece is short; what
is hard is every interleaving of client PUTs, completion signals, one timer, parallel activities that
are retried and may take effect while reporting failure, timed-out attempts that go on acting, worker
crashes followed by history replay, and unboundedly many uploads at once. This project models that
protocol in Dafny 4.11 and proves what it promises. `dafny verify dfyconfig.toml` checks all of it.

## How it is organised

- **Vocabulary.** `Types`, `Keys` (object keys and workflow ids, and that they never collide).
- **One attempt.** `Attempts` cuts each activity at its external calls: `Next` is the call an attempt
  makes, `Resume` where the reply takes it, `Perform` what the table, the bucket and the image service
  do with it; a call may fail before its effect, after it, or not at all. `Finish` is an undisturbed run.
- **The workflow code.** `Workflow.UploadWorkflow` is the imperative code over a recorded history,
  proved to compute `Exec`, the replay; `Advance` resumes a cached program point.
- **One upload.** `Machine` is a total step function; a run is any sequence of moves at all.
  `History` and `Inv` prove that stepping and replaying agree; `Safety`, `SafetyTheorems`,
  `StatusOrder`, `Provenance`, `FanOut`, `Signals`, `Progress`, `Deadline`, `Verdicts`, `Checks`,
  `Redundant` and `Once` hold the theorems; `Blocks`, `Reachable`, `Premises`, `Lateness`, `Unchecked`
  construct the runs that make tables exact and conditions sharp.
- **All uploads.** `World` acts on shared maps; projected on one id, a run of the world is a run of
  the machine. `OwnerView` and `Orphans` carry the theorems to what an HTTP client sees.
- **The code that changes state.** `Storage.ObjectStore`, `Metadata.Repository`, `Worker.Activities`,
  `Pipeline.Orchestrator`, `Uploads.Service`, `Transport.Server` and `Imaging.Server` are classes whose
  methods are proved against the functions the theorems are about.
- **The image service.** `Imaging` has the counting semaphore under any number of requests.

## Premises

- Ids are fresh and contain no slash. Strings are sequences of bytes.
- Each read or write of one object, and each SQL statement, is atomic.
- Resizing is a deterministic partial function of the bytes and the size; type sniffing is a predicate
  of the first 512 bytes. Both are parameters (`Config`), and so is the list of sizes, of any length,
  with distinct names other than `original` (`Good`).
- A URL signed at `t` accepts PUTs at every time before `t` plus its lifetime.
- A timed-out attempt may go on acting. Where a theorem requires `Steady`, attempts of Processing may
  not; `Lateness.OnlyLateProcessingBreaksOrder` shows that status order needs exactly that.
  Where one requires `Prompt`, no attempt has effects once its timeout has been reported.

## Where the code and its comments disagree

- internal/pipeline/workflow.go:69 says that a failed Validate has set `rejected` and deleted the
  object. In a run it has exactly when `Verdicts.RejectionSticksInRun`; for an attempt left undisturbed
  that is `Attempts.RejectionSticks`.
- internal/pipeline/orchestrator.go:32-33 says that a workflow that is not found has finished. It has
  exactly when a start of it had taken effect (`Orphans.NotFoundMeansFinishedIff`); otherwise the row
  stays `pending` for ever while every completion is answered with success (`Orphans.PendingForeverIff`,
  `Orphans.OrphanIsAnswered`).
- The repository's README.md:28 describes a webhook that docs/architecture.md:80-83 says is not built.
  It would be one more source of signals, and any number of signals is covered.
- The repository's README.md:33-38 lists seven statuses without saying that a workflow can end in
  `pending`, `validating` or `processing`. A run ends in a terminal status exactly if a write of one took
  effect (`StatusOrder.TerminalIffWritten`), as it has when the workflow returned nil;
  `Reachable.CloseTableIsExact` says which statuses are possible at which end.

## Model

| member | source | states |
|---|---|---|
| Attempts.ValidateVerdict | internal/pipeline/activities.go:42-73 | Without faults, Validate leaves `validating` and fails when the object is missing, passes an object with an accepted type and size, and deletes any other, marks it `rejected` and fails permanently |
| Attempts.RejectVerdict | internal/pipeline/activities.go:69-73 | `reject` returns its permanent error whatever happens to its delete and its status write |
| Attempts.FailedMeansRejectedIff | internal/pipeline/activities.go:42-73 | An attempt of Validate left undisturbed leaves, when it fails, `rejected` and no object if and only if every call up to the verdict was answered, the object was there, and neither of `reject`'s calls was lost |
| Verdicts.FailedMeansRejectedInRunIff | internal/pipeline/workflow.go:67-70 | For every run, with PUTs, timeouts and late calls at any time, in which Validate has settled with an error: the row reads `rejected` and there is no object if and only if an object was found bad, both of `reject`'s calls were made and not lost, and no PUT was accepted after the delete |
| Verdicts.TimeoutIsNoRejection | internal/pipeline/workflow.go:63-70 | Without a failed call: an attempt timed out after its first call closes the workflow with the row `validating` and the bad object in place |
| Verdicts.RefusalIsReturned | internal/pipeline/activities.go:56-73 | After any run that has come to Validate with an object that fails a check: left undisturbed, the workflow closes with Validate's error, for a bad type as such and for an oversized object as such |
| Attempts.ResizeVerdict | internal/pipeline/activities.go:77-82 | An attempt of Resize succeeds exactly when nothing fails, the original exists and can be resized; all it can change is its own variant |
| Attempts.ResizeRetries | internal/pipeline/activities.go:75-82 | Resize is idempotent: a successful attempt leaves the same state and result whatever an earlier attempt did |
| Workflow.UploadWorkflow | internal/pipeline/workflow.go:36-95 | The imperative workflow (select, early returns, fan-out and fan-in loops, last resize error kept) computes the replay function `Exec` on every recorded history, and what it returns is what the history says of the activity it awaited last, or after Fail the error the fan-in kept |
| Workflow.GetAndReturn | internal/pipeline/workflow.go:58-58 | Awaiting the last activity blocks as long as it has not settled; then it closes the workflow with nil if the activity succeeded, its own error if it failed, or the carried resize error, and tells the engine that result |
| History.ReplayPrefix | internal/pipeline/workflow.go:36-95 | The commands issued by replaying any prefix of any history are a prefix of those issued by replaying all of it |
| Inv.ScanFinds | internal/pipeline/workflow.go:83-88 | The fan-in loop stops at the first unsettled future, with the last failing spec in list order among those before it |
| Inv.AdvanceIsExec | internal/pipeline/workflow.go:36-95 | In every state that satisfies the invariant, resuming the cached program point and re-running the code from the top give the same program point and the same commands |
| Inv.WfStepKeeps | internal/pipeline/workflow.go:36-95 | Every move of the engine and the workers keeps the invariant that ties program point, futures, timer and history together, the timer being cancelled or fired from the choice of a branch on |
| Inv.CrashIsInvisible | internal/pipeline/workflow.go:36-95 | A crash and replay in a state that satisfies the invariant changes nothing |
| SafetyTheorems.ReplayIsInvisible | internal/pipeline/workflow.go:36-95 | In every reachable state, replaying the history gives the cached program point and exactly the commands issued so far |
| SafetyTheorems.CrashesDropOut | internal/pipeline/workflow.go:36-95 | Any run ends in the same state as the run with all its crashes removed |
| SafetyTheorems.SettledIsFinal | internal/pipeline/workflow.go:37-40 | A settled activity is never run again: result and attempt count are final in every continuation |
| SafetyTheorems.CompleteLasts | internal/pipeline/workflow.go:57-94 | Once a row reads `complete`, the original and every variant exist then and in all later states, even if timed-out attempts act late |
| SafetyTheorems.BranchesExclude | internal/pipeline/workflow.go:48-94 | Abandon and Validate never both run; a delete of the original and a store of a variant never both take effect; at most one terminal status is ever written; Complete or Fail is scheduled only after all resizes settled |
| SafetyTheorems.CreationChain | internal/upload/upload.go:43-59 | Whatever fails in Negotiate: a URL has a workflow, a workflow has a row, and every stored key is the original or a variant of such an upload |
| SafetyTheorems.AcceptedSizesAreStored | internal/transport/handlers.go:164-170 | The sizes the image handler accepts are the keys that `complete` promises, for the source's list of sizes |
| SafetyTheorems.RowStays | internal/metadata/metadata.go:44-47 | In every run a row once made stays, with its owner, file name, content type and creation time |
| StatusOrder.PrecedesIsClosure | internal/pipeline/activities.go:42-104 | The order on statuses is the reflexive, transitive closure of the diagram's edges, antisymmetric, and the terminal statuses are exactly those with no edge out |
| StatusOrder.StatusFollowsEdges | internal/pipeline/activities.go:42-104 | Every single step of every run in which no Processing attempt lingers follows one edge of the status diagram or none |
| StatusOrder.StatusIsMonotone | internal/pipeline/workflow.go:57-94 | In every such run, any two reads of a row see statuses in order, and a terminal status is never left |
| StatusOrder.CloseStatus | internal/pipeline/workflow.go:57-94 | In every such run, a workflow that has closed shows a status of the close table; after Fail its error is that of the last failing resize |
| StatusOrder.ReturnsItsResult | internal/pipeline/workflow.go:57-94 | In every run, late attempts included, a closed workflow returned nil if and only if the activity it awaited last succeeded and otherwise that activity's own error; after Fail, the error of the last failing resize in list order; and the engine was told just that |
| StatusOrder.TerminalIffWritten | internal/pipeline/workflow.go:57-94 | In every such run a row reads a terminal status if and only if a write of one took effect, acknowledged or not; a workflow that returned nil always leaves one |
| Reachable.CloseTableIsExact | internal/pipeline/workflow.go:57-94 | In such runs a workflow can close after a given activity, with nil or an error, and show a given status if and only if the close table says so (for at least one size, and given one image that passes and can be resized and one that does not pass) |
| Provenance.VariantsHaveOriginals | internal/pipeline/activities.go:77-82 | Every stored variant is the resized form of an original that was in the store at an earlier state, after the signal was consumed |
| Checks.PassesUnlessPut | internal/pipeline/activities.go:46-66 | In every run, late attempts included: if Validate has succeeded and the last PUT was accepted before its second call, the original is there and passes both checks |
| Checks.OneCheckedOriginal | internal/pipeline/activities.go:42-87 | If the last PUT was accepted before Validate's third call, all variants ever stored come from the one original in the store; if before its second, that original passes both checks; with no PUT from the start of Validate on, it is the one that was there then |
| Unchecked.UncheckedIff | internal/pipeline/activities.go:46-66 | A run in which Validate succeeded can hold an original that fails the checks if and only if the last PUT was accepted after two of Validate's calls (between sniff and size check) or after all three (given one image that passes and one that does not but is small enough) |
| Unchecked.CompleteUncheckedIff | internal/pipeline/workflow.go:62-94 | The same of a run that reads `complete` (for at least one size, and given that both images can be resized) |
| Unchecked.RaceCompletes | internal/pipeline/activities.go:50-66 | The race as a run: one PUT between sniff and size check makes Validate succeed although neither object passes both; the upload closes `complete` with the refused object as original and every variant made from it |
| Unchecked.CompleteWithUncheckedOriginal | internal/pipeline/workflow.go:62-94 | The late PUT as a run: it ends `complete` with an original that fails the checks, every variant being that of the original that passed them |
| Unchecked.OriginalCanTurnIff | internal/upload/upload.go:11-58 | In any run, an upload that reads `complete` can from there on come to hold any other original, checked or not, with status and variants unchanged, if and only if its URL is still live |
| FanOut.FanOutIsSequential | internal/pipeline/workflow.go:76-94 | Every interleaving of resize attempts, retried, timed out or late, ends in the objects and the error that going through the specs in list order gives, from which stores took effect and how each resize settled |
| FanOut.RunStoresLogged | internal/pipeline/activities.go:77-87 | In every run a variant is in the bucket if and only if a store of it took effect |
| FanOut.InterleavingsAgree | internal/pipeline/workflow.go:83-94 | Two interleavings in which the same stores took effect and each resize settled alike end in the same objects, the same error and the same branch |
| Once.DroppingAgreesIff | internal/pipeline/workflow.go:37-40 | For every prompt run that returned nil, with PUTs at any time: leaving out every attempt whose success was not the one recorded, and nothing else, gives a run with one successful attempt of each scheduled activity and the same row, variants, clock, URL, history and commands; the original is the same too if and only if it is not so that a redundant attempt of Abandon deleted one, no PUT was accepted since, and the acknowledged attempt's delete was lost |
| Once.CompleteDropsAll | internal/pipeline/workflow.go:62-94 | After Complete there is no exception: the run without its redundant attempts ends in the same state |
| Once.AtLeastOnceIsExactlyOnce | internal/pipeline/workflow.go:37-40 | Every prompt run that returned nil, without exception, ends like one made of its acknowledged attempts alone, where they were, with at most one lost delete of Abandon made not lost |
| Once.DroppingDiffers | internal/pipeline/activities.go:101-104 | The exception as a run: after one attempt of Abandon that deletes and one that loses its delete, leaving out the first leaves the original behind |
| Redundant.OnceSimulates | internal/pipeline/activities.go:42-104 | At every point of such a run, the run without redundant attempts is related to it: same history and program point, the acknowledged attempts at the same place, everything else differing only in what redundant attempts have written |
| Signals.SurplusSignalsStutter | internal/pipeline/workflow.go:46-60 | Any run with any number of signals ends with the rows, objects, program point, commands, attempts and writes of the run that keeps only the consumed one |
| Signals.SignalIsNeverLost | internal/pipeline/workflow.go:44-60 | A signal recorded before the branch is chosen, even before the first step or after the timer fired, leads to Validate, and Abandon never runs |
| Signals.NothingNew | internal/pipeline/workflow.go:55-55 | Running the code again when nothing was recorded since the last time issues nothing |
| Progress.EngineMoveDrops | internal/pipeline/workflow.go:37-40 | Every move of the engine or a worker that changes anything lowers a measure |
| Progress.EngineTerminates | internal/pipeline/workflow.go:57-94 | In every run, the moves of engine and workers that change anything are bounded by the measure plus the signals and timer firings |
| Progress.NeverStuck | internal/pipeline/workflow.go:48-58 | A reachable open workflow can always move on, unless it waits at the select with neither signal nor timer; there nothing can |
| Progress.EngineCloses | internal/pipeline/workflow.go:48-94 | From any state that satisfies the safety invariant, as every reachable one does, once a signal has come or the timer has fired, engine and workers alone can close the workflow within the measure |
| Progress.AttemptsBounded | internal/pipeline/workflow.go:37-66 | A run uses at most 7 + 3n activity attempts, and at most 3 if the timer won |
| Progress.RetriesAreUsedUp | internal/pipeline/workflow.go:37-66 | In every run an activity has settled with an error that may be retried only after its third attempt, Validate after its one; a permanent error is Validate's |
| Deadline.LatePutWindow | internal/upload/upload.go:11-59 | A PUT accepted after the timer fired falls into a window shorter than the delay from starting the timer to signing the URL |
| Deadline.AbandonedStaysEmpty | internal/pipeline/activities.go:101-104 | If the URL was signed no later than the timer was started, then once Abandon's delete took effect there is no original, then and ever after |
| Deadline.NoZombieTimer | internal/pipeline/workflow.go:60-60 | In every run, once Validate is scheduled the timer is not armed; it stays as it is, cancelled exactly if it had not fired before, and whether the history holds a firing never changes again |
| Premises.LateSigningLeavesOriginal | internal/upload/upload.go:51-57 | For every positive delay between starting the timer and signing the URL, a run ends `abandoned`, the delete done, with an original in the store |
| Premises.HoldsOriginalAgainIff | internal/upload/upload.go:11-59 | For any delay, such an upload can hold an original if and only if the URL was signed after the timer was started |
| Lateness.LateAttemptBreaksOrder | internal/pipeline/workflow.go:37-40 | If an attempt of Processing may act late, an upload closed as `complete` can turn back to `processing` |
| Lateness.OnlyLateProcessingBreaksOrder | internal/pipeline/workflow.go:37-94 | Whichever activities' attempts may act late, two reads of a row can be out of order if and only if Processing is among them |
| Premises.FailedPresignIsReaped | internal/upload/upload.go:54-57 | After any run that has come as far as presigning, with no signal and the branch not chosen: if signing fails there is no URL, and clock and workers alone close the upload as `abandoned` with no original |
| Premises.TimerReaps | internal/pipeline/workflow.go:44-59 | In any state that satisfies the safety invariant, as every reachable one does, an upload with an unsignalled workflow can be closed by the clock and the workers alone, as `abandoned` with no original |
| Blocks.AttemptRuns | internal/pipeline/activities.go:42-104 | The machine, left to run one attempt undisturbed, does exactly what `Finish` says |
| Keys.ObjectKeyInjective | internal/pipeline/activities.go:37-37 | The object key of a slash-free id determines the id and the name |
| Keys.WorkflowIdInjective | internal/pipeline/orchestrator.go:21-21 | The workflow id determines the upload id |
| World.StepProjects | internal/pipeline/activities.go:37-104 | A move of one upload on the shared maps is a step of that upload and changes nothing under any other id |
| World.UploadsAreIndependent | internal/pipeline/orchestrator.go:21-41 | Any interleaved run of any number of uploads, projected on one id, is a run of the single-upload machine |
| World.OthersDoNotMatter | internal/pipeline/activities.go:37-104 | Two runs that make the same moves for one id leave it in the same state, whatever they do for others |
| World.CompleteLastsInTheWorld | internal/pipeline/workflow.go:57-94 | In the shared bucket, the keys of an upload that reads `complete` exist then and ever after, whatever else goes on |
| World.EveryKeyHasItsRow | internal/upload/upload.go:43-59 | Every key in the bucket belongs to exactly one upload, which has a row and a workflow |
| World.FinishProjects | internal/pipeline/activities.go:42-104 | An activity run to its end on the shared state does to its upload what `Finish` says and nothing to any other |
| Storage.ObjectStore.Get | internal/storage/objectstore.go:87-94 | Returns the object, or why not |
| Storage.ObjectStore.GetFirstNBytes | internal/storage/objectstore.go:96-107 | Returns the prefix of at most n bytes |
| Storage.ObjectStore.Head | internal/storage/objectstore.go:115-121 | Returns the size and the content type of an object that exists |
| Storage.ObjectStore.Put | internal/storage/objectstore.go:109-113 | Overwrites one key, its bytes and its content type, and no other; a lost acknowledgement is an error with the object written |
| Storage.ObjectStore.Delete | internal/storage/objectstore.go:123-125 | Removes one key and no other; a missing key is no error |
| Storage.ObjectStore.Presign | internal/storage/objectstore.go:68-85 | Signs PUT and GET of the key until now plus the lifetime, and refuses any other method |
| Storage.ObjectStore.Accept | internal/storage/objectstore.go:16-19 | A presigned PUT writes its key until it expires |
| Metadata.Repository.Create | internal/metadata/metadata.go:34-41 | Inserts one row; an existing id is an error that changes nothing |
| Metadata.Repository.UpdateStatus | internal/metadata/metadata.go:44-47 | Changes the status of one row; a missing row is a silent no-op |
| Metadata.Repository.Get | internal/metadata/metadata.go:50-58 | Returns status, owner and content type, or not found |
| Metadata.Repository.Query | internal/metadata/metadata.go:63-69 | The query's result: exactly the owner's rows, once each, newest first |
| Metadata.Repository.List | internal/metadata/metadata.go:62-83 | Succeeds exactly when no part of the read failed, and then returns a full listing |
| Metadata.ListedMeansOwned | internal/metadata/metadata.go:50-83 | An id is in List(u) exactly when Get reports owner u, with the same status and content type |
| Metadata.ListingIsUnique | internal/metadata/metadata.go:68-68 | When no two of an owner's uploads were created at the same time, the listing is determined |
| Worker.Activities.Validate | internal/pipeline/activities.go:42-67 | Does to the shared state, and returns, what the attempt's coroutine run to its end does, for every pattern of faults |
| Worker.Activities.Reject | internal/pipeline/activities.go:69-73 | The same, from the verdict on: the object is deleted and the row marked `rejected`, each unless its call is lost, and the verdict's error is returned in any case |
| Worker.Activities.Resize | internal/pipeline/activities.go:77-87 | The same, for one spec; a success has stored the variant under the announced content type |
| Worker.Activities.Processing | internal/pipeline/activities.go:89-91 | The same, marks the row `processing`, and returns the call's failure |
| Worker.Activities.Complete | internal/pipeline/activities.go:93-95 | The same, marks the row `complete`, and returns the call's failure |
| Worker.Activities.Fail | internal/pipeline/activities.go:97-99 | The same, marks the row `failed`, and returns the call's failure |
| Worker.Activities.Abandon | internal/pipeline/activities.go:101-104 | The same: the original is deleted unless that call is lost, the row marked `abandoned` unless that one is, and only the second call's failure is returned |
| Pipeline.Orchestrator.Start | internal/pipeline/orchestrator.go:24-30 | Starts a workflow under the upload's id unless one is open |
| Pipeline.Orchestrator.Signal | internal/pipeline/orchestrator.go:34-41 | Records the signal in an open execution and in no other; not found counts as success |
| Pipeline.SignalIsRecorded | internal/pipeline/orchestrator.go:34-41 | A signal is recorded in an open execution, acknowledged or not, unless the call fails before its effect; nothing else changes |
| Pipeline.AnswerTellsDelivery | internal/pipeline/orchestrator.go:34-41 | The engine answers a signal with success exactly when it was recorded and with not found exactly when it changed nothing |
| Orphans.NotFoundMeansFinishedIff | internal/pipeline/orchestrator.go:32-41 | In every run, a workflow that is not found has returned if and only if a start of it had taken effect |
| Orphans.PendingForeverIff | internal/upload/upload.go:48-53 | Of the uploads Negotiate made a row for, exactly those whose workflow was not started stay `pending` in every continuation of every run |
| Orphans.OrphanIsAnswered | internal/transport/handlers.go:137-151 | All that time the owner reads `pending`, and completing the upload is answered 200 and records nothing |
| Uploads.Service.Negotiate | internal/upload/upload.go:43-59 | Under every combination of failures, what Negotiate did is a run of the world; the caller gets an id and a URL exactly when nothing failed |
| Uploads.NegotiationRuns | internal/upload/upload.go:43-59 | Which of row, workflow and URL exist afterwards, for every combination of failures, and that nothing else changed |
| Uploads.Service.Complete | internal/upload/upload.go:62-64 | Completing is the signal move of that upload |
| Uploads.UrlIsGoodAsAnnounced | internal/upload/upload.go:54-67 | Whatever happens to this and all other uploads after a successful Negotiate, a PUT through its URL is stored until the announced number of seconds has passed since then, and changes nothing from then on |
| Transport.Server.RequireOwner | internal/transport/handlers.go:223-240 | Grants with nothing written, or has written the refusal; a foreign id and a missing one are refused alike |
| Transport.Server.ImageStatus | internal/transport/handlers.go:206-217 | Sends the status answer |
| Transport.Server.Images | internal/transport/handlers.go:153-179 | Sends the image answer: id, owner and size are checked in that order |
| Transport.Server.CompleteUpload | internal/transport/handlers.go:137-151 | Sends the completion answer, and signals only after the owner check |
| Transport.Server.ListImages | internal/transport/handlers.go:183-204 | Sends a full listing of the caller's uploads, or the error when the read failed |
| OwnerView.OnlyOwnersGetIn | internal/transport/handlers.go:219-240 | In the three handlers of one upload alike: an id not 32 characters long is refused with 400, a failed lookup with 500, and every id the caller does not own, whether it exists or not, with 404 |
| OwnerView.OwnerIsTold | internal/transport/handlers.go:137-217 | The owner's status read answers the row's own status, and a completion 200 or, if signalling failed, 500 |
| OwnerView.OwnerIsServed | internal/transport/handlers.go:153-179 | Of the owner's image reads exactly those of the original and of the variants by name are served, with the row's content type, or 404 if the object cannot be read; any other size is refused with 400 |
| OwnerView.ListingShowsRows | internal/transport/handlers.go:183-204 | A listing describes, field by field, each of the caller's rows once and no other, newest first |
| OwnerView.OwnerSeesTheSame | internal/transport/handlers.go:137-240 | If two states agree on the caller's rows and objects, listing, status, image and complete answer the caller identically for every id |
| OwnerView.ForeignLooksAbsent | internal/transport/handlers.go:219-240 | To everyone but its owner an upload answers, the listing included, as if it did not exist |
| OwnerView.OwnerViewIsOwn | internal/transport/handlers.go:137-240 | Two runs of the world that make the same moves for the caller's own uploads show the caller the same, whatever other owners do |
| OwnerView.CompleteIsServed | internal/transport/handlers.go:164-178 | Once a status read answered `complete`, every later GET of the original or of a variant is served, with the object and the row's content type, and a GET of any other size refused with 400 |
| OwnerView.ServedAsNamed | internal/transport/handlers.go:164-178 | In every run, what the owner is served under the name of a variant is an original of the upload, stored after the signal was consumed, resized to the dimensions in the name |
| OwnerView.PollsAreOrdered | internal/web/static/app.js:8-9 | Unless a Processing attempt of it lingers, two polls of an upload are answered with the row's own status at the time, these are in status order, and the four terminal statuses stay |
| Imaging.Server.constructor | internal/imaging/server.go:25-32 | The limit is the argument, or 1 if it is less |
| Imaging.Server.Enter | internal/imaging/server.go:37-44 | Without a limit every request enters; with a free slot it enters, or gives up if it is cancelled and that case is taken; with none it gives up if cancelled and blocks otherwise; entering takes one slot |
| Imaging.Server.Leave | internal/imaging/server.go:40-40 | The deferred receive frees one slot |
| Imaging.Server.Resize | internal/imaging/server.go:34-52 | From entry to return the channel is left as it was; a request let in is answered with the resized image, or an invalid argument if there is none, and one not let in with the context's error if cancelled |
| Imaging.SlotsAreDecoders | internal/imaging/server.go:27-52 | Under any number of requests, cancellations and failures, occupied slots equal the requests now decoding and never exceed the limit; each entry is released exactly once; a cancelled waiter took and freed nothing |
| Imaging.CancelReleases | internal/imaging/server.go:37-44 | In every reachable pool, a waiting request that is cancelled stops waiting at its next select, and with all slots taken returns the context's error with no slot taken; one not cancelled never returns from the select |
| Imaging.AnswersAreResizes | internal/imaging/server.go:37-52 | In every run a returned request is answered with the resized image, an invalid argument or the context's error if and only if, in turn, it was let in and its image can be resized, was let in and it cannot, or was not let in, which happens only to cancelled ones |
| Imaging.WorkerIsAnswered | internal/pipeline/activities.go:82-86 | A worker's call, when nothing is lost on the way, gets the reply the service gives a request with the same image and size |
| Imaging.EmptyWhenAllReturned | internal/imaging/server.go:37-44 | Once all requests have returned the channel is empty |
| Imaging.NeverDeadlocks | internal/imaging/server.go:37-44 | A waiting request can enter now, or some decode holds a slot whose release lets it in |
| Imaging.Drains | internal/imaging/server.go:34-52 | From any state with its slots accounted for, at most two moves for each request not yet returned make them all return and leave the channel empty |
| Imaging.OneLife | internal/imaging/server.go:34-52 | A request by itself, from arrival to return, is answered as one call of `Server.Resize` is, and leaves the channel as it was |

## Left out

- The sniffing algorithm, image decoding and encoding, and the int32 conversion of sizes: library code behind `Config`.
- Stored content types in the protocol machine: `Storage.ObjectStore` keeps them, but nothing in the protocol reads them back, so `Machine` and `World` carry bytes only.
- The error that a ranged read of an empty object gives on some stores: it is covered only as a call that fails before its effect.
- Storage.ObjectStore.GetFirstNBytes: requires a positive length, because ranges of length zero or less are the client library's business; the only caller passes 512.
- Backoff intervals and the lengths of activity timeouts: an attempt may be timed out at any moment, so every timing is covered.
- Metadata.Repository.List: the rows handed to the loop come from `Query`, whose order among equal creation times is left open, as in SQL.
- Deletion of users, which would cascade to their uploads: no code does it.
- Authentication, registration, the middleware that finds the caller, `createUpload`'s input checks, JSON, routing and CORS: plumbing around the operations modelled.
- The SQL driver, the S3 client, URL signatures and the engine's own internals: only their contracts are modelled.
- The disk store in internal/storage/storage.go: not wired into any binary.
- Randomness of ids: replaced by the premise that they are fresh.
