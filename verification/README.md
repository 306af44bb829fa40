# Native-mode protocol of the Codex gateway, verified

Several browsers act on one shared Codex server through one gateway process. The gateway keeps a
reduced copy of what the server tells it, sends every request through one socket worker, and records
every action in a durable store so that a retry, a crash or a second device never repeats it. This
project models that protocol, the part of `claude-monitor-codex` with the most state, and proves what
it is for.

| file | what it models |
|---|---|
| `Reducer.dfy` | the shared state and its transitions: reduction of native messages, snapshot merge, connections, resumes, subscribers (`state.rs`) |
| `GatewayState.dfy` | the same state as an object updated in place, each method proved against its transition (`state.rs`) |
| `ReducerRuns.dfy`, `ReducerGuarantees.dfy` | runs of the state: one generation, fences that never lapse, gap-free subscribers |
| `ReducerTokens.dfy` | request tokens and the answers they admit |
| `ReducerMerge.dfy`, `ReducerStreams.dfy`, `ReducerEvents.dfy`, `ReducerContent.dfy` | what a merge keeps, what a stream shows, what each message leaves behind, field by field |
| `ReducerIsolation.dfy` | what a message may touch: its own thread's controls, exactly, and nothing of any other thread |
| `Worker.dfy`, `WorkerCalls.dfy`, `WorkerControls.dfy` | the socket worker as a state machine over the shared state (`client.rs`) |
| `WorkerAnswers.dfy`, `WorkerStores.dfy` | what an answer says of the reply it came from, and what it leaves in the shared state |
| `WorkerRuns.dfy` | concrete runs of the worker, and what its end leaves behind |
| `WorkerLoop.dfy` | the worker's loop as an object with its tables (`client.rs`) |
| `QueueRead.dfy` | the paginated queue read, in place and as a function of what it looks at (`lib.rs`) |
| `QueueStamps.dfy`, `QueueIsolation.dfy` | what the shared state's queue stamps tell a reader, and exactly when a read is isolated |
| `Disconnect.dfy`, `DisconnectRun.dfy` | the two-phase disconnect as a machine over the shared state, and in place (`lib.rs`) |
| `Receipts.dfy`, `ReceiptReplays.dfy` | the durable identity store, and what it answers to a repeated claim (`receipts.rs`) |
| `Steering.dfy`, `SteeringProofs.dfy`, `SteeringCalls.dfy`, `SteeringActions.dfy` | actions over the shared store: queued steering and sending (`lib.rs`) |
| `History.dfy`, `HistoryProofs.dfy`, `HistoryConservation.dfy`, `HistoryProject.dfy` | the archived rollout projection (`history.rs`) |
| `HistoryAcceptance.dfy` | which rollouts it accepts, said of the records alone |
| `Credential.dfy` | publication of the server credential (`auth.rs`) |
| `Wrappers.dfy` | absence, results, identifiers and the failure classes of a native call |

How the source is read:

- Every section under a mutex and every SQLite transaction is one atomic step. Runs are arbitrary
  sequences of such steps by any number of threads, clients, gateways and processes.
- The socket, the clock, the native server, the file system and crashes are choices inside a step.
  Time is a number a step is given; deadlines are compared with it.
- JSON values are small datatypes that keep what the code looks at. Identifiers are natural numbers;
  0 is the empty string. Request ids are their own map keys.
- A token is the triple of namespace, epoch and number. A fingerprint is the hashed triple itself, a
  nonce is fresh, and the decision whether a directory is allowed is an input.

Where a promise holds only under a condition, the condition is stated and proved to be the right one:

- Freshness of request tokens needs that no native request is also an item notification: the one path
  of the reducer that consumes a message without an event would otherwise give two requests one token
  (`ReducerTokens.SilentRequestsCollide`). The exact condition is `ReducerTokens.TokensSettleExactly`.
  Answers need no such condition: a request consumed that way can never be answered, and
  `ReducerTokens.StaleAnswersNeverLand` and `WorkerControls.AnswersLandWhereChecked` hold over every run.
- A queue read is the queue of a single version only if it begins on a firm attachment: the thread is
  attached, and no pending resume reserved its subscription. The comment above `read_queue` promises
  it without a condition, but the reducer drops `thread/queue/changed` of a thread that is not
  attached before it marks anything (state.rs:686-700), so such a read sees no change.
  `QueueIsolation.IsolatedExactlyWhenFirm` is the exact condition, for every run of the worker and
  every server that notifies its changes; `QueueIsolation.LooseReadMixes` makes a mixed queue from any
  other readable state. Two ways to such a state are `QueueIsolation.UnopenedIsLoose` ("queue/cancel"
  reads the queue of a thread the gateway never opened, lib.rs:1387-1460) and
  `QueueIsolation.RacingResumesAreLoose` (of two devices opening one thread, the second reads the
  queue while the first's resume can still be refused and take the subscription away,
  client.rs:256-268).
- Credential agreement needs directory syncs that are honoured, or power that does not fail. The code
  takes an unsupported sync for success; `Credential.AgreementExactlyWhen` is the exact condition and
  `Credential.DisagreementWithoutSync` a run in which two processes hold different credentials.
- Resume counts are covered by the worker's outstanding resumes as long as the worker runs. Its end
  lets every pending call go without finishing its resume: the counts then stay covered exactly when
  there are none (`WorkerRuns.EndsCoveredExactlyWhen`); `WorkerRuns.StopLeavesACount` is a run with one.

A row that begins with "helper:" reads a step of a definition back; the results beside it use it.

## Model

| member | source | states |
|---|---|---|
| ReducerGuarantees.OneGenerationAlways | claude-monitor-codex/src/state.rs:214-275 | in every reachable state each live item, provisional item, plan and waiting plan carries exactly the current native epoch |
| ReducerGuarantees.RunKeeps | claude-monitor-codex/src/state.rs:201-1297 | over every run of every section: one generation, bounded fences and positive resume counts survive, and no thread's fence ever comes down |
| ReducerGuarantees.BootstrapSurvives | claude-monitor-codex/src/state.rs:248-275 | helper: publishing Connected after a bootstrap keeps cache, controls, streams and stamps, and the native epoch does not change |
| ReducerGuarantees.ReplacedConnectionShowsNothing | claude-monitor-codex/src/state.rs:214-247 | replacing a connection empties every stream and removes from each cached turn exactly the items the old connection kept live |
| ReducerGuarantees.StableItemsInOrder | claude-monitor-codex/src/state.rs:224-239 | the items that stay keep their order |
| ReducerGuarantees.InvalidForEver | claude-monitor-codex/src/state.rs:438-442 | a watermark invalidated once stays invalid in every later state, through reopening and forgetting |
| ReducerGuarantees.StaleSnapshotIgnored | claude-monitor-codex/src/state.rs:447-456 | helper: a snapshot or archived read with an invalidated watermark leaves the whole state unchanged |
| ReducerGuarantees.FencesNeverLapse | claude-monitor-codex/src/state.rs:667-743 | after a scope closure or an archive change of a known thread, a snapshot requested earlier changes nothing however late it is merged and whatever ran in between |
| ReducerGuarantees.ClosingSnapshotFences | claude-monitor-codex/src/state.rs:457-465 | the same after a snapshot that itself lies outside the allowed directories |
| ReducerGuarantees.SubscribersAreGapFree | claude-monitor-codex/src/state.rs:195-212 | a subscriber reads consecutive numbers from right after the status it was handed, holds at most 128 unread, and while attached was given every event so far |
| ReducerGuarantees.RunGapFree | claude-monitor-codex/src/state.rs:195-212 | for all subscribers over all runs: records only grow, and nothing is delivered after a cut-off |
| ReducerGuarantees.DeliveredGapFree | claude-monitor-codex/src/state.rs:209-211 | helper: an event cuts a reader off exactly when it left or its buffer is full; otherwise it is appended |
| ReducerGuarantees.OneEvent | claude-monitor-codex/src/state.rs:201-212 | every section emits at most one event and touches the event line in no other way |
| ReducerRuns.ReduceSteps | claude-monitor-codex/src/state.rs:648-1046 | a native message keeps generation, fences, counts and the silence of archived threads, and moves the event line by at most one |
| ReducerRuns.MergeSteps | claude-monitor-codex/src/state.rs:447-646 | so does a snapshot merge |
| ReducerRuns.MergeArchivedSteps | claude-monitor-codex/src/state.rs:353-395 | so does an archived read |
| ReducerRuns.ForgetSteps | claude-monitor-codex/src/state.rs:1195-1221 | so does closing a thread, with exactly one event |
| ReducerRuns.ChangeRaised | claude-monitor-codex/src/state.rs:1196-1206 | dropping the access stamp of a closed thread lowers no fence, because the change stamp dominates it |
| ReducerTokens.TokensSettleExactly | claude-monitor-codex/src/state.rs:749-785 | tokens stay fresh and one to one after a message if and only if it is not a new request consumed by a closed legacy stream |
| ReducerTokens.SilentRequestsCollide | claude-monitor-codex/src/state.rs:1115-1120 | a reachable state in which two different requests on one closed stream are given the same token |
| ReducerTokens.ProjectLine | claude-monitor-codex/src/state.rs:786-1046 | past the request checks exactly the closed streams emit nothing, and requests are only removed |
| ReducerTokens.RunTokens | claude-monitor-codex/src/state.rs:764-785 | over every run in which tokens settle they stay issued one to one, and a settled token keeps its owner |
| ReducerTokens.TokenForEver | claude-monitor-codex/src/state.rs:764-785 | over such runs an equal token at any later time means the same id, method and parameters, through replay, reuse and reconnects |
| ReducerTokens.ReduceProceeds | claude-monitor-codex/src/state.rs:749-785 | a message leaves the requests as they were or fewer, or with one new one whose number is the next, behind the line unless it was silent |
| ReducerTokens.RunAnswerable | claude-monitor-codex/src/state.rs:749-785 | over every run a request that can be answered has its token behind the event line, and a token keeps its request under its id |
| ReducerTokens.StaleAnswersNeverLand | claude-monitor-codex/src/lib.rs:1349-1385 | over every run, whatever the messages: an answer validated against a request and later deliverable reaches that same unchanged request, not archived, on the live epoch |
| ReducerMerge.MergeNewerLookup | claude-monitor-codex/src/state.rs:475-515 | the first merge loop, as what a lookup of any turn finds: a newer terminal turn wins, an unknown newer turn is added, everything else is as persisted |
| ReducerMerge.MergeItemsLookup | claude-monitor-codex/src/state.rs:545-575 | the item merge loop, as what a lookup of any item finds: live unfinished items are the cached ones, completed ones yield to persisted ones |
| ReducerMerge.MergeNewerIds | claude-monitor-codex/src/state.rs:475-515 | merged turns are the snapshot's in its order, then those only the cache knows in cache order |
| ReducerMerge.MergedTurnLookup | claude-monitor-codex/src/state.rs:466-577 | where each turn of an accepted merge comes from |
| ReducerMerge.MergeLosesNothingNewer | claude-monitor-codex/src/state.rs:475-515 | an accepted merge keeps every cached turn touched after its watermark; a newer terminal turn wins, a persisted terminal turn is not reverted, a legacy turn gives only its metadata |
| ReducerMerge.OpenItemsKept | claude-monitor-codex/src/state.rs:516-576 | the items of a turn both sides show in progress |
| ReducerMerge.MergeKeepsNewerSettingsAndStatus | claude-monitor-codex/src/state.rs:466-602 | newer settings stay with their directory, a newer status stays, otherwise the snapshot's are taken; other threads are untouched |
| ReducerMerge.MergeKeepsWellFormed | claude-monitor-codex/src/state.rs:473-577 | distinct turn ids, and distinct item ids within each turn, stay distinct |
| ReducerStreams.StreamRefinement | claude-monitor-codex/src/state.rs:829-1020 | an unfinished agent message shows its first text followed by all its deltas in order, over any run of other events and of watermarked snapshots that show its turn in progress |
| ReducerStreams.StreamBegins | claude-monitor-codex/src/state.rs:829-873 | how a message becomes live: from its start event, or empty from the first delta a late reader sees |
| ReducerStreams.ReduceStreams | claude-monitor-codex/src/state.rs:829-1020 | one message appends exactly its own delta to the stream and no other message touches it |
| ReducerStreams.MergeStreams | claude-monitor-codex/src/state.rs:520-617 | a watermarked snapshot of the thread neither cuts nor repeats the stream's text |
| ReducerEvents.TurnEventsAreNewer | claude-monitor-codex/src/state.rs:974-1003 | every turn or item event marks its turn newer than any snapshot requested so far, except on a closed stream |
| ReducerEvents.SettingsApplied | claude-monitor-codex/src/state.rs:786-796 | helper: settings replace the cached ones, set the thread's directory and watermark, and change nothing else |
| ReducerEvents.StatusApplied | claude-monitor-codex/src/state.rs:804-809 | helper: the same for a status |
| ReducerEvents.QueueEventStamps | claude-monitor-codex/src/state.rs:797-803 | helper: a queue event raises only the queue's watermark |
| ReducerEvents.ResolutionRemoves | claude-monitor-codex/src/state.rs:744-812 | helper: a resolution removes exactly the request it names |
| ReducerEvents.RequestsArePending | claude-monitor-codex/src/state.rs:749-785 | an admitted request is pending as sent; a replay changes nothing, anything else gets the next number |
| ReducerEvents.ItemEventApplies | claude-monitor-codex/src/state.rs:873-891 | an item event stores exactly its item; other items, turns and threads stay |
| ReducerEvents.TurnEventApplies | claude-monitor-codex/src/state.rs:852-872 | a turn event stores its turn; an empty item list keeps the cached items |
| ReducerEvents.ArchiveCloses | claude-monitor-codex/src/state.rs:667-685 | helper: archiving takes a thread's requests and provisional streams and nothing of another thread |
| ReducerEvents.ForgettingErases | claude-monitor-codex/src/state.rs:1195-1221 | helper: closing a thread leaves only its closed marks and loses nothing of another thread |
| ReducerEvents.UnattachedIsIgnored | claude-monitor-codex/src/state.rs:686-700 | helper: a message of a thread that is not attached, cached or not, does nothing, announces new history without content, or for a change of the archive fences a cached thread and silences it |
| ReducerEvents.FinishUndoesBegin | claude-monitor-codex/src/state.rs:399-434 | helper: finishing a resume restores the counts beginning it found, and leaves an archived thread without requests |
| ReducerEvents.PlansFollowHistory | claude-monitor-codex/src/state.rs:1261-1297 | a history keeps exactly the plans of turns it knows or that are newer, and promotes a waiting plan as soon as its turn is known |
| ReducerEvents.LegacyDeltaAppends | claude-monitor-codex/src/state.rs:1133-1190 | a legacy delta extends its own provisional stream in place and no other |
| ReducerEvents.DirtyUntilRead | claude-monitor-codex/src/state.rs:619-631 | a completion marks a legacy history as grown, and only a read begun after it clears the mark |
| ReducerContent.DeltasApply | claude-monitor-codex/src/state.rs:889-971 | a delta or patch changes exactly its own field of exactly the item it names: text, output, changes or one part of a reasoning item; only an agent delta shows an item that was not there; every other item, turn and thread stays |
| ReducerContent.LiveFollowsEvents | claude-monitor-codex/src/state.rs:974-1003 | an item event marks exactly its item live on the current connection, completed by its completion only |
| ReducerContent.LegacyReasoningExtends | claude-monitor-codex/src/state.rs:1133-1190 | a legacy reasoning delta extends one part of its own provisional stream in place and touches no other |
| ReducerContent.LegacyLifecycle | claude-monitor-codex/src/state.rs:1121-1190 | a legacy start shows exactly its own agent or reasoning item; a completion takes its stream away |
| ReducerContent.LegacyTurnCloses | claude-monitor-codex/src/state.rs:1060-1113 | a completed legacy turn takes the event's metadata and keeps its own items, loses its streams, and marks its history as grown |
| ReducerContent.TurnSettles | claude-monitor-codex/src/state.rs:974-1020 | a turn that completes keeps no live mark and no provisional stream, one that starts changes neither, and no other turn's is touched |
| ReducerContent.PlanStored | claude-monitor-codex/src/state.rs:701-743 | a plan in scope is kept with its turn if the turn is known and waits otherwise, one a thread; nothing else but the event line and its turn's mark changes |
| ReducerContent.PlanRefused | claude-monitor-codex/src/state.rs:701-743 | any other plan leaves the whole state as it was |
| ReducerContent.SnapshotRetires | claude-monitor-codex/src/state.rs:578-646 | an accepted snapshot retires exactly the live marks whose items it supersedes, and exactly the provisional streams of turns it does not leave open; nothing of another thread; a legacy history is read as of its watermark, any other is no longer tracked |
| ReducerContent.UnmarkedSnapshotReplaces | claude-monitor-codex/src/state.rs:447-646 | a snapshot without a watermark replaces thread, settings and exactly the live marks it shows |
| ReducerContent.ArchivedReadApplies | claude-monitor-codex/src/state.rs:353-395 | an archived read applies exactly when it is current and then leaves exactly this thread archived without controls or streams; otherwise nothing changes |
| ReducerContent.DeactivatedIsEmpty | claude-monitor-codex/src/state.rs:157-163 | helper: a closed gateway shows no thread, holds no request and detaches every subscriber after one last event |
| ReducerIsolation.MessagesAreIsolated | claude-monitor-codex/src/state.rs:648-1046 | in any state, a message touches nothing of a thread it is not about: no history, settings, marks, fences, streams or plans; its requests stay unless resolved by name or replaced under their id |
| ReducerIsolation.ControlsFollowEvents | claude-monitor-codex/src/state.rs:648-830 | a notification marks exactly what it reports as newer, takes away exactly the requests it settles (named, of its completed tool call, or of its archived thread), and archives or announces a thread only if it says so |
| ReducerIsolation.GrowthFollowsEvents | claude-monitor-codex/src/state.rs:1060-1131 | exactly the completions an unread history does not show mark it as grown, unless the thread is archived |
| ReducerIsolation.ThreadStartedApplies | claude-monitor-codex/src/state.rs:820-828 | helper: a started thread of an attached id is cached as sent, and nothing else changes |
| GatewayState.State.Publish | claude-monitor-codex/src/state.rs:201-212 | the delivery loop in place performs `Emit` |
| GatewayState.State.Join | claude-monitor-codex/src/state.rs:195-199 | performs `Subscribe` |
| GatewayState.State.Disable | claude-monitor-codex/src/state.rs:157-163 | performs `Deactivate` |
| GatewayState.State.Connect | claude-monitor-codex/src/state.rs:214-260 | the retain loops over threads, turns and items perform `Connect` |
| GatewayState.State.ClearProvisionalStreams | claude-monitor-codex/src/state.rs:414-419 | performs `ClearProvisional` |
| GatewayState.State.BeginResume | claude-monitor-codex/src/state.rs:399-410 | performs `BeginResume` |
| GatewayState.State.FinishResume | claude-monitor-codex/src/state.rs:421-434 | performs `FinishResume`; its decrement never meets zero |
| GatewayState.State.ForgetThread | claude-monitor-codex/src/state.rs:1195-1221 | performs `ForgetOutsideScope` |
| GatewayState.State.RetainPlansForHistory | claude-monitor-codex/src/state.rs:1261-1297 | performs `RetainPlans` |
| GatewayState.State.MergeNewerTurns | claude-monitor-codex/src/state.rs:482-513 | the loop over cached turns computes `MergeNewer` |
| GatewayState.State.MergeLiveTurns | claude-monitor-codex/src/state.rs:526-576 | the loop over open snapshot turns computes `MergeLive` |
| GatewayState.State.RememberScoped | claude-monitor-codex/src/state.rs:447-646 | performs `Remember` |
| GatewayState.State.RememberArchivedScoped | claude-monitor-codex/src/state.rs:353-395 | performs `RememberArchived` and reports whether it stored |
| GatewayState.State.ReduceScoped | claude-monitor-codex/src/state.rs:648-1046 | performs `Reduce` |
| GatewayState.State.ReduceLegacyProjection | claude-monitor-codex/src/state.rs:1048-1193 | performs `LegacyProjection` and reports whether the message was consumed |
| WorkerCalls.RunOk | claude-monitor-codex/src/client.rs:703-992 | over every run of the worker the books stay in order: places, writes, wire ids and refusals |
| WorkerCalls.ExactlyOnePlace | claude-monitor-codex/src/client.rs:703-992 | each call is in exactly one of queue, pending, answered or dropped, and pending under one wire id |
| WorkerCalls.WrittenAtMostOnce | claude-monitor-codex/src/client.rs:786-922 | two frames of one call are its request and, for a resume only, one later canonical read under a new wire id |
| WorkerCalls.WireGrows | claude-monitor-codex/src/client.rs:786-922 | what was written stays, and a new frame goes out only while connected, on the connection of its call |
| WorkerCalls.WritesAreAdmitted | claude-monitor-codex/src/client.rs:741-840 | helper: a call is written exactly when it is in time, on its own epoch and past the archive and scope guards; otherwise it is refused and answered |
| WorkerCalls.AnsweredOnce | claude-monitor-codex/src/client.rs:220-271 | an answer is never replaced |
| WorkerCalls.RefusedNeverWritten | claude-monitor-codex/src/client.rs:741-796 | except for a resume, a call answered Unavailable or rejected by the worker was never written and never will be |
| WorkerCalls.UnavailableNeverWritten | claude-monitor-codex/src/client.rs:273-296 | the same for what the caller's bounded wait returned |
| WorkerCalls.DroppedIsUncertain | claude-monitor-codex/src/client.rs:747-750 | a call let go by Stop reads as Uncertain for ever |
| WorkerCalls.CanonicalKeepsOpenTurns | claude-monitor-codex/src/client.rs:129-162 | helper: a canonical read keeps the resume's settings, thread and directory and loses none of its open turns |
| WorkerCalls.ResumesAreCanonical | claude-monitor-codex/src/client.rs:876-956 | a resume succeeds only in time, on its own connection, unfenced, and with the canonical read where its history mode needs one |
| WorkerCalls.RecoveriesAreFenced | claude-monitor-codex/src/client.rs:562-603 | helper: a recovery keeps its snapshot exactly when no fence passed it |
| WorkerAnswers.RejectedExactlyWhen | claude-monitor-codex/src/client.rs:876-956 | over every run: a caller is told of a native refusal if and only if that refusal was received for its call, on a wire id it was written under, before its deadline |
| WorkerAnswers.SuccessExactlyWhen | claude-monitor-codex/src/client.rs:876-956 | over every run: a call other than a resume succeeds with a result if and only if a reply with that very result was received for it in time |
| WorkerAnswers.SuccessWasReplied | claude-monitor-codex/src/client.rs:876-956 | over every run: any Success, a resume's included, was replied to in time; a resume gives that reply's result, or its first reply's around the thread of the second |
| WorkerAnswers.ReplyReachesCaller | claude-monitor-codex/src/client.rs:876-956 | a reply reaches its caller as it is, and a late one as Uncertain |
| WorkerAnswers.ResumeReply | claude-monitor-codex/src/client.rs:897-947 | a resume's first reply is its result, its refusal by a fence, or the first half of one that waits under the next wire id |
| WorkerAnswers.HistoryReply | claude-monitor-codex/src/client.rs:129-162 | its second reply is accepted exactly when it agrees in thread, directory, mode and open turns, and gives the first its thread |
| WorkerAnswers.AnswerReachesServer | claude-monitor-codex/src/client.rs:841-875 | an answer to a runtime request is written exactly while its request is pending, unchanged, answerable and not archived on the live connection; its caller is told delivered, uncertain or rejected accordingly |
| WorkerStores.DispatchRecords | claude-monitor-codex/src/client.rs:797-840 | a written call remembers the event line at delivery; a resume counts itself and takes the subscription, its own to give back only if nobody held it |
| WorkerStores.AnswerStores | claude-monitor-codex/src/client.rs:220-271 | caller and shared state agree: a started or resumed thread is remembered exactly when its caller is given that snapshot, a failed reservation is given back, any other call changes nothing |
| WorkerStores.RecoveryStores | claude-monitor-codex/src/client.rs:604-645 | a recovered snapshot is remembered as of the start of its recovery; a thread found archived loses only its controls, any other failure takes it away, each in one event |
| WorkerControls.ArchivedMeansNoControls | claude-monitor-codex/src/client.rs:535-645 | while connected, an archived thread with no resume in flight has no pending request; resume counts are positive and covered by the worker's outstanding resumes |
| WorkerControls.NextGuarded | claude-monitor-codex/src/client.rs:703-992 | every event of worker and shared state keeps that invariant |
| WorkerControls.NeverUnderflows | claude-monitor-codex/src/state.rs:421-428 | helper: the decrement of a resume count never underflows |
| WorkerControls.FailedResumeUndone | claude-monitor-codex/src/client.rs:244-268 | a failed resume gives back exactly its reservation: subscription, requests and provisional streams of its thread |
| WorkerControls.AfterRuns | claude-monitor-codex/src/client.rs:703-992 | the shared state of a worker run is the reducer's run of its sections |
| WorkerControls.AnswersLandWhereChecked | claude-monitor-codex/src/client.rs:841-874 | end to end, over every run of worker and shared state: an answer validated by the gateway and later written by the worker carries the token of the very request it was validated against |
| WorkerControls.IssuedAlong | claude-monitor-codex/src/state.rs:764-785 | in a run whose native requests are no item notifications, tokens stay issued one to one |
| WorkerRuns.EndsCoveredExactlyWhen | claude-monitor-codex/src/client.rs:747-750 | when the worker ends, the stored resume counts stay covered by outstanding resumes exactly when there are none |
| WorkerRuns.StopLeavesACount | claude-monitor-codex/src/client.rs:747-750 | a run in which a stopped worker leaves a count nobody will finish |
| WorkerLoop.SocketWorker.FinalizeResume | claude-monitor-codex/src/client.rs:220-271 | in place: computes the final answer and runs exactly its sections |
| WorkerLoop.SocketWorker.TakeCommand | claude-monitor-codex/src/client.rs:738-875 | in place: one served command, with a lost connection if the write fails |
| WorkerLoop.SocketWorker.HandleReply | claude-monitor-codex/src/client.rs:876-956 | in place: one reply, continued or finalized |
| WorkerLoop.SocketWorker.ExpireCalls | claude-monitor-codex/src/client.rs:962-979 | the loop over expired calls is a run of expiries after which none is overdue |
| WorkerLoop.SocketWorker.FailPending | claude-monitor-codex/src/client.rs:981-986 | the loop over pending calls answers each Uncertain |
| WorkerLoop.SocketWorker.LoseConnection | claude-monitor-codex/src/client.rs:981-991 | a lost connection: everything pending Uncertain, then Reconnecting |
| QueueSnapshot.ReadQueue | claude-monitor-codex/src/lib.rs:606-753 | in place: computes `ReadOf` with at most 4 attempts of 100 calls |
| QueueSnapshot.ReadAttempt | claude-monitor-codex/src/lib.rs:622-748 | in place: one attempt computes `AttemptOf` with at most 100 calls |
| QueueSnapshot.AcceptPage | claude-monitor-codex/src/lib.rs:662-745 | in place: one page is taken whole within the limits, or its first offence ends the read |
| QueueSnapshot.CollectPage | claude-monitor-codex/src/lib.rs:673-716 | a page is taken whole exactly when its entries are valid and no submission repeats |
| QueueSnapshot.ReadIsFenced | claude-monitor-codex/src/lib.rs:154-179 | Ok only with valid distinct entries whose last look was current, on the epoch and watermark of the first look; every error names what was met |
| QueueSnapshot.PageVersion | claude-monitor-codex/src/lib.rs:633-661 | a page between two looks at a telling stamp is of the version first noticed |
| QueueSnapshot.ReadIsOneVersion | claude-monitor-codex/src/lib.rs:606-753 | between telling stamps, and from a server that notifies its changes, Ok is the complete queue of a single version, the last noticed |
| QueueSnapshot.PublishedIsNoticed | claude-monitor-codex/src/lib.rs:957-968 | what is published or acted on after one more look is the version noticed then |
| QueueSnapshot.SaneServerNotBlamed | claude-monitor-codex/src/lib.rs:662-745 | no page of a sane server that notifies its changes is ever refused |
| QueueSnapshot.ReadIsWhole | claude-monitor-codex/src/lib.rs:606-753 | from any server, what a read returns is every entry of every page of its last traversal, in order, down to the page without a cursor: no cursor twice, at most 100 pages of 25 entries and 64 MiB |
| QueueSnapshot.GivesUpAfterFour | claude-monitor-codex/src/lib.rs:619-661 | a read is refused as ever changing only after four attempts in each of which the stamp changed |
| QueueSnapshot.PatientReadSucceeds | claude-monitor-codex/src/lib.rs:606-753 | a sane server that notifies its changes, answers every call and changes at most three times meanwhile is read |
| QueueSnapshot.MixedRead | claude-monitor-codex/src/lib.rs:606-753 | where a change leaves no mark, two pages of two versions are returned as one queue |
| QueueStamps.EqualStampsTell | claude-monitor-codex/src/state.rs:797-803 | over any run of an attached thread that no fence passes: equal stamps if and only if no report of its queue was reduced, and then none came |
| QueueStamps.UnattachedUnmarked | claude-monitor-codex/src/state.rs:686-700 | a report of a thread that is not attached leaves the whole state unchanged |
| QueueStamps.TellsExactlyWhenAttached | claude-monitor-codex/src/state.rs:686-803 | equal stamps mean that no report came, over all runs from a state, if and only if the thread is attached there |
| QueueIsolation.IsolatedExactlyWhenFirm | claude-monitor-codex/src/lib.rs:606-753 | every read from a state returns one version of the queue, in every run of the worker and from every server that notifies its changes, if and only if the thread is firmly attached or not readable |
| QueueIsolation.FirmReadIsIsolated | claude-monitor-codex/src/lib.rs:606-753 | a read begun on a firm attachment returns the complete queue of the version last noticed, whatever happens meanwhile |
| QueueIsolation.LooseReadMixes | claude-monitor-codex/src/state.rs:686-700 | from any other readable state, a run and a server with which the read returns a queue that never was |
| QueueIsolation.NextWatched | claude-monitor-codex/src/client.rs:703-992 | each event of worker and shared state keeps a firm attachment with every notice marked, or ends the read for good by fence or connection |
| QueueIsolation.FirmTells | claude-monitor-codex/src/lib.rs:154-179 | from a firm attachment on, usable looks with equal stamps have no notice between them |
| QueueIsolation.RefusalInvisible | claude-monitor-codex/src/client.rs:256-268 | a refused resume that reserved its subscription takes it away and changes nothing a queue read looks at |
| QueueIsolation.UnopenedIsLoose | claude-monitor-codex/src/lib.rs:1387-1460 | a reachable state in which a thread never opened is readable and not attached |
| QueueIsolation.RacingResumesAreLoose | claude-monitor-codex/src/client.rs:807-820 | a reachable state in which a thread is attached by a successful resume and another device's pending resume can still take that back |
| QueueIsolation.ReachableStamped | claude-monitor-codex/src/client.rs:703-992 | every reachable state meets the invariants these results ask for |
| SafeDisconnect.DisconnectIsSafe | claude-monitor-codex/src/lib.rs:400-481 | in every run a transition happened with nobody inside, nobody admitted and no event emitted by any section since its first check, both sections clear, and every thread cached and unarchived at the first read idle in that window, its queue read empty by looks at states of that window |
| SafeDisconnect.EveryThreadWasAsked | claude-monitor-codex/src/lib.rs:422-453 | in every run each thread cached and unarchived at the first section of an unforced transition was answered idle with its own id, and its queue read empty, between the two sections |
| SafeDisconnect.CheckExactlyWhen | claude-monitor-codex/src/lib.rs:400-428 | the first section goes on exactly when nobody is inside and, unless forced, nothing is resumed, requested, active or disconnected with threads; it owns exactly the cached unarchived threads |
| SafeDisconnect.EmptyWhenDisconnected | claude-monitor-codex/src/lib.rs:429-453 | at an unforced transition the queue of every thread cached and unarchived at the first check, attached there and not released since, is empty in the version last reported |
| SafeDisconnect.HappenSilent | claude-monitor-codex/src/state.rs:201-212 | a section that emits nothing leaves the connection as it is; only then can the second check pass |
| SafeDisconnect.DisconnectedForEver | claude-monitor-codex/src/lib.rs:534-563 | once disconnected no request is ever admitted |
| SafeDisconnect.CommitExactlyWhen | claude-monitor-codex/src/lib.rs:455-481 | the second section transitions exactly when the gateway is clear, nothing was emitted and nobody admitted since the first, and otherwise changes nothing |
| DisconnectActions.DisconnectIsRun | claude-monitor-codex/src/lib.rs:400-481 | a whole disconnect, with anything happening between its sections, its thread reads and the looks of its queue reads, is a run of the machine whose transition is safe |
| DisconnectActions.UndisturbedExactlyWhen | claude-monitor-codex/src/lib.rs:400-481 | with nobody else about, an unforced disconnect transitions if and only if the gateway is clear and every owned thread is answered idle with an empty queue; otherwise nothing changes |
| DisconnectActions.Lifecycle.Disconnect | claude-monitor-codex/src/lib.rs:400-481 | in place: the whole two-phase disconnect against everyone else |
| DisconnectActions.Lifecycle.ConfirmThread | claude-monitor-codex/src/lib.rs:430-453 | in place: one owned thread, its `thread/read` and its queue read, with events in between |
| DisconnectActions.Lifecycle.Admit | claude-monitor-codex/src/lib.rs:545-563 | in place: admission under the reader lock |
| DisconnectActions.Lifecycle.Commit | claude-monitor-codex/src/lib.rs:455-481 | in place: the second writer section |
| ReceiptTables.ClaimOnceForEver | claude-monitor-codex/src/receipts.rs:233-295 | over every sequence of claim, finish, prune and reopen an action id is granted at most once |
| ReceiptTables.IdentitiesKept | claude-monitor-codex/src/receipts.rs:78-94 | an identity once known stays, in exactly one of the two tables, with its fingerprint; the total never passes the capacity |
| ReceiptTables.PruneConserves | claude-monitor-codex/src/receipts.rs:78-94 | pruning moves identities and conserves their total |
| ReceiptTables.KnownClaimNeverDelivers | claude-monitor-codex/src/receipts.rs:246-275 | a repeated claim conflicts exactly on other content and otherwise replays |
| ReceiptTables.UnfinishedNeverPruned | claude-monitor-codex/src/receipts.rs:343-352 | an unfinished action's row survives everything but its own finish, which therefore finds it |
| ReceiptReplays.ReplayIsStored | claude-monitor-codex/src/receipts.rs:246-277 | over every run without another finish, a claim with an action's own content answers exactly the stored outcome while its row is kept and Expired once it is not; rows are kept 30 days, uncertain ones for ever |
| ReceiptReplays.UnfinishedReplays | claude-monitor-codex/src/receipts.rs:246-295 | over every run until its finish, a granted action answers its own content with Unconfirmed and any other with a conflict |
| ReceiptReplays.GrantedExactlyWhen | claude-monitor-codex/src/receipts.rs:278-295 | a claim is granted if and only if its id is unknown and the store is below capacity, and then stores exactly one uncertain row |
| ReceiptReplays.RetiredStays | claude-monitor-codex/src/receipts.rs:78-94 | a retired identity stays retired with its fingerprint in every later state |
| ReceiptReplays.ConflictRollsBack | claude-monitor-codex/src/receipts.rs:246-275 | a claim of a known id with other content conflicts and changes nothing, not even by its pruning |
| ReceiptReplays.FinishStores | claude-monitor-codex/src/receipts.rs:343-352 | helper: a finish stores exactly its outcome in the row it finds, and finds exactly the active ones |
| ReceiptTables.Receipts.Claim | claude-monitor-codex/src/receipts.rs:233-295 | in place: one claim transaction, rolled back on a conflict |
| ReceiptTables.Receipts.Prune | claude-monitor-codex/src/receipts.rs:78-94 | in place: retirement |
| ReceiptTables.Receipts.Finish | claude-monitor-codex/src/receipts.rs:343-352 | in place: the stored outcome, and whether the row was found |
| ReceiptTables.Receipts.ClaimQueueSteer | claude-monitor-codex/src/receipts.rs:299-326 | in place: binding a submission, refused when bound or at capacity |
| ReceiptTables.Receipts.ReleaseQueueSteer | claude-monitor-codex/src/receipts.rs:329-341 | in place: only the binding action can release |
| ReceiptTables.Receipts.Lookup | claude-monitor-codex/src/receipts.rs:108-132 | reads a receipt and claims nothing |
| SteeringProofs.SteeredAtMostOnce | claude-monitor-codex/src/lib.rs:1516-1591 | over any devices, gateways, crashes and restarts: of two steers of one submission the earlier was definitely refused |
| SteeringProofs.SealedForEver | claude-monitor-codex/src/lib.rs:1553-1580 | a sealed submission is never steered again |
| SteeringProofs.SettledSeals | claude-monitor-codex/src/lib.rs:1553-1580 | a submission is sealed once the request that bound it was accepted, left uncertain or crashed |
| SteeringProofs.DeletedOnlyAfterAcceptance | claude-monitor-codex/src/lib.rs:1581-1591 | the queued copy is deleted only after the server accepted this action's steer |
| SteeringProofs.ReceiptsAreTruthful | claude-monitor-codex/src/lib.rs:1215-1238 | if the server applied or may have applied an addition or a steer, the stored receipt never says rejected |
| SteeringProofs.NextOk | claude-monitor-codex/src/lib.rs:1173-1239 | every step of every request keeps the invariant behind these |
| SteeringCalls.UnreachedNeverWritten | claude-monitor-codex/src/client.rs:273-296 | an action's call that is reported as not having reached the server was never written and never will be |
| SteeringCalls.EffectIsReal | claude-monitor-codex/src/client.rs:273-296 | over every run of the worker: an action takes its call for applied if and only if a result of it came in time, and for never applied only if the server refused it or nothing was or will be written for it |
| SteeringActions.SteerQueued | claude-monitor-codex/src/lib.rs:1516-1591 | in place over the store: bindings and outcome of one queued steer |
| SteeringActions.EnqueueNext | claude-monitor-codex/src/lib.rs:1596-1653 | after an accepted addition the outcome is done or unconfirmed, never a rejection |
| SteeringActions.WriteRoute | claude-monitor-codex/src/lib.rs:1173-1239 | in place: claim, execute, record |
| SteeringActions.SteerOutcomes | claude-monitor-codex/src/lib.rs:1516-1591 | helper: a queued steer is done exactly when bound, accepted and deleted; a binding that stays is reported rejected exactly when its own commit was reported failed |
| SteeringActions.NextOutcomes | claude-monitor-codex/src/lib.rs:1596-1652 | the whole table of sending: done when added to a running thread, when started, or when the start is refused as busy; otherwise unconfirmed, or the addition's own failure |
| SteeringActions.RouteRecords | claude-monitor-codex/src/lib.rs:1173-1239 | the receipt of a granted route says accepted, uncertain or rejected exactly as its work ended, with its body |
| SteeringActions.RouteIsRun | claude-monitor-codex/src/lib.rs:1173-1239 | a whole route is a run of the machine, so every theorem about runs applies to it |
| RolloutRefinement.ProjectionRefines | claude-monitor-codex/src/history.rs:184-272 | for every accepted rollout the one-pass fold equals the declarative view of its records |
| RolloutRefinement.FoldInv | claude-monitor-codex/src/history.rs:115-380 | every prefix of the fold refines the view of its prefix |
| RolloutConservation.ProjectionConserves | claude-monitor-codex/src/history.rs:161-345 | every start, completion, terminal and compaction record appears exactly once in the sources of the result |
| RolloutConservation.AcceptedIsClosed | claude-monitor-codex/src/history.rs:381-400 | ids are distinct, no turn is left open, and each turn's status, error and times are those of its first terminal record |
| RolloutProjection.Project | claude-monitor-codex/src/history.rs:79-400 | in place: the loop over lines accepts exactly the acceptable rollouts, blames the first line that may not be where it is, and computes the declared turns |
| RolloutAcceptance.AcceptedExactlyWhen | claude-monitor-codex/src/history.rs:79-400 | a rollout is projected if and only if each record may follow those before it, said of the records alone, and its last turn is over; the error names the first line that may not be where it is |
| RolloutAcceptance.StepExactly | claude-monitor-codex/src/history.rs:115-380 | the fold takes a record exactly when it may follow those before it |
| RolloutAcceptance.OneLineBlamed | claude-monitor-codex/src/history.rs:79-400 | only one line can be blamed, and only of a rollout that is not accepted |
| RolloutProjection.Complete | claude-monitor-codex/src/history.rs:421-440 | the late or active completion of an item, in the loop's own tables |
| Credential.CredentialAgreement | claude-monitor-codex/src/auth.rs:37-89 | all values ever returned are equal, the published name never holds a partial value, and with honoured syncs the value is on disk |
| Credential.AgreementExactlyWhen | claude-monitor-codex/src/auth.rs:295-307 | agreement holds on a host exactly when unsupported syncs and power loss do not both occur there |
| Credential.DisagreementWithoutSync | claude-monitor-codex/src/auth.rs:295-307 | a run in which two processes are handed different credentials |
| Credential.StepKeepsInv | claude-monitor-codex/src/auth.rs:200-293 | every system call, crash and power loss keeps the invariant |

## Left out

- JSON parsing and rendering: requests, replies, turns and items are datatypes; a thread always has an array of turns and a turn an array of items, and identifiers of items and turns are always present.
- The rendered snapshot and status objects (`snapshot`, `status`): views of the state with no transition of their own.
- Field-by-field converters of `history.rs`: `convert_item` is an abstract function that keeps the id.
- Native history modes other than legacy and paginated are one mode, and an execution directory is absolute whenever it is present.
- SQL text, schema migration, hashing, file permissions and random bytes; `compact` of stored responses.
- File system canonicalization: the directory decision of a message or snapshot is an input.
- Real time: a step is given the current time; nothing is assumed of the clock, not even that it moves forward.
- WebSocket and TCP handshakes, owner lookup, process start and stop, HTTP text, pairing, origin checks and image validation.
- Unsubscribing from the native server when the gateway closes (`release_subscriptions`): best effort, with no effect on the state modelled here.
- The worker checks archive, scope, deadline and epoch of a call in three short sections; here they are one step.
- The retries of recovery inside `bootstrap` (the canonical read and its failures) are one verdict, checked by the same fence.
- The worker's recovery is modelled as events of its state machine only; the object of `WorkerLoop.dfy` has the connected loop, whose interleavings are those of the same machine.
- `activity` of the disconnect is unbounded; the 64-bit wrap-around of the source is not modelled. Sequence numbers and epochs are unbounded too.
- QueueIsolation.IsolatedExactlyWhenFirm: for a reader inside the lifecycle lock, which keeps the gateway from closing; the disconnect reads its queues outside it, and its second section refuses once the gateway was closed, because closing emits.
- SafeDisconnect.EmptyWhenDisconnected: a release takes a subscription away without an event, so a thread released in the window is not covered.
- One `now` of a receipt step stands for the several clock readings of its transaction (receipts.rs:81 and 291); the cutoff of a prune is read once there too.
- A claim whose commit is reported as failed but was stored is a claim followed by a crash.
- A cut-off or dropped subscriber stays in the list as a detached record, so that what it was given can be stated; the source removes it.
- Credential.StepKeepsInv: the credential protocol is modelled on values and not as an object, because another process can act between any two system calls of one method.
- WorkerControls.ArchivedMeansNoControls: the cover of resume counts is stated for a running worker; what its end leaves is `WorkerRuns.EndsCoveredExactlyWhen`.
- ReducerStreams.StreamRefinement: stated for threads whose cached turns and items have distinct ids, which merges and item events keep.
- Retired identities are never removed: the store refuses new actions at its capacity, as the source does.
