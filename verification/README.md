# Tabductor: verified models of its protocols

Tabductor drives a shared browser from an AI and sometimes a human, delivers events durably, and
compiles successful AI runs into scripts that can be taken back. Its hard parts are protocols with
fences, leases, crashes and retries. This project models them in Dafny and proves what they keep.

A protocol is a state, a set of steps (one per stretch between two awaits, or per transaction) and
an invariant over every run. Database transactions are atomic steps that may roll back, or commit
while their caller sees a failure. Objects that the program updates in place are classes whose
methods are tied to the same step functions. What the browser, a model, a clock or another process
answers is a parameter, so each theorem holds for all answers. `dafny verify dfyconfig.toml` checks
everything.

| part | files |
|---|---|
| worker control: AI and human on one browser | `WorkerControl`, `WorkerSafety`, `WorkerGates`, `WorkerLapses`, `LiveSession` |
| observation feed and its client | `EventFeed` |
| transactional outbox | `Outbox`, `OutboxRuns` |
| compiled scripts and their queue | `ScriptStore`, `ScriptTransactions`, `ScriptLifecycle`, `ScriptSafety`, `CompileWorker` |
| plan checker and candidate validator | `SdkPlan`, `CandidateReplay`, `Counterfactuals`, `CandidateValidation`, `CandidatePrograms`, `CandidateOrder`, `CandidateAcceptance` |
| crash journal of effects | `EffectJournal` |
| archive, compaction, agent loop | `ContextArchive`, `ContextHistories`, `ContextCompaction`, `Conversation`, `AgentLoop` |
| trace, continuity lease, endpoint pool, dataset comparison | `TraceRecorder`, `Continuity`, `EndpointPool`, `DatasetComparison` |

## Where the code and its documentation differ

The models follow the code. In these places it does less than its documentation or tests promise;
the lemmas named give a concrete run or the exact condition.

- A stop sets the owner to `paused` without a new input generation, so when it fails afterwards one
  generation has been acknowledged under two owners (`WorkerLapses.OneGenerationTwoOwners`); that
  happens exactly as `WorkerSafety.AcknowledgementsOnlyAdvance` says.
- The control viewer's flag can be left set for ever (`WorkerLapses.ViewerCanBeLost`), by three exits
  and no others (`WorkerLapses.ViewerIsLostExactlyBy`).
- A subscriber that rejects with a falsy reason counts as having succeeded
  (`OutboxRuns.FalsyReasonDropsWork`).
- A changed observation made up by the validator can equal the recorded one
  (`Counterfactuals.CounterfactualsDiffer`), and then a program that does exactly what was
  recorded can be refused: some program passes if and only if reading the observation again would
  have shown something else (`CandidateAcceptance.SomeProgramIsAcceptedIff`; one recording of each
  kind: `CandidateAcceptance.BlankReadIsRejected`, `CandidateAcceptance.RereadIsAccepted`).
- The last two rejections of the plan checker cannot occur (`SdkPlan.CheckHandOver`).
- A failed outcome write, or overlapping handlers, can erase the trace of an effect in flight
  (`EffectJournal.FailedOutcomeWriteIsForgotten`, `EffectJournal.OverlapForgets`); a single write is
  safe exactly when it is clean (`EffectJournal.WriteIsSafeIffClean`).
- An append whose manifest write fails leaves a stale cache entry that later reads return
  (`ContextHistories.FailedAppendIsReadBack`).
- `entries.push(await ...)` looks up its array before it waits, so a flush in between can lose the
  entry (`TraceRecorder.LateFirstPushIsLost`, `TraceRecorder.LosesIffUnsafe`).
- A runtime-incompatibility demotion keeps the deopt window for the next script
  (`ScriptSafety.IncompatibilityKeepsWindow`).
- A compile job whose workers keep dying is handed out beyond its attempt budget
  (`ScriptSafety.AttemptsAreUnbounded`), exactly as `ScriptSafety.TakeExceedsBudgetIff` says.
- An endpoint has one heartbeat slot per process: a late release of a reaped run stops its
  successor's heartbeat (`EndpointPool.LateReleaseStopsSuccessor`). A run that claims while it still
  holds another handle can be overlapped (`EndpointPool.SameRunTwiceOverlaps`).

## Model

| member | source | states |
|---|---|---|
| `WorkerSafety.ApplyKeeps` | apps/browser-worker/src/main.py:234-523 | Every step between two awaits of a command, takeover, human input, start, stop or viewer keeps the whole worker invariant: lock and page ownership, tracking of operations, spent commands, acknowledgements, viewers |
| `WorkerSafety.AiAndHumanNeverOverlap` | apps/browser-worker/src/main.py:363-392 | In every reachable state an unfinished AI operation means owner `ai` at its own input generation and no human bytes, paste or navigation under way; human input under way means owner `human` at its generation and no unfinished operation |
| `WorkerSafety.InputFollowsOwner` | apps/browser-worker/src/main.py:395-460 | Paste, navigation and human bytes are let through only while the owner is `human` at the generation they name |
| `WorkerSafety.OneOperationPerCommand` | apps/browser-worker/src/main.py:493-503 | A command id starts at most one operation, whoever repeats it |
| `WorkerSafety.PagesAreSerial` | apps/browser-worker/src/main.py:485-523 | Commands of one page run one at a time even when their callers have disconnected |
| `WorkerSafety.OneSessionPerWorker` | apps/browser-worker/src/main.py:243-249 | A worker serves at most one session, and after it ends no event starts another |
| `WorkerSafety.AcknowledgementsOnlyAdvance` | apps/browser-worker/src/main.py:372-391 | Acknowledged input generations never decrease, and one of them is acknowledged for two owners if and only if a stop took it from a non-paused owner between the two |
| `WorkerSafety.DrainAdmitsNothing` | apps/browser-worker/src/main.py:463-469 | While a handler drains, every other event leaves it draining, starts no operation and reopens none |
| `WorkerSafety.DrainEndsWithItsOperations` | apps/browser-worker/src/main.py:463-469 | Over every run that leaves the draining handler alone, the drain can end if and only if each operation open when it began to wait has ended: nothing later can hold it up |
| `WorkerSafety.OneControlViewer` | apps/browser-worker/src/main.py:892-950 | At most one viewer has control, and the shared flag is set while it does |
| `WorkerLapses.OneGenerationTwoOwners` | apps/browser-worker/src/main.py:331-360 | A concrete run in which a stop that fails after its pause leaves one generation acknowledged under two owners |
| `WorkerLapses.LostViewerIsForever` | apps/browser-worker/src/main.py:892-950 | Once the control flag is set with no viewer left to clear it, it stays set in every continuation, so no further control viewer is admitted |
| `WorkerLapses.ViewerIsLostExactlyBy` | apps/browser-worker/src/main.py:911-946 | From every reachable state the flag is lost by a control viewer cancelled while connecting, ended while accepting, or ended inside the `finally`, and by no other event |
| `WorkerLapses.ViewerCanBeLost` | apps/browser-worker/src/main.py:911-918 | A concrete run: a client that goes away during `accept()` leaves the flag set for ever |
| `LiveSession.SessionObject.SpendCommand` | apps/browser-worker/src/main.py:489-504 | The admission checks in place: a command is let in exactly when it names this session and the current generation of an AI owner, its id is new, and fewer than 10,000 are spent; only then is its id spent |
| `LiveSession.SessionObject.Decide` | apps/browser-worker/src/main.py:367-385 | A control request is told that the context is gone, repeated, or answered by a drain to the very owner its text names, exactly under the checks on session, generations and text; anything else is refused |
| `LiveSession.SessionObject.Switch` | apps/browser-worker/src/main.py:386-391 | The two assignments are the step by which a drained takeover hands input over in the protocol |
| `LiveSession.SessionObject.Pause` | apps/browser-worker/src/main.py:336-337 | The assignment is the step by which a drained stop pauses the owner in the protocol, keeping the input generation |
| `WorkerGates.ControlIsAnswered` | apps/browser-worker/src/main.py:367-385 | At a newer generation the texts `human`, `ai` and `paused` lead to a drain to that owner and any other text is refused; at the present one only the text of the present owner is acknowledged again |
| `WorkerGates.TakeoverGivesWhatWasAsked` | apps/browser-worker/src/main.py:364-393 | Over every run: when the handler of a control request hands input over, session and acknowledgement have exactly the owner its text names, at its generation, and a repeated acknowledgement names that owner too |
| `WorkerGates.TakeoverRuns` | apps/browser-worker/src/main.py:364-393 | With nothing in flight a takeover goes from decision over drain to hand-over, and changes nothing else |
| `WorkerGates.CommandGate` | apps/browser-worker/src/main.py:489-504 | A command that gets the command lock starts exactly when session, owner, generation, id and budget allow it, and otherwise leaves without a trace |
| `WorkerGates.CommandStarts` | apps/browser-worker/src/main.py:480-523 | From every state with the locks free, a command that may start runs its operation, tracked and on its page |
| `WorkerGates.CommandEnds` | apps/browser-worker/src/main.py:505-523 | When its operation has ended a command frees its page, and only the spent id and the finished operation remain |
| `WorkerGates.AutomationBegins` | apps/browser-worker/src/main.py:811-840 | An automation start leaves its operation running by itself, tracked, and frees the command lock |
| `WorkerGates.AutomationEnds` | apps/browser-worker/src/main.py:811-813 | An operation that nobody waits for is dropped from the tracked ones when it has ended, and not before |
| `WorkerGates.AnyoneMayAsk` | apps/browser-worker/src/main.py:234-523 | Every request may arrive in every state, those that fetch the session first only while there is one |
| `WorkerGates.HumanGate` | apps/browser-worker/src/main.py:396-460 | Navigation and paste are let in exactly for the human owner at the generation named, a paste only with a viewer in control of an open window |
| `WorkerGates.HumanActs` | apps/browser-worker/src/main.py:396-460 | Once let in, it acts under the command lock and then frees it, changing nothing else |
| `WorkerGates.ViewGate` | apps/browser-worker/src/main.py:893-915 | A viewer with control is connected exactly when no other has it and its generation is the human owner of the moment |
| `WorkerGates.WriteGate` | apps/browser-worker/src/main.py:925-932 | What a viewer with control sends is written exactly while the owner is human at its generation, and otherwise ends the viewer |
| `WorkerGates.ViewerEnds` | apps/browser-worker/src/main.py:936-950 | A viewer that ends inside its `try` closes, frees the lock and clears its own flag |
| `WorkerGates.StopGate` | apps/browser-worker/src/main.py:327-335 | A stop drains exactly the session it names |
| `WorkerGates.SessionGate` | apps/browser-worker/src/main.py:234-249 | A start is let in exactly on an unused worker, and its session begins at generation 1 in the hands of the AI |
| `WorkerGates.ClosedWindow` | apps/browser-worker/src/main.py:371-372 | After the window is closed control requests are told so and nothing can be pasted |
| `EventFeed.AtMostOnceInOrder` | packages/browser/src/camoufox-worker-driver.ts:86-118 | Entries are taken up and handed to hooks at most once each, in log order, whatever order replies arrive in and whichever hooks throw |
| `EventFeed.NoGapBelowCursor` | packages/browser/src/camoufox-worker-driver.ts:88-117 | While open, every entry at or below the cursor that is still readable under the current input generation was taken up |
| `EventFeed.SettlesOnceAfterStart` | packages/browser/src/camoufox-worker-driver.ts:97-103 | A settlement reaches a hook only after the one start of the same request, and each of the two at most once |
| `EventFeed.ReadIsExact` | apps/browser-worker/src/observations.py:127-131 | A read returns, in order, exactly the entries after the cursor that are dialogs or belong to requests made under the present generation |
| `EventFeed.OldRequestsStayHidden` | apps/browser-worker/src/observations.py:31-131 | Over every run, no reply after a change of generation holds an entry of a request made before it |
| `EventFeed.SettlementIs` | apps/browser-worker/src/observations.py:109-125 | A request settles once, begun only in the generation it was made under and entered any time later |
| `EventFeed.WorkerKeeps` | apps/browser-worker/src/observations.py:31-32 | The log only grows, each request starts once before it settles at most once, and what a generation change hid stays hidden |
| `EventFeed.ConsumedIsRun` | packages/browser/src/camoufox-worker-driver.ts:87-118 | The loop over a batch, with hooks throwing anywhere, is a run of the protocol that frees the chain |
| `EventFeed.HandledIs` | packages/browser/src/camoufox-worker-driver.ts:88-112 | An entry past the cursor is taken up; its hook is called exactly if the page has one and, for a settlement, the start was handed on |
| `EventFeed.CatchesUp` | packages/browser/src/camoufox-worker-driver.ts:75-118 | From every reachable state an open client can still take up everything there is to see |
| `EventFeed.Driver.Consume` | packages/browser/src/camoufox-worker-driver.ts:88-118 | The loop itself changes cursor, records and hook calls exactly as that specification, and says whether a hook threw |
| `OutboxRuns.NoEventIsLost` | packages/bus/src/outbox.ts:41-64 | Across rollbacks and concurrent dispatchers every committed event has exactly one row for ever: pending with attempts left, dispatched after a delivery that did not count as failed, or dead with its attempts spent |
| `OutboxRuns.DispatchedWasAccepted` | packages/bus/src/outbox.ts:156-160 | With truthy rejection reasons, a dispatched event has had a delivery that every subscriber accepted |
| `OutboxRuns.RowsHaveOneDispatcher` | packages/bus/src/outbox.ts:139-160 | No pending row is in the batches of two dispatchers at once |
| `OutboxRuns.NoticesMatchDeadLetters` | packages/bus/src/outbox.ts:161-190 | Dead ordinary events and dead-letter notices correspond one to one, and a notice never has a notice |
| `OutboxRuns.ClaimedExactlyOnce` | packages/bus/src/dedupe.ts:10-17 | With truthy rejection reasons, a subscriber guarded by `claim` wins each dispatched event exactly once per task |
| `OutboxRuns.FalsyReasonDropsWork` | packages/bus/src/outbox.ts:156-160 | A concrete run: a rejection with a falsy reason counts as success, and the event is dispatched with the guarded work undone |
| `OutboxRuns.CommitKeepsBatches` | packages/bus/src/outbox.ts:139-196 | One batch commits without disturbing the rows another dispatcher holds |
| `OutboxRuns.RollbackIs` | packages/bus/src/outbox.ts:139-196 | A batch may be rolled back at any time, which frees its rows and undoes nothing that was delivered |
| `Outbox.FirstRejectionDecides` | packages/bus/src/outbox.ts:203-208 | A delivery counts as failed exactly when the first rejection among the answers carries a truthy reason |
| `Outbox.BackoffDoubles` | packages/bus/src/outbox.ts:131-132 | The first retry waits for the base, each further one twice as long as the one before, none longer than the maximum |
| `Outbox.DueFromProperties` | packages/bus/src/outbox.ts:142-152 | A batch is the first due rows in order, at most the batch size, skipping locked ones |
| `Outbox.SettleReducesWork` | packages/bus/src/outbox.ts:156-190 | Each settlement lowers the work measure, in which an ordinary event also weighs the notice it may create |
| `Outbox.SettleKeepsNotices` | packages/bus/src/outbox.ts:161-190 | Settling keeps notices and dead letters in step |
| `Outbox.Dispatcher.DispatchBatch` | packages/bus/src/outbox.ts:139-196 | A batch delivers every claimed row exactly once, leaves each in the state its own answers call for, and changes no other row |
| `Outbox.Dispatcher.Drain` | packages/bus/src/outbox.ts:238-245 | Ends when subscribers publish nothing, with nothing due; for every row, notices included: each attempt but the last counted as failed, the last counted as a success if the row is dispatched, the row is dead exactly when its attempts are spent, and what was not touched is as before; the total is the number of deliveries |
| `ScriptSafety.CompiledIffOneActive` | packages/compiler/src/registry.ts:45-76 | In every reachable state a task is in compiled mode exactly when it has an active script, which is then its only one |
| `ScriptSafety.InvalidatedForever` | packages/compiler/src/registry.ts:59-81 | An invalidated script is never active again, in any continuation |
| `ScriptSafety.ClaimsAreExclusive` | packages/compiler/src/jobs.ts:76-105 | Each claim has a new attempt number, holds the job, and takes it from every earlier claim |
| `ScriptSafety.LostClaimIsPowerless` | packages/compiler/src/jobs.ts:108-153 | A claim once lost stays lost: heartbeat, promotion and finish of its worker change nothing in any later state |
| `ScriptSafety.OneOpenJobPerTask` | packages/compiler/src/jobs.ts:43-66 | A task has at most one queued or running job |
| `ScriptSafety.PromotionReplacesOnlyExpected` | packages/compiler/src/promotion.ts:70-101 | A promotion changes nothing, or puts the new script in place of exactly the artifact its job was queued against while claim and content hash still stand, touching no other script or task |
| `ScriptSafety.DemotionMatchesHistory` | packages/compiler/src/promotion.ts:110-134 | The stored window is the last ten accepted outcomes since the last demotion with fewer than three deopts, and it demotes exactly when the whole history holds three deopts in its last ten |
| `ScriptSafety.DemotionRetires` | packages/compiler/src/promotion.ts:124-132 | A demotion leaves the task in ai mode with no active script and an empty window; any other recorded run leaves mode and scripts alone |
| `ScriptSafety.RetiredRunsDoNotCount` | packages/compiler/src/promotion.ts:117-121 | A run that names a script no longer active changes nothing |
| `ScriptSafety.IncompatibilityKeepsWindow` | packages/agent/src/compiled-executor.ts:169-178 | The runtime-incompatibility demotion retires the script but keeps its deopt window |
| `ScriptSafety.FreshScriptInheritsWindow` | packages/agent/src/compiled-executor.ts:169-178 | An active script is demoted by its next deopt if and only if two of the last nine outcomes in the window, its own or inherited, were deopts |
| `ScriptSafety.TakeExceedsBudgetIff` | packages/compiler/src/jobs.ts:84-96 | In every reachable state a hand-out exceeds `maxAttempts` if and only if it takes a stale running job, all of whose attempts are spent, from its worker |
| `ScriptSafety.QueuedHasAttemptsLeft` | packages/compiler/src/jobs.ts:130-141 | In every reachable state a queued job has attempts left |
| `ScriptSafety.AttemptsAreUnbounded` | packages/compiler/src/jobs.ts:84-105 | For every n a run in which workers keep dying hands one job out n times |
| `ScriptLifecycle.WindowRefinesHistory` | packages/compiler/src/promotion.ts:122-131 | The bounded window decides each demotion as the full history does, and goes on representing it |
| `ScriptLifecycle.WornIsDeopts` | packages/compiler/src/promotion.ts:122-124 | Counting deopts in the last ten outcomes is the same as three deopts at distinct places among them |
| `ScriptLifecycle.ApplyKeepsModes` | packages/policy/src/store.ts:111-131 | Every step, a change of grants included, keeps compiled mode and active scripts in step |
| `ScriptStore.Tables.PromoteTask` | packages/compiler/src/promotion.ts:70-101 | The transaction statement by statement: promoted exactly under its guards, with the whole new state |
| `ScriptStore.Tables.RecordCompiledRun` | packages/compiler/src/promotion.ts:110-134 | The transaction statement by statement, with the count it reports |
| `ScriptStore.Tables.ActivateScript` | packages/compiler/src/registry.ts:59-76 | After activation this script alone is active for its task; only what was active before is invalidated |
| `ScriptStore.Tables.ClaimCompileJob` | packages/compiler/src/jobs.ts:76-105 | A due job of a settled run is handed out with a new attempt number |
| `ScriptTransactions.PromotionIs` | packages/compiler/src/promotion.ts:70-101 | What a promotion needs and all that it changes, without the helper functions |
| `ScriptTransactions.RunIsRecorded` | packages/compiler/src/promotion.ts:110-134 | A run of the active script shifts the window of ten; three deopts in it retire script, mode and window; any other run changes nothing |
| `ScriptTransactions.RuntimeChangeIs` | packages/agent/src/compiled-executor.ts:169-178 | A runtime change takes back exactly the script that reports it, if it is active |
| `ScriptTransactions.JobIsQueued` | packages/compiler/src/jobs.ts:43-66 | A job is queued with two attempts unless the task has an open one |
| `ScriptTransactions.JobIsTaken` | packages/compiler/src/jobs.ts:76-105 | A job is handed out exactly when its run is settled and its time has come, and it waits or its worker has been silent for five minutes |
| `ScriptTransactions.JobIsFinished` | packages/compiler/src/jobs.ts:118-153 | Under its claim a success and a refusal are final, and so is a failure unless it may be retried and an attempt is left: then the job waits for thirty seconds |
| `ScriptTransactions.BeatIs` | packages/compiler/src/jobs.ts:108-112 | A heartbeat renews exactly the claim it is for |
| `CompileWorker.RunOnce` | packages/agent/src/compile-loop.ts:163-252 | For every mix of writes that land, land unheard or fail: which script is promoted, what is reported and where the job ends, exactly; it stays running, to be reclaimed, only if the write in the `catch` failed too; without a promotion no task and no existing script changes |
| `CompileWorker.GiveBack` | packages/agent/src/compile-loop.ts:231-247 | The result is written; if that throws, a failure is written in its place, which changes nothing when the result had landed |
| `CompileWorker.WinsIff` | packages/agent/src/compile-loop.ts:221-228 | Under a held claim, a fresh candidate is promoted exactly when content hash, definition, expected artifact and kind still stand |
| `CandidateReplay.ReplayInv` | packages/agent/src/python-validation.ts:89-122 | For any sequence of calls at all: each recorded operation is consumed at most once, and the browser effects taken so far are the recorded ones in order with none skipped |
| `CandidateReplay.FirstMatchFound` | packages/agent/src/python-validation.ts:104-104 | The match is the first unconsumed operation with the same name and arguments, and there is none exactly when none matches |
| `CandidateReplay.ReplayHost.OnCall` | packages/agent/src/python-validation.ts:89-122 | The callback changes the replay state call by call as the specification says |
| `CandidateReplay.RecordedCallIs` | packages/agent/src/python-validation.ts:104-122 | What the host does with a call that stands for a recorded operation: a fault, a violation, or its consumption, in each case with everything that changes |
| `CandidateReplay.UnrecordedCallIs` | packages/agent/src/python-validation.ts:105-105 | A call that stands for no recorded operation is a violation |
| `CandidateReplay.EndedOrOwnCallIsIdle` | packages/agent/src/python-validation.ts:91-103 | After the end nothing but a hand-over has an effect, and the host answers its own calls without consulting the recording |
| `CandidateReplay.HandOverIs` | packages/agent/src/python-validation.ts:92-97 | The last hand-over counts, even after an end |
| `CandidateReplay.ReplyIs` | packages/agent/src/python-validation.ts:111-119 | A callback answered differently is a violation, and the last one answered as recorded completes its call |
| `CandidateValidation.Validate` | packages/agent/src/python-validation.ts:126-154 | Accepts exactly when the normal replay and, for every guard and browser effect, the failed replay and every changed observation are acceptable, the changed observations being given kind by kind |
| `CandidateValidation.AcceptedNormalReplay` | packages/agent/src/python-validation.ts:126-131 | An accepted normal replay of any program consumed every retained operation, each at most once, and its browser effects are a prefix of the recorded ones containing every retained one |
| `CandidateValidation.AcceptedFaultReplay` | packages/agent/src/python-validation.ts:132-135 | In an accepted single-fault replay no effect is taken after the fault and the run ends in deopt |
| `CandidateValidation.AcceptedGuardNotices` | packages/agent/src/python-validation.ts:136-153 | An accepted candidate stops when a boolean guard is negated, a list is emptied, loses its last item, repeats its first or loses a field of its first row, a text is emptied, a number is zero or one more, and a store query is emptied, truncated or loses a field of its first row |
| `CandidateValidation.NormalAcceptedIff` | packages/agent/src/python-validation.ts:126-131 | What the normal replay has to come to |
| `CandidateValidation.FaultAcceptedIff` | packages/agent/src/python-validation.ts:132-135 | What a replay with a fault has to come to, and which operations are tested |
| `CandidateValidation.FailedIsNeverSeen` | packages/agent/src/python-validation.ts:106-106 | The operation made to fail is never counted as consumed |
| `CandidateValidation.UnkeyedIsRejected` | packages/agent/src/python-validation.ts:115-131 | An emission recorded as a success without its dedupe keys makes the validator reject every candidate |
| `Counterfactuals.CounterfactualsDiffer` | packages/agent/src/python-validation.ts:136-147 | A changed observation equals the recorded one exactly for an empty list, an empty string, zero, a number that adding one rounds back to, or a store query that was already empty or truncated |
| `Counterfactuals.VariantsAreCounterfactuals` | packages/agent/src/python-validation.ts:136-147 | These changed observations are tried and no others |
| `CandidatePrograms.RefusedIffViolation` | packages/agent/src/python-validation.ts:104-119 | A call or a callback reply is refused exactly when it breaks a rule of the replay |
| `CandidatePrograms.IndistinctGuardRejects` | packages/agent/src/python-validation.ts:104-153 | For a guard whose recorded value equals one of its counterfactuals, and which is recorded with that value as often as it can be read again: the validator rejects every program, a program being any function of the replies so far |
| `CandidatePrograms.ReplaysInStep` | packages/agent/src/python-validation.ts:104-122 | For such a guard the normal trial and the one that repeats its value give any program the same replies and leave the same state, but for the guard itself, until one of them finds a violation |
| `CandidateAcceptance.ComparingIsAccepted` | packages/agent/src/python-validation.ts:89-154 | For every recording of a successful run, with callbacks or a planned hand-over or without, none of whose guards is of that kind: the program that repeats it as long as it is told what was recorded, and hands over at the first difference, passes the whole validation without being told which trial it is in |
| `CandidateAcceptance.SomeProgramIsAcceptedIff` | packages/agent/src/python-validation.ts:89-154 | So some program passes the validation of such a recording if and only if no guard has a counterfactual equal to its recorded value and is recorded with that value as often as it can be read again |
| `CandidateOrder.OrderIsReady` | packages/agent/src/python-validation.ts:104-109 | Every such recording can be repeated in an order that reads again at once whatever can be, keeps the recorded order of equal calls and of browser effects, and ends with the end of the run |
| `CandidateAcceptance.BlankReadIsRejected` | packages/agent/src/python-validation.ts:136-153 | A concrete recording that no program passes: an empty title read once as a guard |
| `CandidateAcceptance.RereadIsAccepted` | packages/agent/src/python-validation.ts:104-153 | A concrete recording whose first guard reads an empty title too, and passes because the title is read again with a text: the failed operation is never consumed, so the second read meets it again |
| `CandidateValidation.DeoptIsTheLast` | packages/agent/src/python-validation.ts:92-97 | Whether a replay ends in a hand-over, and which, depends on the program alone |
| `SdkPlan.CheckSdkPlan` | packages/compiler/src/sdk-evidence.ts:81-116 | Accepts exactly the plans that meet the declarative specification: a disjoint cover of the successes, all required work kept or delegated, guards that only look, and a boundary for a planned deopt; a rejection names the first rule that is broken |
| `SdkPlan.RequiredIffMustStay` | packages/compiler/src/sdk-evidence.ts:37-38 | Which successful operations must stay, by name |
| `SdkPlan.ObservesIffLooksOnly` | packages/compiler/src/sdk-evidence.ts:97-97 | Which operations a guard may depend on, by name |
| `SdkPlan.HandOverIsTheTail` | packages/compiler/src/sdk-evidence.ts:100-116 | With a planned deopt, the delegated operations are exactly the non-discarded successes from the boundary on |
| `SdkPlan.CheckHandOver` | packages/compiler/src/sdk-evidence.ts:100-116 | The hand-over checks pass exactly when such a boundary exists; two of the rejections cannot occur |
| `SdkPlan.CollectDelegated` | packages/compiler/src/sdk-evidence.ts:86-96 | Collecting delegated ids fails exactly on a repeated id |
| `EffectJournal.WriteIsSafeIffClean` | packages/agent/src/python-tool.ts:159-160 | A write of the record leaves every sent effect without a recorded outcome named (or the flag up) exactly when the handlers have no other effect that returned unwritten and no outcome write of this invocation failed before |
| `EffectJournal.CleanRunsAreSafe` | packages/agent/src/python-tool.ts:99-103 | Over every run of such writes, with crashes and lost replies anywhere, the record names every sent effect without an outcome or demands reconciliation |
| `EffectJournal.OrderlyRunsAreSafe` | packages/agent/src/python-tool.ts:159-199 | Sequential and nested operations whose outcome writes commit are such runs |
| `EffectJournal.StartIs` | packages/agent/src/python-tool.ts:138-138 | A new invocation turns a leftover into a demand for reconciliation, and there is none if that cannot be written |
| `EffectJournal.WriteIs` | packages/agent/src/python-tool.ts:159-199 | A write names exactly the running effects and keeps the flag, which an uncertain outcome raises |
| `EffectJournal.FenceIs` | packages/agent/src/python-tool.ts:164-164 | The fence stops exactly the effects of a compiled invocation under the flag |
| `EffectJournal.CrashStopsCompiledEffects` | packages/agent/src/python-tool.ts:138-164 | After a crash that left an effect without outcome, the next invocation has the flag, and no compiled invocation sends an effect ever after, whatever invocations of either kind come between |
| `EffectJournal.FlagIsForever` | packages/agent/src/python-tool.ts:138-199 | No step clears the reconciliation flag |
| `EffectJournal.CompiledSendsNothing` | packages/agent/src/python-tool.ts:164-164 | Once the flag is up and the live invocation, if compiled, has no effect past its fence, no step of any compiled invocation sends an effect, in any run of compiled and other invocations |
| `EffectJournal.FailedOutcomeWriteIsForgotten` | packages/agent/src/python-tool.ts:196-199 | A concrete run, one operation at a time: after a failed outcome write the next effect erases the only trace of the first |
| `EffectJournal.OverlapForgets` | packages/agent/src/python-tool.ts:159-197 | A concrete run of two overlapping handlers that loses an effect |
| `EffectJournal.ProgramTool.Call` | packages/agent/src/python-tool.ts:139-200 | One call from record to outcome is a run of the machine: it is answered with a value exactly if it was let in and its writes succeeded, `ok` exactly if it passed the fence and succeeded, and as uncertain exactly if it is an effect that was fenced or came back so; an effect goes out only after its own write and never past the compiled fence, and a failed compiled call stops the rest |
| `ContextHistories.ContextHistory.Append` | packages/agent/src/context-history.ts:87-93 | A committed append extends the dense archive by one entry and keeps the cache in agreement if and only if, before it, nothing else was cached under the next number; a failed one loses nothing |
| `ContextHistories.ContextHistory.Pending` | packages/agent/src/context-history.ts:77-85 | Returns exactly the entries after the summarized ones, oldest first |
| `ContextHistories.ContextHistory.Compact` | packages/agent/src/context-history.ts:106-111 | Moves only the summary and its position; no entry is lost |
| `ContextHistories.ContextHistory.ReadOne` | packages/agent/src/context-history.ts:117-127 | Any committed entry can be read in chunks; another number is an error |
| `ContextHistories.ContextHistory.ReadPage` | packages/agent/src/context-history.ts:128-144 | A page takes the next matches newest first, within its bounds, and its cursor leaves exactly the rest |
| `ContextHistories.ContextHistory.CacheEntry` | packages/agent/src/context-history.ts:61-71 | Caching an entry keeps both bounds and the byte count |
| `ContextHistories.FailedAppendIsReadBack` | packages/agent/src/context-history.ts:87-93 | Concrete calls: after a failed append, the next operation is read back as the failed one |
| `ContextArchive.PagesEnumerate` | packages/agent/src/context-history.ts:112-148 | Following `nextBefore` to its end lists every match once in descending order, even while the archive grows |
| `ContextArchive.PagesEnd` | packages/agent/src/context-history.ts:128-148 | And it ends: cursors only go down |
| `ContextArchive.ChunksConcatenate` | packages/agent/src/context-history.ts:121-125 | Following `nextOffset` gives back the text without repeating a character, and all of it after enough reads |
| `ContextArchive.ShrunkIsBounded` | packages/agent/src/context-history.ts:66-70 | Eviction ends within both bounds, keeps the byte count the sum of the entries, and never drops the newest |
| `ContextArchive.ShrunkIsLongest` | packages/agent/src/context-history.ts:66-70 | Only oldest insertions go, and none without need |
| `ContextArchive.EnteredAgrees` | packages/agent/src/context-history.ts:72-76 | Reading through the cache keeps every cached entry equal to its blob |
| `ContextArchive.SummarizedPrefix` | packages/agent/src/context-history.ts:106-111 | Summarizing through the k-th pending item leaves exactly the items after it |
| `ContextCompaction.Preparation.PrepareContext` | packages/agent/src/context-compaction.ts:55-108 | Terminates for any sizes and answers; removes a prefix of whole oldest turns and of pending operations, all of it read by the summarizer, keeps the newest turn and two newest operations; unless the last write landed unheard the list in memory is what the archive has pending; success means within budget |
| `ContextCompaction.Preparation.Pass` | packages/agent/src/context-compaction.ts:56-103 | A pass moves conversation, archive and list together and lowers the measure, or none of them; a write that lands unheard moves the archive alone, by the same prefix |
| `ContextCompaction.OldTurns` | packages/agent/src/context-compaction.ts:60-67 | Selects whole oldest turns, at least one if there is an older one, never the newest, and as many as 24,000 characters hold |
| `ContextCompaction.OldItems` | packages/agent/src/context-compaction.ts:69-75 | Selects oldest operations, never the newest two, as many as 24,000 characters hold |
| `ContextCompaction.ShrinkRequest` | packages/agent/src/context-compaction.ts:88-94 | Shrinking gives up newest operations, then newest turns, until the request fits or is empty |
| `ContextCompaction.Choose` | packages/agent/src/context-compaction.ts:58-96 | A request is made of old work that fits, or the pass ends as the budget says |
| `ContextCompaction.CompactedMore` | packages/agent/src/context-compaction.ts:55-108 | Passes compose: what two of them removed and read is one prefix |
| `AgentLoop.Loop.CompactHistory` | packages/agent/src/loop.ts:127-189 | Removes just enough whole oldest turns, never the newest, all of them read in order, and puts one summary in their place; a failure changes nothing |
| `AgentLoop.ChooseRemoved` | packages/agent/src/loop.ts:135-143 | Drops no more than brings the history under its limit; forced, exactly one turn if there is one to spare |
| `AgentLoop.CharsOfOne` | packages/agent/src/loop.ts:135-139 | What a message counts for is the length of its text |
| `AgentLoop.SummarizeDropped` | packages/agent/src/loop.ts:145-182 | The chunks handed to the summarizer are the dropped messages, once each in order, each as many turns as 48,000 characters hold and in a request that fits; the summary is its last answer, and the limit is reported only for a chunk that does not fit however it is cut |
| `AgentLoop.FitChunk` | packages/agent/src/loop.ts:157-179 | Finds the largest halving that fits, and fails exactly when none does |
| `AgentLoop.Loop.FitBudget` | packages/agent/src/loop.ts:242-247 | The budget loop ends: each round drops one turn and saves, and it returns within budget or fails |
| `AgentLoop.Loop.Prepare` | packages/agent/src/loop.ts:229-247 | A history over 160,000 characters is compacted, one within limits and budget is left alone |
| `AgentLoop.Loop.Turn` | packages/agent/src/loop.ts:248-345 | A turn comes out as its calls do; a saved one is complete and answered, and a cancelled or failing one saves nothing |
| `AgentLoop.Loop.Run` | packages/agent/src/loop.ts:229-345 | Replies are taken in order up to the first that ends the run, each turn taken whole is saved, and over whatever was restored every conversation saved is an opening and whole turns, each turn taken by this loop answered; all of them if the archive held nothing or what this loop saves |
| `AgentLoop.Loop.constructor` | packages/agent/src/loop.ts:212-224 | Restores exactly the complete pairs of anything, and the whole of what this loop saved |
| `AgentLoop.RunCalls` | packages/agent/src/loop.ts:269-318 | Of at most 32 calls those up to the first that ends the run, fails on the page or does not run are run in order, and the turn comes out accordingly |
| `AgentLoop.NativeResults` | packages/agent/src/loop.ts:323-324 | One answer per call, in order |
| `AgentLoop.RanIsAnswered` | packages/agent/src/loop.ts:293-324 | With distinct ids, a call that ran is answered with its own result |
| `AgentLoop.DiscardedIsAnswered` | packages/agent/src/loop.ts:320-324 | And one that did not is told so |
| `Conversation.OnlyPairs` | packages/agent/src/loop.ts:217-224 | Whatever was saved, only complete pairs come back |
| `Conversation.ShapedIsRestored` | packages/agent/src/loop.ts:217-224 | A conversation of the right shape comes back unchanged behind its opening message |
| `Conversation.OrphanIsSkipped` | packages/agent/src/loop.ts:217-224 | A message left over between whole turns is dropped alone |
| `Conversation.ShapedWithout` | packages/agent/src/loop.ts:184-187 | Dropping whole turns from the front keeps the shape |
| `Conversation.ShapeIs` | packages/agent/src/loop.ts:320-327 | Every turn is calls and their results, one for each call in order unless it was inherited |
| `TraceRecorder.LosesIffUnsafe` | packages/browser/src/trace.ts:100-132 | From a state that has lost nothing, a step loses an entry if and only if it is a push to an array no flush can reach any more, or a heard commit of a batch longer than the rows made out for it |
| `TraceRecorder.CalmRunsConserve` | packages/browser/src/trace.ts:100-132 | If no flush takes over or puts back while a record holds an array, then under any mix of failed flushes and lost replies every accepted entry is persisted or buffered |
| `TraceRecorder.FirstRecordIsCalm` | packages/browser/src/trace.ts:161-187 | The ordinary first record, which looks the buffer up and then waits for the base, is such a run |
| `TraceRecorder.ClosedHasEverything` | packages/browser/src/trace.ts:195-203 | Closed, settled and flushed: every accepted entry has its one row and every artifact its own |
| `TraceRecorder.RowsAreDistinct` | packages/browser/src/trace.ts:161-163 | Over every run: one row per number, none among the rows of an earlier recorder, and no artifact lost |
| `TraceRecorder.InsertedIs` | packages/browser/src/trace.ts:108-122 | An insert keeps the rows that are there and adds the others |
| `TraceRecorder.RecordMayFail` | packages/browser/src/trace.ts:173-190 | A record may fail at any of its awaits, and then pushes nothing |
| `TraceRecorder.LateFirstPushIsLost` | packages/browser/src/trace.ts:185-186 | A concrete run without any failure in which the first entry is lost |
| `TraceRecorder.Recorder.Flush` | packages/browser/src/trace.ts:100-132 | An undisturbed flush is the steps take over, make out and end, with the whole new state |
| `TraceRecorder.Recorder.PushEntry` | packages/browser/src/trace.ts:185-186 | The push goes to the array object looked up before the wait, as the machine has it |
| `TraceRecorder.Recorder.TakeOver` | packages/browser/src/trace.ts:101-107 | The flush swaps in a new array object, or does nothing when there is nothing |
| `TraceRecorder.Recorder.PutBack` | packages/browser/src/trace.ts:124-128 | After an error batch and buffer become one new array object |
| `TraceRecorder.Recorder.Close` | packages/browser/src/trace.ts:195-203 | The last flush is a calm run; if it succeeds and nothing was lost before, every pushed entry and artifact has its row |
| `Continuity.DisplacedIsPowerless` | packages/agent/src/browser-continuity.ts:34-82 | Only an owner whose run is no longer active is displaced, and afterwards no read, write, acquisition or release of it ever succeeds or changes anything |
| `Continuity.HandoffNamesTheLast` | packages/agent/src/browser-continuity.ts:47-59 | A handoff names the acquisition immediately before it, as interrupted unless that owner released |
| `Continuity.OnlyLastAcquirerWrites` | packages/agent/src/browser-continuity.ts:63-82 | Over every run between two acquisitions, context and memory change only by a write of the owner that acquired last |
| `Continuity.RunRowsAre` | packages/engine/src/run-state.ts:33-180 | How a run starts under a new generation, is parked, resumed, ended and queued again |
| `Continuity.Lease.TryAcquire` | packages/agent/src/browser-continuity.ts:36-60 | One attempt as a transaction: granted exactly under its guards, with the whole new row |
| `Continuity.Lease.LetGo` | packages/agent/src/browser-continuity.ts:84-94 | A stale release changes nothing |
| `EndpointPool.OverlapMeansStale` | packages/browser/src/pool.ts:265-276 | Over every run in which a run claims only while it holds no other handle, two runs hold an endpoint together only if the earlier had lost its row with a heartbeat older than the limit, however often runs come back |
| `EndpointPool.FenceBreaksExactly` | packages/browser/src/pool.ts:265-288 | A step leaves a holder without the row and without a stale heartbeat if and only if it releases an older handle of the run whose newer handle holds the row |
| `EndpointPool.StrayStepsNeedTheSameRun` | packages/browser/src/pool.ts:278-300 | A heartbeat or release of a grant touches the row of another exactly when both are of the same run |
| `EndpointPool.SameRunTwiceOverlaps` | packages/browser/src/pool.ts:278-288 | A concrete run: a run that claims while it holds another handle is overlapped without any stale heartbeat of the second |
| `EndpointPool.ClaimBeatsUntilRelease` | packages/browser/src/pool.ts:278-300 | Over every run up to the next grant, the heartbeat of a claim runs if and only if its process has released nothing since, be it of an earlier grant or its own |
| `EndpointPool.LateReleaseStopsSuccessor` | packages/browser/src/pool.ts:278-330 | A concrete run: a late release leaves the successor holding the endpoint with no heartbeat for ever |
| `EndpointPool.StoppedForever` | packages/browser/src/pool.ts:290-300 | A heartbeat once stopped is never started again |
| `EndpointPool.Endpoint.TryClaim` | packages/browser/src/pool.ts:265-304 | The conditional insert and the new heartbeat, exactly when the row is free or stale |
| `EndpointPool.Endpoint.Teardown` | packages/browser/src/pool.ts:278-288 | The slot is cleared whatever is in it, and the row deleted only under the own run id |
| `DatasetComparison.CompareDataset` | packages/agent/src/dataset-verification.ts:2-26 | `verified` exactly when keys are valid and unique on both sides, the key sets agree and all listed fields are present and equal after normalization; missing, unexpected, duplicate and invalid rows and the mismatches of the last rows of each key are exact |
| `DatasetComparison.SameIsSymmetric` | packages/agent/src/dataset-verification.ts:16-23 | The verdict is symmetric |
| `DatasetComparison.SameIsTransitive` | packages/agent/src/dataset-verification.ts:16-23 | And transitive |
| `DatasetComparison.SameAsItself` | packages/agent/src/dataset-verification.ts:19-22 | A set verifies against itself exactly when it is keyed and has every listed field |
| `DatasetComparison.Mismatches` | packages/agent/src/dataset-verification.ts:18-22 | The mismatches are exactly the shared keys and listed fields that differ |
| `DatasetComparison.BuildIndex` | packages/agent/src/dataset-verification.ts:4-14 | The index has the last row of each key, each key once, and exactly the repeated keys and the rows without one |
| `DatasetComparison.FieldAgreesIff` | packages/agent/src/dataset-verification.ts:20-21 | When a field of two rows agrees |
| `DatasetComparison.KeyIs` | packages/agent/src/dataset-verification.ts:8-10 | What the key of a row is, and what is none |
| `DatasetComparison.CollapsedRun` | packages/agent/src/dataset-verification.ts:3-3 | Each run of tabs and line breaks becomes one space and the text around it stays |
| `DatasetComparison.CollapsedIsStable` | packages/agent/src/dataset-verification.ts:3-3 | Normalizing leaves no tab or line break and is idempotent |

## Left out

- Playwright, VNC, recording and the automation scope: a browser operation is an opaque step that may succeed, fail or stay uncertain; tasks a scope starts are taken to be tracked in `inflight`.
- Tab listing and selection, cookies, uploads and healthz of the worker: they take no part in the input protocol.
- Serialization, schema parsing and canonical text: arguments and values are compared as values; the substitution of references and the textual checks before a replay are not modelled.
- Host callbacks of a replay are calls like any other in the candidate's sequence; a callback's reply is a step of its own.
- Operation ids and claim ids are distinct because they come from a random generator; hashes are injective.
- The validator's time and call limits: a candidate is any finite sequence of calls.
- Version numbers of scripts, deletion of tasks, and publication of life-cycle events.
- The learner's approval of a compile job is one answer; the checks behind it are not modelled.
- `maxAttempts` and the outbox batch size are at least 1; only dispatchers publish dead-letter notices.
- The journal of `code-tool.ts`, which follows the same scheme with a single record.
- Previews and presentation of archived entries, and the stored conversation blob: only which entries are pending, and their full text, is modelled.
- Token estimates, text lengths and the model's answers are parameters; the retries inside one summarization are part of its answer.
- The trimming of large tool results, which changes a result's text but not which call it answers.
- The 250 ms polling of a continuity lease: each attempt is one transaction; the record outcome copied into `previous` is not modelled.
- Pool waiting: order, queue bound and wake-up do not follow from the code, because `acquire` awaits between its failed claim and its push; connection health is not modelled.
- `recording.py`, the fleet, the learning loop, pricing, the web app and deployment.
- Scope and operation internals of the browser worker: that an operation needs no lock of a drainer is how operations are modelled, not a result.
- TraceRecorder.CalmRunsConserve: assumes that no flush takes over or puts back while a record holds an array, because otherwise the code can lose entries, exactly as `TraceRecorder.LosesIffUnsafe` says.
- EndpointPool.OverlapMeansStale: assumes that a run claims only while it holds no other handle, because its older release would delete the row, exactly as `EndpointPool.FenceBreaksExactly` says.
- OutboxRuns.ClaimedExactlyOnce: assumes truthy rejection reasons, because the code reads a falsy one as success.
- EffectJournal.OrderlyRunsAreSafe: assumes one handler outside the browser at a time and outcome writes that commit, because the record is otherwise overwritten.
- CandidateAcceptance.SomeProgramIsAcceptedIff: is about recordings of successful runs: the only end among the calls looked up is a `done` at their end, or the plan hands over there; guards observe, as the plan checker demands; emissions carry their dedupe keys, without which a successful one is refused anyway (`CandidateValidation.UnkeyedIsRejected`); recorded callbacks were answered without an error; and a recorded failure is worded differently from the made-up one. Equal calls are equally effects, because the recorder decides that by name and arguments.
- Adding one to a fraction, which may round in the last digit but never back to the number, is exact.
- CandidateValidation.DeoptIsTheLast: assumes that `done` and `fail` were recorded without callbacks, because only page calls have any.
- The claim and the release of an endpoint are atomic: a handle counts as held until its delete has ended, although its timer is cleared before the delete, and its heartbeat as started with its claim.
- A write of the crash journal counts from the moment it reads `running`: what a handler does between that and the landing of the write counts as coming after it.
