# BlueLab: verified models

Dafny models of the parts of BlueLab where a lost answer, a retry or a race could lose a decision, and proofs of
what those parts keep. Each model follows the code's own branches, error conditions and constants.

**Lifecycle history.** Per organization an append-only, hash-chained log lives in two object stores.
`HistoryModel` holds the records, the stores and what each reading decides about *any* two stores;
`HistoryFacts` proves what a successful verification means. `HistoryProtocol` is `append` as a small-step
protocol: any number of appenders, one store call per step, calls that are answered, fail, are refused with a
spurious conflict, or take effect long after their sender gave up; a crashed appender is one that is never
scheduled again. `HistoryInvariant` proves the inductive invariant and `HistoryTheorems` the results over all
runs. `HistoryRecovery` covers `repair_interrupted_receipt` and `reconstruct_head_from_receipts`,
`HistoryLostHead` says what is left when the head object is lost, `HistoryAppend` covers the undisturbed `append`, and
`HistorySolo` shows that an appender of the protocol that runs alone is exactly that function, and what it does when
a call fails. `HistoryVerified` says, for any two stores and without the loops, exactly which verify, which can be
repaired and which can be reconstructed. `LifecycleHistory` has the service as classes over mutable stores, loop by
loop, with one or two stores (`HistoryShared`). The digest is an arbitrary function, so every statement that rests on it says "equal, or here are two different
events with one digest". Entity tags are modelled as a counter per store (sections 13.1.1 and 13.1.2 of RFC 9110).

**Call attempts.** Admission, completion and interruption are one atomic step each; the runtime, the sweep, the
webhook and the suspension path may fire any of them, any number of times, with any stale session (`CallModel`,
`CallInvariants`, `CallPlans`, `CallRestarts`). `CallTables` runs the same transactions statement by
statement over mutable tables, and `CallSweep` the sweep's loop over due calls. `CallRules` says on the rows
themselves when each transaction wins and everything it writes. `Recording` is the finer
interleaving of the completion callback and the egress webhook, each of which writes its own fact and then looks
for the other's.

**Around the log.** `RestoreReplay` is the event loop of `replay_organization` with an arbitrary partial function for
what an event does to the projection, and `ReplayRules` what each event needs and writes; `ErasureLedger` the two-copy arming of erasure markers; `PurgeMatrix` the
batching of a purge and its reference safety.

**Queue and delivery.** `JobQueue` has the queue's stored functions with its indexes and check constraint,
and `JobRules` what each of them decides and writes, column by column; `DeliveryEvents` the reconciliation of provider events with a send.

Runs are folds of a total step function over an arbitrary list of actions, so "over every run" is a statement for all
lists.

## What the proofs turned up

- Verification never compares the operation a receipt names with the one its event carries: a record copied under
  another key verifies (`HistoryLostHead.ReceiptMayNameACopy`). Once the head object is lost, a verified history can be
  rebuilt if and only if all receipts carry their events' operations (`HistoryLostHead.LostHeadRebuildsIff`).
- If the head object is lost while only one copy has the last receipt, the restore sequence refuses the whole
  organization, acknowledged events included; if neither has it, the last event, which no append returned, is lost
  (`HistoryLostHead.LostHeadOutcome`, `HistoryLostHead.AcknowledgedSurvives`).
- Voiding a call on a self-authored drill reverses an allowance that admission did not charge
  (`CallInvariants.SelfAuthoredReversal`, over runs `CallInvariants.ConservationIff`).
- A completion that crashes after it marked the session terminal can strand its recording in `pending`; the runtime's
  retry is ignored (`Recording.CrashStrandsPending`). A retry settles a pending recording if and only if the session is
  not terminal and the outcome is stored (`Recording.RetrySettlesIff`); a redelivered webhook always does.
- The second retry function takes failed jobs, but one that failed through an abort request would break the check
  constraint and is stuck (`JobQueue.RetryV2RaisesIff`, `JobQueue.OverIsForever`).
- A delay with a later event time that arrives first locks out the terminal event for good
  (`DeliveryEvents.TerminalWinsIff`).
- The organization row names a service term that the purge deletes first; the reference must be cleared before
  (`PurgeMatrix.WholePurgeSafeIff`).

## Model

| member | source | states |
|---|---|---|
| `HistoryFacts.WalkSound` | src/bluelab/adapters/lifecycle_history.py:279-296 | a backward walk that succeeds has found a stored chain of exactly `sequence` consecutive, digest-checked events that starts at genesis |
| `HistoryFacts.WalkComplete` | src/bluelab/adapters/lifecycle_history.py:279-296 | and it succeeds on every such chain, returning it |
| `HistoryFacts.StoredDistinct` | src/bluelab/adapters/lifecycle_history.py:279-290 | a stored chain names no operation twice |
| `HistoryFacts.VerifiedEventsAreTheChain` | src/bluelab/adapters/lifecycle_history.py:318-335 | the events returned are the chain the verification walked, numbered 1..n, although this loop checks no digest |
| `HistoryFacts.AcceptedIffOnChain` | src/bluelab/adapters/lifecycle_history.py:302-316 | an operation is answered if and only if it is on the verified chain, and then with its own event at its own number |
| `HistoryFacts.ReceiptsAgreeWithWalk` | src/bluelab/adapters/lifecycle_history.py:213-260 | whenever a head verifies, both copies of the receipts name the walked events one by one and the backup holds each; otherwise two different stored events share a digest |
| `HistoryFacts.TamperEvidence` | src/bluelab/adapters/lifecycle_history.py:262-335 | two pairs of stores that verify at the same sequence and digest hold the same history, or exhibit two different events with one digest |
| `HistoryInvariant.HeadMovesLog` | src/bluelab/adapters/lifecycle_history.py:480-497 | a conditional put of the head that is admitted appends exactly its own event to the log, whoever sent it and whenever it arrives |
| `HistoryInvariant.ApplySafe` | src/bluelab/adapters/lifecycle_history.py:551-569 | every put an appender ever sent, applied at any later time, keeps the invariant of the two stores and replaces no record but the head |
| `HistoryInvariant.PcStable` | src/bluelab/adapters/lifecycle_history.py:465-512 | what an appender relies on at any point of its run survives every step of every other appender |
| `HistoryInvariant.ProcStep` | src/bluelab/adapters/lifecycle_history.py:465-512 | every step of one appender, answered, refused or lost, keeps the invariant and its own claims |
| `HistoryInvariant.ExecKeepsInv` | src/bluelab/adapters/lifecycle_history.py:465-512 | every action of the system keeps the invariant and only grows the two stores |
| `HistoryTheorems.HeadReachesGenesis` | src/bluelab/adapters/lifecycle_history.py:262-300 | in every reachable state the head at n walks to genesis in exactly n digest-checked steps, over distinct operations |
| `HistoryTheorems.LogNeverForks` | src/bluelab/adapters/lifecycle_history.py:465-512 | the chain of every earlier head is a prefix of the chain of every later one |
| `HistoryTheorems.StoresAgree` | src/bluelab/adapters/lifecycle_history.py:486-512 | events 1..n are identical in both stores, receipts 0..n-1 are in both, receipt n is in the backup only if in the primary, none exceeds n |
| `HistoryTheorems.ReturnedIsDurable` | src/bluelab/adapters/lifecycle_history.py:470-512 | an append that returned stays on the log with all receipts through it in both copies; off the lost-race paths its event has the command's action, actor, reason and data |
| `HistoryTheorems.OvertakenNeverEnters` | src/bluelab/adapters/lifecycle_history.py:470-507 | an event record whose number went to another operation never enters the chain, in any continuation |
| `HistoryTheorems.RepeatWritesNothing` | src/bluelab/adapters/lifecycle_history.py:470-479 | repeating an append whose operation is on the log writes and sends nothing, and can return only the recorded event, for a command with its action, actor, reason and data |
| `HistoryRecovery.CompleteVerifies` | src/bluelab/adapters/lifecycle_history.py:213-300 | a store pair with all records of a log and its head verifies at that head and returns that log |
| `HistoryRecovery.VerifiedIffReceipted` | src/bluelab/adapters/lifecycle_history.py:213-300 | a reachable state verifies if and only if its last receipt is in both copies |
| `HistoryRecovery.RepairCompletes` | src/bluelab/adapters/lifecycle_history.py:337-392 | repair of any reachable state restores exactly the missing receipt, keeps the head and makes it verify |
| `HistoryRecovery.ReconstructConfirms` | src/bluelab/adapters/lifecycle_history.py:394-463 | reconstruction of a complete state changes nothing and confirms the head |
| `HistoryRecovery.RecoveryKeepsHead` | src/bluelab/entrypoints/restore_reconcile.py:73-76 | from every reachable state, repair then reconstruction ends verified at exactly the same head |
| `HistoryRecovery.LostHeadIsRebuilt` | src/bluelab/adapters/lifecycle_history.py:394-463 | with all receipts written and the head deleted or rolled back to any earlier head, reconstruction brings back the same head and the same events |
| `HistoryRecovery.LostHeadIffReceipted` | src/bluelab/adapters/lifecycle_history.py:394-463 | after losing the head the restore sequence recovers the whole log if and only if the last receipt was in both copies |
| `HistoryRecovery.ReconstructNeedsReceipts` | src/bluelab/adapters/lifecycle_history.py:394-463 | whatever the stores hold, a reconstruction that succeeds rests on exactly the receipts 0..n in both copies and changes no record but the head |
| `HistoryLostHead.LostHeadRebuildsIff` | src/bluelab/adapters/lifecycle_history.py:213-463 | for any stores that verify: with the head object lost, reconstruction succeeds if and only if every receipt in both copies carries its event's operation, and then returns to the same head and events; otherwise two different stored events share a digest |
| `HistoryLostHead.ReceiptMayNameACopy` | src/bluelab/adapters/lifecycle_history.py:236-253 | the failing case exists: a verified history with a receipt that names a copy of its event cannot be rebuilt |
| `HistoryLostHead.LostHeadOutcome` | src/bluelab/entrypoints/restore_reconcile.py:73-76 | with the head object deleted in any reachable state, the restore sequence succeeds if and only if the copies agree on whether the last receipt exists: with it the whole log is back, without it the log up to the event before |
| `HistoryLostHead.AcknowledgedSurvives` | src/bluelab/entrypoints/restore_reconcile.py:73-76 | an event whose append returned is back at its own number of the verified events if and only if the copies agree on whether the last receipt exists |
| `HistoryShared.VerifiedIgnoresHead` | src/bluelab/adapters/lifecycle_history.py:93-96 | verification never looks at the head of the backup copy, so one store can serve as both copies |
| `HistoryVerified.VerifiedHeadIff` | src/bluelab/adapters/lifecycle_history.py:213-300 | for any two stores: a head verifies if and only if the primary store names it and a stored chain from genesis and the events told by the receipts of either copy, each registered and complete, all end in it |
| `HistoryVerified.ReconstructIff` | src/bluelab/adapters/lifecycle_history.py:394-463 | for any two stores: reconstruction succeeds if and only if both copies hold exactly the records of some chain and a stored head fits it; then the last event of that chain verifies and at most the head was written, otherwise nothing changed |
| `HistoryVerified.RepairDecided` | src/bluelab/adapters/lifecycle_history.py:337-392 | for any two stores: when there is nothing to repair, when repair refuses without a trace, and when it writes exactly the missing copies of the last receipt; the answer is whether the stores then verify |
| `HistoryVerified.RecoverIff` | src/bluelab/entrypoints/restore_reconcile.py:73-76 | for any two stores: the restore sequence succeeds if and only if the repair does and leaves exactly the records of some chain with a fitting head, which then verifies; a failure keeps the stores and the error of the step that failed |
| `HistoryVerified.ImmutableIff` | src/bluelab/adapters/lifecycle_history.py:161-172 | an immutable record is written into both copies if and only if neither holds another document under its key; the primary copy may be written although the backup copy refuses |
| `HistoryVerified.RegisterIff` | src/bluelab/adapters/lifecycle_history.py:174-187 | registration succeeds if and only if neither copy holds another document under either of its keys, and then both hold the two records |
| `HistoryAppend.RegisterCompletes` | src/bluelab/adapters/lifecycle_history.py:174-187 | registration completes from every point where an earlier one stopped, verifies at genesis, and repeating it changes nothing |
| `HistoryAppend.AppendAnswers` | src/bluelab/adapters/lifecycle_history.py:470-479 | for any two stores: unverified stores are refused; a recorded operation is answered with its event if and only if action, actor, reason and data agree, and is a conflict otherwise; any other command with a wrong expected sequence is a conflict; nothing is written |
| `HistoryAppend.AppendAccount` | src/bluelab/adapters/lifecycle_history.py:465-512 | on a healthy history, in full: a repeat is answered or refused as above, a wrong sequence or an occupied key is refused without a trace, and otherwise the log grows by the event with the next number, the last link and the command's own fields, and is healthy again |
| `HistoryAppend.HandlersDecided` | src/bluelab/adapters/lifecycle_history.py:498-512 | for any two stores: the exception handlers and the confirmation answer exactly the event of the operation on the verified chain, the confirmation only with the same digest |
| `HistoryAppend.WritesAnswerFromChain` | src/bluelab/adapters/lifecycle_history.py:487-512 | for any two stores: once append writes, its answer is the event of the operation on the verified chain it leaves, a conflict if it is not there, and unverified if the stores do not verify |
| `HistorySolo.VerificationRuns` | src/bluelab/adapters/lifecycle_history.py:213-300 | store call by store call, verification decides what the whole-state reading decides |
| `HistorySolo.SoloRunIsAppend` | src/bluelab/adapters/lifecycle_history.py:465-512 | for any two stores, an appender that runs alone ends with the stores and the answer of the sequential append |
| `HistorySolo.AppendRuns` | src/bluelab/adapters/lifecycle_history.py:465-512 | among any other appenders and whatever they did, an appender launched and answered to its end leaves the stores and the answer of the sequential append, and touches nothing else |
| `HistorySolo.LostRaceAnswered` | src/bluelab/adapters/lifecycle_history.py:498-507 | a call that fails during the writes, or a head that moved, leaves a lost put in flight and then, undisturbed, answers from the verified chain |
| `HistorySolo.LostPutInFlight` | src/bluelab/adapters/lifecycle_history.py:551-569 | among any appenders, a put whose answer was lost is in flight from then on and nothing else changes |
| `HistorySolo.SearchConcludes` | src/bluelab/adapters/lifecycle_history.py:471-512 | what a recorded or a missing operation means before the writes, in the handlers and after the writes |
| `HistorySolo.RefusedCopyRereads` | src/bluelab/adapters/lifecycle_history.py:163-170 | a refused put of a record reads the copy again and goes on exactly as if the record had been there at first, or gives up if it is not |
| `HistorySolo.FailedReadRaises` | src/bluelab/adapters/lifecycle_history.py:465-479 | a call that fails outside the writes raises without a trace, and a finished append does nothing more |
| `HistorySolo.DeliveredWrites` | src/bluelab/adapters/lifecycle_history.py:551-569 | a put in flight writes, whenever it arrives, its own document into its own copy, if the key is free or the stored head still has its tag |
| `LifecycleHistory.HistoryStore.Put` | src/bluelab/adapters/lifecycle_history.py:551-569 | a put succeeds exactly under its If-Match or If-None-Match condition, and a refused one changes nothing |
| `LifecycleHistory.LifecycleHistory.PutImmutable` | src/bluelab/adapters/lifecycle_history.py:161-172 | both copies hold the record afterwards, or the first differing one stopped the write |
| `LifecycleHistory.LifecycleHistory.Register` | src/bluelab/adapters/lifecycle_history.py:174-187 | leaves both stores and answers as the registration function does, whatever they held |
| `LifecycleHistory.LifecycleHistory.VerifyCatalogSide` | src/bluelab/adapters/lifecycle_history.py:213-260 | the receipt loop over one copy decides the forward walk |
| `LifecycleHistory.LifecycleHistory.ReadReceipt` | src/bluelab/adapters/lifecycle_history.py:228-258 | one receipt, its event and the backup of its event yield the next link exactly when every check of the loop body holds |
| `LifecycleHistory.LifecycleHistory.WalkEvents` | src/bluelab/adapters/lifecycle_history.py:279-296 | the cursor loop decides the backward walk |
| `LifecycleHistory.LifecycleHistory.GetVerifiedHead` | src/bluelab/adapters/lifecycle_history.py:262-300 | returns the verified head of the two stores, or raises, changing neither |
| `LifecycleHistory.LifecycleHistory.FindAccepted` | src/bluelab/adapters/lifecycle_history.py:302-316 | returns what the lookup on the verified chain returns, errors included |
| `LifecycleHistory.LifecycleHistory.GetVerifiedEvents` | src/bluelab/adapters/lifecycle_history.py:318-335 | collecting backwards and reversing yields the chain oldest first |
| `LifecycleHistory.LifecycleHistory.RepairInterruptedReceipt` | src/bluelab/adapters/lifecycle_history.py:337-392 | leaves the stores and answers as the repair function does, on every input |
| `LifecycleHistory.LifecycleHistory.TailVerified` | src/bluelab/adapters/lifecycle_history.py:358-378 | the tail checks of the repair hold exactly when both copies agree on the last event and on the receipt before it |
| `LifecycleHistory.LifecycleHistory.RebuildReceipt` | src/bluelab/adapters/lifecycle_history.py:412-441 | one iteration of the reconstruction loop yields the next link exactly when every check of its body holds |
| `LifecycleHistory.LifecycleHistory.ReconstructHeadFromReceipts` | src/bluelab/adapters/lifecycle_history.py:394-463 | leaves the stores and answers as the reconstruction function does, on every input, also with one store in both roles |
| `LifecycleHistory.LifecycleHistory.RestoreHead` | src/bluelab/adapters/lifecycle_history.py:441-459 | the head is kept, rewritten from the last receipt, or refused, as the function says |
| `LifecycleHistory.LifecycleHistory.Recover` | src/bluelab/entrypoints/restore_reconcile.py:73-75 | the restore sequence of one organization, stopping at a failed repair |
| `LifecycleHistory.LifecycleHistory.Append` | src/bluelab/adapters/lifecycle_history.py:465-512 | leaves the stores and answers as the append function does, on every input, also with one store in both roles |
| `LifecycleHistory.LifecycleHistory.Publish` | src/bluelab/adapters/lifecycle_history.py:489-512 | head, receipts and confirmation leave the stores and answer as the function does |
| `CallInvariants.AdmitWrites` | src/bluelab/calls/admission.py:157-258 | admission inserts one in-progress attempt under a fresh identifier, or changes nothing at all |
| `CallInvariants.CompletionEffects` | src/bluelab/calls/completion.py:165-240 | a winning completion stores its rows, flips its attempt and enqueues one grade job, and touches no allowance |
| `CallInvariants.EndsOnce` | src/bluelab/calls/completion.py:165-240 | once an attempt ended, in every continuation it keeps its kind of end and its transcript, and every later completion or interruption report changes nothing |
| `CallInvariants.AllowanceConservation` | src/bluelab/calls/admission.py:99-109 | over every run, attempts_used of a drill and rep is the number of that rep's attempts on it that were not voided, within 0..allowed |
| `CallInvariants.ConservationIff` | src/bluelab/calls/admission.py:217-236 | from exact allowances, every run keeps them exact if and only if no self-authored drill carries one |
| `CallInvariants.ClampNeverBites` | src/bluelab/calls/interruption.py:54-63 | every reversal gives back exactly one use: the clamp at zero never acts |
| `CallInvariants.SelfAuthoredReversal` | src/bluelab/calls/interruption.py:94-106 | with an assignment on a self-authored drill, an admitted and voided call keeps the allowance exact if and only if nothing was used before |
| `CallPlans.NextStageFirst` | src/bluelab/calls/admission.py:127-131 | the next stage is the first open one in plan order, and is missing exactly when all are closed |
| `CallPlans.ClosedKept` | src/bluelab/calls/completion.py:85-100 | a closed stage stays closed under every transaction that keeps ended attempts |
| `CallPlans.ExecKeepsPlan` | src/bluelab/calls/completion.py:243-268 | every transaction keeps stage order, single counted attempts and exact stamps, jobs and sends |
| `CallPlans.GradedExactlyOnce` | src/bluelab/calls/completion.py:231-240 | over every run a grade job exists exactly once for a completed attempt and never otherwise, and transcripts only for completed attempts |
| `CallPlans.WinnerKeepsTranscript` | src/bluelab/calls/completion.py:165-205 | the transcript of a completed attempt is its winner's rows in every continuation |
| `CallPlans.PlanTheorem` | src/bluelab/calls/completion.py:80-110 | over every run the completion stamp is set exactly when every stage is done or twice voided; one report job per stamp, at most one E-5 dispatch; stage order holds; no stage has two counted attempts |
| `CallPlans.CompletionIsFinal` | src/bluelab/calls/admission.py:313-327 | closing is monotone, and after the stamp no attempt of the candidate is admitted again |
| `CallRestarts.RestartTheorem` | src/bluelab/calls/admission.py:328-330 | with one live call per candidate: at most two voided attempts per stage, one if done; restart is set exactly when one earlier attempt on the stage was voided |
| `CallRestarts.VoidsUnbounded` | src/bluelab/calls/admission.py:308-330 | without that hypothesis, from any state with an open stage and for every number, some run voids that many more attempts on the stage |
| `CallRestarts.BoundNeedsOneLive` | src/bluelab/calls/admission.py:308-330 | over all runs from the start the bound of two voids holds if and only if there is no candidate; with one live call per candidate it always holds |
| `CallRestarts.MeasureFalls` | src/bluelab/calls/interruption.py:107-117 | the sum over open stages of two minus the voided attempts never rises and strictly falls at every completion or voiding |
| `CallRestarts.PlanMustEnd` | src/bluelab/calls/completion.py:80-102 | a candidate's attempts are completed or voided at most twice per stage in all, and no chance remains exactly when the plan is closed |
| `CallRules.RepAdmittedIff` | src/bluelab/calls/admission.py:203-258 | a rep is admitted if and only if the call is permitted and the drill is self-authored or attempts_used is below attempts_allowed; exactly one use is charged, the refusal names the failing condition and writes nothing |
| `CallRules.CandidateAdmittedIff` | src/bluelab/calls/admission.py:291-330 | a candidate is admitted if and only if the call is permitted and the stage is the first open one of the plan; consumed and not-next are told apart, and the restart flag is set exactly after one voided attempt |
| `CallRules.CompletionWinsIff` | src/bluelab/calls/completion.py:113-240 | a completion wins if and only if the attempt is in progress, not fenced, its rows have distinct numbers and its stage no counted attempt; losing and aborting are told apart and write nothing; a win writes exactly the flip, the rows, the plan's effects and one grade job |
| `CallRules.AdvanceStamps` | src/bluelab/calls/completion.py:243-268 | closing a plan writes the stamp and the report job, and the E-5 row with its job if and only if the position notifies and no such row exists; an open plan writes nothing |
| `CallRules.InterruptionWinsIff` | src/bluelab/calls/interruption.py:70-118 | an interruption wins if and only if the attempt is in progress; a call that never established leaves no attempt, any other a voided one; a rep gets one use back, never below zero, and a candidate's plan may close |
| `CallTables.Tables.ConsumeAllowance` | src/bluelab/calls/admission.py:99-109 | charges one use if and only if attempts_used is below attempts_allowed, and changes no other row |
| `CallTables.Tables.Admit` | src/bluelab/calls/admission.py:157-258 | statement by statement, admission does what its transaction function does, every refusal included |
| `CallTables.Tables.AdvanceCandidateIfClosed` | src/bluelab/calls/completion.py:243-268 | the conditional stamp and its scheduled effects happen together exactly when the plan closes |
| `CallTables.Tables.Complete` | src/bluelab/calls/completion.py:113-240 | statement by statement, completion does what its transaction function does, with losses and rollbacks |
| `CallTables.Tables.Interrupt` | src/bluelab/calls/interruption.py:70-118 | statement by statement, voiding or deletion does what its transaction function does |
| `CallTables.Tables.ReverseAllowance` | src/bluelab/calls/interruption.py:54-63 | gives back one use of one allowance, never below zero, and touches nothing else |
| `CallSweep.SweepDueCalls` | src/bluelab/calls/sweep.py:58-91 | the sweep acts as a run of reported endings, counts the calls it ended and leaves every due session terminal |
| `CallSweep.SweepEndsEverything` | src/bluelab/calls/sweep.py:58-91 | after a sweep the attempt of every due call has ended, and whatever had ended before is as it was |
| `CallSweep.SweepEndsAs` | src/bluelab/calls/sweep.py:58-91 | the first live due session that names an attempt in progress decides its end: deleted if the call never established, voided otherwise, whatever the rest of the sweep does |
| `CallSweep.LiveCounted` | src/bluelab/calls/sweep.py:58-91 | the sweep counts exactly the due sessions that were not terminal |
| `Recording.SettledOnce` | src/bluelab/calls/egress.py:121-145 | over every run, the stale sweep included, a recording exists exactly for a completed attempt, leaves pending exactly once, and raises exactly one fault if unavailable and none otherwise |
| `Recording.SettledStays` | src/bluelab/calls/egress.py:121-133 | a settled recording never changes again |
| `Recording.RecordingConverges` | src/bluelab/calls/internal_router.py:193-242 | in every interleaving of completions and webhooks with one outcome, an answered completion and a delivered webhook leave a completed attempt at that outcome |
| `Recording.RedeliverySettles` | src/bluelab/calls/webhook_router.py:79-97 | wherever the handlers stopped, one more delivery of the webhook settles a completed attempt |
| `Recording.RetrySettlesIff` | src/bluelab/calls/internal_router.py:190-234 | over every run with one outcome, a further completion run to its end settles a pending recording if and only if the session is not terminal and the outcome is stored |
| `Recording.CrashStrandsPending` | src/bluelab/calls/internal_router.py:190-234 | the failing case is reached: a completion that crashes between its terminal mark and its read leaves the recording pending, and the retry is ignored |
| `Recording.CompletionRuns` | src/bluelab/calls/internal_router.py:187-242 | from every state the completion's steps run alone do what the undisturbed handler does, the early answer and the missing outcome included |
| `Recording.CompletionDecided` | src/bluelab/calls/internal_router.py:187-242 | the callback run alone, field by field: nothing on a terminal session; otherwise the terminal mark, completion exactly for an unfenced attempt in progress, and a resolved recording exactly when one is then pending and an outcome is stored |
| `Recording.WebhookDecided` | src/bluelab/calls/webhook_router.py:75-97 | the webhook run alone, field by field: the outcome is stored, a pending recording takes it and a failure raises a fault unless one is open |
| `Recording.OthersDecided` | src/bluelab/calls/sweep.py:99-106 | the stale sweep fails a pending recording unless the attempt was voided; the other reports touch their own field only |
| `Recording.CallPlane.ReconcileRecording` | src/bluelab/calls/egress.py:121-145 | only a pending recording changes; a failure opens a fault unless one is open |
| `Recording.CallPlane.RuntimeCompletion` | src/bluelab/calls/internal_router.py:176-242 | the handler run alone: commit, terminal mark, stored outcome, reconciliation, in that order |
| `Recording.CallPlane.EgressEnded` | src/bluelab/calls/webhook_router.py:75-97 | the webhook of the registered egress run alone: stored outcome, then reconciliation; any other egress changes nothing |
| `RestoreReplay.VerifiedHistory` | src/bluelab/adapters/lifecycle_history.py:318-335 | the events of a verified head are numbered and distinct as replay assumes; the further hypothesis of the fold theorems is exactly one completion at most |
| `RestoreReplay.LoopKeepsOnePending` | src/bluelab/lifecycle/restore.py:100-107 | at most one operation is pending after every event, also where replay raises |
| `RestoreReplay.ReplayFinishesIff` | src/bluelab/lifecycle/restore.py:285-340 | for every numbered history, replay finishes exactly when the projection stands at a prefix with matching applied records; up to the next completion the first operation is absent or pending for its event, no later one is on record and every event applies; and only applied completions follow |
| `RestoreReplay.ReplayReachesFold` | src/bluelab/lifecycle/restore.py:309-340 | from the fold of any prefix, replay reaches the fold of the whole history at its last number, with every operation applied |
| `RestoreReplay.ReplayTwice` | src/bluelab/lifecycle/restore.py:291-308 | a second replay finishes and changes nothing |
| `RestoreReplay.CrashResumes` | src/bluelab/lifecycle/restore.py:328-340 | interrupted between any two transactions, a replay that can finish resumes to the identical database, with one pending operation at most |
| `ReplayRules.AbsentReplayIff` | src/bluelab/lifecycle/restore.py:290-308 | for every numbered history and an absent organization, replay changes nothing and finishes if and only if the purge is on record as completed, the history ends with a completion, and every event is on record as applied at its number with its payload, actor and reason |
| `ReplayRules.EventPassesIff` | src/bluelab/lifecycle/restore.py:309-327 | one event, field by field: when an absent organization lets it pass, when the projection already has it, when it is a gap, and when it is the next one and acceptable; only that last case writes |
| `ReplayRules.EventWrites` | src/bluelab/lifecycle/restore.py:84-124 | the next event leaves its operation applied with the event's own fields at its number, what waited locally rejected if the operation was missing, and the organization at the event or gone |
| `ReplayRules.RefusedEventWaits` | src/bluelab/lifecycle/restore.py:84-124 | an event that does not apply leaves only its own operation waiting |
| `RestoreReplay.RestoredDatabase.EnsurePending` | src/bluelab/lifecycle/restore.py:84-124 | rebuilds the pending operation, rejecting a local one, or refuses and changes nothing |
| `RestoreReplay.RestoredDatabase.Apply` | src/bluelab/lifecycle/restore.py:144-178 | applies one event and resolves its operation together, or changes nothing |
| `RestoreReplay.RestoredDatabase.ReplayOne` | src/bluelab/lifecycle/restore.py:309-340 | one event: checked against its record, or ensured and applied, or refused |
| `RestoreReplay.RestoredDatabase.ReplayOrganization` | src/bluelab/lifecycle/restore.py:285-340 | the event loop leaves the database and answers as the replay function does |
| `ErasureLedger.MarkersNeverChange` | src/bluelab/adapters/erasure_ledger.py:98-110 | over every run a marker once written never changes in either copy, and an armed request stays armed |
| `ErasureLedger.CopiesIdentical` | src/bluelab/adapters/erasure_ledger.py:67-145 | a backup marker is always identical to the live one; a returned arm left both identical; a conflict means a live marker that differs in subject, organization, request time or executor |
| `ErasureLedger.OwnStep` | src/bluelab/adapters/erasure_ledger.py:139-145 | an armer's read of the backup copy always meets the marker it carries, so an arm of the same identity never conflicts there |
| `ErasureLedger.OtherIdentityWritesNothing` | src/bluelab/adapters/erasure_ledger.py:112-137 | an arm of another identity never changes either copy, now or by a late put |
| `ErasureLedger.RetryCompletes` | src/bluelab/adapters/erasure_ledger.py:118-145 | from every reachable state an undisturbed arm succeeds if and only if the live copy has no marker of another subject, organization, request time or executor; both copies then hold the live marker, and repeating has no effect |
| `ErasureLedger.SoloRunIsArm` | src/bluelab/adapters/erasure_ledger.py:67-145 | an armer that runs alone does what the sequential arm does |
| `ErasureLedger.ArmingRuns` | src/bluelab/adapters/erasure_ledger.py:67-145 | an armer launched among any others and then answered four times arms as the sequential arm does and touches nothing else |
| `ErasureLedger.LostAnswerFails` | src/bluelab/adapters/erasure_ledger.py:98-110 | an unanswered call ends its arm without touching a copy |
| `ErasureLedger.LostPutMayLand` | src/bluelab/adapters/erasure_ledger.py:83-102 | a put whose answer was lost may arrive later, and then writes its marker exactly where its copy has none |
| `ErasureLedger.S3Ledger.PutCopy` | src/bluelab/adapters/erasure_ledger.py:73-137 | the stored body afterwards, or a conflict; never an overwrite |
| `ErasureLedger.S3Ledger.ArmMarker` | src/bluelab/adapters/erasure_ledger.py:67-145 | live copy first, its marker into the backup copy, as the arm function says |
| `ErasureLedger.S3Ledger.CheckArmed` | src/bluelab/adapters/erasure_ledger.py:188-205 | a marker in either copy counts |
| `ErasureLedger.S3Ledger.Markers` | src/bluelab/adapters/erasure_ledger.py:147-186 | page by page, the markers of the backup copy in the order of the listing, one for each key |
| `ErasureLedger.ReturnedIsListed` | src/bluelab/adapters/erasure_ledger.py:147-186 | over every run a full listing of the backup copy holds the live marker of every returned arm at exactly one place |
| `PurgeMatrix.BatchKeys` | src/bluelab/lifecycle/purge_matrix.py:140-152 | the nested loops build the batches of the matrix order |
| `PurgeMatrix.BatchTable` | src/bluelab/lifecycle/purge_matrix.py:146-151 | the offsets of one table give its batches in order |
| `PurgeMatrix.BatchesBounded` | src/bluelab/lifecycle/purge_matrix.py:140-152 | every batch holds 1 to 1000 consecutive rows, fewer than 1000 only at the end of its table, under the step of its table, in matrix order, with distinct table and index, and no index missing |
| `PurgeMatrix.BatchesCoverOnce` | src/bluelab/lifecycle/purge_matrix.py:140-152 | concatenating a table's batches gives back its rows in order |
| `PurgeMatrix.EntryOf` | src/bluelab/lifecycle/purge_matrix.py:15-44 | every table of the matrix is deleted in exactly one place of the step order |
| `PurgeMatrix.ParentsLater` | migrations/versions/0001_initial_schema.py:126-1222 | every foreign key points to a later table, except an account's team and the organization's current term |
| `PurgeMatrix.PrefixLeavesNothingDangling` | src/bluelab/lifecycle/purge_matrix.py:67-78 | on every consistent instance, deleting any prefix of the batches before org_finalize leaves no dangling foreign key; reps go before managers |
| `PurgeMatrix.WholePurgeSafeIff` | migrations/versions/0009_org_service_terms.py:53 | the whole purge is safe at every point if and only if no organization row names its current service term |
| `JobQueue.FetchTakesTheTop` | migrations/versions/0002_queue_schema.py:259-311 | fetch never raises, and takes the eligible unlocked job of highest priority and then lowest identifier, or nothing when there is none |
| `JobQueue.OneEligiblePerLock` | migrations/versions/0002_queue_schema.py:270-297 | at most one job of a lock is eligible at any time |
| `JobQueue.WorkConserving` | migrations/versions/0002_queue_schema.py:259-311 | with nothing running, everything due and all queues targeted, fetch returns a job exactly when one is waiting |
| `JobQueue.HeadOfLineBlocks` | migrations/versions/0002_queue_schema.py:270-297 | a job scheduled for later holds back the due jobs behind it on its lock |
| `JobQueue.QueueDrains` | migrations/versions/0002_queue_schema.py:259-341 | from an idle queue, as many fetch-and-finish turns as jobs wait run each of them exactly once, whatever locks and priorities |
| `JobQueue.QueueTheorem` | migrations/versions/0002_queue_schema.py:127-151 | over every run at most one job per lock runs, waiting jobs carry no abort request, no two share a queueing lock, and no fetch raises |
| `JobQueue.DeferRaisesIff` | migrations/versions/0002_queue_schema.py:167-192 | a deferral is refused exactly when a queueing lock of the batch is repeated in it or held by a waiting job |
| `JobQueue.AttemptsAccount` | migrations/versions/0002_queue_schema.py:313-451 | over every run attempts, plus one while running, is fetches plus retried failures minus retries that an abort request ended |
| `JobQueue.OverIsForever` | migrations/versions/0002_queue_schema.py:313-451 | succeeded, cancelled and aborted jobs, and failed ones with an abort request, never change again |
| `JobQueue.CancelMeans` | migrations/versions/0002_queue_schema.py:343-373 | a waiting job is gone or over after a cancel, a running one goes on and its next retry ends it, every other job is untouched |
| `JobQueue.CancelNeverRaises` | migrations/versions/0002_queue_schema.py:343-373 | cancel never raises, and answers the job exactly when it was waiting, or running and to be aborted |
| `JobQueue.FinishRaisesIff` | migrations/versions/0002_queue_schema.py:313-341 | finish raises exactly for a bad end status or a job that is neither waiting nor running |
| `JobQueue.RetryV1RaisesIff` | migrations/versions/0002_queue_schema.py:375-411 | the first retry raises exactly for a job that is not running, or one whose queueing lock another waiting job holds |
| `JobQueue.RetryV2RaisesIff` | migrations/versions/0002_queue_schema.py:413-451 | the second retry also raises for a failed job that still carries its abort request |
| `JobQueue.RetryOfAbortedGetsStuck` | migrations/versions/0002_queue_schema.py:413-451 | retrying a running job after an abort request leaves a failed job that no retry can take |
| `JobRules.DeferredRows` | migrations/versions/0002_queue_schema.py:167-192 | an accepted batch is inserted in order, each row waiting and untried with the lock, priority, schedule and other columns it was deferred with; a refused one inserts nothing |
| `JobRules.FetchTakesIff` | migrations/versions/0002_queue_schema.py:259-311 | a fetch answers a job if and only if it waits, is due and targeted, its lock is free and not wanted by a job before it, and it is first in the order among such unlocked jobs; it marks that job running for the worker and changes nothing else |
| `JobRules.FinishWrites` | migrations/versions/0002_queue_schema.py:313-341 | finish deletes the job or gives it the end status, clears its abort request and counts a running attempt; both refusals are exact and write nothing |
| `JobRules.CancelWrites` | migrations/versions/0002_queue_schema.py:343-373 | cancel deletes or cancels a waiting job, only requests the abort of a running one, and leaves every other as it is |
| `JobRules.RetryV1PutsBack` | migrations/versions/0002_queue_schema.py:375-411 | the first retry succeeds exactly for a running job that is to be aborted or whose queueing lock is free; a job put back has one more attempt, the retry's time, the given or old priority, queue and lock, and every other column and row kept |
| `JobRules.RetryV2PutsBack` | migrations/versions/0002_queue_schema.py:413-451 | the second retry does the same for failed jobs without an abort request |
| `JobRules.ScheduledWaits` | migrations/versions/0002_queue_schema.py:259-311 | a job scheduled for later stays exactly as it is through every run of deferrals, calls about other jobs and earlier fetches |
| `JobRules.BackOffHolds` | migrations/versions/0002_queue_schema.py:399-438 | so a retried job is not fetched before its retry time, in any run |
| `JobQueue.JobTable.DeferAll` | migrations/versions/0002_queue_schema.py:167-192 | all jobs of a batch are inserted, in order, or none |
| `JobQueue.JobTable.FetchNext` | migrations/versions/0002_queue_schema.py:259-311 | the table and the answer are those of the fetch function |
| `JobQueue.JobTable.FinishOne` | migrations/versions/0002_queue_schema.py:313-341 | the table and the answer are those of the finish function |
| `JobQueue.JobTable.CancelOne` | migrations/versions/0002_queue_schema.py:343-373 | the table and the answer are those of the cancel function |
| `JobQueue.JobTable.RetryRunning` | migrations/versions/0002_queue_schema.py:375-411 | the table and the answer are those of the first retry function |
| `JobQueue.JobTable.RetryOne` | migrations/versions/0002_queue_schema.py:413-451 | the table and the answer are those of the second retry function |
| `DeliveryEvents.RunProgresses` | src/bluelab/notifications/delivery_events.py:44-72 | over every run the event time never goes back and a delivered or bounced row never changes |
| `DeliveryEvents.RunDecided` | src/bluelab/notifications/delivery_events.py:44-72 | every sequence of events ends at the first terminal event that is not earlier than the first event of all, or at that first event |
| `DeliveryEvents.TerminalWinsIff` | src/bluelab/notifications/delivery_events.py:44-72 | with one terminal event among delays, duplicates included, the row ends there if and only if the event that arrived first is not later |
| `DeliveryEvents.OrderDoesNotMatter` | src/bluelab/notifications/delivery_events.py:44-72 | if no delay is later than the terminal event, every order and multiplicity of the same events ends alike |
| `DeliveryEvents.AnswersDecided` | src/bluelab/notifications/delivery_events.py:44-72 | each of the four answers is given exactly under its condition on the row and the event, and the row changes exactly for an update, to the event's status and time |
| `DeliveryEvents.SendTable.ReconcileEvent` | src/bluelab/notifications/delivery_events.py:31-72 | the row and the answer are those of the reconciliation function, and no other row changes |

## Left out

- HTTP routing, authentication, LiveKit, S3, KMS, metrics and logging: only the read, put and list contract of a store is kept.
- JSON encoding and SHA-256: documents are values and the digest is an arbitrary function; a body no parser accepts is one constructor, whatever its text.
- Purge records of the lifecycle history (lines 98-148 of its file) and the enumeration of registered organizations (line 189): they share the immutable put and add no state to the chain.
- Expiry of registry, lease and outcome keys, capacity slots and the lease store: a single live call per candidate enters `CallRestarts` as a hypothesis on the run, and `CallRestarts.VoidsUnbounded` shows what is lost without it.
- The window inside a call request between the registry write and the commit: admission is one step.
- Consent, service access and the erasure fence are one input of admission (`permitted`) and of completion (`fenced`); re-assignment of allowances and `app_consume_assignment_allowance` are not modelled, the visible conditional update is.
- Grading is an environment step that moves a counted attempt between counted statuses; its worker is not part of this model.
- A call session carries the identifiers of its attempt row, so `CallTables.Tables.Interrupt` reads drill, rep and candidate from the row; a session that disagrees with its row is not modelled.
- Recording: the registration of the egress identifier, the `erased` status and the deletion of orphaned objects; the convergence theorem excludes the stale-recording sweep, which the safety theorems include.
- Replay: erasure markers, purge evidence, and the checks of policy, restriction and request projections after the event loop; what an event does to the projection is an arbitrary partial function, so the checks inside those transactions are whatever that function refuses.
- RestoreReplay.ReplayReachesFold: assumes a history with at most one completion, as do `RestoreReplay.ReplayTwice` and `RestoreReplay.CrashResumes`; `RestoreReplay.ReplayFinishesIff` does not.
- RestoreReplay.CrashResumes: an event is applied in one transaction; the several transactions of a purge event are not modelled apart, because what its apply functions do to the run is not part of this model.
- RestoreReplay.RestoredDatabase.Apply: applies an event through an arbitrary partial function, for the same reason.
- RestoreReplay.RestoredDatabase.ReplayOrganization: ends with the final sequence check and omits the markers and the projection checks before it.
- CallTables.Tables.Admit: takes consent, service access and the erasure fence as one input, because each is a lookup whose code or tables are not part of this model.
- CallSweep.SweepDueCalls: omits the release of leases and capacity slots, which hold no state of the model.
- Recording.CallPlane.RuntimeCompletion: omits leases, slots and the deletion of orphaned objects, as `Recording.CallPlane.EgressEnded` does.
- HistoryTheorems.StoresAgree: the append protocol runs over two different stores, as the theorems on two copies must; with one store in both roles only the undisturbed service is modelled.
- PurgeMatrix.PrefixLeavesNothingDangling: stops before `org_finalize`, because the code that clears the organization's current service term is not part of this model; `PurgeMatrix.WholePurgeSafeIff` says exactly what it must clear. `product_fact.prior_fact_id`, which a deletion sets to null, is not a blocking reference.
- The schema comparison and the object and job inventories of the purge: set differences over the information schema.
- Queue: periodic deferral, heartbeats, notifications, event triggers and the identifiers a failed insert consumes. One stored function is one atomic step; rows locked by other transactions are the `skipped` set of a fetch.
- The RLS generator, the drift and ratchet scanners and the evaluator normalization: claims about declarations that would only add easy members.
