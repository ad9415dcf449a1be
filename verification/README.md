# FluentCheck verification

A model, with proofs, of the parts of the FluentCheck backend where correctness spans several
functions: the Redis client of the rate limiter, the life of a Submission across the flag,
payment, assignment and scoring services, examiner assignments under account changes, the
two-phase deletion of prompt media, and the pages of the student dashboard.

## How it is built

* **Redis client** (`Decimal`, `Resp`, `RespWire`, `RespGrammar`, `RespStream`, `RedisClient`, `RedisRuns`,
  `RateLimitWindow`). Bytes are `seq<byte>`. The parser is a function of the unread bytes and, as
  in the repository, a method over a buffer and an offset; the client is a class with a buffer
  and a queue. `Number(line)` is a parameter that is only known to read decimal print (section
  "Integers", "Bulk strings" and "Arrays" of the Redis serialization protocol). A run is a list
  of connects, half-closes, commands, data, failures and timeouts.
  The increment script counts in fixed windows, so an interval of one window length can see parts
  of two of them: at most 2L - 1 requests pass in it for a limit of L, and that many can
  (`IntervalLimit`, `IntervalLimitTight`).
* **Submission lifecycle** (`Records`, `Database`, the `...Service` files, `Lifecycle...`,
  `...Steps`). Every transaction is one atomic step. It is a function on the tables (`...Rules`)
  and, apart from registration and retention, also a method on `Database.Tables` that updates
  them in place (`...Service`); the method is proved equal to the function, so the theorems about
  functions hold of it, and also to keep the invariant, to write only the tables it names and to
  be accepted exactly when it should be. `LifecycleInvariant` says what all 25 steps keep.
  `LifecycleSafety` draws the promises from it in terms of the rows alone: they hold in every
  consistent state, and every reachable state is consistent (`Lifecycle.ReachableConsistent`).
  `LifecycleHistory` relates any two states of a run, `AssignmentTrigger`, `Clearance` and
  `AssignmentHistory` follow one Submission or one assignment through a run, and the `...Effects`
  files say when single operations are accepted, what exactly they write and what they achieve,
  also in every continuation. `Refusals` says what every refusal means. The invariant carries an `Index` that says where to find the things whose
  existence it claims (a Submission's two assignments, its credit, its paying attempt); the
  theorems do not mention it.
* **Payment attempts** (`PaymentFrames`, `PaymentStatus`, `PaymentNotifications`,
  `PaymentOutcomes`). Which steps change status and identifiers of one attempt, and how. A
  notification is an unlocked read and, later, its own locked transaction; anything may happen in
  between. As long as notifications carry the identifiers of their own attempt, what was sent
  decides the final status and when it was read or committed does not.
* **Prompt media** (`PromptMedia`, `PromptMediaSafety`, `PromptMediaEffects`,
  `PromptMediaCleanup`). Steps hold the
  key's lock. A confirm step may lose its database write after the delete, or fail with the
  object gone or still there.
* **Dashboard and Test Set choice** (`DashboardPages`, `TestSetSelection`).

Ids that the backend generates are parameters of the steps; a clash is refused as the unique
constraint would. Clock readings, the settings flag, completeness of the recorded evidence and
the credits locked by other transactions (`SKIP LOCKED`) are parameters too.

## Where the code and its promises differ

* **Error inside an array.** `parseRedisReply` (rateLimitStore.ts:566) returns at a nested error
  without reading the rest of its array, so one server reply can become several and later commands
  get the wrong ones. It is consumed as one reply if and only if it has no error or the error is
  its last part (`OneReplyExactly`, `SeenOnePerReply`; `NestedErrorSplits` is an instance).
* **Reconnecting.** `openConnection` (rateLimitStore.ts:338-349) empties the buffer but not the
  queue, and a half-closed socket is replaced before its close event rejects its commands. The
  k-th reply belongs to the k-th command sent on the connection if and only if nothing was
  waiting when it opened (`KthReplyKthCommand`; `ReopenMisdelivers` is an instance).
* **Late answers of a checkout.** The two writes that follow the provider's answer to a checkout
  look at no status. The rejection (payment.service.ts:420-426) makes a paid attempt read as
  failed; it is the only step that takes PAID back (`PaidIsLostOnlyByRejection`), and the
  invariant therefore relies on `paidAt`, which stays. The session write
  (payment.service.ts:433-439) replaces the session of an attempt that is paid already. The
  recorded identifiers change if and only if that write has a free and different session, or a
  success notification of an unpaid attempt is accepted with identifiers that were not both
  recorded (`IdentifiersChangeExactly`). So a paid attempt can lose its identifiers in two ways:
  the session write arrives late, and the provider's duplicate is refused as a mismatch from then
  on (`LateSessionReplacesPaidOne`), or a rejection arrives late and an older notification pays
  the attempt again (`RejectionReopensIdentifiers`). Without such a late answer nothing touches
  them (`PaidIdentifiersStay`).

## Model

| member | source | states |
|---|---|---|
| `RespWire.ParseStable` | backend/src/config/rateLimitStore.ts:522-572 | A reply that parses, or fails to parse, does so unchanged whatever bytes arrive after it; only an incomplete one can change its mind. |
| `Resp.ParseRedisReply` | backend/src/config/rateLimitStore.ts:522-572 | The offset-based parser with its array loop gives the same answer as reading the unread bytes alone, with the next offset shifted, and always makes progress. |
| `RespStream.ChunkingIsInvisible` | backend/src/config/rateLimitStore.ts:468-489 | Every way of cutting a byte stream into data events delivers the same replies in order, leaves the same unread bytes and fails alike as one event with the whole stream. |
| `RespWire.EncodeRedisCommand` | backend/src/config/rateLimitStore.ts:507-514 | The command encoder writes the protocol array of bulk strings of its arguments (byte strings, so also with CRLF or type bytes inside). |
| `RespWire.CommandRoundTrip` | backend/src/config/rateLimitStore.ts:507-514 | Parsing an encoded command gives back exactly its arguments and uses every byte; where a length exceeds the safe integers, parsing is refused instead, and only then. |
| `RespGrammar.AcceptsExactly` | backend/src/config/rateLimitStore.ts:522-572 | A buffer parses to a reply without error, of this length and value, if and only if a reply with this value is written at its front, in any spelling of its numbers that is read as them. |
| `RespGrammar.MalformedIsHopeless` | backend/src/config/rateLimitStore.ts:522-572 | Whatever arrives behind a malformed buffer, it never becomes a reply. |
| `RespGrammar.FailsAtOnce` | backend/src/config/rateLimitStore.ts:522-572 | With a complete header line parsing fails without waiting for more if and only if the type byte is unknown, the number is none or below -1, a bulk string does not end where announced, or an item of the array fails so. |
| `RespWire.ParseEncoded` | backend/src/config/rateLimitStore.ts:522-572 | Any well-formed server reply, followed by anything, parses to its meaning and uses its whole encoding, unless an error is nested in it: then parsing ends right behind the first error. |
| `RespWire.BytesOnTheWire` | backend/src/config/rateLimitStore.ts:522-546 | The type bytes, line ends and number texts of the format are the ones the parser tells apart, and the safe integers end at 2^53 - 1. |
| `RespWire.OneReplyExactly` | backend/src/config/rateLimitStore.ts:556-570 | A server reply is consumed as exactly one reply if and only if it has no error inside or its error is the very last part. |
| `RespStream.SeenOnePerReply` | backend/src/config/rateLimitStore.ts:556-570 | The client sees at least one reply per server reply, and exactly one each if and only if every one of them is free of a nested error that is not last. |
| `RespStream.NestedErrorSplits` | backend/src/config/rateLimitStore.ts:566-566 | Counterexample: an array with an error in front of another element is seen as two replies. |
| `RedisClient.NativeRedisRateLimitClient.HandleData` | backend/src/config/rateLimitStore.ts:468-489 | The loop over the buffer settles the oldest waiting commands with the replies of the whole unread stream, an error reply rejecting its command and any other value being its result, keeps the unread rest, and fails the connection where parsing does. |
| `RedisRuns.IssuedWaitsOrIsRejected` | backend/src/config/rateLimitStore.ts:417-466 | A new command is queued behind the others, with nothing else changed, if and only if the socket is writable, the signal has not fired and the write succeeds; otherwise it is rejected, alone on a socket that is not writable, and with everything that waited when signal or write brings the socket down. No settled promise changes. |
| `RedisClient.NativeRedisRateLimitClient.FailSocket` | backend/src/config/rateLimitStore.ts:491-504 | Every command still waiting is rejected once, oldest first; settled ones keep their outcome; the buffer is emptied. |
| `RedisRuns.RunKeeps` | backend/src/config/rateLimitStore.ts:338-504 | Over every run of connects, half-closes, commands, data, failures and timeouts: each promise settles at most once, every issued command waits or is settled but never both; on a connection without an unasked reply, live or ended, the replies settle its waiting commands in order, and a command without a reply waits or is rejected. |
| `RedisRuns.KthReplyKthCommand` | backend/src/config/rateLimitStore.ts:417-489 | On a connection with no unasked reply, live or ended in any way, the k-th reply settled the k-th waiting command: an error rejected it, any other value is its result. That is the k-th command sent on this connection if and only if nothing was waiting when it opened. |
| `RedisRuns.TheOthersWaitOrAreRejected` | backend/src/config/rateLimitStore.ts:468-504 | The commands behind the last reply are exactly what waits, in order, while the connection lives, and are all rejected once it has ended by parse failure, timeout, abort, write failure or close. |
| `RedisRuns.CommandsGetTheirReplies` | backend/src/config/rateLimitStore.ts:417-489 | Once server replies that are each seen as one have arrived, whatever came behind them, the promise of the k-th waiting command is rejected if reply k holds an error and has exactly its meaning otherwise, live connection or not; these are the commands sent if nothing was waiting at the start. If nothing came behind on a live connection, the buffer is empty and the other commands wait. |
| `RedisRuns.ChunksMakeNoDifference` | backend/src/config/rateLimitStore.ts:468-489 | At any point of any run, receiving bytes in any chunks leaves the client, its queue and every promise as receiving them at once does. |
| `RedisRuns.ReopenMisdelivers` | backend/src/config/rateLimitStore.ts:338-355 | Counterexample: reopening while a half-closed socket still has a waiting command hands that command the reply of the new connection's first command. |
| `RateLimitWindow.RateLimitKeys.IncrementScript` | backend/src/config/rateLimitStore.ts:38-46 | The increment script leaves a counter one higher, or a fresh one of 1, always with an expiry, and answers its hits and remaining time. |
| `RateLimitWindow.DecrementUndoesIncrement` | backend/src/config/rateLimitStore.ts:38-66 | A decrement undoes an increment of a live counter at the same moment, expiry included, and leaves no counter where there was none. |
| `RateLimitWindow.DecrementTakesBack` | backend/src/config/rateLimitStore.ts:60-66 | A live counter above 1 keeps its expiry and loses one hit; any other counter is removed; no other key is touched. |
| `RateLimitWindow.RunBounded` | backend/src/config/rateLimitStore.ts:38-66 | After every run of the three scripts and resets, each stored counter is at least 1 and expires within the window. |
| `RateLimitWindow.WindowLimit` | backend/src/config/rateLimitStore.ts:38-46 | From any such state and with increments only, one window answers at most L requests with a total within the limit L. |
| `RateLimitWindow.IntervalLimit` | backend/src/config/rateLimitStore.ts:38-46 | With increments only, any half-open interval of one window length answers at most 2L - 1 requests within the limit. |
| `RateLimitWindow.IntervalLimitTight` | backend/src/config/rateLimitStore.ts:38-46 | That bound is reached for every limit and every window of at least two milliseconds. |
| `FlagEffects.RoutingSpendsOldestCredit` | backend/src/service/submissionFlag.service.ts:55-87 | Payment is skipped exactly when it is off or the student has an unlocked unredeemed credit; then exactly one credit changes, the oldest such one, redeemed by this Submission. |
| `FlagEffects.DeviceFlagHoldsBack` | backend/src/service/submissionFlag.service.ts:103-145 | A device flag is taken only while recording, and in every continuation the Submission stays in recording, abandoned or in review until that flag is resolved. |
| `FlagEffects.ConcernAccepted` | backend/src/service/submissionFlag.service.ts:152-223 | A concern is accepted if and only if an assigned examiner with unfinished work raises it on a known Answer while scoring or paused; the Submission is then in review. |
| `FlagEffects.ConcernPausesScoring` | backend/src/service/submissionFlag.service.ts:152-223 | In every continuation, until the concern is resolved, neither assignment of the Submission can be started, saved or completed by anyone. |
| `FlagEffects.DismissalUndoesConcern` | backend/src/service/submissionFlag.service.ts:407-440 | Raising a concern and dismissing it leaves all tables as they were, except for the dismissed flag. |
| `FlagEffects.DismissalReturns` | backend/src/service/submissionFlag.service.ts:407-440 | Dismissal is accepted if and only if an active administrator dismisses an open flag of a Submission in review, which then stays in review exactly while another flag is open, else returns to scoring if it has assignments, else is routed. |
| `FlagService.ConfirmFlag` | backend/src/service/submissionFlag.service.ts:370-400 | The two flag writes of a confirmation, one for the flag and one for the others, amount to the single-pass rule, refusals included; the invariant is kept. |
| `FlagEffects.ConfirmationIsFinal` | backend/src/service/submissionFlag.service.ts:376-400 | In every continuation of a confirmation the Submission is voided without an open flag, the confirmed and superseded flags keep their resolutions, and exactly one credit stands for it. |
| `SubmissionService.StartAssessment` | backend/src/service/manifestSubmissionInitialization.service.ts:516-553 | A start supersedes the stale attempt first and rolls that back when the insert fails; the next attempt is created, or nothing changes. The invariant is kept. |
| `SubmissionEffects.StartAccepted` | backend/src/service/manifestSubmissionInitialization.service.ts:516-560 | A start is accepted if and only if the student is known, the id new, and the attempt it supersedes, if any, is the student's only unfinished one; it creates one attempt in progress, seen at this moment, abandons the superseded one, and writes nothing else. |
| `SubmissionEffects.StartKeepsAttempt` | backend/src/service/submission.service.ts:383-392 | A started attempt stays in progress in every continuation whose sweeps have no later cutoff than the start and in which its student does not end it. |
| `SubmissionEffects.AbandonmentFreesStudent` | backend/src/service/submission.service.ts:326-348 | Abandoning is accepted if and only if the owner's retained attempt is in progress or abandoned, repeats without effect, and turns the refusal of the student's next start into its acceptance. |
| `SubmissionEffects.RecordingEndsExactly` | backend/src/service/submission.service.ts:326-392 | A step ends the recording of a retained attempt if and only if it is its owner's abandonment or complete submission, a sweep with a later cutoff than it was last seen, or its student's next start superseding it, with a new id and no other unfinished attempt; only a heartbeat of its owner changes that time. |
| `SubmissionEffects.HeartbeatKeepsAttempt` | backend/src/service/submission.service.ts:358-392 | After a heartbeat the attempt stays in progress in every continuation whose sweeps have no later cutoff and in which its owner does not end it. |
| `SubmissionEffects.HeartbeatNeverRevives` | backend/src/service/submission.service.ts:358-375 | An attempt that is not in progress refuses heartbeats, which then write nothing, in every continuation. |
| `SubmissionEffects.SweepsMerge` | backend/src/service/submission.service.ts:383-392 | Two sweeps amount to one with the later cutoff, in either order. |
| `SubmissionEffects.CompletionTaken` | backend/src/service/submission.service.ts:692-757 | A completion is accepted if and only if the owner's retained Submission is past recording, or in progress with complete evidence; only the latter writes. |
| `SubmissionEffects.CompletionOutcome` | backend/src/service/submission.service.ts:758-796 | A completed recording is in review exactly with an open flag, then without charge and with no credit spent; else it is paid exactly when assignment starts, the oldest unlocked credit being spent if payment is on, or awaits payment. |
| `SubmissionEffects.CompletionIsFinal` | backend/src/service/submission.service.ts:740-745 | In every continuation, completing again with any parameters changes nothing, and succeeds while the Submission is retained. |
| `SubmissionEffects.PurgeWrites` | backend/src/service/submissionRetention.service.ts:346-634 | A purge is carried out if and only if the Submission is quarantined, without assignments, waiver, flag, credit or payable attempt; it removes exactly its payment attempts. |
| `SubmissionEffects.RecoveryUndoesQuarantine` | backend/src/service/submissionRetention.service.ts:346-634 | Recovering a quarantined Submission restores the tables exactly. |
| `PaymentEffects.CheckoutLeadsToPayment` | backend/src/service/payment.service.ts:327-361 | A checkout is opened if and only if the owner's retained Submission awaits payment, and a success notification of the new attempt pays it and starts assignment. |
| `PaymentEffects.FailureAndSuccessCommute` | backend/src/service/payment.service.ts:483-563 | A failure and an accepted success notification of one attempt give the same tables, and the same trigger, in either order. |
| `PaymentEffects.SuccessRepeats` | backend/src/service/payment.service.ts:511-530 | A duplicate of an accepted success notification succeeds, writes nothing and triggers nothing. |
| `PaymentEffects.WaiverClears` | backend/src/service/adminOps.service.ts:69-103 | A waiver is accepted if and only if an active administrator waives a retained Submission that awaits payment; it is then paid, keeps its waiver, and assignment is never started for it again. |
| `ExaminerEffects.CreationAccepted` | backend/src/service/examiner.service.ts:258-448 | A set is created if and only if the Submission is paid and the two candidates are different active examiners other than the student; it is found instead if and only if there is one. |
| `ExaminerEffects.CreationWrites` | backend/src/service/examiner.service.ts:258-448 | A created set puts the Submission in scoring and gives the first candidate untouched work in slot 1 and the second in slot 2; no other assignment changes. |
| `ExaminerEffects.CreationRepeats` | backend/src/service/examiner.service.ts:180-249 | Creating the set again with any candidates finds the committed one and changes nothing. |
| `ExaminerEffects.WorkAccepted` | backend/src/service/examiner.service.ts:686-739 | Starting is accepted if and only if the owner's assignment is untouched and the Submission is in scoring; saving if and only if the work is not completed, in scoring, and the score valid, though neither checks for scoring. |
| `ExaminerEffects.WorkWrites` | backend/src/service/examiner.service.ts:1118-1158 | An accepted start makes exactly this assignment started, and a second start by anyone is refused. An accepted save makes it started with exactly one score, the value and each rubric criterion as given, the rubric left out only in the legacy system; no other row changes. |
| `ExaminerEffects.ValidScores` | backend/src/service/examiner.service.ts:1073-1158 | A rubric score is valid if and only if its value and all four criteria are half bands from 1 to 6; a legacy score if and only if it lies from 0 to 100. |
| `ExaminerEffects.LastScoreWins` | backend/src/service/examiner.service.ts:1073-1158 | Saving a second valid score gives the same tables as saving only that one. |
| `ExaminerEffects.CompletionAccepted` | backend/src/service/examiner.service.ts:950-1070 | Completion is accepted if and only if the owner has a saved score on uncompleted work in scoring; only that status changes, and scoring ends exactly when the other assignment is completed already. Completed work is answered as such, also while paused, unless the Submission is voided. |
| `ExaminerEffects.ReassignmentAccepted` | backend/src/service/adminOps.service.ts:142-239 | A reassignment is accepted if and only if an active administrator moves untouched work in scoring or review to an active examiner who is neither the student nor in the set. |
| `ExaminerEffects.ReassignmentWrites` | backend/src/service/adminOps.service.ts:195-238 | An active administrator who names the present owner, and nobody else, is told that it is so already, whatever the work's status, and nothing changes; an accepted reassignment writes this owner and one history line only. |
| `ExaminerEffects.ReassignmentUndone` | backend/src/service/adminOps.service.ts:226-238 | Moving the work back to an active owner is accepted and restores every assignment; the history has gained exactly the two moves. |
| `AccountService.TransferAll` | backend/src/service/accountTransition.service.ts:700-719 | The loop over transferred assignments gives each its replacement and appends one line each in ascending order of their ids. |
| `AccountService.TransitionAccount` | backend/src/service/accountTransition.service.ts:491-743 | A role change or deactivation in place equals its rule, with every refusal in the original order; in consistent states it is carried out exactly when it is acceptable, and keeps the invariant. |
| `AccountEffects.TransitionAccepted` | backend/src/service/accountTransition.service.ts:491-660 | A transition is carried out if and only if an active administrator asks for a real change, not of the own role nor of the last active administrator, and hands over exactly the open work, all untouched, to different active examiners outside each set who are not its student, or nothing if scoring capability stays. |
| `AccountEffects.LastAdminStays` | backend/src/service/accountTransition.service.ts:574-588 | The last-administrator refusal is given if and only if the only active administrator deactivates the own account (with distinct replacements), so to no change of anyone else. |
| `AccountEffects.TransitionWrites` | backend/src/service/accountTransition.service.ts:700-743 | What is written: role or deactivation of the account, the new owner of each listed assignment, and one history line for each with its old owner, new owner, actor and reason, in ascending order of ids; nothing else. |
| `AccountEffects.RepeatAnswered` | backend/src/service/accountTransition.service.ts:390-489 | A transition is answered as already applied, with nothing written, if and only if an active administrator asks for what already holds of the account, with no work listed or exactly what the latest such transition moved, every replacement still in force. |
| `AccountEffects.TransitionHandsOver` | backend/src/service/accountTransition.service.ts:640-743 | Once scoring capability is removed the account owns no open work, every listed assignment is with its replacement, and no other assignment changed. |
| `Refusals.RefusalsAreTrue` | backend/src/service/examiner.service.ts:896-948 | In consistent states a refused transaction of any kind writes nothing, and the error it answers states something true of the tables; errors that report damaged data, and refusals of sweeps, rejections and failure notifications, never occur. |
| `Lifecycle.RunConsistent` | backend/src/service/examiner.service.ts:896-948 | Every run of any interleaving of the 25 transactions keeps the whole invariant; each transaction is one lemma of its own. |
| `Lifecycle.ReachableConsistent` | backend/src/service/examiner.service.ts:896-948 | Every state reachable from accounts with one active administrator satisfies the invariant. |
| `LifecycleSafety.SetsAndStatus` | backend/src/service/examiner.service.ts:896-948 | A Submission has no assignment, or exactly slots 1 and 2 with two examiners who are not the student; assignments imply scoring or later; scoring is over exactly when both are completed; the return status is SCORING exactly for staffed Submissions in review. |
| `LifecycleSafety.ScoresFollowWork` | backend/src/service/examiner.service.ts:1030-1048 | An untouched assignment has no score, a completed one exactly one, and every stored score is valid. |
| `LifecycleSafety.NoDataRepair` | backend/src/service/examiner.service.ts:219-233 | The fail-closed outcomes (invalid existing set, invalid or inconsistent scoring state, invalid stored score, invalid set in a transition) never occur. |
| `LifecycleSafety.FlagsMatchStatus` | backend/src/service/submissionFlag.service.ts:339-357 | Outside recording and abandonment, a Submission has an open flag if and only if it is in flag review. |
| `LifecycleSafety.CreditsConserved` | backend/src/service/submissionFlag.service.ts:63-79 | There are as many credits as voided Submissions, one for each and for its student; each credit is redeemed at most once, each Submission redeems at most one, always another Submission of the same student. |
| `LifecycleSafety.RetakesNeverCycle` | backend/src/service/submissionFlag.service.ts:63-79 | Following n links from a credit to the credit of the Submission that redeemed it leads at least n credits further on, so never back. |
| `Clearance.NothingScoredUnpaid` | backend/src/service/payment.service.ts:511-549 | Over any run, what is paid or further, or has assignments, was waived, redeemed a credit, has an attempt with a verified notification, or was routed while payment was off, which happens at most once; while it is marked as requiring payment it has that attempt. |
| `LifecycleSafety.NoChargeForVoidedTest` | backend/src/service/submission.service.ts:777-792 | A Submission voided without assignments has no payment, no waiver and redeemed no credit. |
| `LifecycleSafety.IdentifiersAreUnique` | backend/src/service/payment.service.ts:551-563 | Recorded provider identifiers are never shared by two attempts, and a paid attempt has both. |
| `LifecycleSafety.OpenWorkIsOwned` | backend/src/service/accountTransition.service.ts:661-699 | Every uncompleted assignment of a Submission that is not voided is owned by an active examiner or administrator, never by the student. |
| `LifecycleSafety.AdminAlwaysRemains` | backend/src/service/accountTransition.service.ts:574-588 | An active administrator exists in every consistent state, so after every run, self-deactivation included. |
| `LifecycleSafety.HistoryIsFaithful` | backend/src/service/accountTransition.service.ts:706-716 | An assignment's history lines form a chain from its first examiner to its present owner. |
| `AssignmentHistory.OwnerChangesAreRecorded` | backend/src/service/adminOps.service.ts:226-238 | In every step an assignment changes its owner if and only if the history gains a line with its old and new owner; then nothing else of it changes, and no line is added about one that keeps its owner. |
| `LifecycleHistory.RunEvolves` | backend/src/service/submissionFlag.service.ts:376-435 | Between any two states of a run: no Submission goes back a stage or out of an end, assignments keep id, slot and Submission, begun ones their owner, completed ones everything, credits and history only grow, redemptions and resolutions are written once, verified payments stay. |
| `LifecycleHistory.ScoringIsFrozen` | backend/src/service/examiner.service.ts:1118-1131 | After any later run a begun assignment has the same owner and a completed one the same score. |
| `AssignmentHistory.EndsAreFinal` | backend/src/service/submissionFlag.service.ts:387-390 | Voided and abandoned Submissions stay so in every continuation, and after a void every assignment stays exactly as it was. |
| `AssignmentTrigger.AssignedOnce` | backend/src/service/payment.service.ts:541-549 | Over any run automatic assignment is triggered at most once for a Submission, never for one already cleared, and exactly once for one that becomes cleared, across routing, dismissal, payment and waiver. |
| `AccountReplay.RetryIsSafe` | backend/src/service/accountTransition.service.ts:390-489 | Repeating a committed transition at once changes nothing and returns the same assignment and examiner pairs; only who deactivated their own account is refused instead. |
| `AccountReplay.AlreadyAppliedIsTrue` | backend/src/service/accountTransition.service.ts:390-489 | An "already applied" answer changes nothing, and every pair it returns is on record for this account and reason and still in force. |
| `PaymentOutcomes.OrderDoesNotMatter` | backend/src/service/payment.service.ts:463-563 | With identifiers of each attempt's own, a Submission that is not withdrawn and no rejected checkout: two runs that receive the same notifications, in any orders and with any duplicates, stale reads and interleaved commits, leave the attempt in the same status once everything read is committed. |
| `PaymentOutcomes.HighestSentWins` | backend/src/service/payment.service.ts:463-563 | At every point of such a run the higher of the status and of what waits to be committed is the higher of where the attempt started and the highest outcome sent: no notification is lost, refused or overtaken. |
| `PaymentOutcomes.StatusIsWhatWasSent` | backend/src/service/payment.service.ts:463-563 | Then the attempt is paid exactly if it was or a confirmed success was sent, else failed exactly if it had or a failure was sent, else pending. |
| `PaymentOutcomes.RejectionStartsAfresh` | backend/src/service/payment.service.ts:419-427 | After a rejected checkout the attempt ends at the highest of failed, what had been read by then and what is sent from then on. |
| `PaymentOutcomes.RunDecidesStatus` | backend/src/service/payment.service.ts:419-563 | For plain runs, rejections included, the final status is a function of the list of steps alone; no step's own result comes into it. |
| `PaymentOutcomes.UnquarantinedIsPayable` | backend/src/service/submissionRetention.service.ts:346-634 | A run without a quarantine of the Submission never withdraws it, so the above applies to it. |
| `PaymentNotifications.NotificationsConverge` | backend/src/service/payment.service.ts:463-563 | With no condition on identifiers: for every interleaving of stale reads, locked transactions, duplicates, rejections and other steps the attempt ends at the highest outcome of the transactions that were not refused (pending, failed, paid), or, once its checkout was rejected, at the highest since and at least failed. |
| `PaymentNotifications.TurnedAway` | backend/src/service/payment.service.ts:463-500 | The unlocked read turns a notification away, with nothing changed, if and only if the Submission is withdrawn, an identifier differs from the recorded one, a success is unconfirmed, its status is unknown, or it is no success and the attempt is paid. |
| `PaymentNotifications.OwnNotificationsAreHeard` | backend/src/service/payment.service.ts:511-563 | While the provider keeps to each attempt's own identifiers, a success notification is refused in no run unless the Submission is withdrawn. |
| `PaymentNotifications.NotificationsAssignOnce` | backend/src/service/payment.service.ts:541-549 | Over all attempts and notifications of one Submission assignment starts at most once. |
| `PaymentStatus.RunStatus` | backend/src/service/payment.service.ts:419-563 | The same for plain runs of the lifecycle: which outcome, and which rejection, decides the status an attempt ends with. |
| `PaymentStatus.PaidIsLostOnlyByRejection` | backend/src/service/payment.service.ts:419-427 | A paid attempt stops reading as paid in a step if and only if the step is the rejection of its own checkout while its Submission is retained. |
| `PaymentStatus.IdentifiersChangeExactly` | backend/src/service/payment.service.ts:433-439 | The recorded identifiers of an attempt change in a step if and only if its Submission is retained and the step is the session write of its checkout with a free, different session, whatever the status, or a success notification of an unpaid attempt with free identifiers that are not both recorded. |
| `PaymentNotifications.PaidIdentifiersStay` | backend/src/service/payment.service.ts:511-530 | Once paid, an attempt keeps status and identifiers in every interleaving with any notifications, as long as no late answer of its own checkout is written. |
| `PaymentStatus.LateSessionReplacesPaidOne` | backend/src/service/payment.service.ts:433-439 | Instance: the session write arriving after the payment replaces the session of a paid attempt, and the provider's duplicate, accepted before, is refused as a mismatch. |
| `PaymentStatus.RejectionReopensIdentifiers` | backend/src/service/payment.service.ts:419-427 | Instance: after a rejection a notification read earlier, with other identifiers, pays the attempt again and overwrites them; without the rejection it changes nothing. |
| `PromptMediaCleanup.MediaStore.RunFinalize` | backend/src/service/promptMediaCleanup.service.ts:908-936 | A finalization run is a sequence of the machine's prepare, confirm and give-up steps, object by object. |
| `PromptMediaCleanup.MediaStore.RunQuarantine` | backend/src/service/promptMediaCleanup.service.ts:896-906 | A quarantine run is the sequence of its candidates' quarantine steps. |
| `PromptMediaCleanup.MediaStore.CreateManifest` | backend/src/service/manifestSubmissionInitialization.service.ts:544-612 | The loop that rechecks and delivers the chosen Questions appends one entry for each, in order and with its Question and media, or leaves nothing behind; it succeeds if and only if the id is new and all are still what they were. |
| `PromptMediaEffects.DeliveredMediaStays` | backend/src/service/manifestSubmissionInitialization.service.ts:576-600 | In every run after a start in which its Submission is not purged, each delivered key is referenced by its manifest, and the media is neither deleted nor gone from storage. |
| `PromptMediaSafety.RunSafe` | backend/src/service/promptMediaCleanup.service.ts:383-875 | Every interleaving of cleanup, crashes, uploads, retirement, restoration, Assessment starts, Answers and purges keeps the safety invariant. |
| `PromptMediaSafety.DeletedIsNeverUsed` | backend/src/service/question.service.ts:419-446 | A key once deleted from storage is never again the media of an active Question, of a manifest or behind an Answer of a Submission that is not purged, nor in storage. |
| `PromptMediaSafety.DeletesWaited` | backend/src/service/promptMediaCleanup.service.ts:475-505 | Every storage delete of every run came at least thirty days after the clock reading of the quarantine it relied on. |
| `PromptMediaSafety.DeletesAreRechecked` | backend/src/service/promptMediaCleanup.service.ts:703-727 | At the moment of a delete nothing uses or refers to the key, and the quarantine it relied on is the latest one. |
| `PromptMediaSafety.RequarantineCancels` | backend/src/service/promptMediaCleanup.service.ts:588-599 | A quarantine between prepare and confirm, whatever it finds, cancels the delete until a new preparation, over any steps in between. |
| `PromptMediaSafety.FinalizationDeletes` | backend/src/service/promptMediaCleanup.service.ts:653-661 | Once due and unreferenced, preparing and confirming removes the object and records whether it had been there. |
| `PromptMediaSafety.CrashIsRetried` | backend/src/service/promptMediaCleanup.service.ts:752-781 | A crash after the delete leaves the attempt pending and ready, and the next attempt closes it as missing. |
| `PromptMediaEffects.FailureKeepsRow` | backend/src/service/promptMediaCleanup.service.ts:794-799 | A recorded failure of the storage delete leaves the row failed, not final, with its attempt counted and the end of its quarantine kept; the object is still there unless the failing call removed it. |
| `PromptMediaEffects.FailureIsRetried` | backend/src/service/promptMediaCleanup.service.ts:794-799 | Whatever else happens after such a failure, the key is ready at any later time exactly while nothing blocks it, and the next attempt that gets through ends it as deleted or missing, according to whether the object is still there. |
| `PromptMediaEffects.QuarantineEnds` | backend/src/service/promptMediaCleanup.service.ts:475-539 | An unreferenced object put into quarantine is ready for deletion exactly from thirty days after, while nothing blocks it. |
| `PromptMediaSafety.PreparedIsDue` | backend/src/service/promptMediaCleanup.service.ts:575-680 | A preparation is granted only thirty days after the latest quarantine reading, with nothing using or referring to the key. |
| `PromptMediaSafety.ActiveMediaStays` | backend/src/service/promptMediaCleanup.service.ts:682-727 | In every run the media of an active Question is not deleted before that Question is retired. |
| `PromptMediaSafety.RestoringSavesMedia` | backend/src/service/question.service.ts:403-461 | A Question restored while its media is only quarantined keeps it: no run deletes it until the Question is retired again. |
| `PromptMediaSafety.RestoreUndoesRetire` | backend/src/service/question.service.ts:313-330 | Restoring undoes retiring if and only if cleanup has neither failed on the media nor begun to delete it; retiring twice is retiring once. |
| `PromptMediaSafety.RestoredMediaExists` | backend/src/service/question.service.ts:419-446 | A Question whose restoration is accepted has media that was never deleted. |
| `TestSetSelection.DeliverableMeans` | backend/src/service/manifestSubmissionInitialization.service.ts:446-458 | A Test Set is deliverable if and only if it has an eligible Question in every slot. |
| `TestSetSelection.SelectionIsOneTestSet` | backend/src/service/manifestSubmissionInitialization.service.ts:459-468 | A start is unavailable if and only if no Test Set is deliverable; else it takes one eligible Question per slot, all of the one chosen set. |
| `DashboardPages.PagesAreTheHistory` | backend/src/service/submission.service.ts:220-265 | Following the cursors from the first page ends and yields every qualifying Submission exactly once, newest first, as many as are counted, for every page size. |
| `DashboardPages.ChangingTable` | backend/src/service/submission.service.ts:411-459 | With rows coming and going between pages in any way nothing is repeated, and if the walk ends every row present throughout is delivered. |
| `DashboardPages.NewRowsDoNotDelay` | backend/src/service/submission.service.ts:411-459 | While only newer rows appear between pages, and any rows may go, the walk ends after as many pages as the rows there at first fill, delivers every row present throughout once, and only rows that were there at first. |
| `DashboardPages.NormalizeLimit` | backend/src/service/submission.service.ts:132-138 | The page size is the request or 50, whichever is less, and 10 without a request; an integer below 1 or beyond the safe integers is refused, and no other. |

## Left out

- HTTP routes, authentication, request schemas, the frontend, e-mail, signed URLs, list and detail views, admin queues, seed data, reports: no interplay of state to prove.
- Sockets, TLS and timers: only their outcomes are events, and data arrives only from the current socket. Decoding bytes to text (UTF-8 replacement of malformed input) and the JavaScript stack limit on deeply nested arrays are not modelled: texts are bytes.
- RateLimitWindow.IntervalLimit: stated for runs without decrement and reset, because either takes hits back and so lets more through.
- Payment bodies, signatures, amounts and status words: a notification is its attempt, outcome, identifiers and whether the provider's own query confirmed it.
- PaymentNotifications.NotificationsConverge: leaves out the purge of the attempt's own Submission, which removes an unpaid attempt.
- Retention requests, holds, dual control and Answer objects: quarantine, recovery and purge of a Submission are modelled on values as single steps with the backend's eligibility checks, and a purged row stays as a tombstone so that ids are never used twice.
- Certificates, refunds, comments, score averages and the legacy per-Answer scores: nothing in the modelled services writes CERTIFIED or REFUNDED; both are kept as statuses.
- User names, e-mails, audit events, notes and the preview of a transition: no property depends on them.
- Transaction isolation, deadlocks and the contention retries of set creation, reassignment and transition: each transaction is atomic, and a retry only repeats it. History lines are in the order of their commits.
- PromptMediaSafety.DeletedIsNeverUsed: holds while the storage delete happens inside the transaction that holds the key's lock; a delete that the storage carries out only after that transaction timed out is not modelled. A key is never given to a second Question, since addresses are generated with a random part, and only cleanup removes objects.
- The inventory of cleanup candidates, its report and run records: a candidate is a step's parameters, and its storage inspection is truthful or fails.
- The idempotency key of an Assessment start, the replay of a start, and the match of an unfinished attempt against the question bank: a start is a parameter saying which stale attempt it supersedes.
- The text form of dashboard cursors: a cursor is the pair it carries.
- Mutable object identity: the tables are one class whose fields are maps; rows are values.
