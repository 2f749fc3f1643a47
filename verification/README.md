# Drill: a verified model of its minute ledger, turns, speech and accounts

Drill runs spoken system-design interviews. A user holds *grants* of minutes; opening an interview session
reserves minutes on them, ending it gives the unused part back. Within a session, *turns* exchange messages
between the candidate and an LLM interviewer under a lock kept in the session's status column; the reply is
streamed token by token and spoken sentence by sentence. Afterwards a job evaluates the interview.

The project models the Go backend that does this, with its SQL statements, and the client's playback queue.
`dafny verify dfyconfig.toml` checks everything.

## What is modelled

* **Ledger** (`Distribution`, `Sessions`, `Ledger`, `LedgerTotals`, `LedgerInvariants`, `LedgerRuns`,
  `LedgerTheorems`, `LedgerHistories`, `Billing`, `Webhooks`, `FailedSessionExample`). The tables `grants`, `interview_sessions`
  and `ledger_entries`; every statement that moves minutes, with the recursive `distributed` query, the
  refund guard and the over-credit filter; the transactions built from them; runs of any of these in any
  order. Where SQL leaves an order open (ties in `ORDER BY`, the rows of one statement) the model quantifies over
  every order. `LedgerDb` is the same as an object updated in place, loop by loop, equal to the specification.
* **Sessions and turns** (`Transcript`, `Evaluation`, `SessionMachine`, `SessionInvariants`, `SessionTheorems`,
  `SessionTurns`, `SessionExamples`).
  One step is one statement or transaction of a turn, an end call, the clean-up jobs, `FailSession`, an evaluation
  attempt or a retry. Any number of each run at once and may crash anywhere; a statement may take effect
  without its caller learning of it. `SessionDb` is the row and its messages as an object, with
  `ExecuteTurn`, `EvaluateSession` and the polling loop; `SessionLedger` shows that every run of the session
  machine, with any transactions of other sessions between its steps, is matched by a run of the ledger on the same
  row, and what the session costs once the machine has ended it.
* **Speech** (`Splitter`, `TtsAccumulator`, `ReplyStream`, `ReplyEnds`, `AudioPlayer`). The incremental sentence splitter,
  the non-blocking producer over a channel of 32, the producer/consumer interleavings of one reply with its
  event trace, and the client's queue with its callbacks.
* **Accounts** (`Accounts`, `LoginRaces`, `AccountRuns`, `AccountsDb`). Sign-up, OAuth login and deletion as concurrent transactions,
  statement by statement, with pending unique keys and row locks.

Table and key constraints are those of the migrations: unique `email`, `(provider, provider_id)`,
`stripe_event_id`, one free grant for each user, `(session_id, seq)`, one evaluation for each session, one
annotation of a type for each message, `initial_minutes > 0`.

## What turned out not to hold

* Both refund guards look for `session_refund` only, while `FailSession` writes `error_refund`. A session that
  `FailSession` has refunded can be refunded again, by an end call or by a second `FailSession` that read the status
  before the first one wrote it; `LedgerRuns.EndAfterFailPaysTwiceIff` and `LedgerRuns.FailTwicePaysTwiceIff` say
  exactly when, and `FailedSessionExample.EndingFailedSessionOverpays` is a run in which it happens. What fails then
  are the bounds on that session's charge, and the refunds of the same user's other sessions: the over-credit filter
  drops what his grants have no room for, and a session that never failed stays overcharged
  (`FailedSessionExample.OtherSessionIsOvercharged`). `LedgerRuns.EndSettles`, `LedgerRuns.FailRefundsAll` and
  `LedgerRuns.CleanupSettles` say exactly when a refund is whole. Other users always pay their price
  (`LedgerTheorems.UserPaysThePrice`); conservation (`LedgerTheorems.RunConserves`) and the books
  (`LedgerTheorems.LogAgreesWithGrants`) hold in all runs. No code calls `FailSession` at this commit.
* Turn exclusion needs every live turn to end within the five-minute threshold
  (`SessionTheorems.OverstayBreaksExclusion`; a run from a fresh session: `SessionExamples.TwoLiveTurns`). Gapless
  numbering does not need it.
* A comment on `Build` says that the API wants prompts to begin with the user. That holds exactly while the
  interviewer has not opened the conversation (`Transcript.PromptBeginsWithUserIff`;
  `SessionExamples.PromptBeginsWithAssistant`).
* A reviewed session loses that status for good when a late end call, a retry or a failed last attempt overwrites it
  (`SessionTheorems.ReviewedSurvivesIff`): later attempts find the evaluation and do nothing
  (`SessionExamples.LateEndHidesReview`).
* Scores are truncated before the range check, so 5.9 passes as 5 (`Evaluation.AcceptedIff`).
* A login with a known identity locks nothing, so a deletion can overtake it (`LoginRaces.DeletionOvertakesLogin`; a
  run from the empty tables: `LoginRaces.DeletedAndLoggedIn`).
* A conflict on the link of a new identity is ignored, so a login can create a user whose identity belongs to another
  (`Accounts.CommittedLogin` says exactly when; the run: `LoginRaces.IdentityOfAnotherUser`).
* Redelivered or reordered subscription events can change a plan (`Webhooks.SubscriptionRedeliveryIsNoopIff`,
  `Webhooks.OrderMattersIff`).

## Model

| member | source | states |
|---|---|---|
| Distribution.DistributeIsWaterfall | internal/db/grants.sql.go:476-494 | the recursive query gives row i the lesser of its capacity and what the rows before it left of the request, for every row, reached or not |
| Distribution.DistributeConserves | internal/db/grants.sql.go:476-494 | the shares sum to the request, or to the whole capacity when that is smaller |
| Distribution.DistributeIsGreedy | internal/db/grants.sql.go:476-494 | every share but the last empties its row; grants stay distinct and shares positive |
| Distribution.ReorderKeepsCapacity | internal/db/grants.sql.go:396-418 | any order of tied rows has the same total capacity |
| Billing.BalanceViewsAgree | internal/db/grants.sql.go:229-242 | snapshot total, usage total, usage free plus paid, and the sum of the listed active grants are one number |
| Billing.ReserveAllOrNothing | internal/db/grants.sql.go:462-515 | for every ranking of ties: a reservation succeeds exactly when the balance suffices, and then takes exactly the request |
| Billing.ReserveDrainsEarlierGrants | internal/db/grants.sql.go:462-485 | if a grant is debited, every eligible grant that expires strictly earlier is left at zero |
| Billing.CreateSessionSucceedsIff | internal/backend/session.go:36-116 | a session is created exactly when the tests pass on the state they see (1 to 30 minutes and no active session, on the pro plan 180 and at most two; question; balance) and the balance still suffices in the state, possibly changed by others, in which it is reserved; exactly one row is added, active since the creation, and other sessions' charges stay |
| Billing.FirstObjection | internal/backend/session.go:38-84 | the first reason that applies, in the order of the tests, is the one reported, and none only if none applies |
| Billing.UndisturbedReservationSucceeds | internal/backend/session.go:49-107 | with no writer in between, tests that pass leave nothing for the reservation to refuse |
| Billing.CreateSessionDebitsBalance | internal/backend/session.go:73-107 | the balance after a creation is the balance before minus the duration |
| Billing.FreeGrantOnce | internal/db/grants.sql.go:119-130 | a first free grant raises that user's balance by its minutes until they expire, and nobody else's; a second call changes nothing |
| Billing.FreeTrialIsWorth | internal/backend/billing.go:53-62 | the free trial is worth 60 minutes |
| Billing.PurchaseOnce | internal/db/grants.sql.go:38-48 | a purchase under a new event id raises that user's balance by its minutes for good, with one entry in the log; no second grant comes of the id |
| Billing.SubscriptionOnce | internal/db/grants.sql.go:63-90 | the same of a subscription payment |
| Billing.AdminGrantGains | internal/db/grants.sql.go:16-26 | an admin grant of a positive number of minutes raises the balance by them; any other is refused |
| Billing.GainShowsAs | internal/db/grants.sql.go:310-318 | only the free trial shows as free minutes; purchases, renewals and admin grants show as paid |
| LedgerInvariants.FirstRefundIsExact | internal/db/grants.sql.go:384-430 | as long as no session of the user has given back more than it took, the over-credit filter drops no share of a session's first refund, in any order of the reserve rows, and it credits exactly its total |
| LedgerInvariants.CreditFits | internal/db/grants.sql.go:419-430 | whatever was refunded before, accepted credits never push a grant over its initial minutes |
| LedgerInvariants.FirstCredit | internal/db/grants.sql.go:147-194 | whatever was refunded to others, the first refund of a session keeps the books and its bounds, and charges it its reservation less the total exactly when the filter drops no positive share |
| LedgerInvariants.OpenKeepsBounds | internal/db/grants.sql.go:462-515 | a new session adds its one row, active since the creation, and starts unrefunded and within its bounds, with one reserve entry for each debited grant; no other session's charge, bounds or reasons change |
| LedgerRuns.BilledMinutesCover | internal/db/grants.sql.go:389-393 | the billed minutes are the least whole number, at least one, that covers the elapsed time |
| LedgerRuns.PriceIff | internal/db/grants.sql.go:389-393 | the price is the one number that `IsPrice` describes: the least number of whole minutes, at least one, that covers the elapsed time, capped at the reservation |
| LedgerRuns.RefundWithoutEnd | internal/db/grants.sql.go:389-393 | a refund statement that finds no end time bills one minute |
| LedgerRuns.EndSettles | internal/backend/session.go:293-383 | whatever was refunded before: the row gets status, end time and turn count; with a refund marker no minutes move; without it, the shares the filter accepts are paid; an unrefunded session is left at the price exactly when the filter drops no positive share, which holds as long as no session of the user has given back more than it took |
| LedgerRuns.EndChangesChargeIff | internal/db/grants.sql.go:380-394 | an end call changes the charge exactly when no refund marker is there and some share lands; for an unrefunded session of a user without gains: exactly when some reserved minute is left over |
| LedgerRuns.FailRefundsAll | internal/backend/session.go:386-427 | a session that FailSession found active asks its whole reservation back, unless an end call since then left a refund marker; unrefunded before, it gets all of it exactly when the filter drops no positive share, which holds as long as no session of the user has given back more than it took; a session it did not find active is left alone |
| LedgerRuns.EndAfterFailPaysTwiceIff | internal/db/grants.sql.go:384-387 | ending a session that has got everything back pays again exactly when no `session_refund` marker is there and a positive share of the unspent minutes has room on its grant |
| LedgerRuns.FailTwicePaysTwiceIff | internal/backend/session.go:395-417 | a FailSession that had read such a session as active pays again exactly when no `session_refund` marker is there and a positive share of the reservation has room on its grant |
| FailedSessionExample.EndingFailedSessionOverpays | internal/backend/session.go:386-427 | a legal run of five steps in which a session ends up charged -29 minutes |
| FailedSessionExample.OtherSessionIsOvercharged | internal/db/grants.sql.go:419-430 | one step later the same user's other session, which never failed, is ended after one minute and keeps costing its whole reservation: the grant has no room for its refund, and no marker is written |
| LedgerRuns.CleanupSettles | internal/jobs/cleanup.go:41-67 | each overdue active session takes exactly one branch: a spoken one is completed at full price, for which the refund statement computes 0; an empty one is cancelled and costs nothing exactly when the filter drops no share as the loop comes to it, which holds as long as no session of the user has given back more than it took; no other session changes |
| LedgerTheorems.LogAgreesWithGrants | internal/db/grants.sql.go:182-192 | in every run each grant's remaining minutes are the sum of its ledger amounts and lie between 0 and its initial minutes |
| LedgerTheorems.Conservation | internal/db/grants.sql.go:419-430 | wherever the books hold and no open session has been refunded: minutes gone from a user's grants equal the reservations of his open sessions plus the net charges of his ended ones |
| LedgerTheorems.RunConserves | internal/backend/session.go:293-383 | conservation after every run from the empty database, repeated ends, clean-ups and double refunds of failed sessions included |
| LedgerTheorems.StepKeepsBalance | internal/db/grants.sql.go:147-194 | every step keeps the books, and that no open session has been refunded |
| LedgerTheorems.RunKeepsBounds | internal/db/grants.sql.go:378-432 | in every run, whatever is refunded twice to others, a session gives back no more than it took on each grant and in all, unless it is itself refunded again after FailSession refunded it |
| LedgerTheorems.RefundedOnlyOnce | internal/db/grants.sql.go:384-387 | once an end call or clean-up has refunded a session its charge never changes again in any run, however often it is ended and whatever the clock says; once FailSession has, as long as that session is not asked to be refunded again |
| LedgerTheorems.FirstEndIsFinal | internal/backend/session.go:305-318 | from any balanced tables: the charge that the first end leaves is final, in every run if it paid something, and if nothing was left to pay in every run that never reprices the session; it is the price exactly when the filter dropped no positive share |
| LedgerTheorems.ChargeIsFixedByFirstEnd | internal/backend/session.go:305-318 | if no session of the user has given back more than it took, the first end fixes the charge at the least number of whole minutes, at least one, that covers the elapsed time, capped at the reservation: for good in every later run of everyone if some minute was left over, and otherwise against all later runs without an end call of an earlier time or a FailSession that saw the session active |
| LedgerTheorems.UserPaysThePrice | internal/backend/session.go:305-318 | the same from the empty tables, for a user none of whose own sessions was refunded again before, whatever is done to the sessions of others |
| LedgerHistories.CreatedSessionCosts | internal/backend/session.go:73-107 | a session created at one time and first ended at another costs the least number of whole minutes, at least one, that covers the time between, capped at its duration |
| LedgerHistories.CreatedSessionIsCleanedIff | internal/db/sessions.sql.go:38-48 | clean-up touches a session exactly when it is active and was created more than its duration and five minutes ago |
| LedgerHistories.CreationIsAStep | internal/backend/session.go:36-116 | every session that is created is created by a legal step of the runs these results are about |
| LedgerHistories.RunKeepsTerms | internal/db/sessions.sql.go:77-103 | user, duration, reservation and start of a session never change |
| LedgerHistories.OneGrantForEachKey | internal/db/grants.sql.go:119-130 | in every run no user ever has two free grants, and no payment event two grants |
| LedgerTheorems.FailChargeIsFinal | internal/backend/session.go:386-427 | an unrefunded session of a user without gains that FailSession refunds costs nothing, then and after any run that does not ask again for it |
| LedgerTheorems.CleanupChargeIsFinal | internal/jobs/cleanup.go:54-67 | from any balanced tables: the refund that clean-up skips for a spoken session would have been 0, then and after any later run that never reprices it; an empty session of a user without gains costs nothing after any later run |
| LedgerDb.Database.ReserveMinutes | internal/db/grants.sql.go:496-515 | the row-by-row debits and their ledger entries equal the specified statement |
| LedgerDb.Database.Credit | internal/db/grants.sql.go:419-432 | the row-by-row credits, each checked against the grant as it stands, equal the specified statement |
| LedgerDb.Database.CreateSession | internal/backend/session.go:36-116 | with any transactions of others between tests and reservation: success adds the one row, active since the creation, and has the specified effect; every refusal names its error and adds nothing to what others did |
| LedgerDb.Database.EndSession | internal/backend/session.go:293-383 | the whole new state of a complete or cancel call, keeping the books |
| LedgerDb.Database.FailSession | internal/backend/session.go:386-427 | with any transactions of others between the status read and the writes: the whole new state, and success exactly when the read found the session active |
| LedgerDb.Database.CleanupAbandonedSessions | internal/jobs/cleanup.go:32-72 | two batch updates around a loop of refunds equal the specified clean-up, keeping the books |
| Webhooks.DeliverExtends | internal/backend/billing.go:305-382 | any series of deliveries only appends grants, each with its one ledger entry and asked for by a delivered event; without subscription events plans change for those who paid only |
| Webhooks.NewGrantsAreTheEvents | internal/db/grants.sql.go:38-48 | with consistent payloads the new grants are exactly what the events with new ids ask for, each once |
| Webhooks.InvoiceIsWorth | internal/backend/billing.go:348-382 | a new paid invoice of a known customer raises his balance by exactly 600 minutes at every time, with one entry in the log and the pro plan, and nobody else's |
| Webhooks.CheckoutIsWorth | internal/backend/billing.go:305-346 | a new completed payment of n minutes, 1 to 2147483647, raises the balance of the user it names by exactly n; a checkout that is no payment, or names no user or minutes, changes nothing |
| Webhooks.WrapInt32Is | internal/backend/billing.go:335-339 | minutes outside the int32 range keep their lower 32 bits |
| Webhooks.SubscriptionLeaves | internal/backend/billing.go:384-440 | a deletion leaves the free plan; an update the free plan for canceled, unpaid and past_due, and the pro plan otherwise |
| Webhooks.DeliveryIsASet | internal/backend/billing.go:238-270 | two series made of the same events, in any order and multiplicity, leave the same new grants and, without subscription events, the same plans |
| Webhooks.RedeliveryIsNoop | internal/db/grants.sql.go:63-90 | redelivering an event changes no table, and no plan either unless it is a subscription event |
| Webhooks.SubscriptionRedeliveryIsNoopIff | internal/backend/billing.go:384-440 | a subscription event changes nothing exactly when its customer is unknown or already has the plan it sets |
| Webhooks.OrderMattersIff | internal/backend/billing.go:337-440 | the order of any two different events matters for the plans exactly when both write the plan of one user, and not the same plan |
| Webhooks.Handler.HandleStripeWebhook | internal/backend/billing.go:238-270 | the handler's new state is the specified one, for all five branches of the dispatch |
| Transcript.InsertIntoGapless | internal/db/messages.sql.go:105-110 | into messages numbered 1..n an insert of a number up to n+1 succeeds exactly for n+1, and then appends |
| Transcript.InsertIs | internal/backend/session.go:233-254 | an insert fails exactly when the number is taken; otherwise the message joins all the others where its number belongs |
| Transcript.ContentIsNotBlank | internal/backend/turn.go:154-242 | what is taken for an answer is never blank, and is what was said |
| Transcript.ContentIs | internal/backend/turn.go:154-242 | text that is not blank, or audio of one of five types (codec parameters cut off) that is not empty and that one of two transcriptions hears, is taken; otherwise the first reason is reported |
| Transcript.InterviewerCountIs | internal/backend/session.go:549-560 | the turn count is the number of interviewer messages |
| Transcript.TwoTurnsMeanAnInterview | internal/backend/session.go:320-329 | two interviewer messages in an alternating transcript have a candidate message |
| Transcript.PromptAnswerableIff | internal/interview/prompt/prompt.go:162-187 | a prompt is non-empty and ends with the user exactly when the transcript is empty or ends with the candidate; it alternates exactly when the transcript does |
| Transcript.PromptBeginsWithUserIff | internal/interview/prompt/prompt.go:177-187 | a prompt begins with the user exactly when the transcript is empty or the candidate spoke first |
| Transcript.PromptIsTranscript | internal/interview/prompt/prompt.go:165-187 | the prompt is the transcript, message by message, each under its author; the seed stands in for an empty one only |
| SessionExamples.PromptBeginsWithAssistant | internal/interview/prompt/prompt.go:177-187 | from any fresh session two ordinary turns send a second prompt that begins with the assistant |
| Transcript.Builder.WithTranscript | internal/interview/prompt/prompt.go:165-175 | the loop appends the mapped messages in order |
| Transcript.BuildPrompt | internal/interview/prompt/prompt.go:165-187 | builder and seed together give the specified prompt |
| Evaluation.Parse | internal/evaluation/parse.go:153-194 | the annotation loop and the score conversion give the specified result, or nothing when the scores are missing |
| Evaluation.Validate | internal/evaluation/parse.go:199-232 | no error exactly when all six scores lie in 1..5 and every annotation names a known message and type; otherwise the first fault, scores before annotations |
| Evaluation.Evaluate | internal/jobs/evaluate.go:142-198 | map building, parsing, checking and the annotation inserts under their unique key give the specified rows or fail |
| Evaluation.SeqMapOfGapless | internal/jobs/evaluate.go:96-100 | for messages numbered 1..n the map has exactly the keys 1..n, each with its message's id |
| Evaluation.EvaluatedIsSound | internal/jobs/evaluate.go:142-198 | what an attempt stores has six scores in 1..5 and annotations of known types on the transcript's own messages, one of a type for each message |
| Evaluation.AcceptedIff | internal/evaluation/parse.go:163-193 | in terms of the evaluator's numbers: stored exactly when every raw score lies in [1, 6), every annotation has a known type and a truncated message number in 1..n, and no two of one type fall on one message |
| Evaluation.StoredIsSent | internal/evaluation/parse.go:153-194 | what is stored is what the evaluator sent, column by column: scores without fractions, the texts, each annotation with its type and text on the message it names |
| Evaluation.FirstScoreFault | internal/evaluation/parse.go:199-216 | the scores are checked in a fixed order, and the first one out of range is named |
| Evaluation.FirstAnnotationFault | internal/evaluation/parse.go:218-230 | then the first faulty annotation is reported, for its message before its type |
| SessionTheorems.AnyRun | internal/backend/turn.go:64-306 | in every run, whatever overlaps or crashes: messages numbered 1..n, no blank answers, every prompt answerable, reviewed only with a sound evaluation, turn count backed by messages, evaluation only after the end, and a lock time on a generating session and never on an active one |
| SessionTheorems.EndedStaysEnded | internal/db/interview.sql.go:16-36 | once a session leaves active and generating no step brings it back |
| SessionTheorems.MutualExclusion | internal/backend/turn.go:74-94 | if live turns last at most five minutes: at most one is live, roles strictly alternate, and whoever is asked to evaluate finds an interview |
| SessionTheorems.PollFindsNoTurn | internal/backend/session.go:586-628 | in timely runs an end call whose poll succeeds on an open session finds no turn at work |
| SessionTheorems.ReleasesFreeOwnLock | internal/backend/turn.go:84-94 | under that assumption a release that takes effect, early or deferred, frees the lock its own turn took |
| SessionTheorems.OverstayBreaksExclusion | internal/db/interview.sql.go:31-36 | the assumption is needed: from any state in which the lock's holder is older than five minutes, recovery and one request make two live turns |
| SessionExamples.TwoLiveTurns | internal/db/interview.sql.go:31-36 | from any fresh session a turn that overstays and one more request end with two live turns |
| SessionTheorems.AsksWholeTranscript | internal/backend/turn.go:280-306 | under that assumption a turn that asks the LLM sends exactly the stored transcript, new answer included |
| SessionTheorems.UndisturbedTurn | internal/backend/turn.go:64-425 | a turn nothing disturbs appends exactly the answer it takes, if any, and the reply, asks with the whole transcript and hands the session back active |
| SessionTurns.TurnLeaves | internal/backend/turn.go:64-425 | whatever fails on its way (load, input, insert, LLM, reply), a turn on an active session that nothing else disturbs adds exactly the answer and the reply that were stored, and leaves the session active and unlocked exactly when the release it makes takes effect: the early one once the reply is stored, and the deferred one on every other path |
| SessionTheorems.CrashLosesNothing | internal/backend/turn.go:131-152 | after a crash between answer and reply, recovery and the next turn, whatever its input, reply to the stored answer |
| SessionTheorems.CrashedTurnIsResumed | internal/backend/turn.go:131-152 | a turn that stores its answer and crashes while the LLM is asked is resumed by the next one, more than five minutes later, with a reply to that answer |
| SessionTheorems.UndisturbedAttempt | internal/jobs/evaluate.go:59-227 | an attempt nothing disturbs stores exactly the verdict's rows and marks the session reviewed, or, with a bad verdict, leaves it evaluating without an evaluation |
| SessionTheorems.FruitlessAttempt | internal/jobs/evaluate.go:59-120 | an attempt on an empty transcript fails the evaluation; one without a verdict leaves the session evaluating; neither leaves anything else |
| SessionTheorems.AbandonedIsReviewed | internal/jobs/cleanup.go:54-67 | clean-up of an abandoned session in which the candidate spoke leads, with one acceptable verdict, to a reviewed one |
| SessionTheorems.RetriedIsReviewed | internal/backend/evaluation.go:112-150 | from any session whose evaluation has failed, a retry and one acceptable verdict lead to a reviewed one |
| SessionTheorems.GivenUpIsReviewed | internal/jobs/error_handler.go:23-48 | the last attempt fails the evaluation, from where a retry leads to a reviewed session |
| SessionTheorems.UndisturbedFail | internal/backend/session.go:386-427 | FailSession goes through exactly on an active session, and marks it as failed |
| SessionTheorems.UndisturbedEnd | internal/backend/session.go:549-581 | an end call writes completed or cancelled, the end time and the number of interviewer messages as turn count, and enqueues an evaluation exactly when it completes a session with several |
| SessionTheorems.ReviewedSurvivesIff | internal/jobs/evaluate.go:63-71 | a reviewed session stays so through a run exactly when no step of it overwrites the status unconditionally; its evaluation never changes |
| SessionTheorems.ReviewNotRegained | internal/jobs/evaluate.go:63-71 | a session with an evaluation and another status is never reviewed again |
| SessionExamples.LateEndHidesReview | internal/backend/session.go:293-318 | from any fresh session an interview that is held, ended, reviewed and ended again is completed with its evaluation in place, and reviewed in no later state |
| SessionTheorems.EvaluationIsFinal | internal/jobs/evaluate.go:153-183 | at most one evaluation is ever stored, overlapping attempts included |
| SessionInvariants.StepKeepsInv | internal/db/sessions.sql.go:442-463 | every step keeps all unconditional invariants and only appends messages |
| SessionTheorems.StepKeepsLock | internal/db/interview.sql.go:167-186 | every step from a timely state keeps: the one live turn holds the lock, or the session has ended |
| SessionTheorems.StepKeepsConversation | internal/backend/turn.go:103-152 | every step keeps: what the live turn has read is still the whole transcript, and roles alternate |
| SessionTheorems.StepKeepsInterview | internal/backend/session.go:320-329 | every step keeps: an enqueued evaluation has a candidate message to judge |
| SessionDb.Database.AcquireGeneratingStatus | internal/db/interview.sql.go:16-29 | takes the lock exactly from an active session |
| SessionDb.Database.ReleaseGeneratingStatus | internal/db/interview.sql.go:182-192 | releases only a generating session |
| SessionDb.Database.RecoverStaleGenerating | internal/db/interview.sql.go:31-42 | frees only a lock older than five minutes |
| SessionDb.Database.InsertMessage | internal/backend/session.go:233-254 | succeeds exactly when the number is free, and then adds that message only |
| SessionDb.Database.WaitForGeneration | internal/backend/session.go:586-628 | whatever other processes do between polls: success means no turn holds the lock, a time-out that a minute has passed; it ends early only on an unreadable status or a cancelled caller, and sleeps on a stale lock only when the recovery statement failed |
| SessionDb.Database.WaitAndEnd | internal/backend/session.go:549-581 | performs exactly poll, count and end, or changes nothing while a turn is at work |
| SessionDb.Database.CleanupAbandoned | internal/db/sessions.sql.go:38-48 | cancels an overdue session without answers, completes and enqueues one with |
| SessionDb.Database.TakeAnswer | internal/backend/turn.go:96-290 | loading and storing the answer are exactly the machine steps its luck allows; it returns what the LLM is asked with |
| SessionDb.Database.StreamReply | internal/backend/turn.go:313-425 | storing the reply and the early release are exactly the machine steps its luck allows, and the flag says whether the lock was let go |
| SessionDb.Database.ExecuteTurn | internal/backend/turn.go:64-306 | whatever fails on the way, a turn is exactly the machine steps its luck allows, deferred release included, and leaves what `SessionTurns.TurnLeaves` says and no turn behind; on a session that is not active it changes nothing |
| SessionDb.Database.EvaluateSession | internal/jobs/evaluate.go:59-227 | one attempt is exactly the steps start, collect, mark and commit, cut short by an existing evaluation, an empty transcript or a missing verdict |
| SessionDb.Database.RetryEvaluation | internal/backend/evaluation.go:112-150 | succeeds exactly on evaluation_failed; otherwise no step is taken |
| SessionDb.Database.HandleError | internal/jobs/error_handler.go:23-48 | only the last attempt marks the session |
| SessionLedger.SessionRunsAreLedgerRuns | internal/backend/session.go:293-383 | a run of a session, with any ledger transactions of others between its steps, has a shadow that is a legal ledger run to the same tables; both sides end at the same row, with the books balanced |
| SessionLedger.EveryRunHasAShadow | internal/backend/session.go:293-383 | every run of the session machine is the machine's side of such a run |
| SessionLedger.ShadowIsPlain | internal/backend/session.go:293-427 | the shadow's steps concern that session only, clean-ups and the given transactions of others aside |
| SessionLedger.ShadowNeverReprices | internal/backend/session.go:293-318 | without FailSession no later step of the run ends the session at an earlier time or fails it |
| SessionLedger.EndedSessionCostsItsPrice | internal/backend/session.go:305-318 | a session that the machine ends costs the least number of whole minutes, at least one, that covers the elapsed time, capped at the reservation, in every later state, whatever it and all others do: for good if some minute was left over, otherwise as long as FailSession does not write it; only earlier gains of the same user could spoil it |
| SessionLedger.AbandonedSessionCosts | internal/jobs/cleanup.go:41-67 | a session that clean-up finds abandoned costs its reservation in every later state without FailSession if the candidate spoke, and otherwise nothing in any later state, for a user without gains |
| SessionLedger.RunKeepsSessionBounded | internal/backend/session.go:293-383 | without FailSession a session never gives back more than it took, whatever happens to the others |
| SessionLedger.MatchIsRight | internal/db/sessions.sql.go:77-103 | each machine step moves the row as the ledger step matched to it, and each end call, clean-up and FailSession has one |
| SessionLedger.MinutesAlwaysMove | internal/backend/session.go:293-427 | every committed end call, clean-up and FailSession has its ledger step, even where it leaves the row as it was |
| Splitter.SplitIsSplit | internal/interview/observer/tts_accumulator.go:55-92 | sentences and rest rebuild the text, each sentence ends at its first boundary, the rest has none |
| Splitter.SplitIsUnique | internal/interview/observer/tts_accumulator.go:55-92 | no other cut of the text has that property |
| Splitter.BoundaryIff | internal/interview/observer/tts_accumulator.go:62-75 | a sentence ends where a full stop, question or exclamation mark meets a space or the end of a line |
| Splitter.StreamingRefinesSplit | internal/interview/observer/tts_accumulator.go:60-92 | however a text is cut into tokens, streaming yields the sentences and the rest of one call on the whole text |
| Splitter.TrimSpaceFacts | internal/interview/observer/tts_accumulator.go:95-97 | trimming removes all spaces at both ends and nothing else |
| Splitter.TrimSpaceIs | internal/interview/observer/tts_accumulator.go:95-97 | whatever spaces are put around a text, trimming gives it back |
| Splitter.IsSpaceIff | internal/interview/observer/tts_accumulator.go:95-97 | a space is one of the 25 characters with the White_Space property |
| TtsAccumulator.Accumulator.FindBoundary | internal/interview/observer/tts_accumulator.go:62-75 | the scan over six suffixes finds the earliest boundary |
| TtsAccumulator.Accumulator.Send | internal/interview/observer/tts_accumulator.go:83-91 | the select sends, drops with one error on a full channel, or gives up only when cancelled, whatever was received before |
| TtsAccumulator.Accumulator.OnToken | internal/interview/observer/tts_accumulator.go:60-92 | without cancellation a token yields exactly the split of the buffered text: each sentence sent in order or reported, none dropped while there is room, the rest buffered |
| TtsAccumulator.Accumulator.OnDone | internal/interview/observer/tts_accumulator.go:95-107 | the trimmed rest is sent or reported once, and the channel is closed |
| ReplyStream.CompletedReply | internal/backend/turn.go:331-425 | any interleaving that signals InterviewerDone: it comes once and last, the streamed tokens are the persisted text, TtsDone comes after all speech, chunks are numbered without gaps in sentence order, and each sentence of the one-shot split has exactly one chunk or one error |
| ReplyEnds.ReplyCompletes | internal/backend/turn.go:331-425 | whatever the LLM says, token by token, there is a run that persists all of it, speaks every sentence and signals InterviewerDone last |
| ReplyEnds.HowItEnds | internal/backend/turn.go:376-423 | after any interleaving a reply that has ended has failed in its stream, or failed to be persisted, or been persisted in full and signalled last; before its end it has neither persist error nor InterviewerDone |
| ReplyEnds.DropsOnlyWhenFull | internal/interview/observer/tts_accumulator.go:83-91 | with fewer than 32 sentences waiting none is dropped |
| ReplyStream.ReachableReply | internal/interview/observer/tts_accumulator.go:83-119 | in every reachable state, however the reply ends: the channel holds at most 32 sentences, chunks follow sentence order without gaps, and unless the stream failed each sentence produced is heard, reported, being spoken or queued, once only; a failed stream persists nothing and signals neither end |
| ReplyStream.SpeechTerminates | internal/interview/observer/tts_accumulator.go:121-183 | while the producer waits the speech goroutine takes at most Work(s) steps, and it has none left exactly when it has stopped and Close returns |
| ReplyStream.CloseReturns | internal/interview/observer/tts_accumulator.go:121-126 | from wherever the producer waits, steps of the speech goroutine alone lead to the return of Close |
| ReplyStream.PlacesGrow | internal/interview/observer/tts_accumulator.go:128-183 | no step loses or doubles a sentence on the way from the splitter to the client |
| ReplyStream.StepKeepsInv | internal/interview/observer/tts_accumulator.go:60-183 | every step of either goroutine keeps all invariants of a reply |
| AudioPlayer.PlaysInOrder | web/src/audio/player.ts:22-107 | for chunks arriving in order, whatever the timing of callbacks: what has started is the decodable chunks so far, in order, one at a time; onComplete fires at most once, and only after everything was played |
| AudioPlayer.QuietMeansComplete | web/src/audio/player.ts:46-107 | after the done event a player with a context and no callback outstanding has played everything and fired onComplete once |
| AudioPlayer.CallbacksRunOut | web/src/audio/player.ts:46-99 | from every state a run reaches, with no new chunks: at most Work(s) callbacks follow, and where none is left the player is quiet |
| AudioPlayer.CallbacksComplete | web/src/audio/player.ts:46-107 | and the callbacks alone lead there; with a context and the done event everything has then been played and onComplete has fired once |
| AudioPlayer.Player.PlayNext | web/src/audio/player.ts:46-99 | takes the chunk with the expected number, or stops, completing when done |
| AudioPlayer.Player.Enqueue | web/src/audio/player.ts:36-44 | inserts in order of number and starts an idle player |
| AudioPlayer.Player.Done | web/src/audio/player.ts:101-107 | completes at once when nothing is left |
| Accounts.EveryUserHasOneGrant | internal/backend/oauth.go:67-196 | over all interleavings of sign-up, login, roll-back and deletion every user has exactly one free grant and his email alone, and every link a user |
| Accounts.LostRaceFindsUser | internal/backend/oauth.go:104-130 | a login whose insert lost the race finds and locks the winner's row |
| Accounts.CommittedLogin | internal/backend/oauth.go:132-196 | a committed login's user exists with one free grant; the identity is linked, and to him exactly if nobody else had it at the commit; he is active unless the branch for a known identity met a deletion |
| Accounts.CommittedSignup | internal/backend/auth.go:110-154 | a committed sign-up adds exactly its user, with a new email, and his one grant |
| AccountRuns.UndisturbedSignup | internal/backend/auth.go:110-154 | a sign-up that nothing disturbs goes through: a new email gets its user and grant, a known one nothing |
| AccountRuns.UndisturbedLogin | internal/backend/oauth.go:37-196 | a login that nothing disturbs goes through whatever is committed, by the branch and with the effects of one run on its own |
| AccountRuns.NothingShows | internal/backend/oauth.go:60-66 | whatever transactions do, and however they are rolled back, nothing shows before a commit |
| AccountRuns.RollbackFreesKeys | internal/backend/oauth.go:60-66 | a rolled-back transaction is gone, and nobody waits any longer for the email, row or identity it had |
| LoginRaces.IdentityOfAnotherUser | internal/db/oauth_accounts.sql.go:93-98 | from the empty tables: two first logins with one identity and two emails make two users, and the identity is the first one's |
| LoginRaces.DeletionOvertakesLogin | internal/backend/oauth.go:69-86 | for any linked user whose row nobody has locked, a deletion between read and commit leaves him deleted and logged in |
| LoginRaces.DeletedAndLoggedIn | internal/backend/oauth.go:69-86 | that happens in a run from the empty tables |
| Accounts.LinksArePermanent | internal/db/oauth_accounts.sql.go:93-98 | an identity belongs to one user for good |
| AccountsDb.Database.Signup | internal/backend/auth.go:110-154 | reports the first of missing fields, password length and taken email, changing nothing; otherwise user and grant appear together under the normalised email |
| AccountsDb.SignupObjectionIs | internal/backend/auth.go:110-135 | the first of blank email or name or missing password, a password outside 8 to 72 bytes, and a taken email is reported |
| AccountsDb.AddressIsTaken | internal/backend/auth.go:426-428 | once an address has signed up it is taken, with whatever spaces it had around it and in whatever case it comes again |
| AccountsDb.Database.OAuthLogin | internal/backend/oauth.go:37-196 | each of the four branches exactly when it applies, with its whole effect on users, grants, links and logins |
| AccountsDb.LoginFindsItsUser | internal/backend/oauth.go:67-170 | the user a login returns is active afterwards, and is the one of its identity or of its email |
| AccountsDb.Database.DeleteAccount | internal/db/users.sql.go:110-116 | marks the user deleted and ends all his logins and nobody else's |

## Left out

- LedgerTheorems.RunKeepsBounds: for a session that is refunded again after FailSession has refunded it no bound on its charge is stated; when a step does that, and by what condition a refund is whole then, is stated exactly.
- LedgerDb.Database.CreateSession: the tests read one state, though each is a statement of its own; the limit on concurrent sessions can be passed by two calls at once, as in the source. Sums and durations are unbounded integers, except for the `::int` cast of the balance, which is modelled.
- LedgerRuns.CleanupSettles: sessions from before `reserved_minutes` existed (NULL) are not modelled.
- Webhooks.DeliveryIsASet: one user for each Stripe customer, and users fixed while events are delivered; plans are left out of it once there are subscription events, for which it is false.
- Evaluation.Parse: numbers outside the int32 range, whose conversion Go leaves to the implementation, and JSON syntax.
- SessionTheorems.MutualExclusion: the five-minute bound on live turns is an assumption about the environment, checked against nothing.
- ReplyStream.CompletedReply: timeouts and read errors of the synthesizer are one failure; the message id that all events carry is a constant of the reply.
- TtsAccumulator.Accumulator.OnToken: the fan-out over a reply's observers is one step of `ReplyStream`, which runs them in their order.
- AudioPlayer.PlaysInOrder: out-of-order arrival, cancel and destroy, for which the code promises no order, and a context that never resumes.
- Accounts.EveryUserHasOneGrant: emails are the normalised ones; password hashes, verification mails and the expiry of logins are left out.
- River's unique-job behaviour: attempts of the evaluation job are at-least-once and may overlap; an attempt is enqueued whenever the code asks for one.
- The concurrent-session limit as an invariant: it counts active sessions only and two creations may interleave; only the limit as one call tests it is modelled.
- Prompt texts, time guidance, coach briefing, audio upload, email rendering, analytics, tracing, HTTP and RPC plumbing: no property beyond their text.
- LLM, speech, Stripe and storage calls: their outcomes are free choices of the model.
- Educator, coach and question-image jobs: the same job pattern with fewer states.
