# Suggestion workflow: a verified model

This Dafny project models a municipal suggestion service and proves what its concurrency, its retries and its
replay are supposed to guarantee. `dafny verify dfyconfig.toml` checks everything.

## What is modelled

**The civic workflow** (`civic_*.dfy`). Campaigns, collection points, advisors, intakes, reviews, handling plans,
conversions, feedback receipts and outbox events live in one database. Every operation reads outside any
transaction, decides, and commits in one. `CivicProtocol` describes runs: a history of all worlds (database and
clock); an operation's decision is computed from samples of *any* earlier worlds, in the order its code reads, and
its commit is a compare-and-swap, a unique key or a quota trigger on the current one. `CivicEvolution` and
`CivicEffects` show that a stale commit is an atomic guarded step; `CivicSafety`, `CivicKeys`, `CivicDelivery` and
`CivicSerial` prove the theorems about whole runs, and `CivicExamples` holds a run that shows what may go wrong;
`CivicServices` holds the operations in their imperative form, with everybody else free to act between any two
statements, and proves that each of them answers and commits exactly what the protocol decides on the worlds it has
looked at since it was called, and what the returned row says column by column. `CivicAnswers` tells when each decision
is taken, and `CivicRepeats` what repeated calls are told.

**Routing and escalation** (`routing_domain`, `adjudicator`, `rules`, `desk`, `casework*`, `desk_service`,
`item_service`, `escalation_service`, `reeval`). Rules are chosen by priority and version, items move through a
status machine, escalate by levels, and carry a history of referrals. The items table has no version column, so
items are handled one operation at a time, except where a theorem says that it holds for stale transactions. The
services are classes over a store whose desk is always the result of the operations committed so far; the
theorems are about all such sequences of operations.

**Log and index** (`framing`, `shard_writer`, `replay`, `repo_store`, `reconcile`). Records are framed as lines,
appended to day files that rotate into segments, and written to the index in the same transaction; a rebuild
replays the files. The model goes from bytes to items.

**Retry** (`durations`, `retry`). Capped exponential backoff in wrapping 64-bit arithmetic.

`hide` statements in proofs only keep definitions away from the solver.

## What the code does not guarantee

- The stale checks of AddCollectionPoint, ActivateCollectionPoint, EnrollAdvisor, IntakeSuggestion, AssignReview and
  ProposeConversion are not protected by their commit: an intake can be accepted after its campaign was moved on.
  `CivicExamples.UnprotectedChecksFail` is one run in which each of the six fails; `CivicSerial.InOnePieceIffGuard`
  and `CivicSerial.Serialisable` say exactly when they do no harm.
- A repeated campaign creation is answered with the campaign only if it gives the code without white space around
  it: the early look asks for the code as given, while it is stored trimmed, so that another repetition ends in
  an error, at the latest by UNIQUE(code) (`CivicRepeats.RepeatedCampaign`).
- An outbox event never fails for good: both branches of CompleteOutbox set the same claimable status
  (`CivicDelivery.FailedEventReturns`).
- A rolled-back item write stays in the log and wins at the next rebuild if nothing later overwrites it
  (`Replays.RollbackResurrects`, `Replays.ReplayIsIndexIff`).
- Overlapping item operations can leave the current referral and its item in disagreement
  (`CaseworkSafety.OverlapBreaksAgreement`); `Desks.AgreementIff` says exactly when they do not.
- An expired lease is never reclaimed (`CivicDelivery.ClaimedReceiptWaits`, `CivicDelivery.ClaimedEventWaits`).
- One record that does not fit the scanner's buffer of 16 MiB makes its whole file unreadable
  (`Framing.OverlongIsFatal`). Such an item commits like any other, and from then on a rebuild skips every item of its
  day (`RepoStores.OverlongLosesDay`).
- A rebuild does not read rotated segments: their names do not end in `.jsonl` (`internal/shard/scanner.go:38`).
  `RepoStores.RotationLosesItems` loses a committed item that way. `RepoStores.RebuildRestoresItems` says exactly when
  rotation, overlong records and rollbacks do no harm.
- An item whose best rule is older than the current version is re-routed by every sweep, to the same place
  (`Reevaluation.SecondSweepIsStable`).

## Model

| member | source | states |
|---|---|---|
| CivicEffects.CommitRefinesEffect | internal/service/civic_service.go:102-634 | However old an operation's reads and whatever ran in between, a commit that succeeds is the operation's atomic guarded effect on the database it meets: status checks made on stale rows still hold there, because a version never comes back with other content and the statuses relied on are absorbing |
| CivicEffects.IntakeRefines | internal/service/civic_service.go:211-266 | An intake that commits finds its campaign past draft and its point active in the current database, although both were checked on stale reads |
| CivicEffects.QueueFeedbackRefines | internal/service/civic_service.go:490-522 | Receipt and outbox event appear together, on a conversion that is still published at the commit |
| CivicSerial.InOnePieceIffGuard | internal/service/civic_service.go:35-634 | Exactly when a commit decided on stale reads equals the operation run in one piece: always for campaign creation and transitions, review decisions, plans, verification, feedback and outbox; for the other six iff the check their commit does not protect still holds, and otherwise the operation run in one piece would not have committed |
| CivicSerial.Serialisable | internal/service/civic_service.go:317-634 | The committed operations of a run, executed one after the other in commit order, each in one piece, end in the database of the run iff every unprotected check held at its commit; otherwise some operation cannot be executed at all |
| CivicExamples.UnprotectedChecksFail | internal/service/civic_service.go:74-461 | One concrete run in which each of the six unprotected checks has stopped holding when its operation commits; its operations cannot be executed one after the other |
| CivicExamples.StaleIntakeCommits | internal/service/civic_service.go:232-266 | A run and an event of it: an intake that commits when its campaign is in review |
| CivicDomain.TrimIsMiddle | internal/service/civic_service.go:48 | Trimming takes exactly the white space around a text away: what is left is its middle, and neither end of it is white space |
| CivicKeys.KeysAlwaysHold | migrations/0003_civic_workflow.sql:1-172 | In every world of every run all unique keys and all foreign keys of the civic tables hold |
| CivicKeys.NoLostUpdate | internal/index/civic_writes.go:32-189 | No update is lost: of two committed updates of a row the later expects a higher version than the earlier, so two clients that read the same version never both commit |
| CivicReturns.CommitStores | internal/index/civic_writes.go:32-189 | The row an operation returns, computed from a stale read, is the row the table holds after its commit, although the UPDATE writes only some columns |
| CivicSafety.RunSafeUpTo | internal/service/civic_service.go:35-634 | All invariants of the civic tables hold in every world of every run, and every row only moves forward |
| CivicSafety.ReceiptProvenance | internal/service/civic_service.go:349-522 | In every world a receipt has a published conversion for its suggestion (the only one), whose plan belongs to the suggestion and is completed, whose review is for the suggestion and accepted |
| CivicSafety.QuotasHold | migrations/0003_civic_workflow.sql:66-104 | In every world no point exceeds its daily quota on any day as the trigger counts days, and no advisor their quota of pending reviews, although the services count on stale data |
| CivicSafety.DecisionFreesOneUnit | internal/service/civic_service.go:317-337 | A decision frees exactly one unit of its advisor's review quota and none of anybody else's |
| CivicSafety.IntakeUsesOneUnit | migrations/0003_civic_workflow.sql:66-76 | An intake uses one unit of one point on one day and leaves every other count alone |
| CivicSafety.CollectionSafety | internal/service/civic_service.go:102-266 | In every world a campaign's version is 1 + its rank, a campaign past draft has an active point, and an intake's point is an active one of its campaign, accepted inside the campaign's window |
| CivicSafety.FeedbackPaired | internal/service/civic_service.go:506-521 | Each receipt has exactly one outbox event under its key, of the same suggestion, and that event no other receipt |
| CivicSafety.EventPaired | internal/service/civic_service.go:506-521 | Each outbox event has exactly one receipt |
| CivicSafety.ReadyQueriesIgnoreLeases | internal/index/civic_queries.go:370-424 | A lease is set iff the receipt is delivering (the event processing), so the lease test of the ready queries never excludes a row with a listed status |
| CivicSafety.EffectKeepsPairs | internal/service/civic_service.go:490-522 | Every operation keeps the one-to-one correspondence of receipts and events |
| CivicSafety.RowsComeInPairs | internal/service/civic_service.go:490-522 | Queueing feedback adds one new receipt and its own new event; no other operation adds a row to either table |
| CivicDelivery.ReceiptAccounting | internal/service/civic_service.go:507-578 | For a fixed attempt limit, version is 1+2a when queued or failed for good, 2+2a when delivering, 3+2a when delivered (a attempts); live receipts are below the limit, failed ones at it |
| CivicDelivery.VersionCountsCommits | internal/service/civic_service.go:524-578 | A receipt's version is one more than the number of claims and completions committed on it |
| CivicDelivery.CommitsBounded | internal/service/civic_service.go:524-578 | However many clients compete, a receipt is written at most twice per permitted attempt |
| CivicDelivery.BackoffBound | internal/service/civic_service.go:524-578 | The claim after a failures comes no earlier than queue time plus base*(2^a - 1), from a = 10 on base*(511 + 256*(a - 9)) |
| CivicDelivery.ReceiptOutcomeFinal | internal/service/civic_service.go:549-578 | A delivered or permanently failed receipt never changes again |
| CivicDelivery.ClaimedReceiptWaits | internal/index/civic_queries.go:370-388 | An expired lease is not reclaimed: until somebody completes it, a claimed receipt stays as it is and is offered to nobody, whatever the time |
| CivicDelivery.ClaimedEventWaits | internal/index/civic_queries.go:420-438 | An expired lease is not reclaimed: until somebody completes it, a claimed event stays as it is and is offered to nobody, whatever the time |
| CivicDelivery.EventAccounting | internal/service/civic_service.go:580-634 | Version and attempt of an outbox event determine one another by status |
| CivicDelivery.FailedEventReturns | internal/service/civic_service.go:605-634 | A failed event is claimable exactly from its last failure plus the capped doubling of the backoff, and plus a day from the attempt limit on |
| CivicDelivery.OutboxNeverGivesUp | internal/service/civic_service.go:605-634 | An unpublished event that is not being processed is claimable as soon as its time comes, whatever the attempt limit: events never fail for good |
| CivicDelivery.FailedReceiptReturns | internal/service/civic_service.go:524-578 | With one base in all calls, a queued receipt is claimable exactly from its creation, or after a failures from the last one plus base * 2^min(a - 1, 8), in every world of every run |
| CivicAnswers.IntakeDecision | internal/service/civic_service.go:211-266 | An intake goes on to its transaction iff its key is new, the suggestion known and not taken in, the campaign open and its window on, the point an active one of it and its day's count below the quota; it is answered with a row iff the key is known; each error has its reason |
| CivicAnswers.ActivationDecision | internal/service/civic_service.go:102-132 | A point is activated iff it was preparing or paused and its campaign draft or open; the errors likewise |
| CivicAnswers.CampaignMoveDecision | internal/service/civic_service.go:134-174 | A campaign moves iff it is one phase on and, unless it closes, it has an active point; the errors likewise |
| CivicAnswers.AssignmentDecision | internal/service/civic_service.go:268-315 | A review is assigned iff the suggestion is open, the advisor active and below quota, their campaign open or in review, and the panel named; each error has its reason |
| CivicAnswers.VerdictDecision | internal/service/civic_service.go:317-337 | A review is decided iff it is pending and the verdict and the notes are given; the errors likewise |
| CivicAnswers.PlanDecision | internal/service/civic_service.go:349-380 | A plan is made iff its key is new, its review has accepted the suggestion, and it is complete and due later; it is answered with a row iff the key is known; each error has its reason |
| CivicAnswers.PlanMoveDecision | internal/service/civic_service.go:382-404 | A plan moves iff the move is one status on, or a cancellation of a plan that is not over; the errors likewise |
| CivicAnswers.ProposalDecision | internal/service/civic_service.go:414-461 | A conversion is proposed iff there is none, the suggestion and all its plans are completed, the plan is one of them and scope and evidence are given; each error has its reason |
| CivicAnswers.VerificationDecision | internal/service/civic_service.go:463-488 | A conversion is verified iff the suggestion has one that is proposed or verified; the errors likewise |
| CivicAnswers.FeedbackDecision | internal/service/civic_service.go:490-522 | Feedback is queued iff citizen and channel are named, it is not there yet and a conversion is published; each error has its reason |
| CivicRepeats.RepeatedIntake | internal/service/civic_service.go:218-220 | From the commit of an intake on, its row is in every world, unchanged and the only one under its campaign and key, and every call under them is answered with it |
| CivicRepeats.RepeatedPlan | internal/service/civic_service.go:353-357 | From the commit of a plan on, it is the only one under its suggestion and key, and every call under them is answered with it |
| CivicRepeats.RepeatedProposal | internal/service/civic_service.go:414-419 | The first conversion of a suggestion stays its only one, with its plan, and every further proposal is answered with it |
| CivicRepeats.RepeatedFeedback | internal/service/civic_service.go:494-498 | The receipt of a suggestion, citizen and channel stays the only one, and every further call is answered with it |
| CivicRepeats.RepeatedCampaign | internal/service/civic_service.go:42-46 | A campaign stays the only one of its code; a repeated creation is answered with it iff it gives the code without white space around it; any other that passes its own checks is refused by the database |
| CivicServices.CivicService.WithTx | internal/repo/store.go:45-67 | A transaction begun at some later moment either becomes the next event of the run, with its rows in the tables, or leaves no trace |
| CivicServices.CivicService.Transact | internal/repo/store.go:45-67 | All statements of a transaction or none; a failed compare-and-swap changes nothing |
| CivicServices.CivicService.CreateCampaign | internal/service/civic_service.go:35-62 | The answer is exactly what the operation decides on worlds it looked at after it began: its own error, an existing row, or its transaction, which succeeds iff the world it meets and the storage let it and otherwise gives that error; the returned row is the stored row; a code that is there is answered with its campaign and nothing is committed; otherwise the campaign is a draft with the trimmed code, title and theme, version 1, and a window that is not empty |
| CivicServices.CivicService.AddCollectionPoint | internal/service/civic_service.go:74-100 | The answer is exactly what the operation decides on worlds it looked at after it began: its own error, an existing row, or its transaction, which succeeds iff the world it meets and the storage let it and otherwise gives that error; the returned row is the stored row; the new point has the trimmed fields, is preparing, has a positive quota, and its campaign was draft |
| CivicServices.CivicService.ActivateCollectionPoint | internal/service/civic_service.go:102-132 | The answer is exactly what the operation decides on worlds it looked at after it began: its own error, an existing row, or its transaction, which succeeds iff the world it meets and the storage let it and otherwise gives that error; the returned row is the stored row; a point that is active is returned as it is; one that was preparing or paused becomes active now; its campaign was draft or open |
| CivicServices.CivicService.TransitionCampaign | internal/service/civic_service.go:134-174 | The answer is exactly what the operation decides on worlds it looked at after it began: its own error, an existing row, or its transaction, which succeeds iff the world it meets and the storage let it and otherwise gives that error; the returned row is the stored row; the campaign has moved one phase on, and had an active point unless it closes; only status, version and time have changed |
| CivicServices.CivicService.EnrollAdvisor | internal/service/civic_service.go:186-209 | The answer is exactly what the operation decides on worlds it looked at after it began: its own error, an existing row, or its transaction, which succeeds iff the world it meets and the storage let it and otherwise gives that error; the returned row is the stored row; the advisor is new, active and as requested, with a positive quota and some expertise; the campaign was not closed |
| CivicServices.CivicService.IntakeSuggestion | internal/service/civic_service.go:211-266 | The answer is exactly what the operation decides on worlds it looked at after it began: its own error, an existing row, or its transaction, which succeeds iff the world it meets and the storage let it and otherwise gives that error; the returned row is the stored row; a call under a known campaign and key is answered with the stored row and commits nothing, and an intake filed before the call began is answered as it was filed; a new intake was of a known suggestion not taken in, within the campaign's open window, at an active point of it with room on that day |
| CivicServices.CivicService.AssignReview | internal/service/civic_service.go:268-315 | The answer is exactly what the operation decides on worlds it looked at after it began: its own error, an existing row, or its transaction, which succeeds iff the world it meets and the storage let it and otherwise gives that error; the returned row is the stored row; the new review is pending; the suggestion was open, the advisor active and below quota, their campaign open or in review |
| CivicServices.CivicService.DecideReview | internal/service/civic_service.go:317-337 | The answer is exactly what the operation decides on worlds it looked at after it began: its own error, an existing row, or its transaction, which succeeds iff the world it meets and the storage let it and otherwise gives that error; the returned row is the stored row; the review was pending and now has the verdict, notes and time; nothing else of it has changed but the version |
| CivicServices.CivicService.CreateHandlingPlan | internal/service/civic_service.go:349-380 | The answer is exactly what the operation decides on worlds it looked at after it began: its own error, an existing row, or its transaction, which succeeds iff the world it meets and the storage let it and otherwise gives that error; the returned row is the stored row; a known suggestion and key is answered with its plan and nothing is committed; a new plan is proposed, due later than now, and its review has accepted the same suggestion |
| CivicServices.CivicService.TransitionHandlingPlan | internal/service/civic_service.go:382-404 | The answer is exactly what the operation decides on worlds it looked at after it began: its own error, an existing row, or its transaction, which succeeds iff the world it meets and the storage let it and otherwise gives that error; the returned row is the stored row; the plan has made one of the six allowed moves; only status, version and time have changed |
| CivicServices.CivicService.FindIntake | internal/service/civic_service.go:218-231 | The first queries of an intake: a known campaign and key is answered with its row; it goes on iff there is no earlier row under the key, the suggestion is known and not taken in; otherwise the row or the error is the one the intake decides on |
| CivicServices.CivicService.FindOpenPoint | internal/service/civic_service.go:232-247 | The middle queries of an intake: the campaign's window contains the time of acceptance and the point is an active one of it; otherwise the error is the one the intake decides on |
| CivicServices.CivicService.FindReviewer | internal/service/civic_service.go:272-293 | The first queries of an assignment: suggestion not terminal, advisor active, campaign open or in review; otherwise the error is the one the assignment decides on |
| CivicServices.CivicService.CheckPlans | internal/service/civic_service.go:431-446 | The first plan that is not completed ends the walk; otherwise the plan asked for must be among them |
| CivicServices.CivicService.CheckHandling | internal/service/civic_service.go:426-446 | All plans of the suggestion are completed and the one asked for is among them, with the error for each way this can fail |
| CivicServices.CivicService.ProposeConversion | internal/service/civic_service.go:414-461 | The answer is exactly what the operation decides on worlds it looked at after it began: its own error, an existing row, or its transaction, which succeeds iff the world it meets and the storage let it and otherwise gives that error; the returned row is the stored row; a suggestion that has a conversion is answered with it and nothing is committed; otherwise the suggestion and all its plans were completed, the plan is one of them, and the conversion is proposed as requested |
| CivicServices.CivicService.GetConversionBySuggestion | internal/service/civic_service.go:414-419 | The query has one possible answer, since no suggestion ever has two conversions |
| CivicServices.CivicService.VerifyConversion | internal/service/civic_service.go:463-488 | The answer is exactly what the operation decides on worlds it looked at after it began: its own error, an existing row, or its transaction, which succeeds iff the world it meets and the storage let it and otherwise gives that error; the returned row is the stored row; a proposed conversion is verified by this reviewer now, a verified one keeps its reviewer and time; it is published now iff that was asked |
| CivicServices.CivicService.QueueFeedback | internal/service/civic_service.go:490-522 | The answer is exactly what the operation decides on worlds it looked at after it began: its own error, an existing row, or its transaction, which succeeds iff the world it meets and the storage let it and otherwise gives that error; the returned row is the stored row; a known suggestion, citizen and channel is answered with its receipt and nothing is committed; otherwise a conversion is published, the receipt is queued for now, and its event is pending for now under the receipt's key |
| CivicServices.CivicService.CompleteFeedback | internal/service/civic_service.go:549-578 | The answer is exactly what the operation decides on worlds it looked at after it began: its own error, an existing row, or its transaction, which succeeds iff the world it meets and the storage let it and otherwise gives that error; the returned row is the stored row; delivered on success; on an error one attempt more, failed for good at the limit and else queued again for now plus base * 2^min(a - 1, 8) after the a-th failure; the lease is gone |
| CivicServices.CivicService.CompleteOutbox | internal/service/civic_service.go:605-634 | The answer is exactly what the operation decides on worlds it looked at after it began: its own error, an existing row, or its transaction, which succeeds iff the world it meets and the storage let it and otherwise gives that error; the returned row is the stored row; published on success; else one attempt more and available after backoff * 2^min(a - 1, 8), or after a day from the limit on; the lease is gone |
| CivicServices.CivicService.ClaimFeedback | internal/service/civic_service.go:524-547 | Every ready receipt, longest waiting first, is tried until one fails otherwise than by a lost race, and that error is the answer; exactly those whose transaction the world it met accepts are claimed, and these are returned as stored: delivering, leased from now, one version on, all else as it was |
| CivicServices.CivicService.ClaimOutbox | internal/service/civic_service.go:580-603 | Every ready event, longest waiting first, is tried until one fails otherwise than by a lost race, and that error is the answer; exactly those whose transaction the world it met accepts are claimed, and these are returned as stored: processing, leased from now, one version on, all else as it was |
| CivicServices.CivicService.ListReadyFeedback | internal/index/civic_queries.go:370-388 | The ready receipts, longest waiting first, each once, at most as many as the page has room for; one left out is due no earlier than any listed, and only when the page is full |
| CivicServices.CivicService.ListReadyOutbox | internal/index/civic_queries.go:420-438 | The ready events, longest waiting first, each once, at most as many as the page has room for; one left out is due no earlier than any listed, and only when the page is full |
| Durations.DoublingsClosedForm | internal/service/civic_service.go:564 | The sum of the capped doublings in closed form |
| Durations.DelayExact | internal/service/civic_service.go:564 | No delay wraps around when base * 2^cap fits into 64 bits |
| Adjudication.Matches | internal/domain/rule.go:45-75 | The loops with their early exits decide: default, or at least one criterion and every one met |
| Adjudication.Adjudicate | internal/dispatch/adjudicator.go:21-72 | Of the rules active at registration that fit, one of the highest priority, and among those of the highest version, routes the item with its lead, co-departments and version; an error iff there is none; the fallback loop over default rules never adds one |
| Adjudication.SortByRank | internal/dispatch/adjudicator.go:48-53 | A permutation in which no rule comes before one of higher priority, nor of equal priority and higher version |
| Casework.RoutingRoutes | internal/dispatch/adjudicator.go:21-72 | The best rule of the table is the one its columns single out: active at registration, fitting, and of the highest priority and then version among those; there is one iff some rule is active and fits |
| Adjudication.BestIgnoresOrder | internal/dispatch/adjudicator.go:28-58 | With distinct versions the choice does not depend on the order of the rules |
| RuleTables.StaleCreation | internal/service/rule_service.go:46-53 | A rule numbered after an older table is accepted iff no rule has been created since, and then versions are again 1..n |
| RuleTables.VersionsStayExact | internal/service/rule_service.go:46-93 | Whatever the creators had read, the versions in every table are exactly 1..n |
| RuleTables.RuleService.CreateRule | internal/service/rule_service.go:35-93 | A valid request succeeds iff no rule was created between its query and its transaction and the storage works, with the error for each; the new rule has the next version and the requested contents, the superseded one is ended, nothing else changes |
| RuleTables.GetCurrentRuleVersion | internal/index/queries.go:403-407 | The greatest version, or 0 |
| RuleTables.GetActiveRules | internal/index/queries.go:384-401 | Exactly the rules active at that time, each once, best first |
| RuleTables.QueryIsTransparent | internal/index/queries.go:384-401 | Adjudicating over the active rules equals adjudicating over the whole table unless a rule the item could use has ended since its registration; never at registration, and never in a table where only superseding ends a rule |
| Desks.OneCurrentReferral | internal/index/writes.go:60-81 | Under every interleaving of registering, re-routing, escalating and updating transactions, on rows read at any time, each item has exactly one current referral |
| Desks.AgreementIff | internal/index/writes.go:34-81 | Under every interleaving, items and their current referrals agree at every moment iff every committed transaction carried the routing it met; for an update: iff its item was not re-routed since it was read |
| Desks.CommitAgreesIff | internal/index/writes.go:34-81 | One transaction keeps the agreement iff it carries the routing it meets |
| Desks.StaleUpdateBreaksAgreement | internal/index/writes.go:34-58 | From the empty desk: a registration, an escalation and an update prepared in between all commit, and the referral no longer says what the item says |
| CaseworkSafety.ReferralsAgree | internal/service/suggestion_service.go:97-118 | With items handled one operation at a time, the one current referral says the lead, co-departments and rule version of its item |
| CaseworkSafety.OverlapBreaksAgreement | internal/service/escalation_service.go:50-111 | On every desk that operations can reach: when an overdue item is escalated while somebody starts to work on it, both commit, the item falls back to its old department and its referral names the new one |
| CaseworkSafety.OverlapIsReachable | internal/service/suggestion_service.go:125-139 | Such a desk and item exist: one rule, one registration and the passing of its deadline |
| CaseworkSafety.EscalationHistory | internal/service/escalation_service.go:50-111 | An item at level L <= maxLevel has exactly L records 0->1->...->L; each hands over from the department the one before handed to, the lead is the level-0 lead with suffixes l1..lL; record k is later than registration + deadline + (k-1)*extension and than the deadline record k-1 set |
| CaseworkSafety.EscalatedStaysInWork | internal/domain/suggestion.go:55-63 | An escalated item is never again returned, resubmitted or re-evaluated |
| CaseworkSafety.RaisingExtendsHistory | internal/service/escalation_service.go:50-111 | One escalation extends the item's history by one record |
| RoutingDomain.DecimalDenotes | internal/domain/escalation.go:22-27 | The level in a department's name is the decimal numeral of the level, without leading zeros |
| RoutingDomain.SupervisorsDiffer | internal/domain/escalation.go:22-27 | Every escalation names a new department, extending the old name |
| DeskStores.Store.MarkAssignmentSuperseded | internal/index/writes.go:75-81 | Exactly the current referrals of the item cease to be current |
| DeskStores.Store.WithTx | internal/repo/store.go:45-67 | The statements of a transaction in order, all or none |
| DeskStores.Store.CreateRule | internal/service/rule_service.go:35-93 | Between two ticks a valid rule becomes the next version, ends the rule it supersedes and changes nothing else; otherwise the error and no change |
| ItemServices.ItemService.Register | internal/service/suggestion_service.go:52-123 | The exact answer and the exact new desk: invalid requests and storage failures change nothing, a known reference is answered with its item, a new one is refused iff no rule of the whole table fits it and otherwise routed by one of the highest priority, then version, of the table's active and fitting ones, although only active rules are queried; the item and its referral are written out |
| ItemServices.ItemService.StartProcessing | internal/service/suggestion_service.go:125-139 | The exact answer and the exact new desk, for missing items, other statuses and storage failures too: an item that is adjudicated, in progress or escalated is in progress now; no other column and no other item changes |
| ItemServices.ItemService.Modify | internal/service/suggestion_service.go:141-175 | The exact answer and the exact new desk, for missing items, other statuses and storage failures too: an item that is not closed takes over what the request gives and keeps the rest; no other column and no other item changes |
| ItemServices.ItemService.ReturnForCorrection | internal/service/suggestion_service.go:177-191 | The exact answer and the exact new desk, for missing items, other statuses and storage failures too: an item that is registered, adjudicated or returned is returned now; no other column and no other item changes |
| ItemServices.ItemService.Resubmit | internal/service/suggestion_service.go:193-209 | The exact answer and the exact new desk, for missing items, other statuses and storage failures too: an item that is registered or returned is adjudicated now, with the routing it has; no other column and no other item changes |
| ItemServices.ItemService.Cancel | internal/service/suggestion_service.go:211-227 | The exact answer and the exact new desk, for missing items, other statuses and storage failures too: an item that is not completed is cancelled now, for the reason given; no other column and no other item changes |
| ItemServices.ItemService.Complete | internal/service/suggestion_service.go:229-244 | The exact answer and the exact new desk, for missing items, other statuses and storage failures too: an item that is in progress, escalated or completed is completed now; no other column and no other item changes |
| EscalationServices.EscalationService.EscalateItem | internal/service/escalation_service.go:50-111 | The whole new desk: the item is escalated, one level up, under its supervising department with the deadline extended from now and nothing else changed; a record of the step; a current referral to the new lead in place of the others. An error iff the item is neither adjudicated, in progress nor escalated, or storage fails; the level limit is never hit for an overdue item |
| EscalationServices.EscalationService.CheckAndEscalate | internal/service/escalation_service.go:27-48 | Raises by one level exactly the open items past their deadline and below the top level, by deadline, before the first that is registered or returned (or whose storage fails): each ends escalated under its supervising department with a new deadline and a record of the step; no other item is touched, and the level-limit branch is never reached |
| EscalationServices.NothingLeftOverdue | internal/service/escalation_service.go:27-48 | Without a blocker nothing below the top level is overdue at that time any more |
| EscalationServices.BlockedStayOverdue | internal/domain/suggestion.go:55-94 | With a blocker exactly the items from it on stay overdue, and only registered or returned items block by status |
| EscalationServices.RaisedCanBeWorkedOn | internal/domain/suggestion.go:55-94 | What has been raised may be started and completed, and may not be returned or adjudicated again |
| EscalationServices.EscalationService.FindOverdueItems | internal/index/queries.go:343-359 | Exactly the open items past their deadline and below the top level, each once, by deadline |
| Reevaluation.ReevalWorker.ListItems | internal/index/queries.go:268-341 | A page is the slice of one listing of the items with the status, last registered first; a page size of at most 0 means 20, one above 200 means 200, a negative offset means 0 |
| Reevaluation.ReevalWorker.CollectStaleItems | internal/worker/reeval.go:65-90 | The paging loops end and return every re-evaluable item with an older rule version, each once |
| Reevaluation.ReevalWorker.ReevaluateItem | internal/worker/reeval.go:95-157 | The exact new desk: the item is re-routed by the best rule and gets a new current referral iff it is stale, re-evaluable, some rule fits and storage works; the counters tell re-routed from skipped, and a failed transaction is neither |
| Reevaluation.ReevalWorker.Sweep | internal/worker/reeval.go:29-61 | Every stale item with a fitting rule is routed by the best rule of the whole table and gets exactly one new referral that says so; every other item is left alone with its referrals, and a failing item does not stop the sweep; the counters grow by the numbers of re-routed, failed and unfitting items |
| Reevaluation.SecondSweepIsStable | internal/worker/reeval.go:29-157 | A second sweep leaves lead, co-departments, rule version and status of every item alone, and files a new referral exactly for the items that the first re-routed by a rule older than the current version |
| Framing.FramingRoundTrip | internal/shard/writer.go:65-69 | Reading the appended bytes gives the appended records iff each is non-empty, shorter than the scanner's buffer, without newline and not ending in a carriage return |
| Framing.OverlongIsFatal | internal/shard/reader.go:16-39 | For records without newlines the whole file fails to read iff one record is of 16 MiB or more |
| Framing.FramedRecordsAreFound | internal/shard/reader.go:16-39 | From the offset of record k on, the scanner finds records k, k+1, ... |
| Framing.ReadAtRecord | internal/shard/reader.go:41-57 | Reading at a record's location gives the record and its newline, whatever the record |
| Framing.LineScanner.Scan | internal/shard/reader.go:24-37 | One line per call, up to the first newline or the end of the data, without a carriage return at its end; a failure iff it is of 16 MiB or more |
| Framing.ReadAll | internal/shard/reader.go:16-39 | The non-empty lines, or an error if any line is too long |
| Framing.RecordCount | internal/shard/reader.go:73-92 | The number of records ReadAll returns, failing when it fails |
| ShardWriters.Writer.RotateIfNeeded | internal/shard/writer.go:92-110 | The candidate search ends, at the first segment that is missing or not full |
| ShardWriters.Writer.Append | internal/shard/writer.go:38-90 | One record more at the end of its shard and of one file, all other files untouched; the returned location reads back the record |
| ShardWriters.SegmentsAreAQueue | internal/shard/writer.go:38-110 | The segments of a shard are numbered without gaps, their concatenation is everything appended in order, every segment but the last is full and was not before its final record |
| ShardWriters.SegmentsAreReadBack | internal/shard/writer.go:38-110 | Reading the segments in order gives the appended records |
| Replays.ReplayKeepsLastRecords | internal/repo/rebuild.go:91-118 | Replaying day files in path order keeps the same record per identifier as replaying in the order of appending |
| Replays.ReplayRefinesIndex | internal/repo/store.go:147-173 | Without rollbacks, replaying the log gives exactly the items of the index, even when updates were prepared from stale reads |
| Replays.ReplayIsIndexIff | internal/repo/store.go:45-67 | With rollbacks, replay gives the index iff every rolled-back record that is the last of its item repeats what the index says |
| Replays.IndexIsLogged | internal/repo/store.go:147-173 | Every item of the index is in the log, rollbacks or not |
| Replays.RollbackResurrects | internal/repo/store.go:45-67 | A concrete rolled-back update that a rebuild brings back |
| RepoStores.RepoStore.SaveItem | internal/repo/store.go:147-159 | The record goes to the registration day's shard, then the row to the index; a refused row leaves its record behind |
| RepoStores.RepoStore.UpdateItem | internal/repo/store.go:161-173 | The record goes to today's shard, then the row is overwritten; a missing row leaves its record behind |
| RepoStores.RepoStore.WithTx | internal/repo/store.go:45-67 | A failure undoes the index and never the log; the shards hold exactly the run's records per day |
| RepoStores.RepoStore.CollectItems | internal/repo/rebuild.go:91-118 | The base files of the items in day order, unreadable ones skipped and reported, the last record per identifier kept; indexed and skipped files add up |
| RepoStores.RebuildRestoresItems | internal/repo/rebuild.go:91-118 | From bytes to items: of the records it reads a rebuild collects the last one of each item; that is the index iff every rolled-back record that is the last one read of its item repeats what the index says, and every last commit that is not read, because its file has rotated or is spoilt, is repeated by the last record of its item that is; when all is read iff the rollbacks are harmless |
| RepoStores.CorruptedIff | internal/shard/reader.go:16-39 | The first file of a day holds the first records of the day; a rebuild skips it iff one of them does not fit the scanner's buffer, and otherwise reads them all |
| RepoStores.RotationLosesItems | internal/shard/scanner.go:38 | Two committed saves on one day with a limit of one byte: both items are in the index, the rebuild collects only the first |
| RepoStores.OverlongLosesDay | internal/shard/reader.go:16-39 | Two committed saves on one day, the second of 16 MiB or more: both items are in the index, the rebuild collects neither |
| Reconciliation.RebuildManifests | internal/repo/rebuild.go:202-233 | One manifest entry per shard, with its checksum and record count, or marked corrupted |
| Reconciliation.Reconcile | internal/repo/rebuild.go:241-294 | For any contents: missing is the total by which readable shards fall short of their entries, orphaned the total by which they exceed them or all they hold without one, mismatches the number whose entry has another checksum that is not empty, the index count the total recorded for them; corrupted shards add nothing |
| Reconciliation.CutShardIsMissed | internal/repo/rebuild.go:241-294 | A shard that was counted in full and has been cut since to m of its n records adds exactly n - m missing ones, whatever the other shards hold |
| Reconciliation.ReconcileCountsAppends | internal/repo/rebuild.go:241-294 | If shards only grew since the rebuild, the orphaned records are exactly those appended, none is missing, and without appends no checksum differs |
| Retries.Scheduler.CalculateBackoff | internal/scheduler/scheduler.go:109-118 | The capped doubling of the base, in wrapping 64-bit arithmetic |
| Retries.Scheduler.RunWithRetry | internal/scheduler/tasks.go:14-36 | At most MaxRetries calls, the last of them the first success; a failure is recorded iff that many calls all fail and no wait is interrupted; the time waited is exactly the delays between the calls plus the part of an interrupted one, which without overflow, for a base of at most MaxInt64/1024, is base * sum of 2^min(i-1,10) |
| Retries.BoundIsTight | internal/scheduler/scheduler.go:109-118 | One nanosecond beyond that base the longest delay turns negative |

## Left out

- Identifiers are strings in the civic workflow and numbers from a supply of fresh ones in routing; no theorem relates
  the items of the one to those of the other.
- Loaded rows are values, not objects: aliasing of a loaded row within one operation is not modelled.
- Status strings and intake sources are closed enumerations, so the branches for unknown ones do not arise.
- Times are integers; RFC 3339 text, its lexicographic comparison and time zones are not modelled. The day of the
  quota trigger is the UTC day; the local day an intake counts by is a parameter. A shard's day is the UTC day.
- TrimSpace is modelled for ASCII white space; the two other characters of Latin-1 and those of Unicode are not.
- Versions, attempts and counts are unbounded integers; only durations wrap.
- Audit rows appear only as a possible failure of the transaction.
- Topic and payload of an outbox event, and the data_version columns.
- JSON encoding: only that decoding inverts encoding is used, and that an encoded record is not empty, has no newline
  and does not end in a carriage return; records that do not parse are dropped, as in the code.
- Queries that fail for reasons of storage: only transactions do.
- Context cancellation, except during the waits of the retry loop; logging; the HTTP, CLI, configuration and
  authentication layers; goroutines and tickers.
- SQLite's choice among rows that tie in ORDER BY: arbitrary in general, fixed by identifier for ListItems.
- CivicServices.CivicService.Look: its body is the schedule in which nobody else runs; callers know only its contract.
- RuleTables.RuleService.Interleave: as Look, for rule creation.
- The rest of RebuildIndex: it re-inserts rules without deleting them, its post-processing un-marks every referral
  of an escalated item, and it replays the other entity types in the same way as items.
- Superseding a rule stamps the wall clock; the model uses the service clock for it.
- Rule creation as a step among item operations is serialised; on its own it is modelled with stale reads.
- recordPermanentFailure of the escalation service: its branch is unreachable.
- Batch imports, paging objects, Diagnose, Export and the Validate methods of rules and suggestions: easy members.
- Claims that are false of the code and not made: completed items stay completed under stale writes; all plans of a
  converted suggestion stay completed; a sweep moves items to the newest rule.
