# A verified model of StewardBench

StewardBench sends frozen questions to a target product, records what came back, and compares, judges and reviews the
records. Its worker uses the table of executions as a queue: several worker processes claim rows under leases, cross a
durable "submission started" mark, call the target outside any transaction, and complete under a claim token, while a
reconciler takes over the rows of workers that died. This project models that protocol and the evidence machinery around
it, and proves what it keeps in every run.

## The durable worker

`Rows` holds the tables and their check constraints as values. `Transactions` gives the effect of every committed
transaction as a function of the tables (`None` where the source raises and rolls back). `Protocol` is the transition
system over them: one task with a program counter for every claim ever handed out, a clock, and logs of the target calls
and of the sessions opened. Workers may crash at any point, renew late, report late, and run concurrently in any number;
each transaction is one step whose timestamp may lag the clock, and a row locked by somebody else is an arbitrary set of
skipped rows.

The invariant is proved component by component: `TableInvariants`, `TransactionProofs`, `LaunchProofs` and `SystemSound`
for the tables, `Submissions` for the submission mark, `ConversationOrder` and `Sessions` for conversations, `Ledger` for
claims, observations and comparison items, `Replays` for frozen inputs, `RunHistory` for runs. `Traces` lifts it to every
trace from tables that an upgrade can leave behind, and `Theorems` and `Capacity` state the results.

What the fields hold is told from the steps, apart from the functions that write them: `RowHistory` and `RowTraces` for
rows (claims, leases, attempts, validity, recovery), `Observations` for answers, `RunClocks` for the start, the pauses and
the end of a run, `SessionEnds` for sessions, `ClaimGuard` for which row is offered. `LaunchFields` says what every launch
freezes and exactly when it is refused, `Retries` what that means for retries of retries, and `Comparability` which pairs
are compared at all.

`WorkQueue` is the same queue in the form the service has it: fields updated in place, loops over rows, transactions
that restore what they touched when they raise. Every method is proved to do exactly what its function in `Transactions`
does; for the reconciliation, whose loop blocks sessions while it runs, `ReconcileLoop` describes the state after each
iteration. `ClaimProcessing` is what a worker does with a claim, from the preflight check to the closing of its session,
and `Drain` the worker process on top of it. Both show, beside what happens to the rows, the list of protocol steps that
they take (`ProtocolRuns`, `ClaimSteps`), so all that holds of protocol runs holds of them. `FrozenQuestions` follows a
question from its template to the call.

`Completion` is the completing transaction with everything that runs inside it: the observation, the comparison item, the
exact and the semantic comparison and their review events, the dispatch delay and the run. `Columns` says what the columns
can hold that it writes. `ReviewedRuns` puts both into the protocol: its runs are protocol runs that carry the review state
of every row (`ReviewLogs`) along, and in which a transaction that the columns refuse changes nothing.

Five places where the code does less than its documentation suggests are proved as they are:

- A renewal does not look at whether the lease is still live, so a late heartbeat or mark can exceed a concurrency limit.
  `Capacity.LimitsHoldIffRenewalsFit` says when the limits hold, `Capacity.LateRenewalBreaksLimits` is a trace in which
  they do not.
- Completing a turn and blocking its session are two transactions. The next turn can be claimed in between and, once that
  claim is reclaimed, waits for ever under an unusable session (`StuckConversation.BlockingCanComeTooLate`).
  `Drain.DrainQueue` and `Drain.StuckAfterReconciliation` say exactly which runs never end.
- A worker whose completion was refused still goes on to block or close the session, and recording an opened session makes
  an attempt active even if it was marked unusable meanwhile. The protocol has both; the theorems hold regardless.
- A completion writes values that nobody has checked against their columns, and one that does not fit undoes all of it, so
  that the answer is lost to recovery. `Completion.HolderCommitsIff` and `ReviewedRuns.HolderCommitsInRuns` say when the
  holder of a claim commits: the target's correlation identity, token counts and texts fit, less than 2^31 milliseconds
  have passed since the claim, for a replay of a success each of the four percentages has at most ten digits, and for a
  CHANGED answer the causes of its review events have at most 160 characters. Columns outside of the model are one named
  condition beside these. `Completion.SlowReplayRaises` and `Completion.LongVersionRaises` are examples of the last two.
- Recovery writes the time since the claim too. A question in flight that nobody has ended within 2^31 milliseconds, a
  little under 25 days, is never ended (`OverdueRecovery.OverdueIsNeverEnded`), and every recovery that finds it raises and
  recovers nothing else either (`OverdueRecovery.OverdueStopsRecovery`). `Columns.RecoveryFitsIff` is the exact condition,
  `OverdueRecovery.RecoveryCanStop` a run that gets there.

## The evidence around it

`EvaluationQueue` (analyses of stored answers and their append-only results), `Attention` (review state as a projection
of an event log), `Freezing` and `AnyTemplate` (template bindings), `AnswerText`, `CanonicalJson`, `JsonPrinter` and
`OperatorAnswers` (what exact comparison compares, used by `Comparison`; `JsonReader` reads back what is printed, and
`OperatorAnswers.SameAnswer` says what two answers have in common without normalizing either), `Timelines` (temporal
catalog versions), `Performance` and `Statistics` (regression arithmetic and percentiles). `AnalysisHistory` and
`ReviewHistory` tell the fields of analyses and of review state from the steps, as above. Where the source keeps rows in
place these modules have a class beside the functions.

More exact conditions found there:

- A semantic result lowers attention only directly after the exact comparison, and so at most once, if and only if
  whenever such a result finds the exact comparison newest by time it is also the last event logged
  (`Attention.LoweringsFollowExactIff`). Ordered times suffice; with a clock that steps back attention raised by a person
  can be lowered (`Attention.BackwardClockLowersTwice`).
- Replacing one binding after the other means filling all placeholders at once, for every template whatever, if and only if
  no marker of a later binding can reach into an earlier value (`AnyTemplate.FreezingMeansFillingIff`); for a value without
  braces, if and only if it is no part of the later name (`AnyTemplate.PlainValueIsUntouchedIff`). For templates whose
  literal text opens no brace the condition is weaker: no earlier value, alone or together with the next one, can bring up
  the marker of a later binding (`Freezing.FreezingMeansSubstitutionIff`). Values without an opening brace never can;
  `Freezing.BracesMakeOrderMatter` is an example of values that do.
- A plain answer compares equal to a structured one if and only if it is the one line that is the canonical JSON of it
  (`OperatorAnswers.MixedAnswersAgreeIff`), and every structured answer has such a twin.
- A scenario version links to the companion version in force, at every instant of its life, if and only if the clock did
  not step back between the two reads at the creation of the scenario (`Timelines.LinksAlwaysInForceIff`).
- Rounding to hundredths makes 24.995 percent a regression although 25 is documented (`Performance.RegressedIff`).

`dafny verify dfyconfig.toml` checks everything.

## Model

| member | source | states |
|---|---|---|
| Theorems.AtMostOnceSubmission | evaluations/services.py:2584-2599 | in every trace each execution is sent to the target at most once, and one whose frozen input was unusable never |
| Theorems.MarkIsForever | evaluations/services.py:2398-2452 | once the submission mark of a row is committed the row is never pending or claimable again, and keeps the marking token |
| Theorems.ConversationSafety | evaluations/services.py:2490-2502 | in every trace an attempt has at most one running turn, its earlier turns are terminal, its turns are sent in increasing order, at most one open call returns a session for it, and every turn carries that recorded session |
| SessionOpenings.OneOpenCallStarted | evaluations/services.py:2686-2709 | in every trace at most one call to open a session is ever started for an attempt, whether it returns, fails, times out or its worker dies |
| Theorems.SessionWrittenOnce | evaluations/models.py:263-268 | a recorded session identity is never replaced |
| Sessions.CommitFindsNoOther | evaluations/services.py:2710-2728 | the locked recording of an opened session never meets another session, so its refusal branch is dead |
| Theorems.RunStateIsTruthful | evaluations/services.py:486-509 | in every reachable state a run is in a completed state iff all its rows are terminal, completed without errors iff all succeeded, and its five counts add up to its plan |
| Theorems.TerminalRunIsFinal | evaluations/models.py:123-132 | a terminal run never changes again, under any step |
| Theorems.EvidenceIsFinal | evaluations/models.py:527-536 | a terminal row keeps every field but its validity for ever |
| Theorems.ObservationHasOneWriter | evaluations/services.py:2637-2648 | a terminal observation that the protocol wrote is credited to exactly one writer: the holder of the row's last token, recovery, or session blocking |
| Theorems.WriterIsFinal | evaluations/services.py:2381-2395 | the credited writer of an observation never changes |
| Theorems.ClaimsAreConserved | evaluations/services.py:2412-2420 | claims handed out are as many as safe reclaims plus rows that still hold or finished under their last claim |
| Theorems.ReplayItems | evaluations/services.py:2649-2656 | a replay has a comparison item iff a worker completed it, never two, and none after recovery or blocking |
| Theorems.ReplayComparisonUsesAnswersOnly | evaluations/services.py:779-829 | the item a worker-completed replay gets depends on answers and their usability alone: identity, version, turn, question, binding and membership mismatches are unreachable |
| RunClocks.PauseIsKept | evaluations/services.py:2657-2660 | in every trace: after a completion in a run with a pause no row of it is claimed before the pause is over, unless a later completion began another |
| RunClocks.StartIsFirstClaim | evaluations/services.py:2325-2329 | in every trace a run has started at the time of the first claim made in it, whatever is claimed in it later |
| RunClocks.EndIsLastRow | evaluations/services.py:2332-2344 | in every trace a run ends at the time of the step that ended its last row, and keeps its start and no pause |
| RunClocks.ClaimStartsRun | evaluations/services.py:2325-2329 | a claim in a queued run makes it running from that time; a claim in any other run writes no field of it |
| RunClocks.CompletionTimesRun | evaluations/services.py:2657-2661 | a completion ends the run if no row is left, otherwise sets the end of the pause to its own time and the delay, or leaves it where there is none; no other run is touched |
| RowTraces.ClaimAttemptCounts | evaluations/services.py:2358-2378 | in every trace a row counts exactly the claims ever made of it, those reclaimed included |
| RowTraces.HeldByClaim | evaluations/services.py:2513-2538 | in every trace a held row carries worker, token and start of a claim that was made of it |
| RowTraces.LeaseIsLastRenewal | evaluations/services.py:2541-2556 | in every trace the lease of a held row is that of the last claim, renewal or mark under its token |
| RowTraces.LiveClaimsSurvive | evaluations/services.py:2398-2416 | a recovery leaves every claim alone whose lease is later than its time |
| RowTraces.OnlyLiveClaimsRemain | evaluations/services.py:2398-2452 | after a recovery with nothing locked every row that runs has a lease beyond its time |
| RowTraces.ValidityIsLastDecision | evaluations/services.py:2020-2048 | in every trace the validity of a row is the last decision made on it |
| RowHistory.StepMovesRow | evaluations/services.py:2358-2395 | what every kind of step writes into a row, field by field: claimed, renewed, marked, reclaimed, ended with its latency, blocked, or nothing |
| Observations.ObservationIsAsSeen | evaluations/services.py:2932-2971 | in every trace an observation credited to a worker is outcome and answer as the target, or the failure, brought them to that worker |
| Observations.SuccessWasAnswered | evaluations/services.py:2932-2971 | in every trace a success that the protocol wrote holds what the target answered to the call under the last token of the row |
| SessionEnds.ClosedAfterLastTurn | evaluations/services.py:2767-2813 | in every trace an attempt is over only when all its turns have ended and closed only if it had a session; whoever asks the target to close it has seen that |
| SessionEnds.AttemptMovesAt | evaluations/services.py:2710-2813 | in every trace a first session makes an attempt active, breaking it unusable and over if no turn is left, and only a close that the target granted closed |
| Replays.MismatchUnreachable | evaluations/services.py:833-956 | for a row that a controlled launch made, the full classification equals the one with every mismatch branch removed |
| Replays.StepKeepsReplays | evaluations/services.py:641-761 | every step of every kind keeps replays faithful to their baseline rows, for both kinds of controlled launch |
| Capacity.LimitsHoldIffRenewalsFit | evaluations/services.py:2503-2511 | in a trace no run and no revision ever has more unexpired claims than it may iff every renewal fits; retries, controlled runs, lagging clocks and recoveries never break a limit |
| Capacity.LimitsHoldWhenRenewalsAreLive | evaluations/services.py:2541-2556 | if leases are only renewed while live, the limits hold in every state |
| Capacity.LateRenewalBreaksLimits | evaluations/services.py:2541-2556 | a trace in which a worker renews after its lease ran out and a limit of one is exceeded |
| Capacity.StepStaysWithinIff | evaluations/services.py:2347-2355 | a single step keeps the limits iff it is not a renewal that does not fit |
| Traces.TraceHoldsInv | evaluations/models.py:465-499 | the claim-state constraint and all other invariants hold in every state of every trace |
| LaunchProofs.LaunchKeepsSound | evaluations/services.py:377-482 | every kind of launch appends a run whose manifest fits its revision, concurrency bounds and attempt |
| ClaimGuard.ClaimableIff | evaluations/services.py:2474-2511 | a row is offered iff it waits, its run goes on and its pause is over, its session is not broken and its earlier turns have ended, and both limits leave room among the unexpired claims |
| LaunchFields.RetryCarries | evaluations/services.py:2078-2158 | a retry is one new row with the input, revision and preflight error of its source, no conversation, baseline or reason, in a run of its own with concurrency 1 and the limit and delay of the source run |
| LaunchFields.RetryRefusedIff | evaluations/services.py:2160-2195 | a retry is refused iff the row is a turn or has not ended |
| LaunchFields.QuestionsFreeze | evaluations/services.py:403-482 | one row for each question in order, with its input and preflight error; concurrency 1 if sequential, otherwise the smaller of both maxima |
| LaunchFields.ConversationFreezes | evaluations/services.py:196-347 | one attempt and one row for each turn of the scenario version in order, with concurrency 1 |
| LaunchFields.ReplaysFreeze | evaluations/services.py:641-761 | one row for each member of the baseline, in their order and with their inputs, and a reason and no call iff there is nothing to compare with |
| LaunchFields.ReplaysRefusedIff | evaluations/services.py:641-700 | refused iff the baseline has attempts or no members, or there is no room to run anything |
| LaunchFields.ReplayTurnsFreeze | evaluations/services.py:2240-2280 | one attempt that replays that of the baseline, and one row for each turn with the input, preflight error and reason of its member |
| LaunchFields.ReplayTurnsRefusedIff | evaluations/services.py:2240-2280 | launched iff the members of the baseline are the turns of that attempt, one for each turn of its scenario version |
| LaunchFields.BaselineIsWholeRun | evaluations/services.py:558-594 | a run is promoted iff it has ended with a valid success, with all of its rows as members |
| Retries.ChainIsSameQuestion | evaluations/services.py:2078-2158 | in every trace a retry, a retry of a retry and so on keep input, revision and preflight error of the first row |
| Retries.RetriesStayUnsent | evaluations/services.py:2949-2954 | in every trace no retry, however often repeated, of a question whose frozen input was unusable is ever sent |
| TransactionProofs.MarkUnusableAborts | evaluations/services.py:2731-2764 | blocking a session raises iff the run is already terminal |
| TransactionProofs.CompleteCommits | evaluations/services.py:2637-2662 | as far as the worker tables go the holder of a running row commits: the guard on terminal runs is never hit (`Completion.HolderCommitsIff` has the columns and the comparisons too) |
| TransactionProofs.ReconcileKeepsSound | evaluations/services.py:2398-2452 | a reconciliation that skips any set of rows keeps the tables sound and their launch-time fields |
| RunHistory.ProgressMeansDone | evaluations/services.py:2332-2344 | no pending and no running count means every row is terminal, and an error or timeout count means some row failed |
| RunHistory.CountsAddUp | evaluations/services.py:486-509 | the five grouped counts partition the rows of a run |
| WorkQueue.Queue.ClaimNextExecution | evaluations/services.py:2462-2538 | claims the first row in order that is not locked and passes every test, or reports that there is none; nothing else changes |
| WorkQueue.Queue.RefreshClaimLease | evaluations/services.py:2541-2556 | renews iff the caller holds the running claim, expired or not |
| WorkQueue.Queue.MarkSubmissionStarted | evaluations/services.py:2584-2599 | marks iff the caller holds the claim and has not marked it |
| WorkQueue.Queue.FinalizeRun | evaluations/services.py:2332-2344 | finalizes a complete run by its failures, leaves an incomplete one, raises on a terminal one |
| WorkQueue.Queue.CompleteExecution | evaluations/services.py:2637-2662 | the part of the completion that concerns the worker tables, columns aside: commits the observation, the comparison item, the dispatch delay and the run state together for the holder, refuses anybody else, and restores everything when it raises |
| Completion.CompleteClaim | evaluations/services.py:2637-2662 | the whole transaction over the rows and the review state of the row, in its order: observation, item, exact comparison, semantic comparison, delay, run; commits all of it for the holder, refuses anybody else, and restores both sides whatever raises, values that their columns refuse among it |
| Completion.WriteRow | evaluations/services.py:2647-2652 | the observation and then the item are written iff the columns of both take them |
| Completion.CompareAnswer | evaluations/services.py:2649-2656 | a new item goes through the exact and then the semantic comparison, no item through neither |
| Completion.ChangedIsApplicable | evaluations/services.py:960-975 | a new item that is CHANGED is always one that the semantic comparison applies to |
| Comparability.ClassifyIff | evaluations/services.py:779-829 | a pair is told CHANGED or UNCHANGED iff it is a member of the baseline, both answers are usable, and both rows stand for the same turn or question version with the same text and bound values; UNCHANGED iff the exact answers are equal too |
| Comparability.ReasonIsFirstFailure | evaluations/services.py:779-829 | the reason for any other pair is that of the first of these conditions that fails |
| Comparability.ItemIsRecordedIff | evaluations/services.py:833-950 | an ended replay in a run that compares gets one item, the first time, for the row it replays and with its classification; nothing else does |
| Completion.HolderCommitsIff | evaluations/services.py:2637-2662 | the holder of a running row commits iff the columns take the observation and the time since the claim, a new item of two successes has percentages in range, the causes of a CHANGED item fit, and the columns outside of the model take the rest |
| Completion.ColumnsDecide | evaluations/models.py:657-674 | with versions and keys that fit their columns the exact cause always fits; the lowering one iff version and result key have at most 76 characters |
| Completion.LongVersionRaises | evaluations/services.py:1711-1732 | a version of 80 characters, the width of its column, with which an EQUIVALENT verdict on a CHANGED answer raises |
| Completion.SlowReplayRaises | evaluations/services.py:855-882 | a replay that takes 1,000,001 milliseconds where its baseline took one raises, whatever the answers |
| Columns.PercentFitsIff | evaluations/models.py:1169-1182 | a percentage fits its ten digits iff 20,000 times the growth is below 19,999,999,999 times a positive baseline |
| Columns.RowFitsIff | evaluations/services.py:2381-2395 | an ended row fits iff the observation does and less than 2^31 milliseconds have passed since the claim |
| Columns.RecoveryFitsIff | evaluations/services.py:2416-2432 | a recovery can write its rows iff every row it gives up began less than 2^31 milliseconds ago |
| Columns.BlockedTurnFits | evaluations/services.py:2731-2764 | a turn that a broken session blocks can always be written |
| Columns.ObservationFitsIff | evaluations/models.py:361-394 | an observation fits iff every text in it, those inside its structured answer too, is without the character zero, its counts are below 2^31 and its two short texts within their widths |
| ReviewedRuns.RunsAreProtocolRuns | evaluations/services.py:2637-2662 | runs with both comparisons inside completions and columns that refuse values, an aborted completion among them, are runs of the worker protocol, so every theorem about those holds of them |
| ReviewedRuns.HolderCommitsInRuns | evaluations/services.py:2637-2662 | in every such run the holder commits iff everything can be stored; it commits what the protocol completion does, and attention is required iff CHANGED and not EQUIVALENT; otherwise nothing is written and the claim is left to recovery |
| ReviewedRuns.ChangedIsNoticed | evaluations/services.py:939-956 | in every such run the log of a row starts with the exact comparison iff its item is CHANGED and has no other such event; without a person a CHANGED row is out of attention only if a comparator found it EQUIVALENT; nothing is recorded before a row ends |
| OverdueRecovery.OverdueIsNeverEnded | evaluations/services.py:2381-2395 | in every such run a question in flight that is not ended within 2^31 milliseconds of its claim is never ended, and its run stays open |
| OverdueRecovery.OverdueStopsRecovery | evaluations/services.py:2398-2452 | from then on a recovery that finds it stale and not locked raises, whatever else there is to recover |
| OverdueRecovery.RecoveryCanStop | evaluations/services.py:2398-2452 | a run that reaches such a state: one worker marks a question and is never heard of again, and nobody looks in time |
| WorkQueue.Queue.RecordOpenedSession | evaluations/services.py:2710-2728 | records a first session, accepts the same one again, refuses another |
| WorkQueue.Queue.MarkSessionUnusable | evaluations/services.py:2731-2764 | the loop ends exactly the pending turns of the attempt, closes the attempt and the run if that was all, and restores everything when finalizing raises |
| WorkQueue.Queue.RecordClosedSession | evaluations/services.py:2803-2813 | closes an attempt once; a failed close keeps its state |
| WorkQueue.Queue.ReconcileStaleClaims | evaluations/services.py:2398-2452 | the loop with session blocking inside it and the loop over touched runs equal the row-by-row recovery: unstarted claims are reclaimed, possibly sent ones end in error, their waiting turns are blocked, complete runs finish; the counts returned are the sizes of the two groups; it raises, and changes nothing, iff a row it gives up does not fit |
| WorkQueue.Queue.FinalizeTouchedRuns | evaluations/services.py:2449-2451 | the touched runs can be finalized in any order |
| ReconcileLoop.TurnBody | evaluations/services.py:2434-2445 | the loop body at an ambiguous conversation turn, blocking included, is one step of that recovery |
| ReconcileLoop.OneRunningTurn | evaluations/services.py:2496-2502 | two running turns of one attempt are the same row |
| Drain.DrainQueue | core/management/commands/run_worker.py:82-109 | once every lease has passed, one reconciliation and one cycle for each waiting single question leave nothing running and only stuck turns waiting; a run is terminal afterwards iff it has no such turn; the whole drain is a list of protocol steps; it ends at its beginning, with nothing changed, iff the reconciliation raises |
| Drain.DrainContinuesTrace | core/management/commands/run_worker.py:82-109 | a drain that starts where a trace ends continues it to a trace, so its end satisfies the invariant of all traces |
| Drain.Cycles | core/management/commands/run_worker.py:82-99 | the claim cycles are exactly as many as the rows claimed, as many of them single questions as waited; every waiting row was claimed once and finished, or blocked unclaimed, or was stuck from the start; every cycle is protocol steps; every waiting single question ends as the target says, or unsent with its preflight error |
| Drain.IdleMeansStuck | evaluations/services.py:2488-2502 | if nothing runs and nothing is offered, every waiting row is a turn of an unusable session |
| Drain.StuckIsIdle | evaluations/services.py:2490-2497 | such turns are never offered, at any time |
| Drain.StuckAfterReconciliation | evaluations/services.py:2418-2445 | which turns are stuck after a reconciliation, told from the rows before it |
| Drain.SinglesAfterReconciliation | evaluations/services.py:2418-2421 | the single questions waiting afterwards are those waiting before and those safely reclaimed |
| ClaimProcessing.ProcessClaim | evaluations/services.py:2932-2971 | processing a claim is a list of protocol steps of its task; a lost claim changes nothing; otherwise its row ends as the first of these says: unusable frozen input, a failure before the mark, no session to be had, the answer; the session of a turn is broken by an ending that cannot continue it and by no other (unless the run was over with that turn) and closed after its last turn if the target closes it; besides, at most waiting turns of the same attempt end |
| ClaimProcessing.ConversationFinish | evaluations/services.py:2816-2825 | completion, blocking and closing as separate transactions, by the holder or by anybody: what each leaves is stated exactly, also after a refused completion and after a blocking that raises; for the holder the turn has the ending given, and an attempt left unusable has no waiting turn |
| ClaimProcessing.EnsureSession | evaluations/services.py:2686-2728 | a marked turn gets the recorded session; the first turn gets the one its open call returns, which is recorded and active, or the failure of that call; a later turn without a session and any turn of a broken one fail; no other attempt is touched |
| Drain.ClaimBatch | core/management/commands/run_worker.py:95-99 | claims at most as many rows as there is room, distinct and each under its own token, and stops early only when nothing is offered |
| StuckConversation.BlockingCanComeTooLate | evaluations/services.py:2816-2825 | a reachable state with nothing running, a run that is not terminal, and a turn no worker will ever be offered |
| EvaluationQueue.EvidenceOncePerInvocation | evaluations/services.py:1462-1512 | under any interleaving a completed invocation has exactly one result row and any other none |
| EvaluationQueue.LostClaimStaysLost | evaluations/services.py:1377-1405 | a claim lost by expiry or by reporting never counts again: whoever reports under it later changes nothing |
| EvaluationQueue.CurrentIsOrderIndependent | evaluations/services.py:1176-1204 | two lists of results with the same reported requests in a slot agree on the current one, the highest; legacy rows never outrank a request |
| EvaluationQueue.CurrentIsOrderIndependentInTraces | evaluations/services.py:1176-1204 | two whole traces from the same legacy rows in which the same requests got done, each by the same evaluator, agree for every evaluator key and the judge on the current request, the highest |
| EvaluationQueue.CurrentJudgeIsOrderIndependent | evaluations/services.py:1182-1191 | for the judge this needs no condition on keys |
| EvaluationQueue.SupersessionIsAChain | evaluations/services.py:1473-1475 | supersession goes to an earlier request of the same slot, no result is superseded twice, the current one never |
| EvaluationQueue.SupersedesNothingWhen | evaluations/services.py:1568-1570 | a report under any key supersedes nothing iff its slot was empty, already had a later request, or the key is wider than its column |
| EvaluationQueue.Queue.ClaimNext | evaluations/services.py:1304-1337 | claims the oldest waiting invocation that is not locked |
| EvaluationQueue.Queue.RefreshLease | evaluations/services.py:1340-1353 | renews iff the caller holds the running claim |
| EvaluationQueue.Queue.RequeueExpired | evaluations/services.py:1377-1405 | every expired analysis waits again, the others are untouched, and the count is returned |
| EvaluationQueue.Queue.ReportResult | evaluations/services.py:1462-1512 | appends result and completion together for the holder of the claim, and nothing for anybody else |
| AnalysisHistory.AttemptsCountClaims | evaluations/services.py:1304-1337 | in every trace an analysis counts exactly the claims ever made of it, those taken back included |
| AnalysisHistory.OldestIsGivenFirst | evaluations/services.py:1304-1320 | in every trace an analysis is given out when it waits and no earlier one does that is not locked |
| AnalysisHistory.LiveAnalysesSurvive | evaluations/services.py:1377-1405 | a recovery leaves an analysis alone whose lease is later than its time |
| AnalysisHistory.OnlyLiveAnalysesRemain | evaluations/services.py:1377-1405 | after a recovery with nothing locked an analysis goes on iff its lease is later than its time; every other waits with no worker, token or lease |
| AnalysisHistory.LeaseIsLastRenewal | evaluations/services.py:1340-1353 | in every trace the lease of an analysis is that of the last claim or renewal of its own worker |
| AnalysisHistory.StepMoves | evaluations/services.py:1304-1512 | what every kind of step writes into an analysis: given out, renewed, taken back, done, or nothing |
| AnalysisHistory.StepReports | evaluations/services.py:1416-1512 | a result is written by a report that counts and by nothing else, for what was asked and under the key cut to its column |
| AnalysisHistory.CurrentIsNewest | evaluations/services.py:1176-1204 | the current result of a slot belongs to its latest request, or to none if there are only results from before the queue, and is the newest of those by time, then by primary key |
| Attention.ProjectionIsLastEvent | evaluations/services.py:1930-1952 | after any mix of human and semantic steps the review state is that of the last event, and semantic results and human reviews each form one line |
| Attention.OnlyPeopleLeaveReviewed | evaluations/services.py:1722-1740 | a reviewed execution stays reviewed through every comparison; only a person setting a state changes it |
| Attention.EquivalentLowersIff | evaluations/services.py:1711-1719 | in every log, ordered or not, an EQUIVALENT result lowers attention iff it applies, its cause fits, review is required and the exact comparison is the newest event by time; with ordered times newest is last |
| Attention.StepKeepsLoweringsIff | evaluations/services.py:1703-1740 | one step keeps lowerings directly after the exact comparison iff it is timely |
| Attention.LoweringsFollowExactIff | evaluations/services.py:1703-1740 | in every trace attention is lowered only directly after the exact comparison iff every step is timely: a lowering that finds it newest finds it last |
| Attention.OrderedTimesAreTimely | evaluations/services.py:1711-1719 | a log with ordered times had timely steps only |
| Attention.LoweredAtMostOnce | evaluations/services.py:1703-1740 | if the steps were timely, or the times ordered, the system lowers attention at most once |
| Attention.BackwardClockLowersTwice | evaluations/services.py:1711-1719 | a trace with a step that is not timely: attention raised by a person is lowered, and lowered twice |
| ReviewHistory.ReviewsAreJudgments | evaluations/services.py:1982-2017 | in every trace the human reviews are all that people judged, in order and unaltered, and the last one is current |
| ReviewHistory.ReviewWrites | evaluations/services.py:1982-2017 | a review is appended with judgment and actor, follows the one before it and becomes current, with an event unless the execution was reviewed already |
| ReviewHistory.ComparisonWrites | evaluations/services.py:1722-1820 | a semantic result requires review of what is clear if it is not EQUIVALENT, and clears a requirement of an exact change alone if it is; a cause too wide leaves nothing |
| ReviewHistory.ExactWrites | evaluations/services.py:939-956 | the one comparison item is kept; a CHANGED one requires review of what nobody reviewed |
| ReviewHistory.SettingWrites | evaluations/services.py:1930-1952 | a person sets another state with an event of theirs; the same state is left alone, and a cause too wide leaves nothing |
| ReviewHistory.CauseNamesVerdict | evaluations/services.py:1734-1740 | the cause of a requirement names the comparator and its verdict as it is stored |
| ReviewHistory.ContainsIff | evaluations/services.py:1711-1719 | a cause mentions an exact change iff it has that text somewhere in the middle |
| Attention.Tracker.RecordSemanticComparison | evaluations/services.py:1743-1820 | finds the prior result, appends its successor and applies the triage; a cause too wide for its column undoes all of it |
| Attention.Tracker.FindCurrentSemantic | evaluations/services.py:1688-1700 | the newest result that nothing supersedes |
| Attention.Tracker.RecordExactComparison | evaluations/services.py:939-956 | a CHANGED pair raises attention once, unless the execution is already reviewed |
| Attention.Tracker.SetReviewState | evaluations/services.py:1930-1952 | event and projection change together, and nothing changes when the state is already set |
| Attention.Tracker.RecordHumanReview | evaluations/services.py:1982-2017 | appends the review, makes it current and sets REVIEWED with an event unless it already was |
| Freezing.FreezeBindings | evaluations/services.py:140-160 | the loop computes question, stored bindings and problems as the fold that the next rows are about |
| Freezing.FreezingMeansSubstitutionIff | evaluations/services.py:140-160 | over the templates whose literal text opens no brace: a list of bindings means the simultaneous substitution, with its stored bindings and problems, over all of them iff no earlier value can bring up the marker of a later binding |
| Freezing.StoredBindingsReproduce | evaluations/services.py:163-177 | for every input, replaying the stored bindings over the template gives the submitted question |
| Freezing.FreezingIsSimultaneous | evaluations/services.py:140-160 | over a template whose literal text opens no brace: with values that cannot bring up a bound marker the replacements are one simultaneous substitution, in any order, and leave no bound marker |
| Freezing.NoOpeningBraceIsSafe | evaluations/services.py:156-157 | values without an opening brace cannot bring up any marker |
| Freezing.ProblemsAreExact | evaluations/services.py:145-155 | over a template whose literal text opens no brace, for bindings that meet that condition, exactly the required bindings without a value and the values without a placeholder are reported |
| Freezing.BracesMakeOrderMatter | evaluations/services.py:156-157 | an example: two orders of the same two bindings submit different questions when a value is a marker |
| AnyTemplate.FreezingMeansFillingIff | evaluations/services.py:140-160 | over every template whatever: a list of bindings means one simultaneous filling, with its stored bindings and problems, iff no marker of a later binding can reach into an earlier value |
| AnyTemplate.PlainValueIsUntouchedIff | evaluations/services.py:149-157 | into a value without braces a marker can reach iff the value is part of the name |
| AnyTemplate.AnyOrderFillsAnyTemplate | evaluations/services.py:140-160 | over every template, with values that no bound marker can reach into, the question is the simultaneous filling, in any order of the bindings, and no bound marker is left in it |
| AnyTemplate.ProblemsAreExactIn | evaluations/services.py:145-155 | over every template, for bindings that meet the condition, exactly the required bindings without a value and the values whose marker is not in the template are reported |
| FrozenQuestions.FrozenIsFilled | evaluations/services.py:451-482 | over every template, for bindings that meet the condition, a launch freezes the filled template with the values it was filled with, and an error class iff a required binding has no value or a value no placeholder |
| FrozenQuestions.SentIsFilled | evaluations/services.py:2949-2971 | in every trace what is sent for a launched question is its template with all placeholders filled at once; one with a problem is never sent |
| AnswerText.NormalizeIsOneScan | evaluations/operator_answers.py:29-34 | the replacements, split, strip and join are one scan that ends lines at CRLF, CR and LF and drops blanks before them |
| AnswerText.NormalizeIsIdempotent | evaluations/operator_answers.py:29-34 | normalizing twice is normalizing once |
| AnswerText.SameTextIffSameLines | evaluations/operator_answers.py:29-34 | two texts normalize equally iff their lines agree up to trailing blanks |
| AnswerText.RStripTakesBlanks | evaluations/operator_answers.py:33 | what is stripped from a line is blank, and what is left ends in none |
| CanonicalJson.NormalizeTreeIsIdempotent | evaluations/operator_answers.py:37-44 | normalizing a tree twice is normalizing it once, and keys stay distinct |
| CanonicalJson.CanonicalDecidesSameTree | evaluations/operator_answers.py:47-50 | sorting keys everywhere makes two trees equal iff they agree up to key order |
| CanonicalJson.BeforeIsLexicographic | evaluations/operator_answers.py:48 | keys are sorted by their first differing character, a prefix first |
| JsonPrinter.PrintDetermines | evaluations/operator_answers.py:47-50 | the JSON text of a value, with string escaping and numbers, determines the value whatever follows it |
| JsonPrinter.PrintIsOneLine | evaluations/operator_answers.py:47-50 | the JSON text of a value has no line break in it |
| JsonPrinter.CanonicalTextIsFaithful | evaluations/operator_answers.py:47-50 | two canonical texts are equal iff the values agree up to key order |
| JsonReader.ValueReadsBack | evaluations/operator_answers.py:47-50 | a reader after the grammar of RFC 8259 gets every value back from its text, whatever follows |
| JsonReader.CanonicalTextReadsBack | evaluations/operator_answers.py:47-50 | and from a canonical text the canonical value, with nothing left over |
| OperatorAnswers.StructuredAnswersAgreeIff | evaluations/operator_answers.py:53-64 | two structured answers are exactly equal iff they say the same: equal nulls, booleans and numbers, texts with the same lines up to trailing blanks, lists item by item, objects by their exact keys whatever the order |
| OperatorAnswers.PlainAnswersAgreeIff | evaluations/operator_answers.py:61-63 | two plain answers are exactly equal iff their lines agree up to trailing blanks |
| OperatorAnswers.MixedAnswersAgreeIff | evaluations/operator_answers.py:61-64 | a plain answer and a structured one are exactly equal iff the plain one is, trailing blanks aside, one line and that line the canonical text of the structured one |
| OperatorAnswers.EveryStructuredAnswerHasAPlainTwin | evaluations/operator_answers.py:61-64 | for every structured answer there is a plain one that compares equal |
| OperatorAnswers.PlainCanEqualStructured | evaluations/adapters.py:675-681 | a plain answer equal to a structured one that has the five fields an adapter stores |
| OperatorAnswers.NormalizedTreesAgree | evaluations/operator_answers.py:37-44 | normalized trees agree up to key order iff the trees say the same: equal nulls, booleans and numbers, texts with the same lines up to trailing blanks, lists item by item, objects by their exact keys |
| Timelines.TimelinePartitionsTime | catalog/services.py:156-179 | after any requests, versions are numbered 1..n and every instant from the first start lies in exactly one |
| Timelines.AddKeepsPartition | catalog/services.py:265-302 | a version is accepted iff it begins after the current one; it closes that one at its own start and changes no other |
| Timelines.Timeline.CreateVersion | catalog/services.py:265-302 | the same on the rows in place; a refused request changes nothing |
| Timelines.VersionsAreAccepted | catalog/services.py:265-302 | after any requests the versions are the first one and the accepted requests in order, each with its start and its text |
| Timelines.ReviseKeepsLockstep | catalog/services.py:426-469 | a scenario revision is refused iff it does not begin after the current version and after the companion began, or its turns are not acceptable; both timelines stay in step; the companion objects to nothing unless the clock stepped back at the creation |
| Timelines.RevisionAdds | catalog/services.py:426-469 | a revision adds one version to each timeline with its start and definition, and the turns as supplied |
| Timelines.NewScenarioIs | catalog/services.py:367-423 | a scenario begins with one version of each kind, linked, and the turns as supplied |
| Timelines.LinkedVersionIsInForce | catalog/services.py:367-469 | at every instant at which a scenario version is in force it alone is, and the companion version it links to is the one in force iff the companion had begun |
| Timelines.LinksAlwaysInForceIff | catalog/services.py:372-423 | at every instant the linked companion version is the one in force iff the companion began no later than the scenario at their creation |
| Timelines.ScenarioTurnValues | catalog/services.py:325-364 | turns are numbered 1..n with the linked text as prompt, or the first unacceptable turn is reported |
| Timelines.ScenarioRows.CreateVersion | catalog/services.py:426-469 | both timelines, the link and the turns change together or not at all |
| Timelines.AcceptableIff | catalog/services.py:325-364 | turns are acceptable iff there is one, each has a text that agrees with what it links to, and their names are distinct |
| Performance.RegressedIff | evaluations/performance.py:42-70 | a pair is REGRESSED iff the baseline is positive, the delta at least 500 and 20000 times it at least 4999 times the baseline |
| Performance.RegressedBelowAQuarter | evaluations/performance.py:60-63 | a pair whose latency grew by less than 25 percent and is REGRESSED |
| Performance.PercentIsAccurate | evaluations/performance.py:34-39 | the percentage is within 0.005 of the true one, and it and regression grow with the current latency |
| Performance.QuotientDigitsSuffice | evaluations/performance.py:37-39 | for 31-bit latencies the 28-digit intermediate quotient never changes the rounded percentage |
| Performance.ImprovedKeepsBand | evaluations/performance.py:63-73 | an improvement is never a worse band |
| Performance.BandByLimits | evaluations/performance.py:18-31 | the band of a latency is the number of the limits 1000, 2000, 5000 and 10000 that it exceeds |
| Performance.DegradedIff | evaluations/performance.py:64-73 | a band is degraded iff some limit lies between the two latencies, the baseline within it and the current one above |
| Performance.DeltaIsDifference | evaluations/performance.py:34-63 | the delta is the difference of two known latencies, the percentage is there iff both are known and the baseline positive, and a pair is IMPROVED iff the difference is negative |
| Statistics.PercentileIsNearestRank | evaluations/reporting.py:775-782 | the percentile is a sample member with at least its share of the sample at or below it and less than that share below it |
| Statistics.PercentileIgnoresOrder | evaluations/reporting.py:775-782 | percentile and median do not depend on the order of the sample |
| Statistics.StatisticsAreOrdered | evaluations/reporting.py:785-792 | p50 <= p90 <= p95 for every run with a counting observation, and no value for the others |
| Statistics.LatenciesAreThose | evaluations/reporting.py:785-787 | each latency is in the sample as often as a valid success has it |
| Statistics.SummaryMeans | evaluations/reporting.py:785-792 | the summary counts the valid successes with a latency and gives percentiles and the whole part of the median of theirs |
| Statistics.MedianIsMiddle | evaluations/reporting.py:789 | the median is a middle member or the whole part of half the sum of the two middle ones |

## Left out

- HTTP adapters, credentials, redaction and telemetry: a target call is an arbitrary outcome with a continuity flag.
- Views, forms, templates, URLs, roles, permissions and exports.
- Row locks, `SKIP LOCKED` timing and deadlocks: a transaction is one step, a locked row one that is skipped.
- Threads and heartbeat timing: renewals and crashes are steps that may happen at any time; the length of a lease is chosen at each step.
- Hashes, UUIDs and request keys: texts are compared directly and claim tokens are fresh numbers.
- The order of claim candidates is the order of the rows, which is creation order of runs and question order within one.
- Times are whole milliseconds, so cutting a latency to milliseconds is not visible.
- Launches (normal, conversation, retry, both controlled ones) and baseline promotion are functions on values; checks of active products, environments, questions and baselines, build snapshots and run names are not part of the model.
- The review fields of an execution are in `Attention` and beside the worker's tables in `Completion` and `ReviewedRuns`; comparison items hold the change state and not the performance values beside it.
- Completion.HolderCommitsIff: columns outside of the tables here (raw request and response, protocol status, evidence, telemetry, and the texts of a semantic result) are one condition, `storable`; so are database failures of any other kind.
- ReviewedRuns.HolderCommitsInRuns: the same.
- `Protocol`, `WorkQueue.Queue.CompleteExecution`, `ClaimProcessing` and `Drain` have no columns in completions: they run workers whose completions fit. An aborted completion is a crash, which the protocol and `ReviewedRuns` have at any point.
- Texts are sequences of Unicode scalar values: a lone surrogate, which Python allows and the database refuses, cannot occur.
- Whether a semantic comparison made later applies to its pair is left open in `ReviewedRuns`: validity may have changed.
- Results of judges and of evaluators are rows of one table told apart by their kind; their contents beyond identity, time and supersession are not modelled.
- Redaction of evaluator keys is not modelled; keys are only cut to the width of their column.
- Numbers with a fraction and values that only `default=str` can print do not occur in the JSON model.
- Supplied turn prompts arrive without surrounding blanks; static bindings and source rows of turns are not modelled.
- Token deltas reuse the percentage of latencies and are not modelled separately.
- Percentile fractions are the rationals 9/10 and 19/20 instead of floating-point numbers.
- Workbook import, dashboards, query filters and the fake target.
