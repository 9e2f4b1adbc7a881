/** The effect of every committed worker transaction on the tables, as functions
    of the tables before it. A transaction that raises leaves the tables as they
    were: it has no result here (`None`). */
module Transactions {
  import opened Wrappers
  import opened Rows
  import Comparison

  // ---------- one row ----------

  function TakeClaim(e: Execution, worker: string, token: Token, now: Time, lease: nat): Execution {
    e.(outcome := Running, phase := Claimed, worker := worker, token := Some(token),
       claimAttempt := e.claimAttempt + 1, claimedAt := Some(now), heartbeatAt := Some(now),
       expiresAt := Some(now + lease), startedAt := Some(now))
  }

  function Renew(e: Execution, now: Time, lease: nat): Execution {
    e.(heartbeatAt := Some(now), expiresAt := Some(now + lease))
  }

  function MarkStarted(e: Execution, now: Time, lease: nat): Execution {
    Renew(e, now, lease).(phase := SubmissionStarted)
  }

  function ClearSafeClaim(e: Execution): Execution {
    e.(outcome := Pending, phase := NoClaim, worker := "", token := None,
       claimedAt := None, heartbeatAt := None, expiresAt := None, startedAt := None)
  }

  function FinalizeExecution(e: Execution, outcome: FinalOutcome, seen: Observation, now: Time): Execution {
    e.(observation := seen, outcome := outcome, phase := TerminalObserved, completedAt := Some(now),
       latency := if e.startedAt.Some?
                  then Some(if now < e.startedAt.value then 0 else now - e.startedAt.value)
                  else e.latency)
  }

  const AMBIGUOUS := Observation("", "", None, NOTHING_REPORTED, "AMBIGUOUS_INFRASTRUCTURE")
  const BLOCKED := Observation("", "", None, NOTHING_REPORTED, "SESSION_CONTINUITY_BLOCKED")

  // ---------- finishing a run ----------

  predicate RunFailed(es: seq<Execution>, r: nat) {
    exists i :: 0 <= i < |es| && es[i].manifest.run == r && es[i].outcome in {Error, Timeout}
  }

  function FinishRun(run: Run, es: seq<Execution>, r: nat, now: Time): Run {
    run.(state := if RunFailed(es, r) then CompletedWithErrors else Completed,
         completedAt := Some(now), nextDispatchAt := None)
  }

  /** `_finalize_run_if_complete`: `None` when saving an already terminal run raises. */
  function FinalizeRunIfComplete(runs: seq<Run>, es: seq<Execution>, r: nat, now: Time): Option<seq<Run>>
    requires r < |runs|
  {
    if !RunDone(es, r) then Some(runs)
    else if runs[r].Terminal() then None
    else Some(runs[r := FinishRun(runs[r], es, r, now)])
  }

  // ---------- claiming ----------

  function RunActive(es: seq<Execution>, r: nat, now: Time): set<nat> {
    set i: nat | i < |es| && es[i].manifest.run == r && es[i].ActiveAt(now)
  }

  function RevisionActive(es: seq<Execution>, v: nat, now: Time): set<nat> {
    set i: nat | i < |es| && es[i].manifest.revision == v && es[i].ActiveAt(now)
  }

  /** The conversation guard of the claim loop. */
  predicate TurnReady(db: Tables, e: Execution) {
    e.manifest.conversation.Some? ==>
      && e.manifest.conversation.value.attempt < |db.attempts|
      && db.attempts[e.manifest.conversation.value.attempt].state != Unusable
      && forall j :: 0 <= j < |db.executions| && EarlierTurn(db.executions[j], e) ==>
        db.executions[j].outcome.Terminal()
  }

  predicate HasCapacity(db: Tables, e: Execution, now: Time) {
    && e.manifest.run < |db.runs|
    && |RunActive(db.executions, e.manifest.run, now)| < db.runs[e.manifest.run].actualConcurrency
    && |RevisionActive(db.executions, e.manifest.revision, now)| < db.runs[e.manifest.run].configuredMaxConcurrency
  }

  /** Row `i` passes the candidate query and every `continue` of the claim loop. */
  predicate Claimable(db: Tables, i: nat, now: Time) {
    && i < |db.executions|
    && var e := db.executions[i];
    && e.outcome == Pending
    && e.manifest.run < |db.runs|
    && db.runs[e.manifest.run].state in {Queued, InProgress}
    && db.runs[e.manifest.run].DispatchableAt(now)
    && TurnReady(db, e)
    && HasCapacity(db, e, now)
  }

  function StartRun(run: Run, now: Time): Run {
    if run.state == Queued then run.(state := InProgress, startedAt := Some(now)) else run
  }

  function RecordClaim(db: Tables, i: nat, worker: string, token: Token, now: Time, lease: nat): Tables
    requires i < |db.executions| && db.executions[i].manifest.run < |db.runs|
  {
    var e := db.executions[i];
    db.(executions := db.executions[i := TakeClaim(e, worker, token, now, lease)],
        runs := db.runs[e.manifest.run := StartRun(db.runs[e.manifest.run], now)])
  }

  // ---------- acting under a claim ----------

  function RefreshLease(db: Tables, i: nat, now: Time, lease: nat): Tables
    requires i < |db.executions|
  {
    db.(executions := db.executions[i := Renew(db.executions[i], now, lease)])
  }

  predicate MayMark(db: Tables, i: nat, worker: string, token: Token) {
    i < |db.executions| && db.executions[i].OwnedBy(worker, token) && db.executions[i].phase == Claimed
  }

  function MarkSubmission(db: Tables, i: nat, now: Time, lease: nat): Tables
    requires i < |db.executions|
  {
    db.(executions := db.executions[i := MarkStarted(db.executions[i], now, lease)])
  }

  function Dispatched(run: Run, now: Time): Run {
    if !run.Terminal() && run.delay != 0 then run.(nextDispatchAt := Some(now + run.delay)) else run
  }

  /** `_complete_execution` for the holder of the claim. */
  function Complete(db: Tables, i: nat, outcome: FinalOutcome, seen: Observation, now: Time): Option<Tables>
    requires i < |db.executions| && db.executions[i].manifest.run < |db.runs|
  {
    var r := db.executions[i].manifest.run;
    var es := db.executions[i := FinalizeExecution(db.executions[i], outcome, seen, now)];
    var items := Comparison.Record(db.(executions := es), i);
    match FinalizeRunIfComplete(db.runs[r := Dispatched(db.runs[r], now)], es, r, now)
    case None => None
    case Some(runs) => Some(db.(executions := es, items := items, runs := runs))
  }

  // ---------- the conversation session ----------

  /** The locked transaction that records the identity of an opened session; `None` when it raises. */
  function RecordSession(attempt: Attempt, session: string): Option<Attempt> {
    if attempt.session == "" then Some(attempt.(session := session, state := Active))
    else if attempt.session != session then None
    else Some(attempt)
  }

  function BlockTurn(e: Execution, a: nat, now: Time): Execution {
    if e.outcome == Pending && e.InAttempt(a) then FinalizeExecution(e, Error, BLOCKED, now) else e
  }

  function BlockTurns(es: seq<Execution>, a: nat, now: Time): (bs: seq<Execution>)
    ensures |bs| == |es|
    ensures forall k :: 0 <= k < |es| ==> bs[k] == BlockTurn(es[k], a, now)
  {
    seq(|es|, k requires 0 <= k < |es| => BlockTurn(es[k], a, now))
  }

  function BreakSession(attempt: Attempt, done: bool, now: Time): Attempt {
    attempt.(state := Unusable, completedAt := if done then Some(now) else attempt.completedAt)
  }

  /** `_mark_conversation_session_unusable`, called for execution `i`. */
  function MarkUnusable(db: Tables, i: nat, now: Time): Option<Tables>
    requires i < |db.executions| && db.executions[i].manifest.run < |db.runs|
    requires db.executions[i].manifest.conversation.Some?
    requires db.executions[i].manifest.conversation.value.attempt < |db.attempts|
  {
    var r := db.executions[i].manifest.run;
    var a := db.executions[i].manifest.conversation.value.attempt;
    var es := BlockTurns(db.executions, a, now);
    match FinalizeRunIfComplete(db.runs, es, r, now)
    case None => None
    case Some(runs) =>
      Some(db.(executions := es, runs := runs,
               attempts := db.attempts[a := BreakSession(db.attempts[a], AttemptDone(es, a), now)]))
  }

  /** The closing transaction of `_close_conversation_if_complete`. */
  function CloseSession(attempt: Attempt, closed: bool, now: Time): Attempt {
    if attempt.completedAt.Some? then attempt
    else attempt.(completedAt := Some(now), state := if closed then Closed else attempt.state)
  }

  // ---------- reconciliation ----------

  predicate Stale(e: Execution, now: Time) {
    && e.outcome == Running
    && (e.phase in {NoClaim, LegacyUnknown} || (e.expiresAt.Some? && e.expiresAt.value <= now))
  }

  /** Row `i` is handled by a reconciliation that finds the rows of `skipped` locked. */
  predicate Handled(es: seq<Execution>, i: int, now: Time, skipped: set<nat>) {
    0 <= i < |es| && i !in skipped && Stale(es[i], now)
  }

  predicate Reclaimed(es: seq<Execution>, i: int, now: Time, skipped: set<nat>) {
    Handled(es, i, now, skipped) && es[i].phase == Claimed
  }

  predicate Ambiguous(es: seq<Execution>, i: int, now: Time, skipped: set<nat>) {
    Handled(es, i, now, skipped) && es[i].phase != Claimed
  }

  predicate BrokenAttempt(es: seq<Execution>, a: nat, now: Time, skipped: set<nat>) {
    exists i :: 0 <= i < |es| && Ambiguous(es, i, now, skipped) && es[i].InAttempt(a)
  }

  predicate TouchedRun(es: seq<Execution>, r: nat, now: Time, skipped: set<nat>) {
    exists i :: 0 <= i < |es| && Ambiguous(es, i, now, skipped) && es[i].manifest.run == r
  }

  function ReconcileRow(es: seq<Execution>, i: nat, now: Time, skipped: set<nat>): Execution
    requires i < |es|
  {
    if Reclaimed(es, i, now, skipped) then ClearSafeClaim(es[i])
    else if Ambiguous(es, i, now, skipped) then FinalizeExecution(es[i], Error, AMBIGUOUS, now)
    else if && es[i].outcome == Pending && es[i].manifest.conversation.Some?
            && BrokenAttempt(es, es[i].manifest.conversation.value.attempt, now, skipped)
    then FinalizeExecution(es[i], Error, BLOCKED, now)
    else es[i]
  }

  function ReconcileRows(es: seq<Execution>, now: Time, skipped: set<nat>): (fs: seq<Execution>)
    ensures |fs| == |es|
    ensures forall k :: 0 <= k < |es| ==> fs[k] == ReconcileRow(es, k, now, skipped)
  {
    seq(|es|, k requires 0 <= k < |es| => ReconcileRow(es, k, now, skipped))
  }

  function ReconcileAttempts(db: Tables, now: Time, skipped: set<nat>): (attempts: seq<Attempt>)
    ensures |attempts| == |db.attempts|
  {
    var es := ReconcileRows(db.executions, now, skipped);
    seq(|db.attempts|, a requires 0 <= a < |db.attempts| =>
      if BrokenAttempt(db.executions, a, now, skipped)
      then BreakSession(db.attempts[a], AttemptDone(es, a), now) else db.attempts[a])
  }

  function ReconcileRuns(db: Tables, now: Time, skipped: set<nat>): (runs: seq<Run>)
    ensures |runs| == |db.runs|
  {
    var es := ReconcileRows(db.executions, now, skipped);
    seq(|db.runs|, r requires 0 <= r < |db.runs| =>
      if TouchedRun(db.executions, r, now, skipped) && RunDone(es, r)
      then FinishRun(db.runs[r], es, r, now) else db.runs[r])
  }

  /** What one reconciliation does, row by row: the loop that does it is proved equal to this. */
  function Reconcile(db: Tables, now: Time, skipped: set<nat>): Tables {
    db.(executions := ReconcileRows(db.executions, now, skipped),
        attempts := ReconcileAttempts(db, now, skipped),
        runs := ReconcileRuns(db, now, skipped))
  }

  // ---------- projections ----------

  /** `set_execution_validity` on a terminal row. */
  function SetValidity(db: Tables, i: nat, validity: Validity): Tables
    requires i < |db.executions|
  {
    db.(executions := db.executions[i := db.executions[i].(validity := validity)])
  }
}
