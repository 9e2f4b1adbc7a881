/** The fields of a row over its whole life, told from the steps that were taken: who holds it and until when, how often
    it was claimed, what its observation is, and what people decided about it. */
module RowHistory {
  import opened Wrappers
  import opened Rows
  import opened Transactions
  import opened Protocol
  import opened TableInvariants
  import opened Traces
  import Launches
  import Theorems
  import Evolution
  import TransactionProofs

  // ---------- what one step writes into one row ----------

  predicate IsClaimed(e: Execution, f: Execution, worker: string, t: Token, now: Time, lease: nat) {
    f == e.(outcome := Running, phase := Claimed, worker := worker, token := Some(t), claimAttempt := e.claimAttempt
      + 1,
            claimedAt := Some(now), heartbeatAt := Some(now), expiresAt := Some(now + lease), startedAt := Some(now))
  }

  predicate IsRenewed(e: Execution, f: Execution, now: Time, lease: nat) {
    f == e.(heartbeatAt := Some(now), expiresAt := Some(now + lease), phase := f.phase)
  }

  /** Available again as if it had never been claimed, but for the count of claims. */
  predicate IsReclaimed(e: Execution, f: Execution) {
    f == e.(outcome := Pending, phase := NoClaim, worker := "", token := None, claimedAt := None, heartbeatAt := None,
            expiresAt := None, startedAt := None)
  }

  /** Ended at `now`, with the milliseconds since the start of the claim as latency, or none for a clock that ran
      backwards. */
  predicate IsEnded(e: Execution, f: Execution, outcome: Outcome, seen: Observation, now: Time) {
    && f == e.(outcome := outcome, observation := seen, phase := TerminalObserved, completedAt := Some(now),
               latency := f.latency)
    && (e.startedAt.None? ==> f.latency == e.latency)
    && (e.startedAt.Some? && now >= e.startedAt.value ==> f.latency == Some(now - e.startedAt.value))
    && (e.startedAt.Some? && now < e.startedAt.value ==> f.latency == Some(0))
  }

  /** The row runs under no lease, or its lease is over at `now`. */
  predicate Lapsed(e: Execution, now: Time) {
    && e.outcome == Running
    && (e.phase == NoClaim || e.phase == LegacyUnknown || (e.expiresAt.Some? && e.expiresAt.value <= now))
  }

  predicate GivesUp(es: seq<Execution>, j: nat, now: Time, skipped: set<nat>)
    requires j < |es|
  {
    j !in skipped && Lapsed(es[j], now) && es[j].phase != Claimed
  }

  predicate SessionGivenUp(es: seq<Execution>, e: Execution, now: Time, skipped: set<nat>) {
    && e.manifest.conversation.Some?
    && exists j :: 0 <= j < |es| && GivesUp(es, j, now, skipped) && SameAttempt(e, es[j])
  }

  /** Recovery, on one row. */
  predicate IsRecovered(es: seq<Execution>, i: nat, f: Execution, now: Time, skipped: set<nat>)
    requires i < |es|
  {
    var e := es[i];
    if i !in skipped && Lapsed(e, now) then
      if e.phase == Claimed then IsReclaimed(e, f) else IsEnded(e, f, Error, AMBIGUOUS, now)
    else if e.outcome == Pending && SessionGivenUp(es, e, now, skipped) then IsEnded(e, f, Error, BLOCKED, now)
    else f == e
  }

  lemma RecoveryByRow(es: seq<Execution>, i: nat, now: Time, skipped: set<nat>)
    requires i < |es|
    ensures IsRecovered(es, i, ReconcileRow(es, i, now, skipped), now, skipped)
  {
    var e := es[i];
    forall j | 0 <= j < |es| ensures Ambiguous(es, j, now, skipped) <==> GivesUp(es, j, now, skipped) {}
    if e.manifest.conversation.Some? {
      var a := e.manifest.conversation.value.attempt;
      assert forall j :: 0 <= j < |es| ==> (es[j].InAttempt(a) <==> SameAttempt(e, es[j]));
      assert BrokenAttempt(es, a, now, skipped) <==> SessionGivenUp(es, e, now, skipped);
    }
  }

  /** The action of the task of `t` is about row `i`. */
  predicate ActsOn(s: System, t: Token, i: nat) { t in s.tasks && s.tasks[t].execution == i }

  predicate RowActed(s: System, t: Token, action: Action, i: nat, e: Execution, f: Execution) {
    match action
    case Heartbeat(now, lease) => if ActsOn(s, t, i) then IsRenewed(e, f, now, lease) && f.phase == e.phase else f == e
    case Mark(now, lease) =>
      if ActsOn(s, t, i) then IsRenewed(e, f, now, lease) && f.phase == SubmissionStarted else f == e
    case Finish(now) =>
      if ActsOn(s, t, i) && e.OwnedBy(s.tasks[t].worker, t) && s.tasks[t].pc.Finishing? then
        IsEnded(e, f, s.tasks[t].pc.outcome, s.tasks[t].pc.seen, now)
      else f == e
    case Block(now) =>
      || f == e
      || (e.outcome == Pending && HasTask(s, t) && SameAttempt(RowOf(s, t), e) && IsEnded(e, f, Error, BLOCKED, now))
    case _ => f == e
  }

  predicate RowMoves(s: System, step: Step, i: nat, e: Execution, f: Execution)
    requires i < |s.db.executions|
  {
    match step
    case Claim(j, worker, t, now, lease) => if i == j then IsClaimed(e, f, worker, t, now, lease) else f == e
    case Work(t, action) => RowActed(s, t, action, i, e, f)
    case Reconciliation(now, skipped) => IsRecovered(s.db.executions, i, f, now, skipped)
    case Validate(j, validity) => f == if i == j then e.(validity := validity) else e
    case _ => f == e
  }

  lemma FinishMovesRow(s: System, t: Token, now: Time, i: nat)
    requires Sound(s.db) && FinishEnabled(s, t) && i < |s.db.executions|
    ensures |FinishStep(s, t, now).db.executions| == |s.db.executions|
    ensures RowActed(s, t, Finish(now), i, s.db.executions[i], FinishStep(s, t, now).db.executions[i])
  {
    if Owns(s, t) {
      var pc := s.tasks[t].pc;
      TransactionProofs.CompleteCommits(s.db, s.tasks[t].execution, pc.outcome, pc.seen, now);
    }
  }

  lemma BlockMovesRow(s: System, t: Token, now: Time, i: nat)
    requires BlockEnabled(s, t, now) && i < |s.db.executions|
    ensures |BlockStep(s, t, now).db.executions| == |s.db.executions|
    ensures RowActed(s, t, Block(now), i, s.db.executions[i], BlockStep(s, t, now).db.executions[i])
  {
  }

  lemma PlainActionMovesRow(s: System, t: Token, action: Action, i: nat)
    requires ActionEnabled(s, t, action) && i < |s.db.executions| && !action.Finish? && !action.Block?
    ensures |Act(s, t, action).db.executions| == |s.db.executions|
    ensures RowActed(s, t, action, i, s.db.executions[i], Act(s, t, action).db.executions[i])
  {
  }

  lemma ActionMovesRow(s: System, t: Token, action: Action, i: nat)
    requires Sound(s.db) && ActionEnabled(s, t, action) && i < |s.db.executions|
    ensures |Act(s, t, action).db.executions| == |s.db.executions|
    ensures RowActed(s, t, action, i, s.db.executions[i], Act(s, t, action).db.executions[i])
  {
    match action
    case Finish(now) => FinishMovesRow(s, t, now, i);
    case Block(now) => BlockMovesRow(s, t, now, i);
    case _ => PlainActionMovesRow(s, t, action, i);
  }

  lemma StepMovesRow(s: System, step: Step, i: nat)
    requires Sound(s.db) && Enabled(s, step) && i < |s.db.executions|
    ensures i < |Apply(s, step).db.executions|
    ensures RowMoves(s, step, i, s.db.executions[i], Apply(s, step).db.executions[i])
  {
    match step
    case Work(t, action) => ActionMovesRow(s, t, action, i);
    case Reconciliation(now, skipped) => RecoveryByRow(s.db.executions, i, now, skipped);
    case _ =>
  }

  /** A row that was not there before is waiting, valid, and was never claimed. */
  predicate IsNew(f: Execution) {
    && f.outcome == Pending && f.phase == NoClaim && f.worker == "" && f.token.None? && f.claimAttempt == 0
    && f.claimedAt.None? && f.heartbeatAt.None? && f.expiresAt.None? && f.startedAt.None? && f.completedAt.None?
    && f.latency.None? && f.observation == NOTHING_OBSERVED && f.validity == Valid
  }

  lemma StepAddsNewRows(s: System, step: Step, i: nat)
    requires Enabled(s, step) && |s.db.executions| <= i < |Apply(s, step).db.executions|
    ensures step.Launch? && IsNew(Apply(s, step).db.executions[i])
  {
    Evolution.StepEvolves(s, step);
  }
}
