/** At most one submission per execution: tokens, the durable mark and the log of target calls. */
module Submissions {
  import opened Wrappers
  import opened Rows
  import opened Transactions
  import opened Protocol
  import opened TableInvariants
  import Launches
  import LaunchProofs

  predicate TasksLinked(s: System) {
    forall t :: t in s.tasks ==> s.tasks[t].execution < |s.db.executions| && s.tasks[t].worker != ""
  }

  /** A row carries only a token that was issued for it, and while it runs, under that task's worker. */
  predicate TokenHeld(s: System, i: nat)
    requires i < |s.db.executions|
  {
    s.db.executions[i].token.Some? ==>
      var t := s.db.executions[i].token.value;
      && t in s.tasks && s.tasks[t].execution == i
      && (s.db.executions[i].outcome == Running ==> s.db.executions[i].worker == s.tasks[t].worker)
  }

  /** The row of a submission that was marked: never pending again, and only its marker's token fits it. */
  predicate StartedRow(e: Execution, t: Token) {
    && e.outcome != Pending && e.token == Some(t)
    && (e.outcome == Running ==> e.phase == SubmissionStarted)
    && e.manifest.preflightError == ""
  }

  predicate StartedRows(s: System) {
    && (forall i :: i in s.started ==> i < |s.db.executions| && StartedRow(s.db.executions[i], s.started[i]))
    && (forall i :: 0 <= i < |s.db.executions| && s.db.executions[i].outcome == Running
                    && s.db.executions[i].phase == SubmissionStarted
                    ==> i in s.started)
  }

  /** Only the task that marked a row may still be about to submit it. */
  predicate Senders(s: System) {
    forall t :: t in s.tasks && s.tasks[t].pc.MaySubmit() ==>
      s.tasks[t].execution in s.started && s.started[s.tasks[t].execution] == t
  }

  predicate CallMade(s: System, c: Call) {
    && c.execution in s.started && s.started[c.execution] == c.token
    && c.token in s.tasks && s.tasks[c.token].execution == c.execution
    && !s.tasks[c.token].pc.MaySubmit() && s.tasks[c.token].pc != Holding
  }

  predicate CallsOnce(s: System) {
    && (forall k :: 0 <= k < |s.calls| ==> CallMade(s, s.calls[k]))
    && (forall j, k :: 0 <= j < k < |s.calls| ==> s.calls[j].execution != s.calls[k].execution)
  }

  predicate Submitting(s: System) {
    && TasksLinked(s) && (forall i :: 0 <= i < |s.db.executions| ==> TokenHeld(s, i))
    && StartedRows(s) && Senders(s) && CallsOnce(s)
  }

  // ---------- steps that only move one task ----------

  /** `after` differs from `s` in one task's counter and in nothing that submissions depend on. */
  predicate OnlyPc(s: System, after: System, t: Token) {
    && t in s.tasks && t in after.tasks
    && after.tasks == s.tasks[t := s.tasks[t].(pc := after.tasks[t].pc)]
    && after.db.executions == s.db.executions && after.started == s.started
  }

  /** Actions that leave the rows, the marks and the submission log alone. */
  predicate Quiet(action: Action) {
    action.Refused? || action.Fail? || action.ReadSession? || action.OpenCall? || action.CommitSession?
    || action.SeeClose? || action.Close? || action.Crash?
  }

  lemma QuietMovesOnlyPc(s: System, t: Token, action: Action)
    requires ActionEnabled(s, t, action) && Quiet(action)
    ensures OnlyPc(s, Act(s, t, action), t) && Act(s, t, action).calls == s.calls
    ensures Act(s, t, action).tasks[t].pc.MaySubmit() ==> s.tasks[t].pc.MaySubmit()
    ensures Act(s, t, action).tasks[t].pc != Holding
    ensures Act(s, t, action).reclaimed == s.reclaimed && Act(s, t, action).finished == s.finished
  {
  }

  lemma PcKeepsSubmitting(s: System, after: System, t: Token)
    requires Submitting(s) && OnlyPc(s, after, t) && after.calls == s.calls
    requires after.tasks[t].pc.MaySubmit() ==> s.tasks[t].pc.MaySubmit()
    requires after.tasks[t].pc == Holding ==> s.tasks[t].pc == Holding
    ensures Submitting(after)
  {
    forall i | 0 <= i < |after.db.executions| ensures TokenHeld(after, i) {
      assert TokenHeld(s, i);
    }
    forall k | 0 <= k < |after.calls| ensures CallMade(after, after.calls[k]) {
      assert CallMade(s, s.calls[k]);
    }
  }

  // ---------- steps that change rows without giving any row a new token or mark ----------

  predicate Relinquishes(e: Execution, f: Execution) {
    && f.manifest == e.manifest
    && (f.token.Some? ==> f.token == e.token)
    && (f.outcome == Running ==> e.outcome == Running && f.worker == e.worker && f.phase == e.phase)
    && (e.outcome != Pending && (e.outcome == Running ==> e.phase == SubmissionStarted)
        ==> f.outcome != Pending && f.token == e.token)
  }

  lemma RowsKeepSubmitting(s: System, after: System)
    requires Submitting(s)
    requires after.tasks == s.tasks && after.started == s.started && after.calls == s.calls
    requires |s.db.executions| <= |after.db.executions|
    requires forall i :: 0 <= i < |s.db.executions| ==> Relinquishes(s.db.executions[i], after.db.executions[i])
    requires forall i :: |s.db.executions| <= i < |after.db.executions| ==>
               after.db.executions[i].outcome == Pending && after.db.executions[i].token.None?
    ensures Submitting(after)
  {
    forall i | 0 <= i < |after.db.executions| ensures TokenHeld(after, i) {
      if i < |s.db.executions| {
        assert TokenHeld(s, i);
        assert Relinquishes(s.db.executions[i], after.db.executions[i]);
      }
    }
    forall i | i in after.started
      ensures i < |after.db.executions| && StartedRow(after.db.executions[i], after.started[i])
    {
      assert StartedRow(s.db.executions[i], s.started[i]);
      assert Relinquishes(s.db.executions[i], after.db.executions[i]);
    }
    forall k | 0 <= k < |after.calls| ensures CallMade(after, after.calls[k]) {
      assert CallMade(s, s.calls[k]);
    }
  }

  // ---------- the three steps at the heart of it ----------

  lemma ClaimKeepsSubmitting(s: System, i: nat, worker: string, t: Token, now: Time, lease: nat)
    requires Submitting(s) && ClaimEnabled(s, i, worker, t, now)
    ensures Submitting(ClaimStep(s, i, worker, t, now, lease))
  {
    var after := ClaimStep(s, i, worker, t, now, lease);
    assert i !in s.started;
    forall k | 0 <= k < |after.db.executions| ensures TokenHeld(after, k) {
      assert TokenHeld(s, k);
    }
    forall k | 0 <= k < |after.calls| ensures CallMade(after, after.calls[k]) {
      assert CallMade(s, s.calls[k]);
    }
  }

  lemma MarkStartsRow(s: System, t: Token, now: Time, lease: nat)
    requires StartedRows(s) && MarkEnabled(s, t, now)
    ensures StartedRows(MarkStep(s, t, now, lease))
    ensures s.tasks[t].execution !in s.started
  {
    var after := MarkStep(s, t, now, lease);
    var i0 := s.tasks[t].execution;
    assert i0 !in s.started;
    forall i | i in after.started
      ensures i < |after.db.executions| && StartedRow(after.db.executions[i], after.started[i])
    {
      if i != i0 { assert StartedRow(s.db.executions[i], s.started[i]); }
    }
  }

  lemma MarkKeepsSubmitting(s: System, t: Token, now: Time, lease: nat)
    requires Submitting(s) && MarkEnabled(s, t, now)
    ensures Submitting(MarkStep(s, t, now, lease))
  {
    var after := MarkStep(s, t, now, lease);
    MarkStartsRow(s, t, now, lease);
    forall k | 0 <= k < |after.db.executions| ensures TokenHeld(after, k) {
      assert TokenHeld(s, k);
    }
    forall k | 0 <= k < |after.calls| ensures CallMade(after, after.calls[k]) {
      assert CallMade(s, s.calls[k]);
    }
  }

  lemma SubmitKeepsSubmitting(s: System, t: Token, outcome: FinalOutcome, seen: Observation, usable: bool)
    requires Submitting(s) && SubmitEnabled(s, t)
    ensures Submitting(SubmitStep(s, t, outcome, seen, usable))
  {
    var after := SubmitStep(s, t, outcome, seen, usable);
    forall k | 0 <= k < |after.db.executions| ensures TokenHeld(after, k) {
      assert TokenHeld(s, k);
    }
    forall k | 0 <= k < |after.calls| ensures CallMade(after, after.calls[k]) {
      if k < |s.calls| { assert CallMade(s, s.calls[k]); }
    }
    forall j, k | 0 <= j < k < |after.calls| ensures after.calls[j].execution != after.calls[k].execution {
      if k == |s.calls| { assert CallMade(s, s.calls[j]); }
    }
  }

  // ---------- the remaining steps ----------

  lemma HeartbeatKeepsSubmitting(s: System, t: Token, now: Time, lease: nat)
    requires Submitting(s) && HeartbeatEnabled(s, t, now)
    ensures Submitting(HeartbeatStep(s, t, now, lease))
  {
    RowsKeepSubmitting(s, HeartbeatStep(s, t, now, lease));
  }

  lemma FinalizedRelinquishes(e: Execution, outcome: FinalOutcome, seen: Observation, now: Time)
    ensures Relinquishes(e, FinalizeExecution(e, outcome, seen, now))
  {
  }

  /** Everything of the system but the tables is as before, and of the rows only `i` was finalized. */
  predicate FinishedRow(s: System, mid: System, i: nat, outcome: FinalOutcome, seen: Observation, now: Time) {
    && mid == s.(db := mid.db) && i < |s.db.executions|
    && mid.db.executions == s.db.executions[i := FinalizeExecution(s.db.executions[i], outcome, seen, now)]
  }

  /** What `FinishStep` does for the holder of the claim, as a change of rows followed by a move of the task. */
  lemma FinishSplits(s: System, t: Token, now: Time)
    requires FinishEnabled(s, t) && Owns(s, t)
    requires Complete(s.db, s.tasks[t].execution, s.tasks[t].pc.outcome, s.tasks[t].pc.seen, now).Some?
    ensures var i, pc := s.tasks[t].execution, s.tasks[t].pc;
      var mid := s.(db := Complete(s.db, i, pc.outcome, pc.seen, now).value);
      && FinishedRow(s, mid, i, pc.outcome, pc.seen, now) && mid.db.attempts == s.db.attempts
      && FinishStep(s, t, now) == mid.(tasks := FinishStep(s, t, now).tasks, finished := FinishStep(s, t, now).finished)
      && OnlyPc(mid, FinishStep(s, t, now), t) && FinishStep(s, t, now).calls == s.calls
      && !FinishStep(s, t, now).tasks[t].pc.MaySubmit() && FinishStep(s, t, now).tasks[t].pc != Holding
  {
  }

  lemma FinishedRowKeepsSubmitting(s: System, mid: System, i: nat, outcome: FinalOutcome, seen: Observation, now: Time)
    requires Submitting(s) && FinishedRow(s, mid, i, outcome, seen, now)
    ensures Submitting(mid)
  {
    FinalizedRelinquishes(s.db.executions[i], outcome, seen, now);
    RowsKeepSubmitting(s, mid);
  }

  lemma FinishKeepsSubmitting(s: System, t: Token, now: Time)
    requires Submitting(s) && FinishEnabled(s, t)
    ensures Submitting(FinishStep(s, t, now))
  {
    var i, pc := s.tasks[t].execution, s.tasks[t].pc;
    var after := FinishStep(s, t, now);
    if Owns(s, t) && Complete(s.db, i, pc.outcome, pc.seen, now).Some? {
      var mid := s.(db := Complete(s.db, i, pc.outcome, pc.seen, now).value);
      FinishSplits(s, t, now);
      FinishedRowKeepsSubmitting(s, mid, i, pc.outcome, pc.seen, now);
      PcKeepsSubmitting(mid, after, t);
    } else {
      PcKeepsSubmitting(s, after, t);
    }
  }

  lemma BlockKeepsSubmitting(s: System, t: Token, now: Time)
    requires Submitting(s) && BlockEnabled(s, t, now)
    ensures Submitting(BlockStep(s, t, now))
  {
    var i := s.tasks[t].execution;
    var after := BlockStep(s, t, now);
    if MarkUnusable(s.db, i, now).Some? {
      var mid := s.(db := MarkUnusable(s.db, i, now).value);
      forall k | 0 <= k < |s.db.executions| ensures Relinquishes(s.db.executions[k], mid.db.executions[k]) {
        FinalizedRelinquishes(s.db.executions[k], Error, BLOCKED, now);
      }
      RowsKeepSubmitting(s, mid);
      PcKeepsSubmitting(mid, after, t);
    } else {
      PcKeepsSubmitting(s, after, t);
    }
  }

  lemma ReconciliationKeepsSubmitting(s: System, now: Time, skipped: set<nat>)
    requires Submitting(s) && RowsSound(s.db.executions)
    ensures Submitting(ReconciliationStep(s, now, skipped))
  {
    var after := ReconciliationStep(s, now, skipped);
    forall k | 0 <= k < |s.db.executions| ensures Relinquishes(s.db.executions[k], after.db.executions[k]) {
      FinalizedRelinquishes(s.db.executions[k], Error, AMBIGUOUS, now);
      FinalizedRelinquishes(s.db.executions[k], Error, BLOCKED, now);
    }
    RowsKeepSubmitting(s, after);
  }

  lemma LaunchKeepsSubmitting(s: System, plan: Launches.Plan)
    requires Submitting(s) && Launches.Launched(s.db, plan).Some?
    ensures Submitting(s.(db := Launches.Launched(s.db, plan).value))
  {
    var n := Launches.Planned(s.db, plan).value;
    var after := s.(db := Launches.Launched(s.db, plan).value);
    forall i | 0 <= i < |after.db.executions|
      ensures i < |s.db.executions| ==> Relinquishes(s.db.executions[i], after.db.executions[i])
      ensures i >= |s.db.executions| ==> after.db.executions[i].outcome == Pending && after.db.executions[i].token.None?
    {
      LaunchProofs.AppendedRow(s.db, n, i);
    }
    RowsKeepSubmitting(s, after);
  }

  lemma ValidateKeepsSubmitting(s: System, i: nat, validity: Validity)
    requires Submitting(s) && i < |s.db.executions|
    ensures Submitting(s.(db := SetValidity(s.db, i, validity)))
  {
    RowsKeepSubmitting(s, s.(db := SetValidity(s.db, i, validity)));
  }

  lemma CatalogKeepsSubmitting(s: System, step: Step)
    requires Submitting(s) && Enabled(s, step)
    requires step.Tick? || step.AddRevision? || step.AddScenario? || step.Promote?
    ensures Submitting(Apply(s, step))
  {
    CatalogStepsAreQuiet(s, step);
    RowsKeepSubmitting(s, Apply(s, step));
  }

  lemma ActionKeepsSubmitting(s: System, t: Token, action: Action)
    requires Submitting(s) && ActionEnabled(s, t, action)
    ensures Submitting(Act(s, t, action))
  {
    match action
    case Heartbeat(now, lease) => HeartbeatKeepsSubmitting(s, t, now, lease);
    case Mark(now, lease) => MarkKeepsSubmitting(s, t, now, lease);
    case Submit(outcome, seen, usable) => SubmitKeepsSubmitting(s, t, outcome, seen, usable);
    case Finish(now) => FinishKeepsSubmitting(s, t, now);
    case Block(now) => BlockKeepsSubmitting(s, t, now);
    case _ =>
      QuietMovesOnlyPc(s, t, action);
      PcKeepsSubmitting(s, Act(s, t, action), t);
  }

  lemma StepKeepsSubmitting(s: System, step: Step)
    requires Sound(s.db) && Submitting(s) && Enabled(s, step)
    ensures Submitting(Apply(s, step))
  {
    match step
    case Launch(plan) => LaunchKeepsSubmitting(s, plan);
    case Claim(i, worker, t, now, lease) => ClaimKeepsSubmitting(s, i, worker, t, now, lease);
    case Work(t, action) => ActionKeepsSubmitting(s, t, action);
    case Reconciliation(now, skipped) => ReconciliationKeepsSubmitting(s, now, skipped);
    case Validate(i, validity) => ValidateKeepsSubmitting(s, i, validity);
    case _ => CatalogKeepsSubmitting(s, step);
  }
}
