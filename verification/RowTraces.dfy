/** The fields of a row over whole traces: each is what the steps taken so far make it. */
module RowTraces {
  import opened Wrappers
  import opened Rows
  import opened Protocol
  import opened TableInvariants
  import opened Traces
  import opened RowHistory
  import Theorems

  lemma RowMovesAt(states: seq<System>, steps: seq<Step>, k: nat, i: nat)
    requires Behavior(states, steps) && k < |steps| && i < |states[k].db.executions|
    ensures i < |states[k + 1].db.executions|
    ensures RowMoves(states[k], steps[k], i, states[k].db.executions[i], states[k + 1].db.executions[i])
  {
    TraceHoldsInv(states, steps, k);
    assert StepAt(states, steps, k);
    StepMovesRow(states[k], steps[k], i);
  }

  lemma NewRowAt(states: seq<System>, steps: seq<Step>, k: nat, i: nat)
    requires Behavior(states, steps) && k < |steps| && |states[k].db.executions| <= i < |states[k + 1].db.executions|
    ensures steps[k].Launch? && IsNew(states[k + 1].db.executions[i])
  {
    assert StepAt(states, steps, k);
    StepAddsNewRows(states[k], steps[k], i);
  }

  // ---------- how often it was claimed ----------

  function ClaimsOf(steps: seq<Step>, i: nat): nat {
    if steps == [] then 0
    else
      var n := |steps| - 1;
      ClaimsOf(steps[..n], i) + if steps[n].Claim? && steps[n].execution == i then 1 else 0
  }

  lemma {:induction false} NoneBeforeIsThere(states: seq<System>, steps: seq<Step>, k: nat, i: nat)
    requires Behavior(states, steps) && k < |states| && |states[k].db.executions| <= i
    ensures ClaimsOf(steps[..k], i) == 0
  {
    if k > 0 {
      assert StepAt(states, steps, k - 1);
      Theorems.RowsEvolveAt(states, steps, k - 1);
      assert steps[..k][..k - 1] == steps[..k - 1];
      NoneBeforeIsThere(states, steps, k - 1, i);
    }
  }

  /** In every trace a row counts exactly the claims that were ever made of it, those reclaimed included. */
  lemma {:induction false} ClaimAttemptCounts(states: seq<System>, steps: seq<Step>, k: nat, i: nat)
    requires Behavior(states, steps) && k < |states| && i < |states[k].db.executions|
    ensures states[k].db.executions[i].claimAttempt == ClaimsOf(steps[..k], i)
  {
    if k == 0 {
      assert LegacyRow(states[0].db.executions[i]);
    } else {
      assert steps[..k][..k - 1] == steps[..k - 1];
      if i < |states[k - 1].db.executions| {
        ClaimAttemptCounts(states, steps, k - 1, i);
        RowMovesAt(states, steps, k - 1, i);
      } else {
        NewRowAt(states, steps, k - 1, i);
        NoneBeforeIsThere(states, steps, k - 1, i);
      }
    }
  }

  // ---------- what was decided about it ----------

  /** The last decision on row `i`, if there was one. */
  function LastDecision(steps: seq<Step>, i: nat): Option<Validity> {
    if steps == [] then None
    else
      var n := |steps| - 1;
      if steps[n].Validate? && steps[n].execution == i then Some(steps[n].validity) else LastDecision(steps[..n], i)
  }

  /** What the row was before anybody decided: rows of the past as they were, launched ones valid. */
  function FirstValidity(s: System, i: nat): Validity {
    if i < |s.db.executions| then s.db.executions[i].validity else Valid
  }

  lemma {:induction false} UndecidedBefore(states: seq<System>, steps: seq<Step>, k: nat, i: nat)
    requires Behavior(states, steps) && k < |states| && |states[k].db.executions| <= i
    ensures LastDecision(steps[..k], i).None? && |states[0].db.executions| <= i
  {
    if k > 0 {
      assert StepAt(states, steps, k - 1);
      Theorems.RowsEvolveAt(states, steps, k - 1);
      assert steps[..k][..k - 1] == steps[..k - 1];
      UndecidedBefore(states, steps, k - 1, i);
    }
  }

  lemma ValidityAt(states: seq<System>, steps: seq<Step>, k: nat, i: nat)
    requires Behavior(states, steps) && k < |steps| && i < |states[k].db.executions|
    ensures i < |states[k + 1].db.executions|
    ensures states[k + 1].db.executions[i].validity ==
      if steps[k].Validate? && steps[k].execution == i then steps[k].validity else states[k].db.executions[i].validity
  {
    RowMovesAt(states, steps, k, i);
    ValidityMoves(states[k], steps[k], i, states[k].db.executions[i], states[k + 1].db.executions[i]);
  }

  lemma ValidityMoves(s: System, step: Step, i: nat, e: Execution, f: Execution)
    requires i < |s.db.executions| && e == s.db.executions[i] && RowMoves(s, step, i, e, f)
    ensures f.validity == if step.Validate? && step.execution == i then step.validity else e.validity
  {
  }

  /** In every trace the validity of a row is the last decision on it, and nothing else moves it. */
  lemma {:induction false} ValidityIsLastDecision(states: seq<System>, steps: seq<Step>, k: nat, i: nat)
    requires Behavior(states, steps) && k < |states| && i < |states[k].db.executions|
    ensures var decided := LastDecision(steps[..k], i);
      states[k].db.executions[i].validity == if decided.Some? then decided.value else FirstValidity(states[0], i)
  {
    if k > 0 {
      assert steps[..k][..k - 1] == steps[..k - 1];
      if i < |states[k - 1].db.executions| {
        ValidityIsLastDecision(states, steps, k - 1, i);
        ValidityAt(states, steps, k - 1, i);
      } else {
        NewRowAt(states, steps, k - 1, i);
        UndecidedBefore(states, steps, k - 1, i);
      }
    }
  }

  // ---------- who holds it, and until when ----------

  /** Step `step` gives row `i` a lease under the token `t`: the claim itself, a renewal, or the mark. */
  predicate Leases(s: System, step: Step, i: nat, t: Token) {
    match step
    case Claim(j, _, u, _, _) => j == i && u == t
    case Work(u, Heartbeat(_, _)) => u == t && ActsOn(s, t, i)
    case Work(u, Mark(_, _)) => u == t && ActsOn(s, t, i)
    case _ => false
  }

  function LeaseTime(step: Step): Time {
    match step
    case Claim(_, _, _, now, _) => now
    case Work(_, Heartbeat(now, _)) => now
    case Work(_, Mark(now, _)) => now
    case _ => 0
  }

  function LeaseLength(step: Step): nat {
    match step
    case Claim(_, _, _, _, lease) => lease
    case Work(_, Heartbeat(_, lease)) => lease
    case Work(_, Mark(_, lease)) => lease
    case _ => 0
  }

  predicate LeasedBy(states: seq<System>, steps: seq<Step>, j: nat, k: nat, i: nat, t: Token)
    requires k < |states| == |steps| + 1 && i < |states[k].db.executions|
  {
    var e := states[k].db.executions[i];
    && j < k && Leases(states[j], steps[j], i, t)
    && e.heartbeatAt == Some(LeaseTime(steps[j])) && e.expiresAt == Some(LeaseTime(steps[j]) + LeaseLength(steps[j]))
    && forall n :: j < n < k ==> !Leases(states[n], steps[n], i, t)
  }

  predicate ClaimedBy(steps: seq<Step>, c: nat, k: nat, i: nat, e: Execution) {
    && c < k <= |steps| && steps[c].Claim? && steps[c].execution == i
    && e.token == Some(steps[c].token) && e.worker == steps[c].worker
    && e.claimedAt == Some(steps[c].now) && e.startedAt == Some(steps[c].now)
  }

  lemma NotHeldAtStart(states: seq<System>, steps: seq<Step>, i: nat)
    requires Behavior(states, steps) && i < |states[0].db.executions|
    ensures !states[0].db.executions[i].Held()
  {
    assert LegacyRow(states[0].db.executions[i]);
  }

  predicate ClaimStep(step: Step, i: nat) { step.Claim? && step.execution == i }

  /** Nothing but a claim makes a row held; while it is, its claim is the same. */
  predicate SameClaim(e: Execution, f: Execution) {
    && e.Held() && f.worker == e.worker && f.token == e.token && f.claimedAt == e.claimedAt
      && f.startedAt == e.startedAt
  }

  lemma ActionKeepsClaim(s: System, t: Token, action: Action, i: nat, e: Execution, f: Execution)
    requires ActionEnabled(s, t, action) && i < |s.db.executions| && e == s.db.executions[i] && f.Held()
    requires RowActed(s, t, action, i, e, f)
    ensures SameClaim(e, f)
  {
  }

  lemma HeldBefore(s: System, step: Step, i: nat, f: Execution)
    requires Enabled(s, step) && i < |s.db.executions| && f.Held() && !ClaimStep(step, i)
    requires RowMoves(s, step, i, s.db.executions[i], f)
    ensures SameClaim(s.db.executions[i], f)
  {
    if step.Work? { ActionKeepsClaim(s, step.token, step.action, i, s.db.executions[i], f); }
  }

  lemma HeldBeforeAt(states: seq<System>, steps: seq<Step>, k: nat, i: nat)
    requires Behavior(states, steps) && 0 < k < |states| && i < |states[k].db.executions|
    requires states[k].db.executions[i].Held()
    ensures i < |states[k - 1].db.executions|
    ensures RowMoves(states[k - 1], steps[k - 1], i, states[k - 1].db.executions[i], states[k].db.executions[i])
    ensures !ClaimStep(steps[k - 1], i) ==> SameClaim(states[k - 1].db.executions[i], states[k].db.executions[i])
  {
    if |states[k - 1].db.executions| <= i {
      NewRowAt(states, steps, k - 1, i);
    } else {
      RowMovesAt(states, steps, k - 1, i);
      assert StepAt(states, steps, k - 1);
      if !ClaimStep(steps[k - 1], i) { HeldBefore(states[k - 1], steps[k - 1], i, states[k].db.executions[i]); }
    }
  }

  /** In every trace a held row carries worker, token and start of a claim that was made of it. */
  lemma {:induction false} HeldByClaim(states: seq<System>, steps: seq<Step>, k: nat, i: nat) returns (c: nat)
    requires Behavior(states, steps) && k < |states| && i < |states[k].db.executions|
    requires states[k].db.executions[i].Held()
    ensures ClaimedBy(steps, c, k, i, states[k].db.executions[i])
  {
    c := 0;
    if k == 0 {
      NotHeldAtStart(states, steps, i);
    } else {
      HeldBeforeAt(states, steps, k, i);
      if ClaimStep(steps[k - 1], i) { c := k - 1; } else { c := HeldByClaim(states, steps, k - 1, i); }
    }
  }

  lemma LeaseMoves(s: System, step: Step, i: nat, t: Token, e: Execution, f: Execution)
    requires Enabled(s, step) && i < |s.db.executions| && e == s.db.executions[i] && RowMoves(s, step, i, e, f)
    requires f.Held() && f.token == Some(t)
    ensures Leases(s, step, i, t) ==>
      f.heartbeatAt == Some(LeaseTime(step)) && f.expiresAt == Some(LeaseTime(step) + LeaseLength(step))
    ensures !Leases(s, step, i, t) ==> f.heartbeatAt == e.heartbeatAt && f.expiresAt == e.expiresAt
  {
  }

  /** In every trace the lease of a held row is that of the last step that gave its claim one: the claim, a renewal or
      the mark, at its timestamp and for its length. */
  lemma {:induction false} LeaseIsLastRenewal(states: seq<System>, steps: seq<Step>, k: nat, i: nat, t: Token)
    returns (j: nat)
    requires Behavior(states, steps) && k < |states| && i < |states[k].db.executions|
    requires states[k].db.executions[i].Held() && states[k].db.executions[i].token == Some(t)
    ensures LeasedBy(states, steps, j, k, i, t)
  {
    j := 0;
    if k == 0 {
      NotHeldAtStart(states, steps, i);
    } else {
      LeaseMovesAt(states, steps, k, i, t);
      if Leases(states[k - 1], steps[k - 1], i, t) {
        j := k - 1;
      } else {
        j := LeaseIsLastRenewal(states, steps, k - 1, i, t);
      }
    }
  }

  lemma LeaseMovesAt(states: seq<System>, steps: seq<Step>, k: nat, i: nat, t: Token)
    requires Behavior(states, steps) && 0 < k < |states| && i < |states[k].db.executions|
    requires states[k].db.executions[i].Held() && states[k].db.executions[i].token == Some(t)
    ensures i < |states[k - 1].db.executions|
    ensures var s, step, e, f := states[k - 1], steps[k - 1], states[k - 1].db.executions[i],
      states[k].db.executions[i];
      && (Leases(s, step, i, t) ==>
            f.heartbeatAt == Some(LeaseTime(step)) && f.expiresAt == Some(LeaseTime(step) + LeaseLength(step)))
      && (!Leases(s, step, i, t) ==>
            && e.Held() && e.token == Some(t) && f.heartbeatAt == e.heartbeatAt && f.expiresAt == e.expiresAt)
  {
    HeldBeforeAt(states, steps, k, i);
    assert StepAt(states, steps, k - 1);
    LeaseMoves(states[k - 1], steps[k - 1], i, t, states[k - 1].db.executions[i], states[k].db.executions[i]);
  }

  // ---------- recovery ----------

  /** A recovery at `now` leaves a claim alone whose lease is later. */
  lemma LiveClaimsSurvive(states: seq<System>, steps: seq<Step>, k: nat, i: nat)
    requires Behavior(states, steps) && k < |steps| && steps[k].Reconciliation? && i < |states[k].db.executions|
    requires var e := states[k].db.executions[i];
      && e.outcome == Running && (e.phase == Claimed || e.phase == SubmissionStarted)
      && e.expiresAt.Some? && e.expiresAt.value > steps[k].now
    ensures i < |states[k + 1].db.executions| && states[k + 1].db.executions[i] == states[k].db.executions[i]
  {
    RowMovesAt(states, steps, k, i);
  }

  /** After a recovery at `now` that found nothing locked, every row that still runs has a lease beyond `now`. */
  lemma OnlyLiveClaimsRemain(states: seq<System>, steps: seq<Step>, k: nat, i: nat)
    requires Behavior(states, steps) && k < |steps| && steps[k].Reconciliation? && steps[k].skipped == {}
    requires i < |states[k + 1].db.executions| && states[k + 1].db.executions[i].outcome == Running
    ensures var e := states[k + 1].db.executions[i];
      && (e.phase == Claimed || e.phase == SubmissionStarted) && e.token.Some?
      && e.expiresAt.Some? && e.expiresAt.value > steps[k].now
  {
    TraceHoldsInv(states, steps, k + 1);
    assert RowSound(states[k + 1].db.executions[i]);
    assert StepAt(states, steps, k);
    RowMovesAt(states, steps, k, i);
    StillRunning(states[k].db.executions, i, states[k + 1].db.executions[i], steps[k].now);
  }

  lemma StillRunning(es: seq<Execution>, i: nat, f: Execution, now: Time)
    requires i < |es| && IsRecovered(es, i, f, now, {}) && f.outcome == Running && f.ClaimState()
    ensures (f.phase == Claimed || f.phase == SubmissionStarted) && f.token.Some?
    ensures f.expiresAt.Some? && f.expiresAt.value > now
  {
  }
}
