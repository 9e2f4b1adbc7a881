/** The fields of an analysis over its whole life, told from the steps that were taken: who analyses it and until when,
    how often it was given out, and which of them recovery takes back. */
module AnalysisHistory {
  import opened Wrappers
  import opened Rows
  import opened EvaluationQueue

  // ---------- what one step writes into one analysis ----------

  predicate IsGiven(v: Invocation, w: Invocation, worker: string, t: Token, now: Time, lease: nat) {
    && w.execution == v.execution && w.kind == v.kind && w.state == Analysing
    && w.worker == worker && w.token == Some(t) && w.claimAttempt == v.claimAttempt + 1
    && w.heartbeatAt == Some(now) && w.expiresAt == Some(now + lease)
  }

  predicate IsRefreshed(v: Invocation, w: Invocation, now: Time, lease: nat) {
    && w.execution == v.execution && w.kind == v.kind && w.state == v.state && w.worker == v.worker
    && w.token == v.token && w.claimAttempt == v.claimAttempt
    && w.heartbeatAt == Some(now) && w.expiresAt == Some(now + lease)
  }

  /** Waiting again, with nobody's name on it; only the count of claims remembers. */
  predicate IsTakenBack(v: Invocation, w: Invocation) {
    && w.execution == v.execution && w.kind == v.kind && w.claimAttempt == v.claimAttempt
    && w.state == Waiting && w.worker == "" && w.token.None? && w.heartbeatAt.None? && w.expiresAt.None?
  }

  /** Done, with the claim it was done under and no lease. */
  predicate IsDone(v: Invocation, w: Invocation) {
    && w.execution == v.execution && w.kind == v.kind && w.claimAttempt == v.claimAttempt
    && w.state == Done && w.worker == v.worker && w.token == v.token && w.heartbeatAt.None? && w.expiresAt.None?
  }

  predicate Holds(v: Invocation, worker: string, t: Token) {
    v.state == Analysing && v.worker == worker && v.token == Some(t)
  }

  predicate Moves(step: Step, i: nat, v: Invocation, w: Invocation) {
    match step
    case Ask(_, _) => w == v
    case Claim(j, worker, t, now, lease, _) => if i == j then IsGiven(v, w, worker, t, now, lease) else w == v
    case Heartbeat(j, worker, t, now, lease) =>
      if i == j && Holds(v, worker, t) then IsRefreshed(v, w, now, lease) else w == v
    case Recover(now, skipped) =>
      if i !in skipped && v.state == Analysing && v.expiresAt.Some? && v.expiresAt.value <= now then IsTakenBack(v, w)
      else w == v
    case Report(j, worker, t, _, _) => if i == j && Holds(v, worker, t) then IsDone(v, w) else w == v
  }

  lemma StepMoves(s: Analyses, step: Step, i: nat)
    requires Enabled(s, step) && i < |s.invocations|
    ensures i < |Apply(s, step).invocations| && Moves(step, i, s.invocations[i], Apply(s, step).invocations[i])
  {
  }

  /** What was asked for waits, and was never given out. */
  predicate IsAsked(w: Invocation, execution: nat, kind: Kind) {
    && w.execution == execution && w.kind == kind && w.state == Waiting && w.worker == "" && w.token.None?
    && w.claimAttempt == 0 && w.heartbeatAt.None? && w.expiresAt.None?
  }

  lemma StepAsks(s: Analyses, step: Step)
    requires Enabled(s, step)
    ensures if step.Ask? then
              && |Apply(s, step).invocations| == |s.invocations| + 1
              && IsAsked(Apply(s, step).invocations[|s.invocations|], step.execution, step.kind)
            else |Apply(s, step).invocations| == |s.invocations|
  {
  }

  /** A result is written by a report that counts and by nothing else: for what was asked, under the key of an evaluator
      cut to its column, at the time given; a judge has no key. */
  lemma StepReports(s: Analyses, step: Step)
    requires Enabled(s, step)
    ensures var after := Apply(s, step);
      if step.Report? && Holds(s.invocations[step.invocation], step.worker, step.token) then
        && |after.results| == |s.results| + 1 && after.results[..|s.results|] == s.results
        && var v, r := s.invocations[step.invocation], after.results[|s.results|];
        && r.invocation == Some(step.invocation) && r.createdAt == step.createdAt
        && r.slot.execution == v.execution && r.slot.kind == v.kind
        && (v.kind == Judge ==> r.slot.key == "")
        && (v.kind == Evaluator ==> r.slot.key == if |step.key| <= 100 then step.key else step.key[..100])
      else after.results == s.results
  {
  }

  predicate NewerThan(r: EvaluationQueue.Result, x: nat, o: EvaluationQueue.Result, y: nat) {
    r.createdAt > o.createdAt || (r.createdAt == o.createdAt && x > y)
  }

  /** The current result of a slot is one of its latest request, or of none if it has no requests; of those it is the
      newest by time, then by primary key. */
  lemma CurrentIsNewest(rs: seq<EvaluationQueue.Result>, slot: Slot, y: nat)
    requires y < |rs| && rs[y].slot == slot
    ensures Current(rs, slot).Some?
    ensures var x := Current(rs, slot).value;
      && x < |rs| && rs[x].slot == slot
      && (x != y ==>
            match rs[y].invocation
            case Some(asked) =>
              && rs[x].invocation.Some? && rs[x].invocation.value >= asked
              && (rs[x].invocation.value == asked ==> NewerThan(rs[x], x, rs[y], y))
            case None => rs[x].invocation.None? ==> NewerThan(rs[x], x, rs[y], y))
  {
  }

  // ---------- over whole traces ----------

  lemma MovesAt(states: seq<Analyses>, steps: seq<Step>, k: nat, i: nat)
    requires Behavior(states, steps) && k < |steps| && i < |states[k].invocations|
    ensures i < |states[k + 1].invocations|
    ensures Moves(steps[k], i, states[k].invocations[i], states[k + 1].invocations[i])
  {
    assert StepAt(states, steps, k);
    StepMoves(states[k], steps[k], i);
  }

  lemma AskedAt(states: seq<Analyses>, steps: seq<Step>, k: nat, i: nat)
    requires Behavior(states, steps) && k < |steps| && |states[k].invocations| <= i < |states[k + 1].invocations|
    ensures steps[k].Ask? && IsAsked(states[k + 1].invocations[i], steps[k].execution, steps[k].kind)
  {
    assert StepAt(states, steps, k);
    StepAsks(states[k], steps[k]);
  }

  function ClaimsOf(steps: seq<Step>, i: nat): nat {
    if steps == [] then 0
    else
      var n := |steps| - 1;
      ClaimsOf(steps[..n], i) + if steps[n].Claim? && steps[n].invocation == i then 1 else 0
  }

  lemma {:induction false} NoneBeforeAsked(states: seq<Analyses>, steps: seq<Step>, k: nat, i: nat)
    requires Behavior(states, steps) && k < |states| && |states[k].invocations| <= i
    ensures ClaimsOf(steps[..k], i) == 0
  {
    if k > 0 {
      assert StepAt(states, steps, k - 1);
      StepAsks(states[k - 1], steps[k - 1]);
      assert steps[..k][..k - 1] == steps[..k - 1];
      NoneBeforeAsked(states, steps, k - 1, i);
    }
  }

  /** In every trace an analysis counts exactly the claims that were ever made of it, those taken back included. */
  lemma {:induction false} AttemptsCountClaims(states: seq<Analyses>, steps: seq<Step>, k: nat, i: nat)
    requires Behavior(states, steps) && k < |states| && i < |states[k].invocations|
    ensures states[k].invocations[i].claimAttempt == ClaimsOf(steps[..k], i)
  {
    if k > 0 {
      assert steps[..k][..k - 1] == steps[..k - 1];
      if i < |states[k - 1].invocations| {
        AttemptsCountClaims(states, steps, k - 1, i);
        MovesAt(states, steps, k - 1, i);
      } else {
        AskedAt(states, steps, k - 1, i);
        NoneBeforeAsked(states, steps, k - 1, i);
      }
    }
  }

  /** In every trace an analysis is given out when it waits, and no earlier request waits that its worker could have
      locked. */
  lemma OldestIsGivenFirst(states: seq<Analyses>, steps: seq<Step>, k: nat, j: nat)
    requires Behavior(states, steps) && k < |steps| && steps[k].Claim? && j <= steps[k].invocation
    ensures steps[k].invocation < |states[k].invocations| && steps[k].invocation !in steps[k].skipped
    ensures states[k].invocations[steps[k].invocation].state == Waiting
    ensures j < steps[k].invocation && states[k].invocations[j].state == Waiting ==> j in steps[k].skipped
  {
    assert StepAt(states, steps, k);
  }

  /** A recovery at `now` leaves an analysis alone whose lease is later, so that its worker may still report. */
  lemma LiveAnalysesSurvive(states: seq<Analyses>, steps: seq<Step>, k: nat, i: nat)
    requires Behavior(states, steps) && k < |steps| && steps[k].Recover? && i < |states[k].invocations|
    requires states[k].invocations[i].state == Analysing && states[k].invocations[i].expiresAt.Some?
    requires states[k].invocations[i].expiresAt.value > steps[k].now
    ensures i < |states[k + 1].invocations| && states[k + 1].invocations[i] == states[k].invocations[i]
  {
    MovesAt(states, steps, k, i);
  }

  /** After a recovery at `now` that found nothing locked, every analysis that goes on has a lease beyond `now`, and
      every other that was going on waits again. */
  lemma OnlyLiveAnalysesRemain(states: seq<Analyses>, steps: seq<Step>, k: nat, i: nat)
    requires Behavior(states, steps) && k < |steps| && steps[k].Recover? && steps[k].skipped == {}
    requires i < |states[k].invocations| && states[k].invocations[i].state == Analysing
    ensures i < |states[k + 1].invocations|
    ensures var v, w := states[k].invocations[i], states[k + 1].invocations[i];
      if v.expiresAt.Some? && v.expiresAt.value > steps[k].now then w == v else IsTakenBack(v, w)
  {
    BehaviorHoldsInv(states, steps, k);
    MovesAt(states, steps, k, i);
    assert states[k].invocations[i].ClaimState();
  }

  /** Step `step` gives analysis `i` a lease under the token `t`. */
  predicate Leases(step: Step, i: nat, t: Token) {
    match step
    case Claim(j, _, u, _, _, _) => j == i && u == t
    case Heartbeat(j, _, u, _, _) => j == i && u == t
    case _ => false
  }

  function LeaseEnd(step: Step): Time {
    match step
    case Claim(_, _, _, now, lease, _) => now + lease
    case Heartbeat(_, _, _, now, lease) => now + lease
    case _ => 0
  }

  /** In every trace the lease of an analysis that goes on is that of the last claim or renewal under its token that was
      its worker's own. */
  lemma {:induction false} LeaseIsLastRenewal(states: seq<Analyses>, steps: seq<Step>, k: nat, i: nat) returns (j: nat)
    requires Behavior(states, steps) && k < |states| && i < |states[k].invocations|
    requires states[k].invocations[i].state == Analysing && states[k].invocations[i].token.Some?
    ensures var v := states[k].invocations[i];
      && j < k && Leases(steps[j], i, v.token.value) && steps[j].worker == v.worker
        && v.expiresAt == Some(LeaseEnd(steps[j]))
      && forall n :: j < n < k ==> !(Leases(steps[n], i, v.token.value) && steps[n].worker == v.worker)
  {
    AnalysisBegan(states, steps, k, i);
    MovesAt(states, steps, k - 1, i);
    var v := states[k].invocations[i];
    j := k - 1;
    if !(Leases(steps[j], i, v.token.value) && steps[j].worker == v.worker) {
      j := LeaseIsLastRenewal(states, steps, k - 1, i);
    }
  }

  lemma AnalysisBegan(states: seq<Analyses>, steps: seq<Step>, k: nat, i: nat)
    requires Behavior(states, steps) && k < |states| && i < |states[k].invocations|
    requires states[k].invocations[i].state == Analysing
    ensures k > 0 && i < |states[k - 1].invocations|
  {
    if k > 0 && |states[k - 1].invocations| <= i { AskedAt(states, steps, k - 1, i); }
  }
}
