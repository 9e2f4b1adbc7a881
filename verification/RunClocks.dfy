/** The times of a run: when it started, how long it pauses between questions, and when it ended. */
module RunClocks {
  import opened Wrappers
  import opened Rows
  import opened Transactions
  import opened Protocol
  import opened TableInvariants
  import opened TransactionProofs
  import opened Traces
  import Launches
  import Theorems

  // ---------- what one transaction writes ----------

  predicate OtherRunsKept(db: Tables, after: Tables, r: nat) {
    |after.runs| == |db.runs| && forall q :: 0 <= q < |db.runs| && q != r ==> after.runs[q] == db.runs[q]
  }

  /** A first claim starts its run; a later one leaves every field of it alone. */
  lemma ClaimStartsRun(db: Tables, i: nat, worker: string, t: Token, now: Time, lease: nat)
    requires i < |db.executions| && db.executions[i].manifest.run < |db.runs|
    ensures var after, r := RecordClaim(db, i, worker, t, now, lease), db.executions[i].manifest.run;
      && OtherRunsKept(db, after, r)
      && (db.runs[r].state == Queued ==> after.runs[r] == db.runs[r].(state := InProgress, startedAt := Some(now)))
      && (db.runs[r].state != Queued ==> after.runs[r] == db.runs[r])
  {
  }

  /** The run as it ends at `now`. */
  predicate EndedAt(run: Run, after: Run, now: Time) {
    && after.state in {Completed, CompletedWithErrors}
    && after == run.(state := after.state, completedAt := Some(now), nextDispatchAt := None)
  }

  predicate RowsEnded(es: seq<Execution>, r: nat) {
    forall k :: 0 <= k < |es| && es[k].manifest.run == r ==> es[k].outcome in {Success, Error, Timeout}
  }

  /** A run without a pause is left to whatever held before. */
  function NextDispatch(run: Run, now: Time): Option<Time> {
    if run.delay > 0 then Some(now + run.delay) else run.nextDispatchAt
  }

  /** A completion ends the run if that was its last row; otherwise it starts the pause that the run asks for, and
      writes nothing else of it. */
  lemma CompletionTimesRun(db: Tables, i: nat, outcome: FinalOutcome, seen: Observation, now: Time)
    requires Sound(db) && i < |db.executions| && db.executions[i].outcome == Running
    requires db.executions[i].manifest.run < |db.runs|
    ensures Complete(db, i, outcome, seen, now).Some?
    ensures var after, r := Complete(db, i, outcome, seen, now).value, db.executions[i].manifest.run;
      var run, es := db.runs[r], after.executions;
      && OtherRunsKept(db, after, r) && (RowsEnded(es, r) ==> EndedAt(run, after.runs[r], now))
      && (!RowsEnded(es, r) ==> after.runs[r] == run.(nextDispatchAt := NextDispatch(run, now)))
  {
    CompleteCommits(db, i, outcome, seen, now);
  }

  /** Breaking a session and recovery end runs, or leave them alone. */
  predicate KeptOrEnded(run: Run, after: Run, now: Time) { after == run || EndedAt(run, after, now) }

  lemma BreakingTimesRun(db: Tables, i: nat, now: Time, r: nat)
    requires TurnOf(db, i) && MarkUnusable(db, i, now).Some? && r < |db.runs|
    ensures |MarkUnusable(db, i, now).value.runs| == |db.runs|
    ensures KeptOrEnded(db.runs[r], MarkUnusable(db, i, now).value.runs[r], now)
  {
  }

  lemma RecoveryTimesRun(db: Tables, now: Time, skipped: set<nat>, r: nat)
    requires r < |db.runs|
    ensures |Reconcile(db, now, skipped).runs| == |db.runs|
    ensures KeptOrEnded(db.runs[r], Reconcile(db, now, skipped).runs[r], now)
  {
  }

  // ---------- what one step writes ----------

  /** The step claims a row of run `r`. */
  predicate ClaimsIn(s: System, step: Step, r: nat) {
    step.Claim? && step.execution < |s.db.executions| && s.db.executions[step.execution].manifest.run == r
  }

  /** The step is the completion of a row of run `r` by the holder of its claim. */
  predicate CompletesIn(s: System, step: Step, r: nat) {
    && step.Work? && step.action.Finish? && HasTask(s, step.token) && Owns(s, step.token)
    && RowOf(s, step.token).manifest.run == r
  }

  /** The timestamp of a step that ends rows. */
  function EndTime(step: Step): Option<Time> {
    match step
    case Reconciliation(now, _) => Some(now)
    case Work(_, Finish(now)) => Some(now)
    case Work(_, Block(now)) => Some(now)
    case _ => None
  }

  predicate KeptOrEndedBy(run: Run, after: Run, step: Step) {
    after == run || (EndTime(step).Some? && EndedAt(run, after, EndTime(step).value))
  }

  predicate RunMoves(s: System, step: Step, run: Run, after: Run, r: nat) {
    if ClaimsIn(s, step, r) then
      if run.state == Queued then after == run.(state := InProgress, startedAt := Some(step.now)) else after == run
    else if CompletesIn(s, step, r) then
      EndedAt(run, after, step.action.now) || after == run.(nextDispatchAt := NextDispatch(run, step.action.now))
    else KeptOrEndedBy(run, after, step)
  }

  lemma FinishMovesRun(s: System, t: Token, now: Time, r: nat)
    requires Sound(s.db) && FinishEnabled(s, t) && r < |s.db.runs|
    ensures |FinishStep(s, t, now).db.runs| == |s.db.runs|
    ensures RunMoves(s, Work(t, Finish(now)), s.db.runs[r], FinishStep(s, t, now).db.runs[r], r)
  {
    if Owns(s, t) { CompletionTimesRun(s.db, s.tasks[t].execution, s.tasks[t].pc.outcome, s.tasks[t].pc.seen, now); }
  }

  lemma BlockMovesRun(s: System, t: Token, now: Time, r: nat)
    requires BlockEnabled(s, t, now) && r < |s.db.runs|
    ensures |BlockStep(s, t, now).db.runs| == |s.db.runs|
    ensures RunMoves(s, Work(t, Block(now)), s.db.runs[r], BlockStep(s, t, now).db.runs[r], r)
  {
    if MarkUnusable(s.db, s.tasks[t].execution, now).Some? { BreakingTimesRun(s.db, s.tasks[t].execution, now, r); }
  }

  lemma OtherActionKeepsRuns(s: System, t: Token, action: Action)
    requires ActionEnabled(s, t, action) && !action.Finish? && !action.Block?
    ensures Act(s, t, action).db.runs == s.db.runs
  {
  }

  lemma ActionMovesRun(s: System, t: Token, action: Action, r: nat)
    requires Sound(s.db) && ActionEnabled(s, t, action) && r < |s.db.runs|
    ensures |Act(s, t, action).db.runs| == |s.db.runs|
    ensures RunMoves(s, Work(t, action), s.db.runs[r], Act(s, t, action).db.runs[r], r)
  {
    match action
    case Finish(now) => FinishMovesRun(s, t, now, r);
    case Block(now) => BlockMovesRun(s, t, now, r);
    case _ => OtherActionKeepsRuns(s, t, action);
  }

  lemma LaunchKeepsRuns(db: Tables, plan: Launches.Plan, r: nat)
    requires Launches.Launched(db, plan).Some? && r < |db.runs|
    ensures |db.runs| < |Launches.Launched(db, plan).value.runs|
    ensures Launches.Launched(db, plan).value.runs[r] == db.runs[r]
  {
  }

  lemma StepMovesRun(s: System, step: Step, r: nat)
    requires Sound(s.db) && Enabled(s, step) && r < |s.db.runs|
    ensures r < |Apply(s, step).db.runs| && RunMoves(s, step, s.db.runs[r], Apply(s, step).db.runs[r], r)
  {
    match step
    case Work(t, action) => ActionMovesRun(s, t, action, r);
    case Claim(i, worker, t, now, lease) => ClaimStartsRun(s.db, i, worker, t, now, lease);
    case Reconciliation(now, skipped) => RecoveryTimesRun(s.db, now, skipped, r);
    case Launch(plan) => LaunchKeepsRuns(s.db, plan, r);
    case _ =>
  }

  lemma RunMovesAt(states: seq<System>, steps: seq<Step>, k: nat, r: nat)
    requires Behavior(states, steps) && k < |steps| && r < |states[k].db.runs|
    ensures r < |states[k + 1].db.runs|
    ensures RunMoves(states[k], steps[k], states[k].db.runs[r], states[k + 1].db.runs[r], r)
  {
    TraceHoldsInv(states, steps, k);
    assert StepAt(states, steps, k);
    StepMovesRun(states[k], steps[k], r);
  }

  // ---------- over whole runs of the system ----------

  /** The pause is on, or the run has ended. */
  predicate Paused(s: System, r: nat, until: Time) {
    r < |s.db.runs| && (s.db.runs[r].Terminal() || s.db.runs[r].nextDispatchAt == Some(until))
  }

  lemma {:induction false} PauseLasts(states: seq<System>, steps: seq<Step>, k: nat, m: nat, r: nat, until: Time)
    requires Behavior(states, steps) && k <= m < |states| && Paused(states[k], r, until)
    requires forall j :: k <= j < m ==> !CompletesIn(states[j], steps[j], r)
    ensures Paused(states[m], r, until)
    decreases m
  {
    if k < m {
      PauseLasts(states, steps, k, m - 1, r, until);
      RunMovesAt(states, steps, m - 1, r);
      if states[m - 1].db.runs[r].Terminal() { Theorems.TerminalRunIsFinal(states, steps, m - 1, m, r); }
    }
  }

  /** In every trace: after a completion in a run with a pause, no row of the run is claimed before the pause is over,
      unless another completion started it anew. */
  lemma PauseIsKept(states: seq<System>, steps: seq<Step>, k: nat, m: nat, r: nat)
    requires Behavior(states, steps) && k < m < |steps| && r < |states[k].db.runs| && states[k].db.runs[r].delay > 0
    requires CompletesIn(states[k], steps[k], r) && ClaimsIn(states[m], steps[m], r)
    requires forall j :: k < j < m ==> !CompletesIn(states[j], steps[j], r)
    ensures steps[m].now >= steps[k].action.now + states[k].db.runs[r].delay
  {
    var until := steps[k].action.now + states[k].db.runs[r].delay;
    RunMovesAt(states, steps, k, r);
    PauseLasts(states, steps, k + 1, m, r, until);
    assert StepAt(states, steps, m);
    assert Claimable(states[m].db, steps[m].execution, steps[m].now);
  }

  predicate Begun(s: System, r: nat, at: Option<Time>) {
    r < |s.db.runs| && s.db.runs[r].state != Queued && s.db.runs[r].startedAt == at
  }

  lemma {:induction false} StartIsFinal(states: seq<System>, steps: seq<Step>, k: nat, m: nat, r: nat, at: Option<Time>)
    requires Behavior(states, steps) && k <= m < |states| && Begun(states[k], r, at)
    ensures Begun(states[m], r, at)
    decreases m
  {
    if k < m {
      StartIsFinal(states, steps, k, m - 1, r, at);
      RunMovesAt(states, steps, m - 1, r);
    }
  }

  /** Only a claim takes a run out of the queue without ending it. */
  lemma {:induction false} QueuedUntilClaimed(states: seq<System>, steps: seq<Step>, k: nat, m: nat, r: nat)
    requires Behavior(states, steps) && k <= m < |states| && r < |states[k].db.runs|
      && states[k].db.runs[r].state == Queued
    requires forall j :: k <= j < m ==> !ClaimsIn(states[j], steps[j], r)
    ensures r < |states[m].db.runs| && (states[m].db.runs[r].state == Queued || states[m].db.runs[r].Terminal())
    decreases m
  {
    if k < m {
      QueuedUntilClaimed(states, steps, k, m - 1, r);
      RunMovesAt(states, steps, m - 1, r);
    }
  }

  /** In every trace: from the first claim in a queued run on, the run has started at the time of that claim, whatever
      is claimed in it later. */
  lemma StartIsFirstClaim(states: seq<System>, steps: seq<Step>, q: nat, k: nat, m: nat, r: nat)
    requires Behavior(states, steps) && q <= k < m < |states|
    requires r < |states[q].db.runs| && states[q].db.runs[r].state == Queued
    requires ClaimsIn(states[k], steps[k], r) && forall j :: q <= j < k ==> !ClaimsIn(states[j], steps[j], r)
    ensures r < |states[m].db.runs| && states[m].db.runs[r].startedAt == Some(steps[k].now)
    ensures states[m].db.runs[r].state != Queued
  {
    QueuedUntilClaimed(states, steps, q, k, r);
    assert StepAt(states, steps, k);
    assert Claimable(states[k].db, steps[k].execution, steps[k].now);
    RunMovesAt(states, steps, k, r);
    StartIsFinal(states, steps, k + 1, m, r, Some(steps[k].now));
  }

  /** In every trace a run ends at the time of the step that ended its last row, and asks for no further pause. */
  lemma EndIsLastRow(states: seq<System>, steps: seq<Step>, k: nat, m: nat, r: nat)
    requires Behavior(states, steps) && k < m < |states| && r < |states[k].db.runs|
    requires !states[k].db.runs[r].Terminal() && r < |states[k + 1].db.runs| && states[k + 1].db.runs[r].Terminal()
    ensures r < |states[m].db.runs|
    ensures EndTime(steps[k]).Some? && states[m].db.runs[r].completedAt == EndTime(steps[k])
    ensures states[m].db.runs[r].nextDispatchAt.None?
    ensures states[m].db.runs[r].startedAt == states[k].db.runs[r].startedAt
  {
    RunMovesAt(states, steps, k, r);
    Theorems.TerminalRunIsFinal(states, steps, k + 1, m, r);
  }
}
