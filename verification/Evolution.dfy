/** How one row may change in one step, whatever the step is: what a launch wrote and what
    a terminal row has captured never change, and the claim-state constraint is kept. */
module Evolution {
  import opened Wrappers
  import opened Rows
  import opened Transactions
  import opened Protocol
  import Launches
  import Comparison

  predicate RowEvolves(e: Execution, f: Execution) {
    && f.manifest == e.manifest
    && (e.outcome.Terminal() ==> f == e.(validity := f.validity))
    && (e.ClaimState() ==> f.ClaimState())
    && e.claimAttempt <= f.claimAttempt
  }

  /** Rows are only appended, and the ones that exist evolve. */
  predicate Evolves(es: seq<Execution>, fs: seq<Execution>) {
    && |es| <= |fs|
    && (forall i :: 0 <= i < |es| ==> RowEvolves(es[i], fs[i]))
    && (forall i :: |es| <= i < |fs| ==> fs[i] == Launches.FreshExecution(fs[i].manifest))
  }

  lemma LaunchEvolves(db: Tables, plan: Launches.Plan)
    requires Launches.Launched(db, plan).Some?
    ensures Evolves(db.executions, Launches.Launched(db, plan).value.executions)
  {
  }

  lemma ClaimEvolves(s: System, i: nat, worker: string, t: Token, now: Time, lease: nat)
    requires ClaimEnabled(s, i, worker, t, now)
    ensures Evolves(s.db.executions, ClaimStep(s, i, worker, t, now, lease).db.executions)
  {
  }

  lemma HeldEvolves(s: System, t: Token, now: Time, lease: nat)
    ensures HeartbeatEnabled(s, t, now) ==> Evolves(s.db.executions, HeartbeatStep(s, t, now, lease).db.executions)
    ensures MarkEnabled(s, t, now) ==> Evolves(s.db.executions, MarkStep(s, t, now, lease).db.executions)
  {
  }

  lemma CompleteEvolves(db: Tables, i: nat, outcome: FinalOutcome, seen: Observation, now: Time)
    requires i < |db.executions| && db.executions[i].manifest.run < |db.runs|
    requires !db.executions[i].outcome.Terminal()
    requires Complete(db, i, outcome, seen, now).Some?
    ensures Evolves(db.executions, Complete(db, i, outcome, seen, now).value.executions)
  {
  }

  lemma MarkUnusableEvolves(db: Tables, i: nat, now: Time)
    requires i < |db.executions| && db.executions[i].manifest.run < |db.runs|
    requires db.executions[i].manifest.conversation.Some?
    requires db.executions[i].manifest.conversation.value.attempt < |db.attempts|
    requires MarkUnusable(db, i, now).Some?
    ensures Evolves(db.executions, MarkUnusable(db, i, now).value.executions)
  {
  }

  lemma ReconcileRowEvolves(es: seq<Execution>, i: nat, now: Time, skipped: set<nat>)
    requires i < |es|
    ensures RowEvolves(es[i], ReconcileRow(es, i, now, skipped))
  {
  }

  lemma ReconcileEvolves(es: seq<Execution>, now: Time, skipped: set<nat>)
    ensures Evolves(es, ReconcileRows(es, now, skipped))
  {
    forall i | 0 <= i < |es| ensures RowEvolves(es[i], ReconcileRows(es, now, skipped)[i]) {
      ReconcileRowEvolves(es, i, now, skipped);
    }
  }

  lemma FinishEvolves(s: System, t: Token, now: Time)
    requires FinishEnabled(s, t)
    ensures Evolves(s.db.executions, FinishStep(s, t, now).db.executions)
  {
    var pc := s.tasks[t].pc;
    if Owns(s, t) && Complete(s.db, s.tasks[t].execution, pc.outcome, pc.seen, now).Some? {
      CompleteEvolves(s.db, s.tasks[t].execution, pc.outcome, pc.seen, now);
    }
  }

  lemma BlockEvolves(s: System, t: Token, now: Time)
    requires BlockEnabled(s, t, now)
    ensures Evolves(s.db.executions, BlockStep(s, t, now).db.executions)
  {
    if MarkUnusable(s.db, s.tasks[t].execution, now).Some? {
      MarkUnusableEvolves(s.db, s.tasks[t].execution, now);
    }
  }

  /** No row is touched by the others. */
  lemma OtherActionEvolves(s: System, t: Token, action: Action)
    requires ActionEnabled(s, t, action)
    requires !action.Heartbeat? && !action.Mark? && !action.Finish? && !action.Block?
    ensures Evolves(s.db.executions, Act(s, t, action).db.executions)
  {
    assert Act(s, t, action).db.executions == s.db.executions;
  }

  lemma ActionEvolves(s: System, t: Token, action: Action)
    requires ActionEnabled(s, t, action)
    ensures Evolves(s.db.executions, Act(s, t, action).db.executions)
  {
    match action
    case Heartbeat(now, lease) => HeldEvolves(s, t, now, lease);
    case Mark(now, lease) => HeldEvolves(s, t, now, lease);
    case Finish(now) => FinishEvolves(s, t, now);
    case Block(now) => BlockEvolves(s, t, now);
    case _ => OtherActionEvolves(s, t, action);
  }

  /** Every step of every worker, of recovery and of the operators lets the rows evolve and nothing else. */
  lemma StepEvolves(s: System, step: Step)
    requires Enabled(s, step)
    ensures Evolves(s.db.executions, Apply(s, step).db.executions)
  {
    match step
    case Launch(plan) => LaunchEvolves(s.db, plan);
    case Claim(i, worker, t, now, lease) => ClaimEvolves(s, i, worker, t, now, lease);
    case Work(t, action) => ActionEvolves(s, t, action);
    case Reconciliation(now, skipped) => ReconcileEvolves(s.db.executions, now, skipped);
    case _ =>
  }
}
