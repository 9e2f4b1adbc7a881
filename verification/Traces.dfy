/** The main results, for every trace of every system that starts from tables a migration can leave. */
module Traces {
  import opened Wrappers
  import opened Rows
  import opened Transactions
  import opened Protocol
  import opened TableInvariants
  import opened Submissions
  import opened ConversationOrder
  import opened Sessions
  import opened Ledger
  import opened Replays
  import opened RunHistory
  import Comparison
  import Evolution
  import SystemSound

  /** Rows that predate the worker protocol: never claimed, possibly left running by the old one. */
  predicate LegacyRow(e: Execution) {
    && RowSound(e) && e.token.None? && e.claimAttempt == 0 && e.phase != TerminalObserved
    && e.manifest.conversation.None? && e.manifest.baseline.None?
  }

  predicate Init(s: System) {
    && Sound(s.db) && FullyPlanned(s.db)
    && (forall i :: 0 <= i < |s.db.executions| ==> LegacyRow(s.db.executions[i]))
    && s.db.attempts == [] && s.db.baselines == [] && s.db.items == []
    && s.tasks == map[] && s.started == map[] && s.calls == [] && s.opens == []
    && s.reclaimed == {} && s.finished == map[]
  }

  predicate Inv(s: System) {
    && Sound(s.db) && FullyPlanned(s.db) && ReplaysFaithful(s.db)
    && Submitting(s) && Ordered(s) && SessionsSound(s) && Ledgered(s)
  }

  lemma InitHoldsInv(s: System)
    requires Init(s)
    ensures Inv(s)
  {
    forall i | 0 <= i < |s.db.executions| ensures TokenHeld(s, i) && Faithful(s.db, s.db.executions[i])
      ensures s.db.executions[i].outcome == Running ==> s.db.executions[i].phase != SubmissionStarted
    {
      assert LegacyRow(s.db.executions[i]);
    }
    forall i | 0 <= i < |s.db.executions| ensures s.db.executions[i].phase != TerminalObserved {
      assert LegacyRow(s.db.executions[i]);
    }
  }

  lemma StepKeepsPlanned(s: System, step: Step)
    requires Sound(s.db) && FullyPlanned(s.db) && Enabled(s, step)
    ensures FullyPlanned(Apply(s, step).db)
  {
    if SystemSound.WorksOnRows(step) {
      SystemSound.StepKeepsShape(s, step);
      ShapeKeepsPlanned(s.db, Apply(s, step).db);
    } else if step.Launch? {
      LaunchKeepsPlanned(s.db, step.plan);
    } else {
      CatalogStepsAreQuiet(s, step);
      assert Apply(s, step).db.executions == s.db.executions && Apply(s, step).db.runs == s.db.runs;
    }
  }

  lemma StepKeepsInv(s: System, step: Step)
    requires Inv(s) && Enabled(s, step)
    ensures Inv(Apply(s, step))
  {
    SystemSound.StepKeepsSound(s, step);
    StepKeepsPlanned(s, step);
    StepKeepsReplays(s, step);
    StepKeepsSubmitting(s, step);
    StepKeepsOrdered(s, step);
    StepKeepsSessions(s, step);
    StepKeepsLedger(s, step);
  }

  /** A trace from an initial state. */
  ghost predicate Behavior(states: seq<System>, steps: seq<Step>) {
    IsTrace(states, steps) && Init(states[0])
  }

  lemma {:induction false} TraceHoldsInv(states: seq<System>, steps: seq<Step>, k: nat)
    requires Behavior(states, steps) && k < |states|
    ensures Inv(states[k])
  {
    if k == 0 {
      InitHoldsInv(states[0]);
    } else {
      TraceHoldsInv(states, steps, k - 1);
      assert StepAt(states, steps, k - 1);
      StepKeepsInv(states[k - 1], steps[k - 1]);
    }
  }
}
