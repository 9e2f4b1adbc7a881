/** Where the observation of a row comes from: what a worker completed it with is what the target's answer, or the
    failure, brought to that worker. */
module Observations {
  import opened Wrappers
  import opened Rows
  import opened Protocol
  import opened TableInvariants
  import opened Traces
  import opened RowHistory
  import Ledger
  import ProtocolRuns
  import Theorems

  /** The step after which the task of `t` is about to complete with this ending: the target's answer, a failure before
      it, or a session that could not be had. */
  predicate Brings(step: Step, t: Token, pc: Pc) {
    && pc.Finishing?
    && (|| step == Work(t, Submit(pc.outcome, pc.seen, pc.usable))
        || (step == Work(t, Fail(pc.outcome, pc.seen, pc.usable)) && pc.outcome != Success)
        || ((step == Work(t, ReadSession) || step == Work(t, CommitSession)) && pc == SESSION_FAILED))
  }

  lemma FinishKeepsOthers(s: System, t: Token, now: Time, u: Token)
    requires FinishEnabled(s, t) && u in s.tasks
    ensures u in FinishStep(s, t, now).tasks && !FinishStep(s, t, now).tasks[t].pc.Finishing?
    ensures u != t ==> FinishStep(s, t, now).tasks[u] == s.tasks[u]
  {
  }

  lemma BlockKeepsOthers(s: System, t: Token, now: Time, u: Token)
    requires BlockEnabled(s, t, now) && u in s.tasks
    ensures u in BlockStep(s, t, now).tasks && !BlockStep(s, t, now).tasks[t].pc.Finishing?
    ensures u != t ==> BlockStep(s, t, now).tasks[u] == s.tasks[u]
  {
  }

  lemma PlainActionBrings(s: System, t: Token, action: Action, u: Token)
    requires ActionEnabled(s, t, action) && u in s.tasks && !action.Finish? && !action.Block?
    requires u in Act(s, t, action).tasks && Act(s, t, action).tasks[u].pc.Finishing?
    ensures Act(s, t, action).tasks[u].pc == s.tasks[u].pc || Brings(Work(t, action), u, Act(s, t, action).tasks[u].pc)
  {
  }

  lemma ActionBrings(s: System, t: Token, action: Action, u: Token)
    requires ActionEnabled(s, t, action) && u in Act(s, t, action).tasks && Act(s, t, action).tasks[u].pc.Finishing?
    ensures u in s.tasks
    ensures Act(s, t, action).tasks[u].pc == s.tasks[u].pc || Brings(Work(t, action), u, Act(s, t, action).tasks[u].pc)
  {
    ProtocolRuns.ActKeepsTasks(s, t, action);
    match action
    case Finish(now) => FinishKeepsOthers(s, t, now, u);
    case Block(now) => BlockKeepsOthers(s, t, now, u);
    case _ => PlainActionBrings(s, t, action, u);
  }

  lemma StepBrings(s: System, step: Step, u: Token)
    requires Enabled(s, step) && u in Apply(s, step).tasks && Apply(s, step).tasks[u].pc.Finishing?
    ensures u in s.tasks
    ensures Apply(s, step).tasks[u].pc == s.tasks[u].pc || Brings(step, u, Apply(s, step).tasks[u].pc)
  {
    if step.Work? { ActionBrings(s, step.token, step.action, u); }
  }

  lemma {:induction false} FinishingCameFrom(states: seq<System>, steps: seq<Step>, k: nat, t: Token) returns (b: nat)
    requires Behavior(states, steps) && k < |states| && t in states[k].tasks && states[k].tasks[t].pc.Finishing?
    ensures b < k && Brings(steps[b], t, states[k].tasks[t].pc)
  {
    NothingAtStart(states, steps);
    assert k > 0 && StepAt(states, steps, k - 1);
    StepBrings(states[k - 1], steps[k - 1], t);
    b := k - 1;
    if !Brings(steps[k - 1], t, states[k].tasks[t].pc) { b := FinishingCameFrom(states, steps, k - 1, t); }
  }

  lemma NothingAtStart(states: seq<System>, steps: seq<Step>)
    requires Behavior(states, steps)
    ensures states[0].tasks == map[] && states[0].finished == map[]
  {
  }

  /** The completion of row `i` by the holder `t`, and the row it left. */
  predicate FinishedHere(s: System, step: Step, i: nat, t: Token, f: Execution) {
    && step.Work? && step.token == t && step.action.Finish? && HasTask(s, t) && s.tasks[t].execution == i
    && s.tasks[t].pc.Finishing?
    && IsEnded(s.db.executions[i], f, s.tasks[t].pc.outcome, s.tasks[t].pc.seen, step.action.now)
  }

  lemma CreditedHere(s: System, step: Step, i: nat, t: Token)
    requires Sound(s.db) && Enabled(s, step) && i !in s.finished && i < |Apply(s, step).db.executions|
    requires i in Apply(s, step).finished && Apply(s, step).finished[i] == ByWorker(t)
    ensures i < |s.db.executions| && FinishedHere(s, step, i, t, Apply(s, step).db.executions[i])
  {
    assert step.Work?;
    CreditedByAction(s, step.token, step.action, i, t);
    StepMovesRow(s, step, i);
  }

  lemma CreditedByAction(s: System, u: Token, action: Action, i: nat, t: Token)
    requires Sound(s.db) && ActionEnabled(s, u, action) && i !in s.finished
    requires i in Act(s, u, action).finished && Act(s, u, action).finished[i] == ByWorker(t)
    ensures u == t && action.Finish? && i < |s.db.executions| && s.tasks[t].execution == i && Owns(s, t)
  {
    match action
    case Finish(now) => CreditedByFinish(s, u, now, i, t);
    case Block(now) => Ledger.BlockCreditsNoWorker(s, u, now);
    case _ => PlainActionCreditsNone(s, u, action);
  }

  lemma PlainActionCreditsNone(s: System, u: Token, action: Action)
    requires ActionEnabled(s, u, action) && !action.Finish? && !action.Block?
    ensures Act(s, u, action).finished == s.finished
  {
  }

  lemma CreditedByFinish(s: System, u: Token, now: Time, i: nat, t: Token)
    requires Sound(s.db) && FinishEnabled(s, u) && i !in s.finished
    requires i in FinishStep(s, u, now).finished && FinishStep(s, u, now).finished[i] == ByWorker(t)
    ensures u == t && i < |s.db.executions| && s.tasks[t].execution == i && Owns(s, t)
  {
  }

  /** An ended row changes in its validity alone. */
  predicate SameEvidence(e: Execution, f: Execution) { f == e.(validity := f.validity) }

  /** In every trace: an observation credited to a worker is what its completion wrote, at its timestamp: outcome and
      observation are those that the target's answer, or the failure, brought to that worker before. */
  lemma {:induction false} ObservationIsAsSeen(states: seq<System>, steps: seq<Step>, k: nat, i: nat, t: Token)
    returns (j: nat, b: nat)
    requires Behavior(states, steps) && k < |states| && i in states[k].finished && states[k].finished[i] == ByWorker(t)
    ensures i < |states[k].db.executions| && b < j < k && t in states[j].tasks
    ensures states[j].tasks[t].pc.Finishing? && Brings(steps[b], t, states[j].tasks[t].pc)
    ensures exists f :: SameEvidence(f, states[k].db.executions[i]) && FinishedHere(states[j], steps[j], i, t, f)
  {
    NothingAtStart(states, steps);
    assert k > 0;
    if i in states[k - 1].finished {
      Theorems.CreditsGrowAt(states, steps, k - 1);
      j, b := ObservationIsAsSeen(states, steps, k - 1, i, t);
      EvidenceKept(states, steps, k - 1, i);
      var f :| SameEvidence(f, states[k - 1].db.executions[i]) && FinishedHere(states[j], steps[j], i, t, f);
      assert SameEvidence(f, states[k].db.executions[i]);
    } else {
      j := k - 1;
      CreditedAt(states, steps, j, i, t);
      b := FinishingCameFrom(states, steps, j, t);
      assert SameEvidence(states[k].db.executions[i], states[k].db.executions[i]);
    }
  }

  lemma CreditedAt(states: seq<System>, steps: seq<Step>, j: nat, i: nat, t: Token)
    requires Behavior(states, steps) && j < |steps| && i !in states[j].finished
    requires i in states[j + 1].finished && states[j + 1].finished[i] == ByWorker(t)
    ensures i < |states[j].db.executions| && i < |states[j + 1].db.executions|
    ensures FinishedHere(states[j], steps[j], i, t, states[j + 1].db.executions[i])
  {
    TraceHoldsInv(states, steps, j);
    TraceHoldsInv(states, steps, j + 1);
    assert StepAt(states, steps, j);
    CreditedHere(states[j], steps[j], i, t);
  }

  lemma EvidenceKept(states: seq<System>, steps: seq<Step>, k: nat, i: nat)
    requires Behavior(states, steps) && k < |steps| && i in states[k].finished
    ensures i < |states[k].db.executions| && i < |states[k + 1].db.executions|
    ensures SameEvidence(states[k].db.executions[i], states[k + 1].db.executions[i])
  {
    TraceHoldsInv(states, steps, k);
    assert Ledger.FinishedBy(states[k].db.executions[i], states[k].finished[i]);
    Theorems.EvidenceIsFinal(states, steps, k, k + 1, i);
  }

  /** So a success was answered: the row holds what the target said to the one call made under its last claim. */
  lemma SuccessWasAnswered(states: seq<System>, steps: seq<Step>, k: nat, i: nat) returns (b: nat, usable: bool)
    requires Behavior(states, steps) && k < |states| && i < |states[k].db.executions| && i in states[k].finished
    requires states[k].db.executions[i].outcome == Success
    ensures var e := states[k].db.executions[i];
      b < k && e.token.Some? && steps[b] == Work(e.token.value, Submit(Success, e.observation, usable))
  {
    TraceHoldsInv(states, steps, k);
    var e := states[k].db.executions[i];
    assert Ledger.FinishedBy(e, states[k].finished[i]);
    var t := e.token.value;
    var j;
    j, b := ObservationIsAsSeen(states, steps, k, i, t);
    var f :| SameEvidence(f, e) && FinishedHere(states[j], steps[j], i, t, f);
    usable := states[j].tasks[t].pc.usable;
  }
}
