/** How often a session is asked for: the call that opens one is started at most once for an attempt, whether or not it
    ever comes back. */
module SessionOpenings {
  import opened Wrappers
  import opened Rows
  import opened Protocol
  import opened TableInvariants
  import opened Submissions
  import opened Sessions
  import opened Traces
  import Theorems

  /** Tasks move from holding the claim over the mark to what comes after it, and never back. */
  function Rank(pc: Pc): nat { if pc.Holding? then 0 else if pc.Marked? then 1 else 2 }

  predicate TaskMoved(s: System, after: System, t: Token)
    requires t in s.tasks
  {
    && t in after.tasks && after.tasks[t].execution == s.tasks[t].execution
    && Rank(s.tasks[t].pc) <= Rank(after.tasks[t].pc)
  }

  lemma PcMoves(s: System, after: System, t: Token, pc: Pc, u: Token)
    requires t in s.tasks && u in s.tasks && after.tasks == SetPc(s, t, pc).tasks
    requires Rank(s.tasks[t].pc) <= Rank(pc)
    ensures TaskMoved(s, after, u)
  {
  }

  lemma FinishMoves(s: System, t: Token, now: Time, u: Token)
    requires FinishEnabled(s, t) && u in s.tasks
    ensures TaskMoved(s, FinishStep(s, t, now), u)
  {
    PcMoves(s, FinishStep(s, t, now), t, FinishStep(s, t, now).tasks[t].pc, u);
  }

  lemma BlockMoves(s: System, t: Token, now: Time, u: Token)
    requires BlockEnabled(s, t, now) && u in s.tasks
    ensures TaskMoved(s, BlockStep(s, t, now), u)
  {
    PcMoves(s, BlockStep(s, t, now), t, BlockStep(s, t, now).tasks[t].pc, u);
  }

  lemma CommitMoves(s: System, t: Token, u: Token)
    requires CommitSessionEnabled(s, t) && u in s.tasks
    ensures TaskMoved(s, CommitSessionStep(s, t), u)
  {
    PcMoves(s, CommitSessionStep(s, t), t, CommitSessionStep(s, t).tasks[t].pc, u);
  }

  /** The actions that write nothing but a program counter and perhaps one row or one log entry. */
  lemma PlainActionMoves(s: System, t: Token, action: Action, u: Token)
    requires ActionEnabled(s, t, action) && u in s.tasks
    requires !action.Finish? && !action.Block? && !action.CommitSession?
    ensures TaskMoved(s, Act(s, t, action), u)
  {
  }

  lemma ActionMoves(s: System, t: Token, action: Action, u: Token)
    requires ActionEnabled(s, t, action) && u in s.tasks
    ensures TaskMoved(s, Act(s, t, action), u)
  {
    match action
    case Finish(now) => FinishMoves(s, t, now, u);
    case Block(now) => BlockMoves(s, t, now, u);
    case CommitSession => CommitMoves(s, t, u);
    case _ => PlainActionMoves(s, t, action, u);
  }

  lemma StepMoves(s: System, step: Step, u: Token)
    requires Enabled(s, step) && u in s.tasks
    ensures TaskMoved(s, Apply(s, step), u)
  {
    if step.Work? { ActionMoves(s, step.token, step.action, u); }
  }

  lemma {:induction false} TaskMovesOn(states: seq<System>, steps: seq<Step>, k: nat, m: nat, t: Token)
    requires IsTrace(states, steps) && k <= m < |states| && t in states[k].tasks
    ensures TaskMoved(states[k], states[m], t)
    decreases m
  {
    if k < m {
      TaskMovesOn(states, steps, k, m - 1, t);
      assert StepAt(states, steps, m - 1);
      StepMoves(states[m - 1], steps[m - 1], t);
    }
  }

  lemma {:induction false} ManifestIsFinal(states: seq<System>, steps: seq<Step>, k: nat, m: nat, i: nat)
    requires IsTrace(states, steps) && k <= m < |states| && i < |states[k].db.executions|
    ensures i < |states[m].db.executions|
    ensures states[m].db.executions[i].manifest == states[k].db.executions[i].manifest
    decreases m
  {
    if k < m {
      ManifestIsFinal(states, steps, k, m - 1, i);
      Theorems.RowsEvolveAt(states, steps, m - 1);
    }
  }

  /** Step `j` takes the claim `t` to where it calls the target to open a session. */
  predicate StartsOpening(states: seq<System>, steps: seq<Step>, j: nat, t: Token) {
    && j < |steps| && |states| == |steps| + 1 && steps[j] == Work(t, ReadSession)
    && HasAttempt(states[j + 1], t) && states[j + 1].tasks[t].pc == Opening
  }

  predicate Marks(s: System, t: Token, i: nat) { i in s.started && s.started[i] == t }

  lemma OpenerNow(s: System, t: Token)
    requires SessionsSound(s) && Senders(s) && HasAttempt(s, t) && s.tasks[t].pc == Opening
    ensures FirstTurn(s, t) && Marks(s, t, s.tasks[t].execution)
  {
    assert TaskSession(s, t);
  }

  lemma OpenerThen(s: System, after: System, t: Token)
    requires FirstTurn(s, t) && TaskMoved(s, after, t) && Linked(after.db)
    requires s.tasks[t].execution < |after.db.executions|
    requires after.db.executions[s.tasks[t].execution].manifest == RowOf(s, t).manifest
    ensures FirstTurn(after, t) && AttemptOf(after, t) == AttemptOf(s, t)
  {
    assert RowLinked(after.db, RowOf(after, t));
  }

  lemma TraceFacts(states: seq<System>, steps: seq<Step>, k: nat)
    requires Behavior(states, steps) && k < |states|
    ensures Linked(states[k].db) && DistinctOrdinals(states[k].db.executions)
    ensures Senders(states[k]) && SessionsSound(states[k])
  {
    TraceHoldsInv(states, steps, k);
  }

  lemma MarkStays(states: seq<System>, steps: seq<Step>, k: nat, m: nat, t: Token, i: nat)
    requires Behavior(states, steps) && k <= m < |states| && Marks(states[k], t, i)
    ensures Marks(states[m], t, i)
  {
    Theorems.MarkIsForever(states, steps, k, m, i, 0);
  }

  /** The claim that starts to open a session is the marker of the first turn of its attempt, and stays so. */
  lemma OpenerIsKept(states: seq<System>, steps: seq<Step>, j: nat, m: nat, t: Token)
    requires Behavior(states, steps) && StartsOpening(states, steps, j, t) && j < m < |states|
    ensures FirstTurn(states[m], t) && AttemptOf(states[m], t) == AttemptOf(states[j + 1], t)
    ensures Marks(states[m], t, states[m].tasks[t].execution) && Rank(states[m].tasks[t].pc) == 2
  {
    var i := states[j + 1].tasks[t].execution;
    TraceFacts(states, steps, j + 1);
    OpenerNow(states[j + 1], t);
    TaskMovesOn(states, steps, j + 1, m, t);
    ManifestIsFinal(states, steps, j + 1, m, i);
    MarkStays(states, steps, j + 1, m, t, i);
    TraceFacts(states, steps, m);
    OpenerThen(states[j + 1], states[m], t);
  }

  lemma MarkedBefore(states: seq<System>, steps: seq<Step>, k: nat, u: Token)
    requires IsTrace(states, steps) && StartsOpening(states, steps, k, u)
    ensures u in states[k].tasks && Rank(states[k].tasks[u].pc) == 1
  {
    assert StepAt(states, steps, k);
  }

  /** In every trace at most one call to open a session is ever started for an attempt: not a second one after a call
      that failed, timed out or never came back, and none by another worker. */
  lemma OneOpenCallStarted(states: seq<System>, steps: seq<Step>, j: nat, t: Token, k: nat, u: Token)
    requires Behavior(states, steps) && j <= k
    requires StartsOpening(states, steps, j, t) && StartsOpening(states, steps, k, u)
    requires AttemptOf(states[j + 1], t) == AttemptOf(states[k + 1], u)
    ensures j == k && t == u
  {
    OpenerIsKept(states, steps, j, k + 1, t);
    OpenerIsKept(states, steps, k, k + 1, u);
    TraceFacts(states, steps, k + 1);
    OneOpener(states[k + 1], t, u);
    MarkedBefore(states, steps, k, u);
    if j < k { OpenerIsKept(states, steps, j, k, t); }
  }
}
