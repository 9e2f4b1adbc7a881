/** The life of a conversation session: what opens it, breaks it and closes it, and that closing comes after every turn.
    */
module SessionEnds {
  import opened Wrappers
  import opened Rows
  import opened Transactions
  import opened Protocol
  import opened TableInvariants
  import opened Traces
  import opened RowHistory
  import opened Submissions
  import Evolution
  import Launches
  import ProtocolRuns
  import Sessions
  import Theorems
  import TransactionProofs

  // ---------- what one step writes into one attempt ----------

  predicate TurnsEnded(es: seq<Execution>, a: nat) {
    forall i :: 0 <= i < |es| && es[i].manifest.conversation.Some? && es[i].manifest.conversation.value.attempt == a ==>
      es[i].outcome in {Success, Error, Timeout}
  }

  /** The session breaks; the attempt is over if no turn was left. */
  predicate IsBroken(before: Attempt, after: Attempt, es: seq<Execution>, a: nat, now: Time) {
    after == before.(state := Unusable, completedAt := if TurnsEnded(es, a) then Some(now) else before.completedAt)
  }

  /** A first session identity is recorded and makes the session active; a later one changes nothing. */
  predicate IsOpened(before: Attempt, after: Attempt, session: string) {
    after == if before.session == "" then before.(session := session, state := Active) else before
  }

  /** An attempt is closed once, as closed if the target closed it. */
  predicate IsClosed(before: Attempt, after: Attempt, closed: bool, now: Time) {
    after ==
      if before.completedAt.Some? then before
      else before.(completedAt := Some(now), state := if closed then Closed else before.state)
  }

  predicate OnAttempt(s: System, t: Token, a: nat) { HasAttempt(s, t) && AttemptOf(s, t) == a }

  predicate RunOpen(s: System, t: Token) {
    HasRun(s, t) && s.db.runs[RowOf(s, t).manifest.run].state in {Queued, InProgress}
  }

  lemma OpenOrEnded(run: Run)
    ensures run.state in {Queued, InProgress} <==> !run.Terminal()
  {
    match run.state
    case Queued =>
    case InProgress =>
    case _ =>
  }

  /** What a step does to attempt `a`, with the rows as they are after it. */
  predicate AttemptMoves(s: System, step: Step, a: nat, before: Attempt, after: Attempt, es: seq<Execution>) {
    match step
    case Work(t, CommitSession) =>
      if OnAttempt(s, t, a) && s.tasks[t].pc.OpenedSession? then IsOpened(before, after, s.tasks[t].pc.session)
      else after == before
    case Work(t, Block(now)) =>
      if OnAttempt(s, t, a) && RunOpen(s, t) then IsBroken(before, after, es, a, now) else after == before
    case Work(t, Close(closed, now)) =>
      if OnAttempt(s, t, a) then IsClosed(before, after, closed, now) else after == before
    case Reconciliation(now, skipped) =>
      if exists i :: 0 <= i < |s.db.executions| && GivesUp(s.db.executions, i, now, skipped)
                     && s.db.executions[i].InAttempt(a)
      then IsBroken(before, after, es, a, now) else after == before
    case _ => after == before
  }

  lemma CommitMovesAttempt(s: System, t: Token, a: nat)
    requires CommitSessionEnabled(s, t) && a < |s.db.attempts|
    requires RecordSession(s.db.attempts[AttemptOf(s, t)], s.tasks[t].pc.session).Some?
    ensures |CommitSessionStep(s, t).db.attempts| == |s.db.attempts|
    ensures AttemptMoves(s, Work(t, CommitSession), a, s.db.attempts[a], CommitSessionStep(s, t).db.attempts[a],
                         CommitSessionStep(s, t).db.executions)
  {
  }

  lemma BlockMovesAttempt(s: System, t: Token, now: Time, a: nat)
    requires RunsAgree(s.db) && BlockEnabled(s, t, now) && a < |s.db.attempts|
    ensures |BlockStep(s, t, now).db.attempts| == |s.db.attempts|
    ensures AttemptMoves(s, Work(t, Block(now)), a, s.db.attempts[a], BlockStep(s, t, now).db.attempts[a],
                         BlockStep(s, t, now).db.executions)
  {
    TransactionProofs.MarkUnusableAborts(s.db, s.tasks[t].execution, now);
    OpenOrEnded(s.db.runs[RowOf(s, t).manifest.run]);
    var es := BlockTurns(s.db.executions, AttemptOf(s, t), now);
    assert AttemptDone(es, AttemptOf(s, t)) <==> TurnsEnded(es, AttemptOf(s, t));
  }

  lemma OtherActionKeepsAttempts(s: System, t: Token, action: Action)
    requires ActionEnabled(s, t, action) && !action.CommitSession? && !action.Block? && !action.Close?
    ensures Act(s, t, action).db.attempts == s.db.attempts
  {
  }

  lemma ActionMovesAttempt(s: System, t: Token, action: Action, a: nat)
    requires RunsAgree(s.db) && Sessions.SessionsSound(s) && ActionEnabled(s, t, action) && a < |s.db.attempts|
    ensures |Act(s, t, action).db.attempts| == |s.db.attempts|
    ensures AttemptMoves(s, Work(t, action), a, s.db.attempts[a], Act(s, t, action).db.attempts[a],
                         Act(s, t, action).db.executions)
  {
    match action
    case CommitSession =>
      Sessions.CommitFindsNoOther(s, t);
      CommitMovesAttempt(s, t, a);
    case Block(now) => BlockMovesAttempt(s, t, now, a);
    case Close(_, _) =>
    case _ => OtherActionKeepsAttempts(s, t, action);
  }

  lemma RecoveryMovesAttempt(s: System, now: Time, skipped: set<nat>, a: nat)
    requires a < |s.db.attempts|
    ensures AttemptMoves(s, Reconciliation(now, skipped), a, s.db.attempts[a],
                         Reconcile(s.db, now, skipped).attempts[a], Reconcile(s.db, now, skipped).executions)
  {
    var es, fs := s.db.executions, ReconcileRows(s.db.executions, now, skipped);
    forall i | 0 <= i < |es| ensures Ambiguous(es, i, now, skipped) <==> GivesUp(es, i, now, skipped) {}
    assert AttemptDone(fs, a) <==> TurnsEnded(fs, a);
  }

  lemma StepMovesAttempt(s: System, step: Step, a: nat)
    requires RunsAgree(s.db) && Sessions.SessionsSound(s) && Enabled(s, step) && a < |s.db.attempts|
    ensures a < |Apply(s, step).db.attempts|
    ensures AttemptMoves(s, step, a, s.db.attempts[a], Apply(s, step).db.attempts[a], Apply(s, step).db.executions)
  {
    match step
    case Work(t, action) => ActionMovesAttempt(s, t, action, a);
    case Reconciliation(now, skipped) => RecoveryMovesAttempt(s, now, skipped, a);
    case _ =>
  }

  /** An attempt that was not there before has no session and is not over. */
  predicate IsFresh(after: Attempt) { after.session == "" && after.state == NoSession && after.completedAt.None? }

  lemma StepAddsFreshAttempts(s: System, step: Step, a: nat)
    requires Sessions.SessionsSound(s) && Enabled(s, step) && |s.db.attempts| <= a < |Apply(s, step).db.attempts|
    ensures IsFresh(Apply(s, step).db.attempts[a])
  {
    if step.Work? { ActionMovesAttemptCount(s, step.token, step.action); }
  }

  lemma ActionMovesAttemptCount(s: System, t: Token, action: Action)
    requires ActionEnabled(s, t, action)
    ensures |Act(s, t, action).db.attempts| == |s.db.attempts|
  {
  }

  // ---------- closing comes last ----------

  /** An attempt that is over has no turn left, and one that the target closed is over and had a session. */
  predicate EndedRightly(attempt: Attempt, es: seq<Execution>, a: nat) {
    && (attempt.completedAt.Some? ==> TurnsEnded(es, a))
    && (attempt.state == Closed ==> attempt.completedAt.Some? && attempt.session != "")
  }

  /** A worker that decided to close has seen every turn ended, and a session. */
  predicate ClosersRight(s: System, a: nat)
    requires a < |s.db.attempts|
  {
    forall t :: t in s.tasks && OnAttempt(s, t, a) && s.tasks[t].pc == ClosingCall ==>
      TurnsEnded(s.db.executions, a) && s.db.attempts[a].session != ""
  }

  predicate SessionRight(s: System, a: nat) {
    a < |s.db.attempts| ==> EndedRightly(s.db.attempts[a], s.db.executions, a) && ClosersRight(s, a)
  }

  lemma NewRowsHaveNewAttempts(db: Tables, plan: Launches.Plan, i: nat, a: nat)
    requires Launches.Launched(db, plan).Some? && a < |db.attempts|
    requires |db.executions| <= i < |Launches.Launched(db, plan).value.executions|
    ensures !Launches.Launched(db, plan).value.executions[i].InAttempt(a)
  {
    match plan
    case Questions(_, _, _, _) =>
    case Conversation(_, _) =>
    case Retry(_) =>
    case Controlled(_, _, _, _) =>
    case ControlledConversation(_, _, _, _) =>
  }

  lemma TurnsStayEnded(s: System, step: Step, a: nat)
    requires Enabled(s, step) && a < |s.db.attempts| && TurnsEnded(s.db.executions, a)
    ensures TurnsEnded(Apply(s, step).db.executions, a)
  {
    Evolution.StepEvolves(s, step);
    var es, fs := s.db.executions, Apply(s, step).db.executions;
    forall i | 0 <= i < |fs| && fs[i].manifest.conversation.Some? && fs[i].manifest.conversation.value.attempt == a
      ensures fs[i].outcome in {Success, Error, Timeout}
    {
      if i < |es| {
        assert Evolution.RowEvolves(es[i], fs[i]);
      } else {
        NewRowIsLaunched(s, step, i);
        NewRowsHaveNewAttempts(s.db, step.plan, i, a);
      }
    }
  }

  lemma NewRowIsLaunched(s: System, step: Step, i: nat)
    requires Enabled(s, step) && |s.db.executions| <= i < |Apply(s, step).db.executions|
    ensures step.Launch?
  {
    StepAddsNewRows(s, step, i);
  }

  /** A worker comes to the closing call only by having seen that it may close. */
  lemma ActionBringsClosing(s: System, t: Token, action: Action, u: Token)
    requires ActionEnabled(s, t, action) && u in Act(s, t, action).tasks && Act(s, t, action).tasks[u].pc == ClosingCall
    ensures u in s.tasks && Act(s, t, action).tasks[u].execution == s.tasks[u].execution
    ensures s.tasks[u].pc == ClosingCall || (u == t && HasAttempt(s, t) && MayClose(s.db, AttemptOf(s, t)))
  {
    ProtocolRuns.ActKeepsTasks(s, t, action);
    match action
    case Finish(now) => FinishBringsNoClosing(s, t, now, u);
    case Block(now) => BlockBringsNoClosing(s, t, now, u);
    case _ => PlainActionBringsClosing(s, t, action, u);
  }

  lemma FinishBringsNoClosing(s: System, t: Token, now: Time, u: Token)
    requires FinishEnabled(s, t) && u in s.tasks
    ensures u in FinishStep(s, t, now).tasks && FinishStep(s, t, now).tasks[u].execution == s.tasks[u].execution
    ensures FinishStep(s, t, now).tasks[u].pc == ClosingCall ==> s.tasks[u].pc == ClosingCall
  {
    FinishMovesOneTask(s, t, now);
  }

  lemma FinishMovesOneTask(s: System, t: Token, now: Time)
    requires FinishEnabled(s, t)
    ensures var after, pc := FinishStep(s, t, now).tasks, AfterFinish(Conversational(s, t), s.tasks[t].pc.usable);
      after == SetPc(s, t, pc).tasks || after == SetPc(s, t, Ended).tasks
  {
  }

  lemma BlockBringsNoClosing(s: System, t: Token, now: Time, u: Token)
    requires BlockEnabled(s, t, now) && u in s.tasks
    ensures u in BlockStep(s, t, now).tasks && BlockStep(s, t, now).tasks[u].execution == s.tasks[u].execution
    ensures BlockStep(s, t, now).tasks[u].pc == ClosingCall ==> s.tasks[u].pc == ClosingCall
  {
  }

  lemma PlainActionBringsClosing(s: System, t: Token, action: Action, u: Token)
    requires ActionEnabled(s, t, action) && u in s.tasks && !action.Finish? && !action.Block?
    requires u in Act(s, t, action).tasks && Act(s, t, action).tasks[u].pc == ClosingCall
    ensures Act(s, t, action).tasks[u].execution == s.tasks[u].execution
    ensures s.tasks[u].pc == ClosingCall || (u == t && HasAttempt(s, t) && MayClose(s.db, AttemptOf(s, t)))
  {
  }

  /** Tasks and their rows, across a step that may also be one of the environment. */
  lemma StepBringsClosing(s: System, step: Step, u: Token, a: nat)
    requires Enabled(s, step) && u in Apply(s, step).tasks && OnAttempt(Apply(s, step), u, a)
    requires Apply(s, step).tasks[u].pc == ClosingCall && TasksLinked(s) && a < |s.db.attempts|
    ensures OnAttempt(s, u, a) && (s.tasks[u].pc == ClosingCall || MayClose(s.db, a))
  {
    Evolution.StepEvolves(s, step);
    if step.Work? { ActionBringsClosing(s, step.token, step.action, u); }
    assert u in s.tasks && Apply(s, step).tasks[u].execution == s.tasks[u].execution;
    assert HasTask(s, u);
    assert Evolution.RowEvolves(RowOf(s, u), RowOf(Apply(s, step), u));
  }

  lemma ClosersStayRight(s: System, step: Step, a: nat)
    requires Enabled(s, step) && TasksLinked(s) && a < |s.db.attempts| && ClosersRight(s, a)
    requires a < |Apply(s, step).db.attempts|
    ensures ClosersRight(Apply(s, step), a)
  {
    var after := Apply(s, step);
    forall t | t in after.tasks && OnAttempt(after, t, a) && after.tasks[t].pc == ClosingCall
      ensures TurnsEnded(after.db.executions, a) && after.db.attempts[a].session != ""
    {
      StepBringsClosing(s, step, t, a);
      assert TurnsEnded(s.db.executions, a) && s.db.attempts[a].session != "";
      TurnsStayEnded(s, step, a);
      Theorems.SessionKept(s, step, a);
    }
  }

  /** What a step makes of an attempt that is right. */
  lemma EndsStayRight(s: System, step: Step, a: nat, before: Attempt, after: Attempt, es: seq<Execution>)
    requires AttemptMoves(s, step, a, before, after, es) && EndedRightly(before, s.db.executions, a)
    requires TurnsEnded(s.db.executions, a) ==> TurnsEnded(es, a)
    requires a < |s.db.attempts| && s.db.attempts[a] == before && ClosersRight(s, a)
    requires step.Work? && step.action.Close? ==> CloseEnabled(s, step.token)
    ensures EndedRightly(after, es, a)
  {
  }

  lemma StepKeepsRight(s: System, step: Step, a: nat)
    requires RunsAgree(s.db) && Sessions.SessionsSound(s) && TasksLinked(s) && Enabled(s, step)
    requires a < |s.db.attempts| && SessionRight(s, a)
    ensures SessionRight(Apply(s, step), a)
  {
    StepMovesAttempt(s, step, a);
    ClosersStayRight(s, step, a);
    if TurnsEnded(s.db.executions, a) { TurnsStayEnded(s, step, a); }
    EndsStayRight(s, step, a, s.db.attempts[a], Apply(s, step).db.attempts[a], Apply(s, step).db.executions);
  }

  lemma NewAttemptIsRight(s: System, step: Step, a: nat)
    requires Linked(s.db) && Sessions.SessionsSound(s) && TasksLinked(s) && Enabled(s, step)
    requires |s.db.attempts| <= a < |Apply(s, step).db.attempts|
    ensures SessionRight(Apply(s, step), a)
  {
    var after := Apply(s, step);
    StepAddsFreshAttempts(s, step, a);
    Evolution.StepEvolves(s, step);
    forall t | t in after.tasks ensures !(OnAttempt(after, t, a) && after.tasks[t].pc == ClosingCall) {
      if step.Launch? {
        assert t in s.tasks && HasTask(s, t) && after.tasks[t] == s.tasks[t];
        assert RowLinked(s.db, RowOf(s, t)) && Evolution.RowEvolves(RowOf(s, t), RowOf(after, t));
      } else if step.Work? {
        ActionMovesAttemptCount(s, step.token, step.action);
      }
    }
  }

  lemma StepFacts(states: seq<System>, steps: seq<Step>, k: nat)
    requires Behavior(states, steps) && k < |steps|
    ensures var s := states[k];
      && Linked(s.db) && RunsAgree(s.db) && Sessions.SessionsSound(s) && TasksLinked(s)
      && Enabled(s, steps[k]) && states[k + 1] == Apply(s, steps[k])
  {
    TraceHoldsInv(states, steps, k);
    assert StepAt(states, steps, k);
  }

  lemma {:induction false} SessionsEndRightly(states: seq<System>, steps: seq<Step>, k: nat, a: nat)
    requires Behavior(states, steps) && k < |states|
    ensures SessionRight(states[k], a)
  {
    if k > 0 {
      SessionsEndRightly(states, steps, k - 1, a);
      StepFacts(states, steps, k - 1);
      if a < |states[k - 1].db.attempts| {
        StepKeepsRight(states[k - 1], steps[k - 1], a);
      } else if a < |states[k].db.attempts| {
        NewAttemptIsRight(states[k - 1], steps[k - 1], a);
      }
    }
  }

  /** In every trace an attempt is over only when each of its turns has ended, and closed only when it is over and had a
      session; whoever is about to ask the target to close it has seen that. */
  lemma ClosedAfterLastTurn(states: seq<System>, steps: seq<Step>, k: nat, a: nat)
    requires Behavior(states, steps) && k < |states| && a < |states[k].db.attempts|
    ensures var s, attempt := states[k], states[k].db.attempts[a];
      && (attempt.completedAt.Some? ==> TurnsEnded(s.db.executions, a))
      && (attempt.state == Closed ==> attempt.completedAt.Some? && attempt.session != "")
      && (forall t :: t in s.tasks && OnAttempt(s, t, a) && s.tasks[t].pc == ClosingCall ==>
            TurnsEnded(s.db.executions, a) && attempt.session != "")
  {
    SessionsEndRightly(states, steps, k, a);
  }

  /** In every trace the state of an attempt moves as the steps say: a first session makes it active, breaking unusable,
      and only a close that the target granted closed. */
  lemma AttemptMovesAt(states: seq<System>, steps: seq<Step>, k: nat, a: nat)
    requires Behavior(states, steps) && k < |steps| && a < |states[k].db.attempts|
    ensures a < |states[k + 1].db.attempts|
    ensures AttemptMoves(states[k], steps[k], a, states[k].db.attempts[a], states[k + 1].db.attempts[a],
                         states[k + 1].db.executions)
  {
    StepFacts(states, steps, k);
    StepMovesAttempt(states[k], steps[k], a);
  }
}
