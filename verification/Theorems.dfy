/** The guarantees of the durable worker over whole traces: unboundedly many workers, crashes,
    expired leases, stale workers, recoveries, launches and operators, in any order. */
module Theorems {
  import opened Wrappers
  import opened Rows
  import opened Transactions
  import opened Protocol
  import opened TableInvariants
  import opened Submissions
  import opened ConversationOrder
  import opened Sessions
  import opened Ledger
  import opened Replays
  import opened RunHistory
  import opened Traces
  import Comparison
  import Evolution
  import ReconcileLoop
  import TransactionProofs

  // ---------- at most one submission ----------

  /** No execution is ever sent to the target twice, and none whose frozen input was unusable is sent at all. */
  lemma AtMostOnceSubmission(states: seq<System>, steps: seq<Step>, k: nat)
    requires Behavior(states, steps) && k < |states|
    ensures var calls := states[k].calls;
      forall j, m :: 0 <= j < m < |calls| ==> calls[j].execution != calls[m].execution
    ensures forall j :: 0 <= j < |states[k].calls| ==>
      && states[k].calls[j].execution < |states[k].db.executions|
      && states[k].db.executions[states[k].calls[j].execution].manifest.preflightError == ""
  {
    var s := states[k];
    TraceHoldsInv(states, steps, k);
    forall j | 0 <= j < |s.calls|
      ensures s.calls[j].execution < |s.db.executions|
              && s.db.executions[s.calls[j].execution].manifest.preflightError == ""
    {
      assert CallMade(s, s.calls[j]);
      assert StartedRow(s.db.executions[s.calls[j].execution], s.started[s.calls[j].execution]);
    }
  }

  lemma ActionGrowsMarks(s: System, t: Token, action: Action)
    requires StartedRows(s) && ActionEnabled(s, t, action)
    ensures forall i :: i in s.started ==>
      i in Act(s, t, action).started && Act(s, t, action).started[i] == s.started[i]
  {
    if action.Mark? { MarkStartsRow(s, t, action.now, action.lease); } else { OtherActionsMarkNothing(s, t, action); }
  }

  lemma OtherActionsMarkNothing(s: System, t: Token, action: Action)
    requires ActionEnabled(s, t, action) && !action.Mark?
    ensures Act(s, t, action).started == s.started
  {
  }

  lemma MarksOnlyGrow(s: System, step: Step)
    requires StartedRows(s) && Enabled(s, step)
    ensures forall i :: i in s.started ==> i in Apply(s, step).started && Apply(s, step).started[i] == s.started[i]
  {
    if step.Work? {
      ActionGrowsMarks(s, step.token, step.action);
    } else {
      assert Apply(s, step).started == s.started;
    }
  }

  lemma MarksGrowAt(states: seq<System>, steps: seq<Step>, k: nat)
    requires Behavior(states, steps) && k < |steps|
    ensures forall i :: i in states[k].started ==>
      i in states[k + 1].started && states[k + 1].started[i] == states[k].started[i]
  {
    assert StepAt(states, steps, k);
    TraceHoldsInv(states, steps, k);
    MarksOnlyGrow(states[k], steps[k]);
  }

  /** Once a submission is marked, its row is never pending and never claimable again, whatever happens later. */
  lemma {:induction false} MarkIsForever(states: seq<System>, steps: seq<Step>, k: nat, m: nat, i: nat, now: Time)
    requires Behavior(states, steps) && k <= m < |states| && i in states[k].started
    ensures i in states[m].started && states[m].started[i] == states[k].started[i]
    ensures i < |states[m].db.executions| && states[m].db.executions[i].outcome != Pending
    ensures states[m].db.executions[i].token == Some(states[k].started[i])
    ensures !Claimable(states[m].db, i, now)
  {
    TraceHoldsInv(states, steps, m);
    if k < m {
      MarkIsForever(states, steps, k, m - 1, i, now);
      MarksGrowAt(states, steps, m - 1);
    }
    assert StartedRow(states[m].db.executions[i], states[m].started[i]);
  }

  // ---------- conversations ----------

  /** One running turn at a time, after all earlier turns; turns sent in order; one session, carried by every turn. */
  lemma ConversationSafety(states: seq<System>, steps: seq<Step>, k: nat)
    requires Behavior(states, steps) && k < |states|
    ensures var es := states[k].db.executions;
      forall i, j :: 0 <= i < |es| && 0 <= j < |es| && SameAttempt(es[i], es[j])
        && es[i].outcome == Running && es[j].outcome == Running
        ==> i == j
    ensures var es := states[k].db.executions;
      forall i, j :: 0 <= i < |es| && 0 <= j < |es| && EarlierTurn(es[i], es[j]) && es[j].outcome == Running
        ==> es[i].outcome.Terminal()
    ensures var es, calls := states[k].db.executions, states[k].calls;
      forall p, q :: 0 <= p < q < |calls| ==> InOrder(states[k], calls[p], calls[q])
    ensures forall p, q :: 0 <= p < q < |states[k].opens| ==> states[k].opens[p].attempt != states[k].opens[q].attempt
    ensures forall p :: 0 <= p < |states[k].calls| ==> CallSession(states[k], states[k].calls[p])
    ensures forall a :: 0 <= a < |states[k].db.attempts| ==> Recorded(states[k], a)
  {
    TraceHoldsInv(states, steps, k);
    OneTurnAtATime(states[k].db.executions);
    forall p, q | 0 <= p < q < |states[k].calls| ensures InOrder(states[k], states[k].calls[p], states[k].calls[q]) {}
  }

  lemma OneTurnAtATime(es: seq<Execution>)
    requires RowsSound(es) && TurnOrder(es) && DistinctOrdinals(es)
    ensures
      forall i, j :: 0 <= i < |es| && 0 <= j < |es| && SameAttempt(es[i], es[j])
        && es[i].outcome == Running && es[j].outcome == Running
        ==> i == j
    ensures
      forall i, j :: 0 <= i < |es| && 0 <= j < |es| && EarlierTurn(es[i], es[j]) && es[j].outcome == Running
        ==> es[i].outcome.Terminal()
  {
    forall i, j | 0 <= i < |es| && 0 <= j < |es| && SameAttempt(es[i], es[j])
                  && es[i].outcome == Running && es[j].outcome == Running
      ensures i == j
    {
      ReconcileLoop.OneRunningTurn(es, i, j);
    }
    forall i, j | 0 <= i < |es| && 0 <= j < |es| && EarlierTurn(es[i], es[j]) && es[j].outcome == Running
      ensures es[i].outcome.Terminal()
    {
      assert RowSound(es[j]);
    }
  }

  lemma ActionKeepsSession(s: System, t: Token, action: Action, a: nat)
    requires ActionEnabled(s, t, action) && a < |s.db.attempts| && s.db.attempts[a].session != ""
    ensures a < |Act(s, t, action).db.attempts| && Act(s, t, action).db.attempts[a].session == s.db.attempts[a].session
  {
    match action
    case CommitSession =>
    case Finish(now) =>
    case Block(now) =>
    case Close(closed, now) =>
    case _ => assert Act(s, t, action).db.attempts == s.db.attempts;
  }

  lemma SessionKept(s: System, step: Step, a: nat)
    requires Enabled(s, step) && a < |s.db.attempts| && s.db.attempts[a].session != ""
    ensures a < |Apply(s, step).db.attempts| && Apply(s, step).db.attempts[a].session == s.db.attempts[a].session
  {
    if step.Work? { ActionKeepsSession(s, step.token, step.action, a); }
  }

  lemma SessionsKeptAt(states: seq<System>, steps: seq<Step>, k: nat, a: nat)
    requires IsTrace(states, steps) && k < |steps| && a < |states[k].db.attempts|
      && states[k].db.attempts[a].session != ""
    ensures a < |states[k + 1].db.attempts| && states[k + 1].db.attempts[a].session == states[k].db.attempts[a].session
  {
    assert StepAt(states, steps, k);
    SessionKept(states[k], steps[k], a);
  }

  /** The session identity of an attempt is written once. */
  lemma {:induction false} SessionWrittenOnce(states: seq<System>, steps: seq<Step>, k: nat, m: nat, a: nat)
    requires IsTrace(states, steps) && k <= m < |states|
    requires a < |states[k].db.attempts| && states[k].db.attempts[a].session != ""
    ensures a < |states[m].db.attempts| && states[m].db.attempts[a].session == states[k].db.attempts[a].session
  {
    if k < m {
      SessionWrittenOnce(states, steps, k, m - 1, a);
      SessionsKeptAt(states, steps, m - 1, a);
    }
  }

  // ---------- runs ----------

  /** A run's state is a function of its rows, and its progress counts cover its whole plan. */
  lemma RunStateIsTruthful(states: seq<System>, steps: seq<Step>, k: nat, r: nat)
    requires Behavior(states, steps) && k < |states| && r < |states[k].db.runs|
    ensures var run, es := states[k].db.runs[r], states[k].db.executions;
      var p := RunProgress(es, r);
      && (run.state in {Completed, CompletedWithErrors} <==> RunDone(es, r))
      && (run.state == Completed <==> RunClean(es, r))
      && (RunDone(es, r) <==> p.pending == 0 && p.running == 0)
      && p.pending + p.running + p.success + p.error + p.timeout == run.totalPlanned
  {
    TraceHoldsInv(states, steps, k);
    assert RunAgrees(states[k].db, r);
    CountsAddUp(states[k].db.executions, r);
    ProgressMeansDone(states[k].db.executions, r);
  }

  lemma RunsKeptAt(states: seq<System>, steps: seq<Step>, k: nat)
    requires Behavior(states, steps) && k < |steps|
    ensures TerminalRunsKept(states[k].db, states[k + 1].db)
  {
    assert StepAt(states, steps, k);
    TraceHoldsInv(states, steps, k);
    StepKeepsTerminalRuns(states[k], steps[k]);
  }

  /** A terminal run never changes. */
  lemma {:induction false} TerminalRunIsFinal(states: seq<System>, steps: seq<Step>, k: nat, m: nat, r: nat)
    requires Behavior(states, steps) && k <= m < |states|
    requires r < |states[k].db.runs| && states[k].db.runs[r].Terminal()
    ensures r < |states[m].db.runs| && states[m].db.runs[r] == states[k].db.runs[r]
  {
    if k < m {
      TerminalRunIsFinal(states, steps, k, m - 1, r);
      RunsKeptAt(states, steps, m - 1);
    }
  }

  // ---------- evidence ----------

  lemma ActionGrowsCredits(s: System, t: Token, action: Action)
    requires ActionEnabled(s, t, action)
    ensures forall i :: i in s.finished ==>
      i in Act(s, t, action).finished && Act(s, t, action).finished[i] == s.finished[i]
  {
    match action
    case Finish(now) =>
    case Block(now) =>
    case _ => assert Act(s, t, action).finished == s.finished;
  }

  lemma CreditsOnlyGrow(s: System, step: Step)
    requires Enabled(s, step)
    ensures forall i :: i in s.finished ==> i in Apply(s, step).finished && Apply(s, step).finished[i] == s.finished[i]
  {
    if step.Work? { ActionGrowsCredits(s, step.token, step.action); }
  }

  lemma RowsEvolveAt(states: seq<System>, steps: seq<Step>, k: nat)
    requires IsTrace(states, steps) && k < |steps|
    ensures Evolution.Evolves(states[k].db.executions, states[k + 1].db.executions)
  {
    assert StepAt(states, steps, k);
    Evolution.StepEvolves(states[k], steps[k]);
  }

  lemma CreditsGrowAt(states: seq<System>, steps: seq<Step>, k: nat)
    requires IsTrace(states, steps) && k < |steps|
    ensures forall i :: i in states[k].finished ==>
      i in states[k + 1].finished && states[k + 1].finished[i] == states[k].finished[i]
  {
    assert StepAt(states, steps, k);
    CreditsOnlyGrow(states[k], steps[k]);
  }

  /** Whatever a terminal row captured stays; only its validity may still be decided. */
  lemma {:induction false} EvidenceIsFinal(states: seq<System>, steps: seq<Step>, k: nat, m: nat, i: nat)
    requires IsTrace(states, steps) && k <= m < |states|
    requires i < |states[k].db.executions| && states[k].db.executions[i].outcome.Terminal()
    ensures i < |states[m].db.executions|
    ensures states[m].db.executions[i] == states[k].db.executions[i].(validity := states[m].db.executions[i].validity)
    ensures states[m].db.executions[i].Evidence() == states[k].db.executions[i].Evidence()
  {
    if k < m {
      EvidenceIsFinal(states, steps, k, m - 1, i);
      RowsEvolveAt(states, steps, m - 1);
      assert Evolution.RowEvolves(states[m - 1].db.executions[i], states[m].db.executions[i]);
    }
  }

  /** Every observation of the protocol has one writer: the holder of the token the row still carries,
      recovery, or the blocking of its session; before it the row had captured nothing. */
  lemma ObservationHasOneWriter(states: seq<System>, steps: seq<Step>, k: nat, i: nat)
    requires Behavior(states, steps) && k < |states| && i < |states[k].db.executions|
    ensures var s, e := states[k], states[k].db.executions[i];
      && e.ClaimState()
      && (e.phase == TerminalObserved <==> i in s.finished)
      && (i in s.finished ==> FinishedBy(e, s.finished[i]))
      && (!e.outcome.Terminal() ==> e.observation == NOTHING_OBSERVED)
  {
    TraceHoldsInv(states, steps, k);
    assert RowSound(states[k].db.executions[i]);
  }

  lemma {:induction false} WriterIsFinal(states: seq<System>, steps: seq<Step>, k: nat, m: nat, i: nat)
    requires IsTrace(states, steps) && k <= m < |states| && i in states[k].finished
    ensures i in states[m].finished && states[m].finished[i] == states[k].finished[i]
  {
    if k < m {
      WriterIsFinal(states, steps, k, m - 1, i);
      CreditsGrowAt(states, steps, m - 1);
    }
  }

  // ---------- where claims went ----------

  function Carriers(es: seq<Execution>): set<nat> {
    set i: nat | i < |es| && es[i].token.Some?
  }

  lemma SizeOfInjection(tokens: set<Token>, rows: set<nat>, row: map<Token, nat>)
    requires tokens == row.Keys && rows == row.Values
    requires forall t, u :: t in tokens && u in tokens && row[t] == row[u] ==> t == u
    ensures |tokens| == |rows|
    decreases |tokens|
  {
    if tokens != {} {
      var t :| t in tokens;
      var rest := row - {t};
      assert rest.Values == rows - {row[t]} by {
        forall i | i in rows - {row[t]} ensures i in rest.Values {
          var u :| u in row && row[u] == i;
          assert u in rest && rest[u] == i;
        }
      }
      SizeOfInjection(tokens - {t}, rows - {row[t]}, rest);
    }
  }

  /** Each row that carries a token carries it for exactly one claim that was not reclaimed. */
  lemma CarriersMatchClaims(s: System)
    requires RowsSound(s.db.executions) && ClaimsAccounted(s)
    requires forall i :: 0 <= i < |s.db.executions| ==> TokenHeld(s, i)
    ensures |s.tasks.Keys - s.reclaimed| == |Carriers(s.db.executions)|
  {
    var live := s.tasks.Keys - s.reclaimed;
    var row := map t | t in live :: s.tasks[t].execution;
    forall t | t in live ensures s.tasks[t].execution in Carriers(s.db.executions) && RowOf(s, t).token == Some(t) {
      assert HasTask(s, t) && Accounted(s, t);
    }
    forall i | i in Carriers(s.db.executions) ensures i in row.Values {
      assert TokenHeld(s, i);
      var t := s.db.executions[i].token.value;
      assert Accounted(s, t);
      assert t in row && row[t] == i;
    }
    SizeOfInjection(live, Carriers(s.db.executions), row);
  }

  lemma CarriersHeldOrDone(es: seq<Execution>)
    requires RowsSound(es)
    ensures forall i :: i in Carriers(es) ==> es[i].Held() || es[i].outcome.Terminal()
  {
    forall i | i in Carriers(es) ensures es[i].Held() || es[i].outcome.Terminal() {
      assert RowSound(es[i]);
    }
  }

  /** Conservation: every claim ever handed out was safely reclaimed or is the last claim of its row.
      When nothing runs any more, the latter are the rows that were finished through a claim. */
  lemma ClaimsAreConserved(states: seq<System>, steps: seq<Step>, k: nat)
    requires Behavior(states, steps) && k < |states|
    ensures |states[k].tasks| == |states[k].reclaimed| + |Carriers(states[k].db.executions)|
    ensures forall i :: i in Carriers(states[k].db.executions) ==>
      states[k].db.executions[i].Held() || states[k].db.executions[i].outcome.Terminal()
  {
    TraceHoldsInv(states, steps, k);
    ConservedIn(states[k]);
    CarriersHeldOrDone(states[k].db.executions);
  }

  lemma ConservedIn(s: System)
    requires RowsSound(s.db.executions) && ClaimsAccounted(s)
    requires forall i :: 0 <= i < |s.db.executions| ==> TokenHeld(s, i)
    ensures |s.tasks| == |s.reclaimed| + |Carriers(s.db.executions)|
  {
    CarriersMatchClaims(s);
    assert s.tasks.Keys == s.reclaimed + (s.tasks.Keys - s.reclaimed);
  }

  // ---------- controlled replays ----------

  /** Exactly the replays that a worker completed have a comparison item, and only one;
      replays finished by recovery or blocking have none. */
  lemma ReplayItems(states: seq<System>, steps: seq<Step>, k: nat, i: nat)
    requires Behavior(states, steps) && k < |states|
    requires i < |states[k].db.executions| && states[k].db.executions[i].manifest.baseline.Some?
    ensures HasItem(states[k].db, i) <==> i in states[k].finished && states[k].finished[i].ByWorker?
    ensures forall j, m :: 0 <= j < m < |states[k].db.items| ==>
      states[k].db.items[j].current != states[k].db.items[m].current
  {
    var s := states[k];
    TraceHoldsInv(states, steps, k);
    assert Faithful(s.db, s.db.executions[i]);
    assert Replay(s.db, i);
    if HasItem(s.db, i) {
      var j :| 0 <= j < |s.db.items| && s.db.items[j].current == i;
      assert ItemSound(s, s.db.items[j]);
    }
  }

  lemma CompletionRecordsAnswerChange(s: System, t: Token, now: Time)
    requires Linked(s.db) && RowsSound(s.db.executions) && RunsAgree(s.db) && ReplaysFaithful(s.db)
    requires FinishesSound(s) && ItemsSound(s)
    requires FinishEnabled(s, t) && Owns(s, t) && RowOf(s, t).manifest.baseline.Some?
    requires Complete(s.db, s.tasks[t].execution, s.tasks[t].pc.outcome, s.tasks[t].pc.seen, now).Some?
    ensures var i, pc := s.tasks[t].execution, s.tasks[t].pc;
      var after := Complete(s.db, i, pc.outcome, pc.seen, now).value;
      var b := RowOf(s, t).manifest.baseline.value;
      && i < |after.executions| && b < |after.executions| && after.executions[i].outcome.Terminal()
      && after.items == s.db.items + [ComparisonItem(i, b, AnswerChange(after.executions[b], after.executions[i]))]
  {
    var i, pc := s.tasks[t].execution, s.tasks[t].pc;
    CompletionItems(s.db, i, pc.outcome, pc.seen, now);
    var es := s.db.executions[i := FinalizeExecution(s.db.executions[i], pc.outcome, pc.seen, now)];
    assert i !in s.finished;
    NoItemYet(s, i);
    assert Faithful(s.db, s.db.executions[i]);
    RecordedItems(s.db, es, i);
    FinalizedStaysFaithful(s.db, es, i);
    MismatchUnreachable(s.db.(executions := es), i);
  }

  lemma FinalizedStaysFaithful(db: Tables, es: seq<Execution>, i: nat)
    requires i < |db.executions| && Faithful(db, db.executions[i]) && |es| == |db.executions|
    requires forall k :: 0 <= k < |es| ==> es[k].manifest == db.executions[k].manifest
    ensures Faithful(db.(executions := es), es[i])
  {
  }

  /** The item recorded when a worker completes a replay depends on the answers and their usability
      alone: no identity, version, turn, question, binding or membership mismatch can be its reason. */
  lemma ReplayComparisonUsesAnswersOnly(states: seq<System>, steps: seq<Step>, k: nat, t: Token, now: Time)
    requires Behavior(states, steps) && k < |steps| && steps[k] == Work(t, Finish(now))
    requires HasTask(states[k], t) && Owns(states[k], t) && RowOf(states[k], t).manifest.baseline.Some?
    ensures var s, after, i := states[k], states[k + 1], states[k].tasks[t].execution;
      var b := RowOf(s, t).manifest.baseline.value;
      && i < |after.db.executions| && b < |after.db.executions|
      && after.db.executions[i].outcome.Terminal()
      && after.db.items ==
           s.db.items + [ComparisonItem(i, b, AnswerChange(after.db.executions[b], after.db.executions[i]))]
  {
    var s := states[k];
    TraceHoldsInv(states, steps, k);
    assert StepAt(states, steps, k);
    assert ActionEnabled(s, t, Finish(now)) && states[k + 1] == FinishStep(s, t, now);
    TransactionProofs.CompleteCommits(s.db, s.tasks[t].execution, s.tasks[t].pc.outcome, s.tasks[t].pc.seen, now);
    CompletionRecordsAnswerChange(s, t, now);
  }
}
