/** A conversation that never ends: finishing a turn and blocking its session are two transactions, so another worker
    can claim the next turn in between, and when that claim is reclaimed the turn waits under an unusable session. */
module StuckConversation {
  import opened Wrappers
  import opened Rows
  import opened Transactions
  import opened Protocol
  import opened Traces
  import opened TableInvariants
  import Launches
  import Capacity
  import Drain

  const INPUT := FrozenInput(Some(0), Some(0), "q", "q", map[])
  const TURNS := [Turn(10, 1, INPUT, ""), Turn(11, 2, INPUT, "")]
  const NO_ANSWER := Observation("", "", None, NOTHING_REPORTED, "TARGET_TIMEOUT")

  /** The tables of the one run throughout: two turns, one attempt, one claim at a time. */
  predicate Shape(s: System) {
    && |s.db.executions| == 2 && |s.db.runs| == 1 && |s.db.attempts| == 1
    && s.db.runs[0].actualConcurrency == 1 && s.db.runs[0].configuredMaxConcurrency == 1
    && s.db.runs[0].state in {Queued, InProgress} && s.db.runs[0].nextDispatchAt.None? && s.db.runs[0].delay == 0
    && s.db.runs[0].comparison.None?
    && (forall k :: 0 <= k < 2 ==>
          var m := s.db.executions[k].manifest;
          && m.run == 0 && m.revision == 0 && m.preflightError == "" && m.baseline.None?
          && m.conversation == Some(TurnRef(0, k + 1, 10 + k)))
  }

  predicate Fresh(e: Execution) { e == Launches.FreshExecution(e.manifest) }

  predicate Queued2(s: System) {
    && Shape(s) && s.clock == 0 && s.tasks == map[]
    && Fresh(s.db.executions[0]) && Fresh(s.db.executions[1])
    && s.db.attempts[0] == Attempt(0, 0, None, "", NoSession, None)
  }

  predicate FirstAt(s: System, pc: Pc) {
    Shape(s) && s.clock == 0 && s.tasks == map[0 := Task(0, "a", pc)] && Fresh(s.db.executions[1])
  }

  predicate FirstRuns(s: System, phase: Phase) {
    Shape(s) && s.db.executions[0].OwnedBy("a", 0) && s.db.executions[0].phase == phase
  }

  predicate SecondHeld(s: System) {
    && Shape(s) && s.db.executions[1].OwnedBy("b", 1) && s.db.executions[1].phase == Claimed
    && s.db.executions[1].expiresAt == Some(30)
    && s.db.executions[0].outcome == Timeout && s.db.attempts[0].session == "s"
  }

  lemma OneStep(s: System, t: System, step: Step)
    requires Enabled(s, step) && t == Apply(s, step)
    ensures IsTrace([s, t], [step])
  {
    assert StepAt([s, t], [step], 0);
  }

  lemma TwoSteps(s: System, t: System, u: System, first: Step, second: Step)
    requires Enabled(s, first) && t == Apply(s, first) && Enabled(t, second) && u == Apply(t, second)
    ensures IsTrace([s, t, u], [first, second])
  {
    var states, steps := [s, t, u], [first, second];
    assert StepAt(states, steps, 0) && StepAt(states, steps, 1);
  }

  lemma Launch2() returns (s: System, t: System)
    ensures IsTrace([Capacity.EmptySystem(), s, t], [AddScenario(TURNS), Launch(Launches.Conversation(0, 0))])
    ensures Queued2(t)
  {
    var e := Capacity.EmptySystem();
    s := Apply(e, AddScenario(TURNS));
    t := Apply(s, Launch(Launches.Conversation(0, 0)));
    TwoSteps(e, s, t, AddScenario(TURNS), Launch(Launches.Conversation(0, 0)));
  }

  lemma ClaimFirst(s: System) returns (t: System)
    requires Queued2(s)
    ensures IsTrace([s, t], [Claim(0, "a", 0, 0, 30)])
    ensures FirstAt(t, Holding) && FirstRuns(t, Claimed)
    ensures t.db.attempts[0] == Attempt(0, 0, None, "", NoSession, None) && t.db.executions[0].startedAt == Some(0)
  {
    assert RunActive(s.db.executions, 0, 0) == {} && RevisionActive(s.db.executions, 0, 0) == {};
    assert Claimable(s.db, 0, 0);
    t := ClaimStep(s, 0, "a", 0, 0, 30);
    OneStep(s, t, Claim(0, "a", 0, 0, 30));
  }

  lemma MarkFirst(s: System) returns (t: System)
    requires FirstAt(s, Holding) && FirstRuns(s, Claimed)
      && s.db.attempts[0] == Attempt(0, 0, None, "", NoSession, None)
    ensures IsTrace([s, t], [Work(0, Mark(0, 30))])
    ensures FirstAt(t, Marked) && FirstRuns(t, SubmissionStarted)
    ensures t.db.attempts[0] == Attempt(0, 0, None, "", NoSession, None)
    ensures t.db.executions[0].startedAt == s.db.executions[0].startedAt && t.db.executions[0].expiresAt == Some(30)
  {
    t := MarkStep(s, 0, 0, 30);
    FirstMarked(s);
    OneStep(s, t, Work(0, Mark(0, 30)));
  }

  lemma FirstMarked(s: System)
    requires FirstAt(s, Holding) && FirstRuns(s, Claimed)
    ensures var t := MarkStep(s, 0, 0, 30);
      && FirstAt(t, Marked) && FirstRuns(t, SubmissionStarted) && t.db.attempts == s.db.attempts
      && t.db.executions[0].startedAt == s.db.executions[0].startedAt && t.db.executions[0].expiresAt == Some(30)
  {
  }

  lemma ReadFirst(s: System) returns (t: System)
    requires FirstAt(s, Marked) && FirstRuns(s, SubmissionStarted)
    requires s.db.attempts[0] == Attempt(0, 0, None, "", NoSession, None)
    ensures IsTrace([s, t], [Work(0, ReadSession)])
    ensures FirstAt(t, Opening) && FirstRuns(t, SubmissionStarted)
    ensures t.db.attempts[0] == Attempt(0, 0, None, "", NoSession, None)
  {
    t := ReadSessionStep(s, 0);
    OneStep(s, t, Work(0, ReadSession));
  }

  lemma OpenFirst(s: System) returns (t: System, u: System)
    requires FirstAt(s, Opening) && FirstRuns(s, SubmissionStarted)
    requires s.db.attempts[0] == Attempt(0, 0, None, "", NoSession, None)
    ensures IsTrace([s, t, u], [Work(0, OpenCall("s")), Work(0, CommitSession)])
    ensures FirstAt(u, ReadyToSubmit("s")) && FirstRuns(u, SubmissionStarted)
    ensures u.db.attempts[0] == Attempt(0, 0, None, "s", Active, None)
  {
    t := OpenCallStep(s, 0, "s");
    u := CommitSessionStep(t, 0);
    TwoSteps(s, t, u, Work(0, OpenCall("s")), Work(0, CommitSession));
  }

  lemma TimeOutFirst(s: System) returns (t: System)
    requires FirstAt(s, ReadyToSubmit("s")) && FirstRuns(s, SubmissionStarted)
    requires s.db.attempts[0] == Attempt(0, 0, None, "s", Active, None)
    ensures IsTrace([s, t], [Work(0, Submit(Timeout, NO_ANSWER, false))])
    ensures FirstAt(t, Finishing(Timeout, NO_ANSWER, false)) && FirstRuns(t, SubmissionStarted)
    ensures t.db.attempts[0] == Attempt(0, 0, None, "s", Active, None)
  {
    t := SubmitStep(s, 0, Timeout, NO_ANSWER, false);
    OneStep(s, t, Work(0, Submit(Timeout, NO_ANSWER, false)));
  }

  lemma FinishFirst(s: System) returns (t: System)
    requires FirstAt(s, Finishing(Timeout, NO_ANSWER, false)) && FirstRuns(s, SubmissionStarted)
    requires s.db.attempts[0] == Attempt(0, 0, None, "s", Active, None)
    ensures IsTrace([s, t], [Work(0, Finish(0))])
    ensures FirstAt(t, Blocking) && t.db.executions[0].outcome == Timeout
    ensures t.db.attempts[0] == Attempt(0, 0, None, "s", Active, None)
  {
    t := FinishStep(s, 0, 0);
    FirstFinished(s);
    OneStep(s, t, Work(0, Finish(0)));
  }

  lemma FirstFinished(s: System)
    requires FirstAt(s, Finishing(Timeout, NO_ANSWER, false)) && FirstRuns(s, SubmissionStarted)
    ensures var t := FinishStep(s, 0, 0);
      FirstAt(t, Blocking) && t.db.executions[0].outcome == Timeout && t.db.attempts == s.db.attempts
  {
    FirstTimesOut(s);
    FinishBreaks(s, 0, 0, Complete(s.db, 0, Timeout, NO_ANSWER, 0).value);
  }

  /** A turn that ends without a usable session goes on to break it. */
  lemma FinishBreaks(s: System, t: Token, now: Time, db: Tables)
    requires FinishEnabled(s, t) && Owns(s, t) && Conversational(s, t) && !s.tasks[t].pc.usable
    requires Complete(s.db, s.tasks[t].execution, s.tasks[t].pc.outcome, s.tasks[t].pc.seen, now) == Some(db)
    ensures FinishStep(s, t, now) == SetPc(s, t, Blocking).(db := db, finished := FinishStep(s, t, now).finished)
  {
  }

  /** The completion of the first turn: its row ends, and the run goes on because of the second one. */
  lemma FirstTimesOut(s: System)
    requires Shape(s) && FirstRuns(s, SubmissionStarted) && Fresh(s.db.executions[1])
    ensures Complete(s.db, 0, Timeout, NO_ANSWER, 0) ==
      Some(s.db.(executions := s.db.executions[0 := FinalizeExecution(s.db.executions[0], Timeout, NO_ANSWER, 0)]))
  {
    var es := s.db.executions[0 := FinalizeExecution(s.db.executions[0], Timeout, NO_ANSWER, 0)];
    assert es[1].outcome == Pending && es[1].manifest.run == 0;
    assert !RunDone(es, 0);
    assert s.db.runs[0 := s.db.runs[0]] == s.db.runs;
  }

  lemma ClaimSecond(s: System) returns (t: System)
    requires FirstAt(s, Blocking) && s.db.executions[0].outcome == Timeout
    requires s.db.attempts[0] == Attempt(0, 0, None, "s", Active, None)
    ensures IsTrace([s, t], [Claim(1, "b", 1, 0, 30)])
    ensures SecondHeld(t) && t.clock == 0 && 0 in t.tasks && t.tasks[0] == Task(0, "a", Blocking)
  {
    assert RunActive(s.db.executions, 0, 0) == {} && RevisionActive(s.db.executions, 0, 0) == {};
    assert TurnReady(s.db, s.db.executions[1]);
    assert Claimable(s.db, 1, 0);
    t := ClaimStep(s, 1, "b", 1, 0, 30);
    SecondClaimed(s);
    OneStep(s, t, Claim(1, "b", 1, 0, 30));
  }

  lemma SecondClaimed(s: System)
    requires FirstAt(s, Blocking) && s.db.executions[0].outcome == Timeout && s.db.attempts[0].session == "s"
    requires Claimable(s.db, 1, 0)
    ensures var t := ClaimStep(s, 1, "b", 1, 0, 30);
      SecondHeld(t) && t.clock == 0 && 0 in t.tasks && t.tasks[0] == Task(0, "a", Blocking)
  {
  }

  lemma BlockFirst(s: System) returns (t: System)
    requires SecondHeld(s) && s.clock == 0 && 0 in s.tasks && s.tasks[0] == Task(0, "a", Blocking)
    ensures IsTrace([s, t], [Work(0, Block(0))])
    ensures SecondHeld(t) && t.clock == 0 && t.db.attempts[0].state == Unusable
  {
    t := BlockStep(s, 0, 0);
    var es := BlockTurns(s.db.executions, 0, 0);
    assert es[0] == s.db.executions[0] && es[1] == s.db.executions[1];
    assert !RunDone(es, 0);
    OneStep(s, t, Work(0, Block(0)));
  }

  lemma ReclaimedPair(es: seq<Execution>)
    requires |es| == 2 && es[0].outcome == Timeout
    requires es[1].outcome == Running && es[1].phase == Claimed && es[1].expiresAt == Some(30)
    ensures ReconcileRows(es, 30, {}) == [es[0], ClearSafeClaim(es[1])]
    ensures forall r: nat :: !TouchedRun(es, r, 30, {})
    ensures forall a: nat :: !BrokenAttempt(es, a, 30, {})
  {
    assert Reclaimed(es, 1, 30, {});
    assert forall i :: 0 <= i < 2 ==> !Ambiguous(es, i, 30, {});
  }

  lemma ReclaimSecond(s: System) returns (t: System, u: System)
    requires SecondHeld(s) && s.clock == 0 && s.db.attempts[0].state == Unusable
    ensures IsTrace([s, t, u], [Tick(30), Reconciliation(30, {})])
    ensures |u.db.runs| == 1 && !u.db.runs[0].Terminal()
    ensures Drain.NothingRunning(u.db.executions) && Drain.StuckTurns(u.db) == {1}
    ensures |u.db.executions| == 2 && u.db.executions[0].outcome == Timeout
  {
    t := s.(clock := 30);
    u := ReconciliationStep(t, 30, {});
    ReclaimedPair(s.db.executions);
    assert u.db.executions[1] == ClearSafeClaim(s.db.executions[1]);
    TwoSteps(s, t, u, Tick(30), Reconciliation(30, {}));
  }

  /** The first half: worker `a` has completed the first turn and is about to block the session. */
  lemma UpToBlocking() returns (states: seq<System>, steps: seq<Step>)
    ensures IsTrace(states, steps) && states[0] == Capacity.EmptySystem()
    ensures var s := states[|steps|];
      && FirstAt(s, Blocking) && s.db.executions[0].outcome == Timeout
      && s.db.attempts[0] == Attempt(0, 0, None, "s", Active, None)
  {
    var a, b := Launch2();
    var c := ClaimFirst(b);
    var d := MarkFirst(c);
    var e := ReadFirst(d);
    var f, g := OpenFirst(e);
    var h := TimeOutFirst(g);
    var i := FinishFirst(h);
    states, steps := [Capacity.EmptySystem(), a, b], [AddScenario(TURNS), Launch(Launches.Conversation(0, 0))];
    states, steps := Then(states, steps, [b, c], [Claim(0, "a", 0, 0, 30)]);
    states, steps := Then(states, steps, [c, d], [Work(0, Mark(0, 30))]);
    states, steps := Then(states, steps, [d, e], [Work(0, ReadSession)]);
    states, steps := Then(states, steps, [e, f, g], [Work(0, OpenCall("s")), Work(0, CommitSession)]);
    states, steps := Then(states, steps, [g, h], [Work(0, Submit(Timeout, NO_ANSWER, false))]);
    states, steps := Then(states, steps, [h, i], [Work(0, Finish(0))]);
  }

  /** A run with nothing running and a turn that no worker will ever be offered. */
  lemma BlockingCanComeTooLate() returns (states: seq<System>, steps: seq<Step>)
    ensures Behavior(states, steps)
    ensures var db := states[|steps|].db;
      && Drain.NothingRunning(db.executions) && |db.runs| == 1 && !db.runs[0].Terminal()
      && Drain.Waiting(db.executions) == Drain.StuckTurns(db) == {1}
      && forall now: Time, k :: 0 <= k < |db.executions| ==> !Claimable(db, k, now)
  {
    states, steps := UpToBlocking();
    var i := states[|steps|];
    var j := ClaimSecond(i);
    var k := BlockFirst(j);
    var l, m := ReclaimSecond(k);
    states, steps := Then(states, steps, [i, j], [Claim(1, "b", 1, 0, 30)]);
    states, steps := Then(states, steps, [j, k], [Work(0, Block(0))]);
    states, steps := Then(states, steps, [k, l, m], [Tick(30), Reconciliation(30, {})]);
    Capacity.EmptyIsInitial();
    EndIsIdle(m.db);
  }

  lemma EndIsIdle(db: Tables)
    requires Drain.NothingRunning(db.executions) && Drain.StuckTurns(db) == {1} && |db.executions| == 2
    requires db.executions[0].outcome != Pending
    ensures Drain.Waiting(db.executions) == {1}
    ensures forall now: Time, k :: 0 <= k < |db.executions| ==> !Claimable(db, k, now)
  {
    assert 1 in Drain.StuckTurns(db);
  }

  lemma Then(states: seq<System>, steps: seq<Step>, more: seq<System>, rest: seq<Step>)
    returns (all: seq<System>, both: seq<Step>)
    requires IsTrace(states, steps) && IsTrace(more, rest) && more[0] == states[|steps|] && |rest| > 0
    ensures IsTrace(all, both) && both == steps + rest
    ensures all[0] == states[0] && all[|both|] == more[|rest|]
  {
    StepsAppend(states, steps, more, rest);
    all, both := states + more[1..], steps + rest;
  }
}
