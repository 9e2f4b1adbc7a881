/** One session per conversation: opened at most once, its identity written once, and carried by every turn sent. */
module Sessions {
  import opened Wrappers
  import opened Rows
  import opened Transactions
  import opened Protocol
  import opened TableInvariants
  import opened Submissions
  import Launches
  import LaunchProofs

  predicate FirstTurn(s: System, t: Token) {
    HasAttempt(s, t) && RowOf(s, t).manifest.conversation.value.ordinal == 1
  }

  predicate OpenLogged(s: System, a: nat, session: string) {
    exists k :: 0 <= k < |s.opens| && s.opens[k].attempt == a && s.opens[k].session == session
  }

  /** What a task holds in hand agrees with what the attempt has recorded. */
  predicate TaskSession(s: System, t: Token)
    requires t in s.tasks
  {
    match s.tasks[t].pc
    case ReadyToSubmit(session) =>
      HasAttempt(s, t) && session != "" && s.db.attempts[AttemptOf(s, t)].session == session
    case Opening => FirstTurn(s, t) && s.db.attempts[AttemptOf(s, t)].session == ""
    case OpenedSession(session) =>
      && FirstTurn(s, t) && s.db.attempts[AttemptOf(s, t)].session == "" && session != ""
      && OpenLogged(s, AttemptOf(s, t), session)
    case _ => true
  }

  /** A session was opened by the marker of the first turn, which is past opening. */
  predicate OpenMade(s: System, o: OpenedCall) {
    && FirstTurn(s, o.token) && AttemptOf(s, o.token) == o.attempt && o.session != ""
    && s.tasks[o.token].execution in s.started && s.started[s.tasks[o.token].execution] == o.token
    && s.tasks[o.token].pc != Marked && s.tasks[o.token].pc != Opening
  }

  /** Every recorded identity was returned by the target to an open call for that attempt. */
  predicate Recorded(s: System, a: nat)
    requires a < |s.db.attempts|
  {
    s.db.attempts[a].session != "" ==> OpenLogged(s, a, s.db.attempts[a].session)
  }

  /** A turn submission carries the recorded identity, a single question none. */
  predicate CallSession(s: System, c: Call) {
    && c.execution < |s.db.executions|
    && match s.db.executions[c.execution].manifest.conversation
       case None => c.session == ""
       case Some(ref) =>
         c.session != "" && ref.attempt < |s.db.attempts| && s.db.attempts[ref.attempt].session == c.session
  }

  predicate SessionsSound(s: System) {
    && (forall t :: t in s.tasks ==> TaskSession(s, t))
    && (forall k :: 0 <= k < |s.opens| ==> OpenMade(s, s.opens[k]))
    && (forall j, k :: 0 <= j < k < |s.opens| ==> s.opens[j].attempt != s.opens[k].attempt)
    && (forall a :: 0 <= a < |s.db.attempts| ==> Recorded(s, a))
    && (forall k :: 0 <= k < |s.calls| ==> CallSession(s, s.calls[k]))
  }

  // ---------- steps that leave sessions alone ----------

  /** Rows keep their manifests, attempts their sessions; new attempts have none. */
  predicate SessionFrame(s: System, after: System) {
    && after.opens == s.opens && after.started.Keys >= s.started.Keys
    && (forall i :: i in s.started ==> after.started[i] == s.started[i])
    && |s.db.executions| <= |after.db.executions| && |s.db.attempts| <= |after.db.attempts|
    && (forall i :: 0 <= i < |s.db.executions| ==> after.db.executions[i].manifest == s.db.executions[i].manifest)
    && (forall a :: 0 <= a < |s.db.attempts| ==> after.db.attempts[a].session == s.db.attempts[a].session)
    && (forall a :: |s.db.attempts| <= a < |after.db.attempts| ==> after.db.attempts[a].session == "")
  }

  lemma FramedTask(s: System, after: System, t: Token)
    requires TasksLinked(s) && t in s.tasks && t in after.tasks && TaskSession(s, t) && SessionFrame(s, after)
    requires after.tasks[t].execution == s.tasks[t].execution
    requires after.tasks[t].pc == s.tasks[t].pc
             || !(after.tasks[t].pc.ReadyToSubmit? || after.tasks[t].pc.MayOpen())
    ensures TaskSession(after, t)
  {
  }

  lemma FramedOpen(s: System, after: System, o: OpenedCall)
    requires OpenMade(s, o) && SessionFrame(s, after) && o.token in after.tasks
    requires after.tasks[o.token].execution == s.tasks[o.token].execution
    requires after.tasks[o.token].pc != Marked && after.tasks[o.token].pc != Opening
    ensures OpenMade(after, o)
  {
  }

  lemma FramedRecords(s: System, after: System)
    requires SessionsSound(s) && SessionFrame(s, after)
    ensures forall a :: 0 <= a < |after.db.attempts| ==> Recorded(after, a)
    ensures forall k :: 0 <= k < |s.calls| ==> CallSession(after, s.calls[k])
  {
    forall a | 0 <= a < |after.db.attempts| ensures Recorded(after, a) {
      if a < |s.db.attempts| { assert Recorded(s, a); }
    }
    forall k | 0 <= k < |s.calls| ensures CallSession(after, s.calls[k]) {
      assert CallSession(s, s.calls[k]);
    }
  }

  /** No task gains a session or an opening; a task that gains the mark had an unmarked row. */
  predicate CounterFrame(s: System, after: System) {
    && (forall t :: t in s.tasks ==> t in after.tasks && after.tasks[t].execution == s.tasks[t].execution)
    && (forall t :: t in s.tasks ==>
               || after.tasks[t].pc == s.tasks[t].pc
               || !(after.tasks[t].pc.ReadyToSubmit? || after.tasks[t].pc.MayOpen() || after.tasks[t].pc == Marked)
               || (s.tasks[t].pc == Holding && after.tasks[t].pc == Marked && s.tasks[t].execution !in s.started))
    && (forall t :: t in after.tasks && t !in s.tasks ==> after.tasks[t].pc == Holding)
  }

  /** A change of rows, or of task counters that do not gain a session or an opening. */
  lemma FrameKeepsSessions(s: System, after: System)
    requires TasksLinked(s) && SessionsSound(s) && SessionFrame(s, after) && after.calls == s.calls
    requires CounterFrame(s, after)
    ensures SessionsSound(after)
  {
    forall t | t in after.tasks ensures TaskSession(after, t) {
      if t in s.tasks {
        assert TaskSession(s, t);
        FramedTask(s, after, t);
      }
    }
    forall k | 0 <= k < |after.opens| ensures OpenMade(after, after.opens[k]) {
      assert OpenMade(s, s.opens[k]);
      FramedOpen(s, after, s.opens[k]);
    }
    FramedRecords(s, after);
  }

  // ---------- the session steps ----------

  lemma ReadSessionKeeps(s: System, t: Token)
    requires TasksLinked(s) && SessionsSound(s) && ReadSessionEnabled(s, t) && Senders(s)
    ensures SessionsSound(ReadSessionStep(s, t))
  {
    var after := ReadSessionStep(s, t);
    assert SessionFrame(s, after);
    forall u | u in after.tasks ensures TaskSession(after, u) {
      assert TaskSession(s, u);
      if u != t { FramedTask(s, after, u); }
    }
    forall k | 0 <= k < |after.opens| ensures OpenMade(after, after.opens[k]) {
      assert OpenMade(s, s.opens[k]);
      FramedOpen(s, after, s.opens[k]);
    }
    FramedRecords(s, after);
  }

  /** Two markers of first turns of one attempt are the same task. */
  lemma OneOpener(s: System, t: Token, u: Token)
    requires Linked(s.db) && DistinctOrdinals(s.db.executions) && FirstTurn(s, t) && FirstTurn(s, u)
    requires AttemptOf(s, t) == AttemptOf(s, u)
    requires s.tasks[t].execution in s.started && s.started[s.tasks[t].execution] == t
    requires s.tasks[u].execution in s.started && s.started[s.tasks[u].execution] == u
    ensures t == u
  {
    assert SameAttempt(RowOf(s, t), RowOf(s, u));
    assert s.tasks[t].execution == s.tasks[u].execution;
  }

  /** Nobody has opened a session of this attempt while its first turn is about to. */
  lemma NotOpenedYet(s: System, t: Token, k: nat)
    requires Linked(s.db) && DistinctOrdinals(s.db.executions) && Senders(s)
    requires SessionsSound(s) && HasAttempt(s, t) && s.tasks[t].pc == Opening && k < |s.opens|
    ensures s.opens[k].attempt != AttemptOf(s, t) && s.opens[k].token != t
  {
    assert TaskSession(s, t);
    assert OpenMade(s, s.opens[k]);
    if s.opens[k].attempt == AttemptOf(s, t) { OneOpener(s, t, s.opens[k].token); }
  }

  lemma OpenCallTasks(s: System, t: Token, session: string)
    requires TasksLinked(s) && SessionsSound(s) && OpenCallEnabled(s, t, session)
    ensures forall u :: u in s.tasks ==> TaskSession(OpenCallStep(s, t, session), u)
  {
    var after := OpenCallStep(s, t, session);
    assert TaskSession(s, t);
    assert after.opens[|s.opens|] == OpenedCall(AttemptOf(s, t), t, session);
    forall u | u in after.tasks ensures TaskSession(after, u) {
      assert TaskSession(s, u);
      if u != t && s.tasks[u].pc.OpenedSession? {
        var b := AttemptOf(s, u);
        var k :| 0 <= k < |s.opens| && s.opens[k].attempt == b && s.opens[k].session == s.tasks[u].pc.session;
        assert after.opens[k] == s.opens[k];
      }
    }
  }

  lemma NewOpenMade(s: System, t: Token, session: string)
    requires Senders(s) && OpenCallEnabled(s, t, session) && TaskSession(s, t)
    ensures OpenMade(OpenCallStep(s, t, session), OpenedCall(AttemptOf(s, t), t, session))
  {
  }

  lemma OldOpenMade(s: System, t: Token, session: string, o: OpenedCall)
    requires OpenCallEnabled(s, t, session) && OpenMade(s, o) && o.token != t
    ensures OpenMade(OpenCallStep(s, t, session), o)
  {
  }

  lemma OpenCallMade(s: System, t: Token, session: string, k: nat)
    requires Linked(s.db) && DistinctOrdinals(s.db.executions) && Senders(s)
    requires SessionsSound(s) && OpenCallEnabled(s, t, session) && k <= |s.opens|
    ensures OpenMade(OpenCallStep(s, t, session), OpenCallStep(s, t, session).opens[k])
  {
    assert TaskSession(s, t);
    if k < |s.opens| {
      NotOpenedYet(s, t, k);
      OldOpenMade(s, t, session, s.opens[k]);
    } else {
      NewOpenMade(s, t, session);
    }
  }

  lemma OpenCallOpens(s: System, t: Token, session: string)
    requires Linked(s.db) && DistinctOrdinals(s.db.executions) && Submitting(s)
    requires SessionsSound(s) && OpenCallEnabled(s, t, session)
    ensures var after := OpenCallStep(s, t, session);
      && (forall k :: 0 <= k < |after.opens| ==> OpenMade(after, after.opens[k]))
      && (forall j, k :: 0 <= j < k < |after.opens| ==> after.opens[j].attempt != after.opens[k].attempt)
  {
    var after := OpenCallStep(s, t, session);
    forall k | 0 <= k < |after.opens|
      ensures OpenMade(after, after.opens[k])
      ensures k < |s.opens| ==> after.opens[k].attempt != AttemptOf(s, t)
    {
      OpenCallMade(s, t, session, k);
      if k < |s.opens| { NotOpenedYet(s, t, k); }
    }
  }

  lemma OpenCallKeeps(s: System, t: Token, session: string)
    requires Linked(s.db) && DistinctOrdinals(s.db.executions) && Submitting(s)
    requires SessionsSound(s) && OpenCallEnabled(s, t, session)
    ensures SessionsSound(OpenCallStep(s, t, session))
  {
    var after := OpenCallStep(s, t, session);
    OpenCallTasks(s, t, session);
    OpenCallOpens(s, t, session);
    forall b | 0 <= b < |after.db.attempts| ensures Recorded(after, b) { MoreOpensKeepRecorded(s, after, b); }
    forall k | 0 <= k < |after.calls| ensures CallSession(after, after.calls[k]) {
      assert CallSession(s, s.calls[k]);
    }
  }

  lemma MoreOpensKeepRecorded(s: System, after: System, b: nat)
    requires b < |s.db.attempts| && Recorded(s, b)
    requires after.db == s.db && s.opens <= after.opens
    ensures Recorded(after, b)
  {
    if s.db.attempts[b].session != "" {
      var k :| 0 <= k < |s.opens| && s.opens[k].attempt == b && s.opens[k].session == s.db.attempts[b].session;
      assert after.opens[k] == s.opens[k];
    }
  }

  /** The branch that finds a different recorded identity is never taken: recording always succeeds. */
  lemma CommitFindsNoOther(s: System, t: Token)
    requires SessionsSound(s) && CommitSessionEnabled(s, t)
    ensures s.db.attempts[AttemptOf(s, t)].session == ""
    ensures RecordSession(s.db.attempts[AttemptOf(s, t)], s.tasks[t].pc.session).Some?
  {
    assert TaskSession(s, t);
  }

  lemma CommitTask(s: System, t: Token, u: Token)
    requires CommitSessionEnabled(s, t) && TaskSession(s, t) && u in s.tasks && TaskSession(s, u)
    requires u != t && s.tasks[u].pc.MayOpen() ==> AttemptOf(s, u) != AttemptOf(s, t)
    ensures TaskSession(CommitSessionStep(s, t), u)
  {
  }

  lemma CommitTasks(s: System, t: Token)
    requires Linked(s.db) && DistinctOrdinals(s.db.executions) && Senders(s)
    requires SessionsSound(s) && CommitSessionEnabled(s, t)
    ensures forall u :: u in s.tasks ==> TaskSession(CommitSessionStep(s, t), u)
  {
    assert TaskSession(s, t);
    forall u | u in s.tasks ensures TaskSession(CommitSessionStep(s, t), u) {
      assert TaskSession(s, u);
      if u != t && s.tasks[u].pc.MayOpen() && AttemptOf(s, u) == AttemptOf(s, t) { OneOpener(s, t, u); }
      CommitTask(s, t, u);
    }
  }

  lemma CommitSessionKeeps(s: System, t: Token)
    requires Linked(s.db) && DistinctOrdinals(s.db.executions) && Submitting(s)
    requires SessionsSound(s) && CommitSessionEnabled(s, t)
    ensures SessionsSound(CommitSessionStep(s, t))
  {
    var after := CommitSessionStep(s, t);
    CommitFindsNoOther(s, t);
    CommitTasks(s, t);
    CommitLogs(s, t);
  }

  lemma CommitLogs(s: System, t: Token)
    requires SessionsSound(s) && CommitSessionEnabled(s, t)
    ensures var after := CommitSessionStep(s, t);
      && (forall k :: 0 <= k < |after.opens| ==> OpenMade(after, after.opens[k]))
      && (forall a :: 0 <= a < |after.db.attempts| ==> Recorded(after, a))
      && (forall k :: 0 <= k < |after.calls| ==> CallSession(after, after.calls[k]))
  {
    var after := CommitSessionStep(s, t);
    CommitFindsNoOther(s, t);
    assert TaskSession(s, t);
    forall k | 0 <= k < |after.opens| ensures OpenMade(after, after.opens[k]) {
      assert OpenMade(s, s.opens[k]);
    }
    forall b | 0 <= b < |after.db.attempts| ensures Recorded(after, b) {
      assert Recorded(s, b);
    }
    forall k | 0 <= k < |after.calls| ensures CallSession(after, after.calls[k]) {
      assert CallSession(s, s.calls[k]);
    }
  }

  lemma SubmitKeepsSessions(s: System, t: Token, outcome: FinalOutcome, seen: Observation, usable: bool)
    requires TasksLinked(s) && SessionsSound(s) && SubmitEnabled(s, t)
    ensures SessionsSound(SubmitStep(s, t, outcome, seen, usable))
  {
    var after := SubmitStep(s, t, outcome, seen, usable);
    var quiet := after.(calls := s.calls);
    FrameKeepsSessions(s, quiet);
    assert TaskSession(s, t);
    forall u | u in after.tasks ensures TaskSession(after, u) { assert TaskSession(quiet, u); }
    forall k | 0 <= k < |after.opens| ensures OpenMade(after, after.opens[k]) {
      assert OpenMade(quiet, quiet.opens[k]);
    }
    forall a | 0 <= a < |after.db.attempts| ensures Recorded(after, a) { assert Recorded(quiet, a); }
    forall k | 0 <= k < |after.calls| ensures CallSession(after, after.calls[k]) {
      if k < |s.calls| { assert CallSession(quiet, quiet.calls[k]); }
    }
  }

  // ---------- everything else ----------

  lemma MarkFrames(s: System, t: Token, now: Time, lease: nat)
    requires StartedRows(s) && MarkEnabled(s, t, now)
    ensures SessionFrame(s, MarkStep(s, t, now, lease)) && CounterFrame(s, MarkStep(s, t, now, lease))
  {
    MarkStartsRow(s, t, now, lease);
  }

  lemma MarkKeepsSessions(s: System, t: Token, now: Time, lease: nat)
    requires Submitting(s) && SessionsSound(s) && MarkEnabled(s, t, now)
    ensures SessionsSound(MarkStep(s, t, now, lease))
  {
    MarkFrames(s, t, now, lease);
    FrameKeepsSessions(s, MarkStep(s, t, now, lease));
  }

  lemma ClaimKeepsSessions(s: System, i: nat, worker: string, t: Token, now: Time, lease: nat)
    requires TasksLinked(s) && SessionsSound(s) && ClaimEnabled(s, i, worker, t, now)
    ensures SessionsSound(ClaimStep(s, i, worker, t, now, lease))
  {
    FrameKeepsSessions(s, ClaimStep(s, i, worker, t, now, lease));
  }

  /** Some rows were finalized and the task moved past its submission. */
  lemma FinishedKeepsSessions(s: System, mid: System, after: System, t: Token)
    requires TasksLinked(s) && SessionsSound(s)
    requires mid == s.(db := mid.db) && mid.db.attempts == s.db.attempts
    requires |mid.db.executions| == |s.db.executions|
    requires forall k :: 0 <= k < |s.db.executions| ==> mid.db.executions[k].manifest == s.db.executions[k].manifest
    requires OnlyPc(mid, after, t) && after == mid.(tasks := after.tasks, finished := after.finished)
    requires !after.tasks[t].pc.MaySubmit()
    ensures SessionsSound(after)
  {
    FrameKeepsSessions(s, after);
  }

  lemma FinishKeepsSessions(s: System, t: Token, now: Time)
    requires TasksLinked(s) && SessionsSound(s) && FinishEnabled(s, t)
    ensures SessionsSound(FinishStep(s, t, now))
  {
    var i, pc := s.tasks[t].execution, s.tasks[t].pc;
    if Owns(s, t) && Complete(s.db, i, pc.outcome, pc.seen, now).Some? {
      FinishSplits(s, t, now);
      FinishedKeepsSessions(s, s.(db := Complete(s.db, i, pc.outcome, pc.seen, now).value), FinishStep(s, t, now), t);
    } else {
      FinishedKeepsSessions(s, s, FinishStep(s, t, now), t);
    }
  }

  lemma BlockSessionFrame(s: System, t: Token, now: Time)
    requires BlockEnabled(s, t, now)
    ensures SessionFrame(s, BlockStep(s, t, now)) && BlockStep(s, t, now).calls == s.calls
  {
  }

  lemma BlockCounterFrame(s: System, t: Token, now: Time)
    requires BlockEnabled(s, t, now)
    ensures CounterFrame(s, BlockStep(s, t, now))
  {
  }

  lemma BlockKeepsSessions(s: System, t: Token, now: Time)
    requires TasksLinked(s) && SessionsSound(s) && BlockEnabled(s, t, now)
    ensures SessionsSound(BlockStep(s, t, now))
  {
    BlockSessionFrame(s, t, now);
    BlockCounterFrame(s, t, now);
    FrameKeepsSessions(s, BlockStep(s, t, now));
  }

  lemma CloseKeepsSessions(s: System, t: Token, closed: bool, now: Time)
    requires TasksLinked(s) && SessionsSound(s) && CloseEnabled(s, t)
    ensures SessionsSound(CloseStep(s, t, closed, now))
  {
    FrameKeepsSessions(s, CloseStep(s, t, closed, now));
  }

  lemma ReconciliationKeepsSessions(s: System, now: Time, skipped: set<nat>)
    requires TasksLinked(s) && SessionsSound(s)
    ensures SessionsSound(ReconciliationStep(s, now, skipped))
  {
    FrameKeepsSessions(s, ReconciliationStep(s, now, skipped));
  }

  lemma LaunchKeepsSessions(s: System, plan: Launches.Plan)
    requires Linked(s.db) && TasksLinked(s) && SessionsSound(s) && Launches.Launched(s.db, plan).Some?
    ensures SessionsSound(s.(db := Launches.Launched(s.db, plan).value))
  {
    LaunchProofs.PlanFits(s.db, plan);
    FrameKeepsSessions(s, s.(db := Launches.Launched(s.db, plan).value));
  }

  lemma ActionKeepsSessions(s: System, t: Token, action: Action)
    requires Linked(s.db) && DistinctOrdinals(s.db.executions) && Submitting(s)
    requires SessionsSound(s) && ActionEnabled(s, t, action)
    ensures SessionsSound(Act(s, t, action))
  {
    match action
    case Mark(now, lease) => MarkKeepsSessions(s, t, now, lease);
    case ReadSession => ReadSessionKeeps(s, t);
    case OpenCall(session) => OpenCallKeeps(s, t, session);
    case CommitSession => CommitSessionKeeps(s, t);
    case Submit(outcome, seen, usable) => SubmitKeepsSessions(s, t, outcome, seen, usable);
    case Finish(now) => FinishKeepsSessions(s, t, now);
    case Block(now) => BlockKeepsSessions(s, t, now);
    case Close(closed, now) => CloseKeepsSessions(s, t, closed, now);
    case _ => PlainActionKeepsSessions(s, t, action);
  }

  lemma PlainActionKeepsSessions(s: System, t: Token, action: Action)
    requires TasksLinked(s) && SessionsSound(s) && ActionEnabled(s, t, action)
    requires action.Heartbeat? || action.Refused? || action.Fail? || action.SeeClose? || action.Crash?
    ensures SessionsSound(Act(s, t, action))
  {
    PlainActionFrames(s, t, action);
    FrameKeepsSessions(s, Act(s, t, action));
  }

  lemma PlainActionFrames(s: System, t: Token, action: Action)
    requires ActionEnabled(s, t, action)
    requires action.Heartbeat? || action.Refused? || action.Fail? || action.SeeClose? || action.Crash?
    ensures var after := Act(s, t, action);
      SessionFrame(s, after) && CounterFrame(s, after) && after.calls == s.calls
  {
  }

  lemma OtherStepKeepsSessions(s: System, step: Step)
    requires TasksLinked(s) && SessionsSound(s) && Enabled(s, step)
    requires step.Tick? || step.AddRevision? || step.AddScenario? || step.Promote? || step.Validate?
    ensures SessionsSound(Apply(s, step))
  {
    if !step.Validate? { CatalogStepsAreQuiet(s, step); }
    FrameKeepsSessions(s, Apply(s, step));
  }

  lemma StepKeepsSessions(s: System, step: Step)
    requires Linked(s.db) && DistinctOrdinals(s.db.executions) && Submitting(s) && SessionsSound(s) && Enabled(s, step)
    ensures SessionsSound(Apply(s, step))
  {
    match step
    case Launch(plan) => LaunchKeepsSessions(s, plan);
    case Claim(i, worker, t, now, lease) => ClaimKeepsSessions(s, i, worker, t, now, lease);
    case Work(t, action) => ActionKeepsSessions(s, t, action);
    case Reconciliation(now, skipped) => ReconciliationKeepsSessions(s, now, skipped);
    case _ => OtherStepKeepsSessions(s, step);
  }
}
