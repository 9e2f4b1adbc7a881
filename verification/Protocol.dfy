/** The worker protocol as a transition system: the tables, the clock, one task per
    claim that a worker was ever given, and logs of what left the database. */
module Protocol {
  import opened Wrappers
  import opened Rows
  import opened Transactions
  import Launches

  /** Where `process_claim` stands for one claim. A crash ends the task at any point. */
  datatype Pc =
    | Holding                                    // before the submission mark
    | Marked                                     // the mark committed, nothing sent yet
    | Opening                                    // about to open the conversation session
    | OpenedSession(session: string)             // the target opened it, not yet recorded
    | ReadyToSubmit(session: string)             // about to submit the turn in this session
    | Finishing(outcome: FinalOutcome, seen: Observation, usable: bool)
    | Blocking                                   // about to mark the session unusable
    | Closing                                    // about to look whether the session can be closed
    | ClosingCall                                // decided to close it
    | Ended
  {
    /** The mark was crossed and the question has not been sent. */
    predicate MaySubmit() { Marked? || Opening? || OpenedSession? || ReadyToSubmit? }

    /** The session has not been recorded by this task yet. */
    predicate MayOpen() { Opening? || OpenedSession? }
  }

  datatype Task = Task(execution: nat, worker: string, pc: Pc)

  /** A question sent to the target, in a session unless the row is a single question. */
  datatype Call = Call(execution: nat, token: Token, session: string)

  datatype OpenedCall = OpenedCall(attempt: nat, token: Token, session: string)

  /** Who wrote a terminal observation. */
  datatype Finisher = ByWorker(token: Token) | ByRecovery | ByBlocking

  datatype System = System(
    db: Tables,
    clock: Time,
    tasks: map<Token, Task>,
    started: map<nat, Token>,
    calls: seq<Call>,
    opens: seq<OpenedCall>,
    reclaimed: set<Token>,
    finished: map<nat, Finisher>)

  /** What the worker that holds (or once held) a claim does next. A success always leaves its session usable. */
  datatype Action =
    | Heartbeat(now: Time, lease: nat)
    | Mark(now: Time, lease: nat)
    | Refused
    | Fail(outcome: FinalOutcome, seen: Observation, usable: bool)
    | ReadSession
    | OpenCall(session: string)
    | CommitSession
    | Submit(outcome: FinalOutcome, seen: Observation, usable: bool)
    | Finish(now: Time)
    | Block(now: Time)
    | SeeClose
    | Close(closed: bool, now: Time)
    | Crash

  datatype Step =
    | Tick(to: Time)
    | AddRevision(revision: Revision)
    | AddScenario(turns: seq<Turn>)
    | Promote(run: nat)
    | Launch(plan: Launches.Plan)
    | Claim(execution: nat, worker: string, token: Token, now: Time, lease: nat)
    | Work(token: Token, action: Action)
    | Reconciliation(now: Time, skipped: set<nat>)
    | Validate(execution: nat, validity: Validity)

  // ---------- helpers ----------

  function SetPc(s: System, t: Token, pc: Pc): System
    requires t in s.tasks
  {
    s.(tasks := s.tasks[t := s.tasks[t].(pc := pc)])
  }

  /** The row a task works on, as it is now. */
  function RowOf(s: System, t: Token): Execution
    requires t in s.tasks && s.tasks[t].execution < |s.db.executions|
  {
    s.db.executions[s.tasks[t].execution]
  }

  predicate HasTask(s: System, t: Token) {
    t in s.tasks && s.tasks[t].execution < |s.db.executions|
  }

  predicate Conversational(s: System, t: Token)
    requires HasTask(s, t)
  {
    RowOf(s, t).manifest.conversation.Some?
  }

  predicate HasAttempt(s: System, t: Token) {
    && HasTask(s, t) && Conversational(s, t)
    && RowOf(s, t).manifest.conversation.value.attempt < |s.db.attempts|
  }

  function AttemptOf(s: System, t: Token): nat
    requires HasAttempt(s, t)
  {
    RowOf(s, t).manifest.conversation.value.attempt
  }

  predicate HasRun(s: System, t: Token) {
    HasTask(s, t) && RowOf(s, t).manifest.run < |s.db.runs|
  }

  predicate Owns(s: System, t: Token)
    requires HasTask(s, t)
  {
    RowOf(s, t).OwnedBy(s.tasks[t].worker, t)
  }

  /** Credits every row that became terminal between two versions of the table. */
  function Credited(before: seq<Execution>, after: seq<Execution>, finished: map<nat, Finisher>, running: Finisher):
    (credited: map<nat, Finisher>)
    requires |before| == |after|
  {
    finished + map i: nat | && i < |after| && i !in finished
                            && !before[i].outcome.Terminal() && after[i].outcome.Terminal()
                         :: if before[i].outcome == Pending then ByBlocking else running
  }

  function ReclaimedTokens(s: System, now: Time, skipped: set<nat>): set<Token> {
    set t | t in s.tasks && HasTask(s, t)
            && Reclaimed(s.db.executions, s.tasks[t].execution, now, skipped) && RowOf(s, t).token == Some(t)
  }

  // ---------- the steps ----------

  predicate ClaimEnabled(s: System, i: nat, worker: string, t: Token, now: Time) {
    now <= s.clock && t !in s.tasks && worker != "" && Claimable(s.db, i, now)
  }

  function ClaimStep(s: System, i: nat, worker: string, t: Token, now: Time, lease: nat): System
    requires ClaimEnabled(s, i, worker, t, now)
  {
    s.(db := RecordClaim(s.db, i, worker, t, now, lease), tasks := s.tasks[t := Task(i, worker, Holding)])
  }

  predicate HeartbeatEnabled(s: System, t: Token, now: Time) {
    now <= s.clock && HasTask(s, t) && Owns(s, t) && RowOf(s, t).Held()
  }

  function HeartbeatStep(s: System, t: Token, now: Time, lease: nat): System
    requires HasTask(s, t)
  {
    s.(db := RefreshLease(s.db, s.tasks[t].execution, now, lease))
  }

  predicate MarkEnabled(s: System, t: Token, now: Time) {
    && now <= s.clock && HasTask(s, t) && s.tasks[t].pc == Holding
    && RowOf(s, t).manifest.preflightError == ""
    && MayMark(s.db, s.tasks[t].execution, s.tasks[t].worker, t)
  }

  function MarkStep(s: System, t: Token, now: Time, lease: nat): System
    requires HasTask(s, t)
  {
    var i := s.tasks[t].execution;
    SetPc(s, t, Marked).(db := MarkSubmission(s.db, i, now, lease), started := s.started[i := t])
  }

  /** The mark was refused: the claim is no longer this worker's, or was already marked. */
  predicate RefusedEnabled(s: System, t: Token) {
    && HasTask(s, t) && s.tasks[t].pc == Holding
    && !MayMark(s.db, s.tasks[t].execution, s.tasks[t].worker, t)
  }

  /** Anything before the send can fail, on both sides of the mark. */
  predicate FailEnabled(s: System, t: Token, outcome: FinalOutcome) {
    HasTask(s, t) && (s.tasks[t].pc == Holding || s.tasks[t].pc.MaySubmit()) && outcome in {Error, Timeout}
  }

  predicate ReadSessionEnabled(s: System, t: Token) {
    HasAttempt(s, t) && s.tasks[t].pc == Marked
  }

  const SESSION_FAILED := Finishing(Error, Observation("", "", None, NOTHING_REPORTED, "SESSION_FAILED"), false)

  /** The unlocked read at the head of `_ensure_conversation_session`. */
  function ReadSessionStep(s: System, t: Token): System
    requires HasAttempt(s, t)
  {
    var attempt := s.db.attempts[AttemptOf(s, t)];
    if attempt.state == Unusable then SetPc(s, t, SESSION_FAILED)
    else if attempt.session != "" then SetPc(s, t, ReadyToSubmit(attempt.session))
    else if RowOf(s, t).manifest.conversation.value.ordinal != 1 then SetPc(s, t, SESSION_FAILED)
    else SetPc(s, t, Opening)
  }

  predicate OpenCallEnabled(s: System, t: Token, session: string) {
    HasAttempt(s, t) && s.tasks[t].pc == Opening && session != ""
  }

  function OpenCallStep(s: System, t: Token, session: string): System
    requires HasAttempt(s, t)
  {
    SetPc(s, t, OpenedSession(session)).(opens := s.opens + [OpenedCall(AttemptOf(s, t), t, session)])
  }

  predicate CommitSessionEnabled(s: System, t: Token) {
    HasAttempt(s, t) && s.tasks[t].pc.OpenedSession?
  }

  function CommitSessionStep(s: System, t: Token): System
    requires CommitSessionEnabled(s, t)
  {
    var a := AttemptOf(s, t);
    match RecordSession(s.db.attempts[a], s.tasks[t].pc.session)
    case None => SetPc(s, t, SESSION_FAILED)
    case Some(attempt) =>
      SetPc(s, t, ReadyToSubmit(attempt.session)).(db := s.db.(attempts := s.db.attempts[a := attempt]))
  }

  predicate SubmitEnabled(s: System, t: Token) {
    && HasTask(s, t)
    && (if Conversational(s, t) then s.tasks[t].pc.ReadyToSubmit? else s.tasks[t].pc == Marked)
  }

  function SubmitStep(s: System, t: Token, outcome: FinalOutcome, seen: Observation, usable: bool): System
    requires SubmitEnabled(s, t)
  {
    var session := if s.tasks[t].pc.ReadyToSubmit? then s.tasks[t].pc.session else "";
    SetPc(s, t, Finishing(outcome, seen, usable)).(calls := s.calls + [Call(s.tasks[t].execution, t, session)])
  }

  function AfterFinish(conversational: bool, usable: bool): Pc {
    if !conversational then Ended else if usable then Closing else Blocking
  }

  predicate FinishEnabled(s: System, t: Token) {
    HasRun(s, t) && s.tasks[t].pc.Finishing?
  }

  /** A stale worker completes nothing, yet still goes on to block or close the session. */
  function FinishStep(s: System, t: Token, now: Time): System
    requires FinishEnabled(s, t)
  {
    var i, pc := s.tasks[t].execution, s.tasks[t].pc;
    var after := AfterFinish(Conversational(s, t), pc.usable);
    if !Owns(s, t) then SetPc(s, t, after)
    else match Complete(s.db, i, pc.outcome, pc.seen, now)
      case None => SetPc(s, t, Ended)
      case Some(db) =>
        SetPc(s, t, after).(db := db, finished := Credited(s.db.executions, db.executions, s.finished, ByWorker(t)))
  }

  predicate BlockEnabled(s: System, t: Token, now: Time) {
    now <= s.clock && HasRun(s, t) && HasAttempt(s, t) && s.tasks[t].pc == Blocking
  }

  function BlockStep(s: System, t: Token, now: Time): System
    requires HasRun(s, t) && HasAttempt(s, t)
  {
    match MarkUnusable(s.db, s.tasks[t].execution, now)
    case None => SetPc(s, t, Ended)
    case Some(db) =>
      SetPc(s, t, Closing).(db := db, finished := Credited(s.db.executions, db.executions, s.finished, ByWorker(t)))
  }

  predicate SeeCloseEnabled(s: System, t: Token) {
    HasAttempt(s, t) && s.tasks[t].pc == Closing
  }

  predicate MayClose(db: Tables, a: nat)
    requires a < |db.attempts|
  {
    && db.attempts[a].completedAt.None? && db.attempts[a].state != Unusable && db.attempts[a].session != ""
    && AttemptDone(db.executions, a)
  }

  function SeeCloseStep(s: System, t: Token): System
    requires HasAttempt(s, t)
  {
    SetPc(s, t, if MayClose(s.db, AttemptOf(s, t)) then ClosingCall else Ended)
  }

  predicate CloseEnabled(s: System, t: Token) {
    HasAttempt(s, t) && s.tasks[t].pc == ClosingCall
  }

  function CloseStep(s: System, t: Token, closed: bool, now: Time): System
    requires HasAttempt(s, t)
  {
    var a := AttemptOf(s, t);
    SetPc(s, t, Ended).(db := s.db.(attempts := s.db.attempts[a := CloseSession(s.db.attempts[a], closed, now)]))
  }

  function ReconciliationStep(s: System, now: Time, skipped: set<nat>): System {
    var db := Reconcile(s.db, now, skipped);
    s.(db := db, reclaimed := s.reclaimed + ReclaimedTokens(s, now, skipped),
       finished := Credited(s.db.executions, db.executions, s.finished, ByRecovery))
  }

  predicate ValidateEnabled(s: System, i: nat) {
    i < |s.db.executions| && s.db.executions[i].outcome.Terminal()
  }

  predicate ActionEnabled(s: System, t: Token, action: Action) {
    t in s.tasks &&
    match action
    case Heartbeat(now, _) => HeartbeatEnabled(s, t, now)
    case Mark(now, _) => MarkEnabled(s, t, now)
    case Refused => RefusedEnabled(s, t)
    case Fail(outcome, _, _) => FailEnabled(s, t, outcome)
    case ReadSession => ReadSessionEnabled(s, t)
    case OpenCall(session) => OpenCallEnabled(s, t, session)
    case CommitSession => CommitSessionEnabled(s, t)
    case Submit(outcome, _, usable) => SubmitEnabled(s, t) && (outcome == Success ==> usable)
    case Finish(_) => FinishEnabled(s, t)
    case Block(now) => BlockEnabled(s, t, now)
    case SeeClose => SeeCloseEnabled(s, t)
    case Close(_, _) => CloseEnabled(s, t)
    case Crash => true
  }

  function Act(s: System, t: Token, action: Action): System
    requires ActionEnabled(s, t, action)
  {
    match action
    case Heartbeat(now, lease) => HeartbeatStep(s, t, now, lease)
    case Mark(now, lease) => MarkStep(s, t, now, lease)
    case Refused => SetPc(s, t, Ended)
    case Fail(outcome, seen, usable) => SetPc(s, t, Finishing(outcome, seen, usable))
    case ReadSession => ReadSessionStep(s, t)
    case OpenCall(session) => OpenCallStep(s, t, session)
    case CommitSession => CommitSessionStep(s, t)
    case Submit(outcome, seen, usable) => SubmitStep(s, t, outcome, seen, usable)
    case Finish(now) => FinishStep(s, t, now)
    case Block(now) => BlockStep(s, t, now)
    case SeeClose => SeeCloseStep(s, t)
    case Close(closed, now) => CloseStep(s, t, closed, now)
    case Crash => SetPc(s, t, Ended)
  }

  predicate Enabled(s: System, step: Step) {
    match step
    case Tick(to) => s.clock <= to
    case AddRevision(revision) => 1 <= revision.maxConcurrency
    case AddScenario(turns) =>
      forall j, k :: 0 <= j < k < |turns| ==> turns[j].ordinal < turns[k].ordinal && turns[j].id != turns[k].id
    case Promote(r) => Launches.PromoteBaseline(s.db, r).Some?
    case Launch(plan) => Launches.Launched(s.db, plan).Some?
    case Claim(i, worker, t, now, _) => ClaimEnabled(s, i, worker, t, now)
    case Work(t, action) => ActionEnabled(s, t, action)
    case Reconciliation(now, _) => now <= s.clock
    case Validate(i, _) => ValidateEnabled(s, i)
  }

  function Apply(s: System, step: Step): System
    requires Enabled(s, step)
  {
    match step
    case Tick(to) => s.(clock := to)
    case AddRevision(revision) => s.(db := s.db.(revisions := s.db.revisions + [revision]))
    case AddScenario(turns) => s.(db := s.db.(scenarios := s.db.scenarios + [turns]))
    case Promote(r) => s.(db := Launches.PromoteBaseline(s.db, r).value)
    case Launch(plan) => s.(db := Launches.Launched(s.db, plan).value)
    case Claim(i, worker, t, now, lease) => ClaimStep(s, i, worker, t, now, lease)
    case Work(t, action) => Act(s, t, action)
    case Reconciliation(now, skipped) => ReconciliationStep(s, now, skipped)
    case Validate(i, validity) => s.(db := SetValidity(s.db, i, validity))
  }

  /** Time and new catalog or baseline rows do not touch the work queue. */
  lemma CatalogStepsAreQuiet(s: System, step: Step)
    requires Enabled(s, step) && (step.Tick? || step.AddRevision? || step.AddScenario? || step.Promote?)
    ensures var after := Apply(s, step);
      && after == s.(db := after.db, clock := after.clock) && s.clock <= after.clock
      && after.db ==
           s.db.(revisions := after.db.revisions, scenarios := after.db.scenarios, baselines := after.db.baselines)
      && |s.db.baselines| <= |after.db.baselines|
      && after.db.baselines[..|s.db.baselines|] == s.db.baselines
      && |s.db.revisions| <= |after.db.revisions|
      && after.db.revisions[..|s.db.revisions|] == s.db.revisions
  {
  }

  ghost predicate StepAt(states: seq<System>, steps: seq<Step>, k: nat)
    requires k < |steps| && |states| == |steps| + 1
  {
    Enabled(states[k], steps[k]) && states[k + 1] == Apply(states[k], steps[k])
  }

  /** A run of the system: every state follows from the one before by an enabled step. */
  ghost predicate IsTrace(states: seq<System>, steps: seq<Step>) {
    |states| == |steps| + 1 && forall k: nat :: k < |steps| ==> StepAt(states, steps, k)
  }

  lemma StepsAppend(states: seq<System>, steps: seq<Step>, more: seq<System>, rest: seq<Step>)
    requires IsTrace(states, steps) && IsTrace(more, rest) && more[0] == states[|steps|]
    ensures IsTrace(states + more[1..], steps + rest)
  {
    var all, both := states + more[1..], steps + rest;
    forall k: nat | k < |both| ensures StepAt(all, both, k) {
      if k < |steps| {
        assert StepAt(states, steps, k);
      } else {
        assert StepAt(more, rest, k - |steps|);
        assert all[k] == more[k - |steps|] && all[k + 1] == more[k - |steps| + 1];
      }
    }
  }
}
