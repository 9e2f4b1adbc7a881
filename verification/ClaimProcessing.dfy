/** What a worker does with a claim it was given. Besides what happens to the rows, every program here shows the list of
    protocol steps that it takes, so that all that holds of protocol runs holds of it. */
module ClaimProcessing {
  import opened Wrappers
  import opened Rows
  import opened Transactions
  import opened TableInvariants
  import opened TransactionProofs
  import opened WorkQueue
  import opened ProtocolRuns
  import opened ClaimSteps
  import P = Protocol

  /** How asking the target ended, or failed. */
  datatype Ending = Ending(outcome: FinalOutcome, seen: Observation, usable: bool)

  /** What the target and the worker's environment do for one claim: a failure before the mark, the session that an open
      call returns or its failure, the answer, and whether the target closes the session. */
  datatype TargetReply = TargetReply(before: Option<Ending>, opening: Result<string, Ending>, answer: Ending,
      closes: bool)
  {
    /** A failure is an error or a timeout; a success leaves the session usable; an opened session has an identity. */
    predicate Possible() {
      && (before.Some? ==> before.value.outcome in {Error, Timeout})
      && (if opening.Ok? then opening.value != "" else opening.error.outcome in {Error, Timeout})
      && (answer.outcome == Success ==> answer.usable)
    }
  }

  const FAILED_SESSION := Ending(Error, Observation("", "", None, NOTHING_REPORTED, "SESSION_FAILED"), false)

  function PreflightFailure(e: Execution): Ending {
    Ending(Error, Observation("", "", None, NOTHING_REPORTED, e.manifest.preflightError), false)
  }

  /** A waiting turn was ended without ever being claimed, because its session broke. */
  predicate BlockedFrom(e: Execution, f: Execution) {
    && e.outcome == Pending && e.manifest.conversation.Some?
    && f.outcome == Error && f.observation == BLOCKED && f.manifest == e.manifest && f.claimAttempt == e.claimAttempt
  }

  /** Row `i` is finished; of the others at most waiting turns of the same attempt were ended with it. */
  predicate Finished(es: seq<Execution>, fs: seq<Execution>, i: nat)
    requires i < |es|
  {
    && |fs| == |es| && fs[i].outcome.Terminal() && fs[i].manifest == es[i].manifest
    && fs[i].claimAttempt == es[i].claimAttempt
    && forall k :: 0 <= k < |es| && k != i ==>
         fs[k] == es[k] || (SameAttempt(es[i], es[k]) && BlockedFrom(es[k], fs[k]))
  }

  predicate Stuck(db: Tables, e: Execution) {
    && e.manifest.conversation.Some? && e.manifest.conversation.value.attempt < |db.attempts|
    && db.attempts[e.manifest.conversation.value.attempt].state == Unusable
  }

  /** Only the attempt `a` was touched, and if it is unusable now none of its turns waits. */
  predicate SessionHandled(attempts: seq<Attempt>, db: Tables, a: nat) {
    && |db.attempts| == |attempts|
    && (forall b :: 0 <= b < |attempts| && b != a ==> db.attempts[b] == attempts[b])
    && (a < |attempts| && db.attempts[a].state == Unusable ==>
          forall k :: 0 <= k < |db.executions| && db.executions[k].InAttempt(a) ==> db.executions[k].outcome != Pending)
  }

  predicate HasPlace(db: Tables, i: nat) {
    && i < |db.executions|
    && var place := db.executions[i].manifest.conversation; place.Some? ==> place.value.attempt < |db.attempts|
  }

  /** Which ending a claim comes to: what keeps the question from being sent, in the order in which it can turn up, or
      else the answer. */
  function EndingFor(db: Tables, i: nat, reply: TargetReply): Ending
    requires HasPlace(db, i)
  {
    var m := db.executions[i].manifest;
    if m.preflightError != "" then Failed(m.preflightError)
    else if reply.before.Some? then reply.before.value
    else AfterMark(db, i, reply)
  }

  function AfterMark(db: Tables, i: nat, reply: TargetReply): Ending
    requires HasPlace(db, i)
  {
    match db.executions[i].manifest.conversation
    case None => reply.answer
    case Some(place) => TurnEnding(db.attempts[place.attempt], place.ordinal, reply)
  }

  /** A turn fails in a session that is broken, and a later one without any; the first opens one if there is none. */
  function TurnEnding(attempt: Attempt, ordinal: nat, reply: TargetReply): Ending {
    if attempt.state == Unusable || (attempt.session == "" && ordinal != 1) then Failed("SESSION_FAILED")
    else if attempt.session == "" && reply.opening.Err? then reply.opening.error
    else reply.answer
  }

  /** An error of this class, with nothing observed; a session does not survive it. */
  function Failed(errorClass: string): Ending {
    Ending(Error, Observation("", "", None, NOTHING_REPORTED, errorClass), false)
  }

  predicate EndedWith(f: Execution, ending: Ending, now: Time) {
    f.outcome == ending.outcome && f.observation == ending.seen && f.completedAt == Some(now)
  }

  /** The row has this ending. The session of a turn is broken by an ending that cannot continue it, unless the run was
      over with this turn, and by no other; after the last turn a usable one is closed, if the target closes it. */
  predicate EndedAs(before: Tables, after: Tables, i: nat, ending: Ending, closes: bool, now: Time)
    requires i < |before.executions|
  {
    var m := before.executions[i].manifest;
    && i < |after.executions| && EndedWith(after.executions[i], ending, now)
    && (m.conversation.Some? ==>
          var a := m.conversation.value.attempt;
          && a < |before.attempts| && a < |after.attempts| && m.run < |after.runs|
          && (!ending.usable ==> after.attempts[a].state == Unusable || after.runs[m.run].Terminal())
          && (ending.usable ==>
                SessionLeft(before.attempts[a], after.attempts[a], AttemptDone(after.executions, a), closes, now)))
  }

  predicate SessionLeft(before: Attempt, after: Attempt, done: bool, closes: bool, now: Time) {
    && (before.state == Unusable <==> after.state == Unusable)
    && (!done ==> after.completedAt == before.completedAt)
    && (done && before.state != Unusable && before.completedAt.None? && after.session != "" ==>
          && after.completedAt == Some(now) && (closes ==> after.state == Closed)
          && (!closes && before.state != Closed ==> after.state != Closed))
  }

  function FinishingAt(e: Ending): P.Pc { P.Finishing(e.outcome, e.seen, e.usable) }

  // ---------- finishing ----------

  /** `_complete_execution` by anybody: only the holder's has an effect. */
  method FinishClaim(q: Queue, i: nat, worker: string, token: Token, ending: Ending, now: Time,
      ghost s: P.System, ghost past: seq<P.Step>, ghost mid: P.System)
    returns (ghost steps: seq<P.Step>, ghost after: P.System)
    requires Sound(q.Db()) && q.Linked(i)
    requires Ran(s, past, mid, token) && At(mid, q.Db(), i, worker, token, FinishingAt(ending))
    modifies q
    ensures Sound(q.Db()) && q.attempts == old(q.attempts)
    ensures q.Db() == CompletedBy(old(q.Db()), i, worker, token, ending.outcome, ending.seen, now)
    ensures q.Linked(i) && q.executions[i].manifest == old(q.executions[i]).manifest
    ensures old(q.executions[i]).OwnedBy(worker, token) ==>
      Finished(old(q.executions), q.executions, i) && EndedWith(q.executions[i], ending, now)
    ensures Ran(s, steps, after, token)
    ensures At(after, q.Db(), i, worker, token,
      P.AfterFinish(old(q.executions[i]).manifest.conversation.Some?, ending.usable))
  {
    steps, after := TakeFinish(s, past, mid, q.Db(), i, worker, token, ending.outcome, ending.seen, ending.usable, now);
    var reply := q.CompleteExecution(i, worker, token, ending.outcome, ending.seen, now);
  }

  /** `_mark_conversation_session_unusable` by anybody. */
  method BlockClaim(q: Queue, i: nat, worker: string, token: Token, now: Time,
      ghost s: P.System, ghost past: seq<P.Step>, ghost mid: P.System)
    returns (blocked: bool, ghost steps: seq<P.Step>, ghost after: P.System)
    requires Sound(q.Db()) && TurnOf(q.Db(), i) && now <= mid.clock
    requires Ran(s, past, mid, token) && At(mid, q.Db(), i, worker, token, P.Blocking)
    modifies q
    ensures Sound(q.Db()) && (blocked <==> MarkUnusable(old(q.Db()), i, now).Some?)
    ensures q.Db() == if blocked then MarkUnusable(old(q.Db()), i, now).value else old(q.Db())
    ensures Ran(s, steps, after, token) && At(after, q.Db(), i, worker, token, if blocked then P.Closing else P.Ended)
  {
    steps, after := TakeBlock(s, past, mid, q.Db(), i, worker, token, now);
    ghost var db := q.Db();
    blocked := q.MarkSessionUnusable(i, now);
    if blocked { MarkUnusableKeepsSound(db, i, now); }
  }

  lemma BlockKeepsFinished(start: seq<Execution>, db: Tables, i: nat, now: Time)
    requires Sound(db) && TurnOf(db, i) && i < |start| && Finished(start, db.executions, i)
    requires start[i].manifest == db.executions[i].manifest
    ensures MarkUnusable(db, i, now).Some? ==>
      var after := MarkUnusable(db, i, now).value;
      && Sound(after) && Finished(start, after.executions, i)
      && SessionHandled(db.attempts, after, db.executions[i].manifest.conversation.value.attempt)
  {
    if MarkUnusable(db, i, now).Some? {
      MarkUnusableKeepsSound(db, i, now);
      var a := db.executions[i].manifest.conversation.value.attempt;
      assert MarkUnusable(db, i, now).value.executions == BlockTurns(db.executions, a, now);
    }
  }

  lemma UnusableChanges(db: Tables, i: nat, now: Time)
    requires Sound(db) && TurnOf(db, i) && MarkUnusable(db, i, now).Some?
    ensures TurnOf(MarkUnusable(db, i, now).value, i)
    ensures MarkUnusable(db, i, now).value.executions[i].manifest == db.executions[i].manifest
    ensures var a := db.executions[i].manifest.conversation.value.attempt;
      MarkUnusable(db, i, now).value.attempts[a].state == Unusable
  {
    MarkUnusableKeepsSound(db, i, now);
  }

  /** Only the attempt of row `i` may have changed, and it has not become unusable or usable by it. */
  predicate SessionKept(before: seq<Attempt>, after: seq<Attempt>, a: nat) {
    && |after| == |before| && a < |before|
    && (forall b :: 0 <= b < |before| && b != a ==> after[b] == before[b])
    && (before[a].state == Unusable ==> after == before)
    && (before[a].state != Unusable ==> after[a].state != Unusable)
  }

  /** `_close_conversation_if_complete` */
  method CloseIfComplete(q: Queue, i: nat, worker: string, token: Token, closes: bool, now: Time,
      ghost s: P.System, ghost past: seq<P.Step>, ghost mid: P.System)
    returns (ghost steps: seq<P.Step>, ghost after: P.System)
    requires Sound(q.Db()) && TurnOf(q.Db(), i)
    requires Ran(s, past, mid, token) && At(mid, q.Db(), i, worker, token, P.Closing)
    modifies q`attempts
    ensures Sound(q.Db()) && Ran(s, steps, after, token) && At(after, q.Db(), i, worker, token, P.Ended)
    ensures ClosedFrom(old(q.Db()), q.Db(), q.executions[i].manifest.conversation.value.attempt, closes, now)
  {
    var a := q.executions[i].manifest.conversation.value.attempt;
    steps, after := TakeSeeClose(s, past, mid, q.Db(), i, worker, token);
    if q.attempts[a].completedAt.None? && q.attempts[a].state != Unusable && q.attempts[a].session != ""
       && AttemptDone(q.executions, a)
    {
      steps, after := TakeClose(s, steps, after, q.Db(), i, worker, token, closes, now);
      q.RecordClosedSession(a, closes, now);
    }
  }

  /** `_conversation_finish`: the completion, the blocking of the session and its closing are separate transactions, and
      a refused completion does not keep the others from happening. */
  method ConversationFinish(q: Queue, i: nat, worker: string, token: Token, ending: Ending, closes: bool, now: Time,
      ghost s: P.System, ghost past: seq<P.Step>, ghost mid: P.System)
    returns (ghost steps: seq<P.Step>, ghost after: P.System)
    requires Sound(q.Db()) && TurnOf(q.Db(), i) && now <= mid.clock
    requires Ran(s, past, mid, token) && At(mid, q.Db(), i, worker, token, FinishingAt(ending))
    modifies q
    ensures Sound(q.Db()) && Ran(s, steps, after, token) && At(after, q.Db(), i, worker, token, P.Ended)
    ensures FinishedBy(old(q.Db()), q.Db(), i, worker, token, ending, closes, now)
    ensures old(q.executions[i]).OwnedBy(worker, token) ==>
      && TurnEnded(old(q.Db()), q.Db(), i, old(q.executions[i]).manifest.conversation.value.attempt)
      && EndedAs(old(q.Db()), q.Db(), i, ending, closes, now)
  {
    ghost var before, held := q.Db(), q.executions[i].OwnedBy(worker, token);
    ghost var a := q.executions[i].manifest.conversation.value.attempt;
    steps, after := FinishClaim(q, i, worker, token, ending, now, s, past, mid);
    ghost var completed := q.Db();
    steps, after := BreakAndClose(q, i, worker, token, ending.usable, closes, now, s, steps, after);
    if held {
      BrokenThenClosed(before, completed, q.Db(), i, a, ending.usable, closes, now);
      BrokenThenEnded(before, completed, q.Db(), i, a, ending, closes, now);
    }
  }

  /** The transactions after the completion: what breaking leaves, up to the closing of the attempt. */
  method BreakAndClose(q: Queue, i: nat, worker: string, token: Token, usable: bool, closes: bool, now: Time,
      ghost s: P.System, ghost past: seq<P.Step>, ghost mid: P.System)
    returns (ghost steps: seq<P.Step>, ghost after: P.System)
    requires Sound(q.Db()) && TurnOf(q.Db(), i) && now <= mid.clock
    requires Ran(s, past, mid, token) && At(mid, q.Db(), i, worker, token, P.AfterFinish(true, usable))
    modifies q
    ensures Sound(q.Db()) && Ran(s, steps, after, token) && At(after, q.Db(), i, worker, token, P.Ended)
    ensures BrokenAndClosed(old(q.Db()), q.Db(), i, usable, closes, now)
  {
    var done;
    done, steps, after := BreakIfUnusable(q, i, worker, token, usable, now, s, past, mid);
    if done { return; }
    steps, after := CloseIfComplete(q, i, worker, token, closes, now, s, steps, after);
  }

  /** A finish by anybody: a completion if the claim is still held, then the break, then at most the closing. */
  predicate FinishedBy(before: Tables, after: Tables, i: nat, worker: string, t: Token, ending: Ending, closes: bool,
      now: Time)
    requires TurnOf(before, i)
  {
    var completed := CompletedBy(before, i, worker, t, ending.outcome, ending.seen, now);
    && TurnOf(completed, i) && BrokenAndClosed(completed, after, i, ending.usable, closes, now)
  }

  /** A break that raises is the end of it; otherwise closing follows. */
  predicate BrokenAndClosed(db: Tables, after: Tables, i: nat, usable: bool, closes: bool, now: Time)
    requires TurnOf(db, i)
  {
    if !usable && MarkUnusable(db, i, now).None? then after == db
    else ClosedFrom(AfterBreak(db, i, usable, now), after, db.executions[i].manifest.conversation.value.attempt, closes,
                    now)
  }

  /** Attempt `a` is closed if it is open, usable, has a session and no turn left; nothing else is written. */
  predicate ClosedFrom(db: Tables, after: Tables, a: nat, closes: bool, now: Time) {
    && after == db.(attempts := after.attempts) && |after.attempts| == |db.attempts| && a < |db.attempts|
    && (forall b :: 0 <= b < |db.attempts| && b != a ==> after.attempts[b] == db.attempts[b])
    && var attempt := db.attempts[a];
    && after.attempts[a] ==
         if attempt.completedAt.None? && attempt.state != Unusable && attempt.session != ""
            && AttemptDone(db.executions, a)
         then attempt.(completedAt := Some(now), state := if closes then Closed else attempt.state)
         else attempt
  }

  lemma ClosingKeepsSession(db: Tables, after: Tables, a: nat, closes: bool, now: Time)
    requires ClosedFrom(db, after, a, closes, now)
    ensures SessionKept(db.attempts, after.attempts, a)
  {
    if after.attempts[a] == db.attempts[a] { assert after.attempts == db.attempts; }
  }

  lemma BreakKeepsRow(completed: Tables, i: nat, usable: bool, now: Time)
    requires Sound(completed) && TurnOf(completed, i) && completed.executions[i].outcome.Terminal()
    ensures var broken, m := AfterBreak(completed, i, usable, now), completed.executions[i].manifest;
      && |broken.executions| == |completed.executions| && broken.executions[i] == completed.executions[i]
      && |broken.attempts| == |completed.attempts| && |broken.runs| == |completed.runs|
      && (usable ==> broken == completed)
      && (!usable ==> broken.attempts[m.conversation.value.attempt].state == Unusable || broken.runs[m.run].Terminal())
  {
    MarkUnusableAborts(completed, i, now);
    if MarkUnusable(completed, i, now).Some? { UnusableChanges(completed, i, now); }
  }

  lemma BrokenThenEnded(before: Tables, completed: Tables, after: Tables, i: nat, a: nat, ending: Ending, closes: bool,
      now: Time)
    requires Sound(completed) && TurnOf(completed, i) && i < |before.executions|
    requires completed.attempts == before.attempts && completed.executions[i].manifest == before.executions[i].manifest
    requires EndedWith(completed.executions[i], ending, now)
    requires a == completed.executions[i].manifest.conversation.value.attempt
    requires BrokenAndClosed(completed, after, i, ending.usable, closes, now)
    ensures EndedAs(before, after, i, ending, closes, now)
  {
    BreakKeepsRow(completed, i, ending.usable, now);
  }

  lemma BrokenThenClosed(before: Tables, completed: Tables, after: Tables, i: nat, a: nat, usable: bool, closes: bool,
      now: Time)
    requires Sound(completed) && TurnOf(completed, i) && i < |before.executions|
      && completed.attempts == before.attempts
    requires Finished(before.executions, completed.executions, i)
    requires before.executions[i].manifest == completed.executions[i].manifest
    requires a == completed.executions[i].manifest.conversation.value.attempt
    requires BrokenAndClosed(completed, after, i, usable, closes, now)
    ensures TurnEnded(before, after, i, a)
  {
    var broken := AfterBreak(completed, i, usable, now);
    BreakEndsTurn(before, completed, broken, i, a, usable, now);
    if usable || MarkUnusable(completed, i, now).Some? {
      ClosingKeepsSession(broken, after, a, closes, now);
      CloseEndsTurn(before, broken, after, i, a);
    }
  }

  /** What the second transaction of a finish leaves. */
  function AfterBreak(db: Tables, i: nat, usable: bool, now: Time): Tables
    requires TurnOf(db, i)
  {
    if usable || MarkUnusable(db, i, now).None? then db else MarkUnusable(db, i, now).value
  }

  /** Nothing for a usable session; otherwise the session is blocked, or blocking raises and the finish is over. */
  method BreakIfUnusable(q: Queue, i: nat, worker: string, token: Token, usable: bool, now: Time,
      ghost s: P.System, ghost past: seq<P.Step>, ghost mid: P.System)
    returns (done: bool, ghost steps: seq<P.Step>, ghost after: P.System)
    requires Sound(q.Db()) && TurnOf(q.Db(), i) && now <= mid.clock
    requires Ran(s, past, mid, token) && At(mid, q.Db(), i, worker, token, P.AfterFinish(true, usable))
    modifies q
    ensures Sound(q.Db()) && TurnOf(q.Db(), i) && q.Db() == AfterBreak(old(q.Db()), i, usable, now)
    ensures done <==> !usable && MarkUnusable(old(q.Db()), i, now).None?
    ensures q.executions[i].manifest == old(q.executions[i]).manifest
    ensures Ran(s, steps, after, token) && At(after, q.Db(), i, worker, token, if done then P.Ended else P.Closing)
  {
    if usable { return false, past, mid; }
    ghost var db := q.Db();
    var blocked;
    blocked, steps, after := BlockClaim(q, i, worker, token, now, s, past, mid);
    if blocked { UnusableChanges(db, i, now); }
    done := !blocked;
  }

  /** The turn is finished and what was left of its attempt is handled. */
  predicate TurnEnded(before: Tables, after: Tables, i: nat, a: nat)
    requires i < |before.executions|
  {
    && Finished(before.executions, after.executions, i)
    && (!Stuck(before, before.executions[i]) ==> SessionHandled(before.attempts, after, a))
  }

  lemma BreakEndsTurn(before: Tables, db: Tables, after: Tables, i: nat, a: nat, usable: bool, now: Time)
    requires Sound(db) && TurnOf(db, i) && i < |before.executions| && db.attempts == before.attempts
    requires Finished(before.executions, db.executions, i)
    requires a == db.executions[i].manifest.conversation.value.attempt && after == AfterBreak(db, i, usable, now)
    ensures TurnEnded(before, after, i, a)
  {
    BlockKeepsFinished(before.executions, db, i, now);
  }

  lemma CloseEndsTurn(before: Tables, db: Tables, after: Tables, i: nat, a: nat)
    requires i < |before.executions| && Finished(before.executions, db.executions, i)
    requires before.executions[i].manifest.conversation.Some?
    requires before.executions[i].manifest.conversation.value.attempt == a
    requires TurnEnded(before, db, i, a)
    requires after == db.(attempts := after.attempts) && SessionKept(db.attempts, after.attempts, a)
    ensures TurnEnded(before, after, i, a)
  {
  }

  // ---------- asking ----------

  function PcFor(session: Result<string, Ending>): P.Pc {
    if session.Ok? then P.ReadyToSubmit(session.value) else FinishingAt(session.error)
  }

  /** What a turn gets: the recorded session, the one that its open call returned, or the failure that it ends with. */
  predicate SessionGiven(session: Result<string, Ending>, before: Attempt, after: Attempt, ordinal: nat,
      reply: TargetReply)
  {
    if before.state == Unusable || (before.session == "" && ordinal != 1) then
      session == Err(Failed("SESSION_FAILED")) && after == before
    else if before.session != "" then session == Ok(before.session) && after == before
    else if reply.opening.Err? then session == Err(reply.opening.error) && after == before
    else session == Ok(reply.opening.value) && after == before.(session := reply.opening.value, state := Active)
  }

  /** A usable session is the recorded one, and a recorded one is never replaced. */
  predicate SessionFor(session: Result<string, Ending>, before: seq<Attempt>, after: seq<Attempt>, a: nat) {
    && SessionKept(before, after, a)
    && (session.Ok? ==> session.value != "" && after[a].session == session.value)
    && (session.Ok? && before[a].session != "" ==> session.value == before[a].session)
  }

  /** The session of a marked turn: recorded before, opened now by the first turn, or a failure. */
  method EnsureSession(q: Queue, i: nat, worker: string, token: Token, reply: TargetReply,
      ghost s: P.System, ghost past: seq<P.Step>, ghost mid: P.System)
    returns (session: Result<string, Ending>, ghost steps: seq<P.Step>, ghost after: P.System)
    requires Sound(q.Db()) && TurnOf(q.Db(), i) && reply.Possible()
    requires Ran(s, past, mid, token) && At(mid, q.Db(), i, worker, token, P.Marked)
    modifies q`attempts
    ensures Sound(q.Db()) && Ran(s, steps, after, token) && At(after, q.Db(), i, worker, token, PcFor(session))
    ensures SessionFor(session, old(q.attempts), q.attempts, q.executions[i].manifest.conversation.value.attempt)
    ensures var place := q.executions[i].manifest.conversation.value;
      SessionGiven(session, old(q.attempts)[place.attempt], q.attempts[place.attempt], place.ordinal, reply)
  {
    var place := q.executions[i].manifest.conversation.value;
    var attempt := q.attempts[place.attempt];
    steps, after := TakeReadSession(s, past, mid, q.Db(), i, worker, token);
    if attempt.state == Unusable { return Err(FAILED_SESSION), steps, after; }
    if attempt.session != "" { return Ok(attempt.session), steps, after; }
    if place.ordinal != 1 { return Err(FAILED_SESSION), steps, after; }
    if reply.opening.Err? {
      var e := reply.opening.error;
      steps, after := TakeFail(s, steps, after, q.Db(), i, worker, token, P.Opening, e.outcome, e.seen, e.usable);
      return Err(e), steps, after;
    }
    session, steps, after := RecordNewSession(q, i, worker, token, reply.opening.value, s, steps, after);
  }

  /** The open call came back with a session: record it, or fail on another one recorded meanwhile. */
  method RecordNewSession(q: Queue, i: nat, worker: string, token: Token, newSession: string,
      ghost s: P.System, ghost past: seq<P.Step>, ghost mid: P.System)
    returns (session: Result<string, Ending>, ghost steps: seq<P.Step>, ghost after: P.System)
    requires Sound(q.Db()) && TurnOf(q.Db(), i) && newSession != ""
    requires q.attempts[q.executions[i].manifest.conversation.value.attempt].state != Unusable
    requires Ran(s, past, mid, token) && At(mid, q.Db(), i, worker, token, P.Opening)
    modifies q`attempts
    ensures Sound(q.Db()) && Ran(s, steps, after, token) && At(after, q.Db(), i, worker, token, PcFor(session))
    ensures SessionFor(session, old(q.attempts), q.attempts, q.executions[i].manifest.conversation.value.attempt)
    ensures var a := q.executions[i].manifest.conversation.value.attempt;
      old(q.attempts)[a].session == "" ==>
        session == Ok(newSession) && q.attempts[a] == old(q.attempts)[a].(session := newSession, state := Active)
  {
    var a := q.executions[i].manifest.conversation.value.attempt;
    steps, after := TakeOpenCall(s, past, mid, q.Db(), i, worker, token, newSession);
    steps, after := TakeCommitSession(s, steps, after, q.Db(), i, worker, token, newSession);
    var ok := q.RecordOpenedSession(a, newSession);
    session := if ok then Ok(q.attempts[a].session) else Err(FAILED_SESSION);
  }

  /** What asking leaves: at most the session of the attempt, and an ending. */
  predicate Asked(before: Tables, asked: Tables, i: nat, ending: Ending, reply: TargetReply)
    requires TurnOf(before, i)
  {
    var place := before.executions[i].manifest.conversation.value;
    && asked == before.(attempts := asked.attempts) && SessionKept(before.attempts, asked.attempts, place.attempt)
    && var b, a := before.attempts[place.attempt], asked.attempts[place.attempt];
    && a.completedAt == b.completedAt && (a.state == b.state || (a.state == Active && b.session == ""))
    && ending == TurnEnding(b, place.ordinal, reply)
  }

  /** Open the session if that is this turn's part, and ask. */
  method AskTurn(q: Queue, i: nat, worker: string, token: Token, reply: TargetReply,
      ghost s: P.System, ghost past: seq<P.Step>, ghost mid: P.System)
    returns (ending: Ending, ghost steps: seq<P.Step>, ghost after: P.System)
    requires Sound(q.Db()) && TurnOf(q.Db(), i) && reply.Possible()
    requires Ran(s, past, mid, token) && At(mid, q.Db(), i, worker, token, P.Marked)
    modifies q`attempts
    ensures Sound(q.Db()) && TurnOf(q.Db(), i) && Asked(old(q.Db()), q.Db(), i, ending, reply)
    ensures Ran(s, steps, after, token) && At(after, q.Db(), i, worker, token, FinishingAt(ending))
    ensures mid.clock <= after.clock
  {
    var session;
    session, steps, after := EnsureSession(q, i, worker, token, reply, s, past, mid);
    ending := if session.Ok? then reply.answer else session.error;
    if session.Ok? {
      steps, after := TakeSubmit(s, steps, after, q.Db(), i, worker, token, P.ReadyToSubmit(session.value),
                                 ending.outcome, ending.seen, ending.usable);
    }
  }

  /** The conversation branch after the mark: ask, then finish. */
  method SubmitTurn(q: Queue, i: nat, worker: string, token: Token, now: Time, reply: TargetReply,
      ghost s: P.System, ghost past: seq<P.Step>, ghost mid: P.System)
    returns (ghost steps: seq<P.Step>, ghost after: P.System)
    requires Sound(q.Db()) && TurnOf(q.Db(), i) && now <= mid.clock && reply.Possible()
    requires Ran(s, past, mid, token) && At(mid, q.Db(), i, worker, token, P.Marked)
    modifies q
    ensures Sound(q.Db()) && Ran(s, steps, after, token) && At(after, q.Db(), i, worker, token, P.Ended)
    ensures old(q.executions[i]).OwnedBy(worker, token) ==>
      && TurnEnded(old(q.Db()), q.Db(), i, old(q.executions[i]).manifest.conversation.value.attempt)
      && EndedAs(old(q.Db()), q.Db(), i, AfterMark(old(q.Db()), i, reply), reply.closes, now)
  {
    ghost var before := q.Db();
    var ending;
    ending, steps, after := AskTurn(q, i, worker, token, reply, s, past, mid);
    ghost var asked := q.Db();
    steps, after := ConversationFinish(q, i, worker, token, ending, reply.closes, now, s, steps, after);
    if before.executions[i].OwnedBy(worker, token) { AskedThenEnded(before, asked, q.Db(), i, ending, reply, now); }
  }

  lemma AskedThenEnded(before: Tables, asked: Tables, after: Tables, i: nat, ending: Ending, reply: TargetReply,
      now: Time)
    requires TurnOf(before, i) && Asked(before, asked, i, ending, reply)
    requires TurnEnded(asked, after, i, before.executions[i].manifest.conversation.value.attempt)
    requires EndedAs(asked, after, i, ending, reply.closes, now)
    ensures TurnEnded(before, after, i, before.executions[i].manifest.conversation.value.attempt)
    ensures EndedAs(before, after, i, AfterMark(before, i, reply), reply.closes, now)
  {
  }

  // ---------- a whole claim ----------

  /** What the end of a claim leaves: for a question its row finished, for a turn its attempt handled as well. */
  predicate ClaimEnded(before: Tables, after: Tables, i: nat)
    requires i < |before.executions|
  {
    && Finished(before.executions, after.executions, i)
    && match before.executions[i].manifest.conversation
       case None => after.attempts == before.attempts
       case Some(place) => TurnEnded(before, after, i, place.attempt)
  }

  /** Finish a row, turn or not. */
  method FinishWith(q: Queue, i: nat, worker: string, token: Token, ending: Ending, closes: bool, now: Time,
      ghost s: P.System, ghost past: seq<P.Step>, ghost mid: P.System)
    returns (ghost steps: seq<P.Step>, ghost after: P.System)
    requires Sound(q.Db()) && q.Linked(i) && now <= mid.clock
    requires Ran(s, past, mid, token) && At(mid, q.Db(), i, worker, token, FinishingAt(ending))
    modifies q
    ensures Sound(q.Db()) && Ran(s, steps, after, token) && At(after, q.Db(), i, worker, token, P.Ended)
    ensures old(q.executions[i]).OwnedBy(worker, token) ==>
      ClaimEnded(old(q.Db()), q.Db(), i) && EndedAs(old(q.Db()), q.Db(), i, ending, closes, now)
  {
    if q.executions[i].manifest.conversation.Some? {
      assert RowLinked(q.Db(), q.executions[i]);
      steps, after := ConversationFinish(q, i, worker, token, ending, closes, now, s, past, mid);
    } else {
      steps, after := FinishClaim(q, i, worker, token, ending, now, s, past, mid);
    }
  }

  /** `process_claim`: a lost claim and one that is already marked are left alone; everything else ends the row. */
  method ProcessClaim(q: Queue, i: nat, worker: string, token: Token, now: Time, lease: nat, reply: TargetReply,
      ghost s: P.System, ghost past: seq<P.Step>, ghost mid: P.System)
    returns (ghost steps: seq<P.Step>, ghost after: P.System)
    requires Sound(q.Db()) && i < |q.executions| && now <= mid.clock && reply.Possible()
    requires Ran(s, past, mid, token) && At(mid, q.Db(), i, worker, token, P.Holding)
    modifies q
    ensures Sound(q.Db()) && Ran(s, steps, after, token) && At(after, q.Db(), i, worker, token, P.Ended)
    ensures !old(q.executions[i]).OwnedBy(worker, token) ==> q.Db() == old(q.Db())
    ensures MayMark(old(q.Db()), i, worker, token) ==>
      && ClaimEnded(old(q.Db()), q.Db(), i)
      && EndedAs(old(q.Db()), q.Db(), i, EndingFor(old(q.Db()), i, reply), reply.closes, now)
  {
    assert RowLinked(q.Db(), q.executions[i]);
    var e := q.executions[i];
    if !e.OwnedBy(worker, token) {
      steps, after := TakeRefused(s, past, mid, q.Db(), i, worker, token);
      return;
    }
    var early := if e.manifest.preflightError != "" then Some(PreflightFailure(e)) else reply.before;
    if early.Some? {
      var f := early.value;
      steps, after := TakeFail(s, past, mid, q.Db(), i, worker, token, P.Holding, f.outcome, f.seen, f.usable);
      steps, after := FinishWith(q, i, worker, token, f, reply.closes, now, s, steps, after);
      return;
    }
    steps, after := MarkAndSubmit(q, i, worker, token, now, lease, reply, s, past, mid);
  }

  method MarkAndSubmit(q: Queue, i: nat, worker: string, token: Token, now: Time, lease: nat, reply: TargetReply,
      ghost s: P.System, ghost past: seq<P.Step>, ghost mid: P.System)
    returns (ghost steps: seq<P.Step>, ghost after: P.System)
    requires Sound(q.Db()) && q.Linked(i) && now <= mid.clock && reply.Possible()
    requires q.executions[i].manifest.preflightError == ""
    requires Ran(s, past, mid, token) && At(mid, q.Db(), i, worker, token, P.Holding)
    modifies q
    ensures Sound(q.Db()) && Ran(s, steps, after, token) && At(after, q.Db(), i, worker, token, P.Ended)
    ensures if MayMark(old(q.Db()), i, worker, token) then
              && ClaimEnded(old(q.Db()), q.Db(), i)
              && EndedAs(old(q.Db()), q.Db(), i, AfterMark(old(q.Db()), i, reply), reply.closes, now)
            else q.Db() == old(q.Db())
  {
    ghost var before := q.Db();
    var marked := q.MarkSubmissionStarted(i, worker, token, now, lease);
    if !marked {
      steps, after := TakeRefused(s, past, mid, q.Db(), i, worker, token);
      return;
    }
    steps, after := TakeMark(s, past, mid, before, i, worker, token, now, lease);
    ghost var db := q.Db();
    if q.executions[i].manifest.conversation.Some? {
      assert RowLinked(q.Db(), q.executions[i]);
      steps, after := SubmitTurn(q, i, worker, token, now, reply, s, steps, after);
    } else {
      steps, after := SubmitSingle(q, i, worker, token, now, reply, s, steps, after);
    }
    MarkedThenEnded(before, db, q.Db(), i, AfterMark(before, i, reply), reply.closes, now, lease);
  }

  lemma MarkedThenEnded(before: Tables, db: Tables, after: Tables, i: nat, ending: Ending, closes: bool, now: Time,
      lease: nat)
    requires i < |before.executions| && db == MarkSubmission(before, i, now, lease) && ClaimEnded(db, after, i)
    requires EndedAs(db, after, i, ending, closes, now)
    ensures ClaimEnded(before, after, i) && EndedAs(before, after, i, ending, closes, now)
  {
    forall k | 0 <= k < |before.executions| && k != i ensures db.executions[k] == before.executions[k] {}
  }

  method SubmitSingle(q: Queue, i: nat, worker: string, token: Token, now: Time, reply: TargetReply,
      ghost s: P.System, ghost past: seq<P.Step>, ghost mid: P.System)
    returns (ghost steps: seq<P.Step>, ghost after: P.System)
    requires Sound(q.Db()) && q.Linked(i) && q.executions[i].manifest.conversation.None? && reply.Possible()
    requires Ran(s, past, mid, token) && At(mid, q.Db(), i, worker, token, P.Marked)
    modifies q
    ensures Sound(q.Db()) && Ran(s, steps, after, token) && At(after, q.Db(), i, worker, token, P.Ended)
    ensures old(q.executions[i]).OwnedBy(worker, token) ==>
      ClaimEnded(old(q.Db()), q.Db(), i) && EndedAs(old(q.Db()), q.Db(), i, reply.answer, reply.closes, now)
  {
    var answer := reply.answer;
    steps, after := TakeSubmit(s, past, mid, q.Db(), i, worker, token, P.Marked, answer.outcome, answer.seen,
      answer.usable);
    steps, after := FinishClaim(q, i, worker, token, answer, now, s, steps, after);
  }
}
