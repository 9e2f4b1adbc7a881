/** The protocol steps of one claim, seen from the program that takes them: where the task stands and what the tables
    are before and after. */
module ClaimSteps {
  import opened Wrappers
  import opened Rows
  import opened Transactions
  import opened TableInvariants
  import opened TransactionProofs
  import opened ProtocolRuns
  import P = Protocol

  /** The task of `t` works on row `i` for `worker` and stands at `pc`, over these tables. */
  predicate At(s: P.System, db: Tables, i: nat, worker: string, t: Token, pc: P.Pc) {
    s.db == db && t in s.tasks && s.tasks[t] == P.Task(i, worker, pc)
  }

  /** What a completion does to the tables when it may also come from somebody who lost the claim. */
  function CompletedBy(db: Tables, i: nat, worker: string, t: Token, outcome: FinalOutcome, seen: Observation,
      now: Time): Tables
    requires i < |db.executions| && db.executions[i].manifest.run < |db.runs|
  {
    if !db.executions[i].OwnedBy(worker, t) || Complete(db, i, outcome, seen, now).None? then db
    else Complete(db, i, outcome, seen, now).value
  }

  lemma TakeFinish(s: P.System, steps: seq<P.Step>, mid: P.System, db: Tables, i: nat, worker: string, t: Token,
      outcome: FinalOutcome, seen: Observation, usable: bool, now: Time) returns (more: seq<P.Step>, after: P.System)
    requires Ran(s, steps, mid, t) && At(mid, db, i, worker, t, P.Finishing(outcome, seen, usable)) && Sound(db)
    requires i < |db.executions| && db.executions[i].manifest.run < |db.runs|
    ensures Ran(s, more, after, t)
    ensures At(after, CompletedBy(db, i, worker, t, outcome, seen, now), i, worker, t,
               P.AfterFinish(db.executions[i].manifest.conversation.Some?, usable))
  {
    if db.executions[i].OwnedBy(worker, t) { CompleteCommits(db, i, outcome, seen, now); }
    more, after := Take(s, steps, mid, t, P.Finish(now));
  }

  lemma TakeBlock(s: P.System, steps: seq<P.Step>, mid: P.System, db: Tables, i: nat, worker: string, t: Token,
      now: Time)
    returns (more: seq<P.Step>, after: P.System)
    requires Ran(s, steps, mid, t) && At(mid, db, i, worker, t, P.Blocking) && TurnOf(db, i) && now <= mid.clock
    ensures Ran(s, more, after, t)
    ensures var blocked := MarkUnusable(db, i, now);
      At(after, if blocked.Some? then blocked.value else db, i, worker, t, if blocked.Some? then P.Closing else P.Ended)
  {
    more, after := Take(s, steps, mid, t, P.Block(now));
  }

  lemma TakeSeeClose(s: P.System, steps: seq<P.Step>, mid: P.System, db: Tables, i: nat, worker: string, t: Token)
    returns (more: seq<P.Step>, after: P.System)
    requires Ran(s, steps, mid, t) && At(mid, db, i, worker, t, P.Closing) && TurnOf(db, i)
    ensures Ran(s, more, after, t)
    ensures At(after, db, i, worker, t,
               if P.MayClose(db, db.executions[i].manifest.conversation.value.attempt) then P.ClosingCall else P.Ended)
  {
    more, after := Take(s, steps, mid, t, P.SeeClose);
  }

  lemma TakeClose(s: P.System, steps: seq<P.Step>, mid: P.System, db: Tables, i: nat, worker: string, t: Token,
      closed: bool, now: Time) returns (more: seq<P.Step>, after: P.System)
    requires Ran(s, steps, mid, t) && At(mid, db, i, worker, t, P.ClosingCall) && TurnOf(db, i)
    ensures Ran(s, more, after, t)
    ensures var a := db.executions[i].manifest.conversation.value.attempt;
      At(after, db.(attempts := db.attempts[a := CloseSession(db.attempts[a], closed, now)]), i, worker, t, P.Ended)
  {
    more, after := Take(s, steps, mid, t, P.Close(closed, now));
  }

  lemma TakeRefused(s: P.System, steps: seq<P.Step>, mid: P.System, db: Tables, i: nat, worker: string, t: Token)
    returns (more: seq<P.Step>, after: P.System)
    requires Ran(s, steps, mid, t) && At(mid, db, i, worker, t, P.Holding) && i < |db.executions|
    requires !MayMark(db, i, worker, t)
    ensures Ran(s, more, after, t) && At(after, db, i, worker, t, P.Ended)
  {
    more, after := Take(s, steps, mid, t, P.Refused);
  }

  lemma TakeMark(s: P.System, steps: seq<P.Step>, mid: P.System, db: Tables, i: nat, worker: string, t: Token,
      now: Time, lease: nat) returns (more: seq<P.Step>, after: P.System)
    requires Ran(s, steps, mid, t) && At(mid, db, i, worker, t, P.Holding) && now <= mid.clock
    requires MayMark(db, i, worker, t) && db.executions[i].manifest.preflightError == ""
    ensures Ran(s, more, after, t) && At(after, MarkSubmission(db, i, now, lease), i, worker, t, P.Marked)
  {
    more, after := Take(s, steps, mid, t, P.Mark(now, lease));
  }

  lemma TakeFail(s: P.System, steps: seq<P.Step>, mid: P.System, db: Tables, i: nat, worker: string, t: Token, pc: P.Pc,
      outcome: FinalOutcome, seen: Observation, usable: bool) returns (more: seq<P.Step>, after: P.System)
    requires Ran(s, steps, mid, t) && At(mid, db, i, worker, t, pc) && (pc == P.Holding || pc.MaySubmit())
    requires i < |db.executions| && outcome in {Error, Timeout}
    ensures Ran(s, more, after, t) && At(after, db, i, worker, t, P.Finishing(outcome, seen, usable))
  {
    more, after := Take(s, steps, mid, t, P.Fail(outcome, seen, usable));
  }

  /** Where the unlocked read of the attempt leads. */
  function AfterRead(db: Tables, i: nat): P.Pc
    requires TurnOf(db, i)
  {
    var place := db.executions[i].manifest.conversation.value;
    var attempt := db.attempts[place.attempt];
    if attempt.state == Unusable then P.SESSION_FAILED
    else if attempt.session != "" then P.ReadyToSubmit(attempt.session)
    else if place.ordinal != 1 then P.SESSION_FAILED
    else P.Opening
  }

  lemma TakeReadSession(s: P.System, steps: seq<P.Step>, mid: P.System, db: Tables, i: nat, worker: string, t: Token)
    returns (more: seq<P.Step>, after: P.System)
    requires Ran(s, steps, mid, t) && At(mid, db, i, worker, t, P.Marked) && TurnOf(db, i)
    ensures Ran(s, more, after, t) && At(after, db, i, worker, t, AfterRead(db, i))
  {
    more, after := Take(s, steps, mid, t, P.ReadSession);
  }

  lemma TakeOpenCall(s: P.System, steps: seq<P.Step>, mid: P.System, db: Tables, i: nat, worker: string, t: Token,
      session: string) returns (more: seq<P.Step>, after: P.System)
    requires Ran(s, steps, mid, t) && At(mid, db, i, worker, t, P.Opening) && TurnOf(db, i) && session != ""
    ensures Ran(s, more, after, t) && At(after, db, i, worker, t, P.OpenedSession(session))
  {
    more, after := Take(s, steps, mid, t, P.OpenCall(session));
  }

  lemma TakeCommitSession(s: P.System, steps: seq<P.Step>, mid: P.System, db: Tables, i: nat, worker: string, t: Token,
      session: string) returns (more: seq<P.Step>, after: P.System)
    requires Ran(s, steps, mid, t) && At(mid, db, i, worker, t, P.OpenedSession(session)) && TurnOf(db, i)
    ensures Ran(s, more, after, t)
    ensures var a := db.executions[i].manifest.conversation.value.attempt;
      match RecordSession(db.attempts[a], session)
      case None => At(after, db, i, worker, t, P.SESSION_FAILED)
      case Some(attempt) =>
        At(after, db.(attempts := db.attempts[a := attempt]), i, worker, t, P.ReadyToSubmit(attempt.session))
  {
    more, after := Take(s, steps, mid, t, P.CommitSession);
  }

  lemma TakeSubmit(s: P.System, steps: seq<P.Step>, mid: P.System, db: Tables, i: nat, worker: string, t: Token,
      pc: P.Pc, outcome: FinalOutcome, seen: Observation, usable: bool) returns (more: seq<P.Step>, after: P.System)
    requires Ran(s, steps, mid, t) && At(mid, db, i, worker, t, pc) && i < |db.executions|
    requires if db.executions[i].manifest.conversation.Some? then pc.ReadyToSubmit? else pc == P.Marked
    requires outcome == Success ==> usable
    ensures Ran(s, more, after, t) && At(after, db, i, worker, t, P.Finishing(outcome, seen, usable))
  {
    more, after := Take(s, steps, mid, t, P.Submit(outcome, seen, usable));
  }
}
