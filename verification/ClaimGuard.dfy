/** Which row a worker is offered: exactly the conditions under which a waiting row can be claimed at a time. */
module ClaimGuard {
  import opened Wrappers
  import opened Rows
  import opened Transactions

  /** The claims that count against a limit: held, with a lease beyond `now`. */
  predicate Counts(e: Execution, now: Time) {
    && e.outcome == Running && (e.phase == Claimed || e.phase == SubmissionStarted)
    && e.expiresAt.Some? && e.expiresAt.value > now
  }

  function LiveInRun(es: seq<Execution>, r: nat, now: Time): set<nat> {
    set i: nat | i < |es| && es[i].manifest.run == r && Counts(es[i], now)
  }

  function LiveInRevision(es: seq<Execution>, v: nat, now: Time): set<nat> {
    set i: nat | i < |es| && es[i].manifest.revision == v && Counts(es[i], now)
  }

  /** The run of the row goes on, and its pause is over. */
  predicate RunReady(run: Run, now: Time) {
    && (run.state == Queued || run.state == InProgress)
    && (run.nextDispatchAt.Some? ==> run.nextDispatchAt.value <= now)
  }

  /** A turn waits for a session that is not broken and for every earlier turn to have ended. */
  predicate TurnIsNext(db: Tables, e: Execution) {
    e.manifest.conversation.Some? ==>
      var place := e.manifest.conversation.value;
      && place.attempt < |db.attempts| && db.attempts[place.attempt].state != Unusable
      && forall j :: 0 <= j < |db.executions| && IsEarlier(db.executions[j], place) ==>
           db.executions[j].outcome in {Success, Error, Timeout}
  }

  predicate IsEarlier(e: Execution, place: TurnRef) {
    && e.manifest.conversation.Some? && e.manifest.conversation.value.attempt == place.attempt
    && e.manifest.conversation.value.ordinal < place.ordinal
  }

  /** A row can be claimed exactly when it waits, its run is ready, its turn has come, and both limits leave room for
      one more live claim. */
  lemma ClaimableIff(db: Tables, i: nat, now: Time)
    ensures Claimable(db, i, now) <==>
      && i < |db.executions| && db.executions[i].outcome == Pending && db.executions[i].manifest.run < |db.runs|
      && var e, run := db.executions[i], db.runs[db.executions[i].manifest.run];
      && RunReady(run, now) && TurnIsNext(db, e)
      && |LiveInRun(db.executions, e.manifest.run, now)| < run.actualConcurrency
      && |LiveInRevision(db.executions, e.manifest.revision, now)| < run.configuredMaxConcurrency
  {
    if i < |db.executions| && db.executions[i].manifest.run < |db.runs| {
      var e := db.executions[i];
      assert RunActive(db.executions, e.manifest.run, now) == LiveInRun(db.executions, e.manifest.run, now);
      assert RevisionActive(db.executions, e.manifest.revision, now)
        == LiveInRevision(db.executions, e.manifest.revision, now);
      if e.manifest.conversation.Some? {
        assert forall j :: 0 <= j < |db.executions| ==>
          (EarlierTurn(db.executions[j], e) <==> IsEarlier(db.executions[j], e.manifest.conversation.value));
      }
    }
  }
}
