/** What every committed transaction keeps true of the tables, whoever runs it. */
module TableInvariants {
  import opened Wrappers
  import opened Rows
  import opened Transactions
  import Launches

  // ---------- foreign keys and constraints ----------

  predicate RowLinked(db: Tables, e: Execution) {
    && e.manifest.run < |db.runs|
    && e.manifest.revision == db.runs[e.manifest.run].revision
    && (e.manifest.conversation.Some? ==>
          && e.manifest.conversation.value.attempt < |db.attempts|
          && db.attempts[e.manifest.conversation.value.attempt].run == e.manifest.run)
    && (e.manifest.baseline.Some? ==> e.manifest.baseline.value < |db.executions|)
  }

  predicate RunLinked(db: Tables, run: Run) {
    && run.revision < |db.revisions|
    && run.ConcurrencyBounds()
    && run.configuredMaxConcurrency == db.revisions[run.revision].maxConcurrency
  }

  predicate TurnsOrdered(turns: seq<Turn>) {
    forall j, k :: 0 <= j < k < |turns| ==> turns[j].ordinal < turns[k].ordinal && turns[j].id != turns[k].id
  }

  /** Rows point where they should, a conversation run has one attempt that all its rows belong to. */
  predicate Linked(db: Tables) {
    && (forall i :: 0 <= i < |db.executions| ==> RowLinked(db, db.executions[i]))
    && (forall r :: 0 <= r < |db.runs| ==> RunLinked(db, db.runs[r]))
    && (forall a :: 0 <= a < |db.attempts| ==> db.attempts[a].run < |db.runs|)
    && (forall i, a :: 0 <= i < |db.executions| && 0 <= a < |db.attempts|
                       && db.attempts[a].run == db.executions[i].manifest.run
                       ==> db.executions[i].InAttempt(a))
    && (forall k :: 0 <= k < |db.scenarios| ==> TurnsOrdered(db.scenarios[k]))
  }

  /** What holds of one row by itself: the claim-state constraint, a token only with a counted
      claim, no legacy phase on a conversation turn, and nothing captured before the end. */
  predicate RowSound(e: Execution) {
    && e.ClaimState()
    && (e.token.Some? ==> e.claimAttempt > 0)
    && (e.manifest.conversation.Some? && e.outcome == Running ==> e.Held())
    && (e.manifest.conversation.Some? && e.outcome == Pending ==> e.startedAt.None?)
    && (!e.outcome.Terminal() ==> e.observation == NOTHING_OBSERVED && e.completedAt.None? && e.latency.None?)
  }

  predicate RowsSound(es: seq<Execution>) {
    forall i :: 0 <= i < |es| ==> RowSound(es[i])
  }

  predicate DistinctOrdinals(es: seq<Execution>) {
    forall i, j :: 0 <= i < |es| && 0 <= j < |es| && i != j
      && SameAttempt(es[i], es[j])
      ==> es[i].manifest.conversation.value.ordinal != es[j].manifest.conversation.value.ordinal
  }

  /** Before any turn of an attempt was ever claimed, all earlier turns were terminal, and they stay so. */
  predicate TurnOrder(es: seq<Execution>) {
    forall i, j :: 0 <= i < |es| && 0 <= j < |es| && EarlierTurn(es[i], es[j]) && es[j].claimAttempt > 0
      ==> es[i].outcome.Terminal()
  }

  /** The state of a run says what its rows are. */
  predicate RunAgrees(db: Tables, r: nat)
    requires r < |db.runs|
  {
    && (db.runs[r].Terminal() <==> RunDone(db.executions, r))
    && (db.runs[r].state == Completed <==> RunClean(db.executions, r))
    && db.runs[r].state != Failed
  }

  predicate RunsAgree(db: Tables) {
    forall r :: 0 <= r < |db.runs| ==> RunAgrees(db, r)
  }

  predicate HasRow(es: seq<Execution>, r: nat) {
    exists i :: 0 <= i < |es| && es[i].manifest.run == r
  }

  predicate RunsNonempty(db: Tables) {
    forall r :: 0 <= r < |db.runs| ==> HasRow(db.executions, r)
  }

  predicate Sound(db: Tables) {
    && Linked(db) && RowsSound(db.executions) && DistinctOrdinals(db.executions)
    && TurnOrder(db.executions) && RunsAgree(db) && RunsNonempty(db)
  }

  // ---------- keeping the shape ----------

  predicate RunShape(run: Run, after: Run) {
    after == run.(state := after.state, startedAt := after.startedAt, completedAt := after.completedAt,
                  nextDispatchAt := after.nextDispatchAt)
  }

  predicate AttemptShape(attempt: Attempt, after: Attempt) {
    after == attempt.(session := after.session, state := after.state, completedAt := after.completedAt)
  }

  /** A worker or recovery transaction: it adds no rows and leaves every launch-time field alone. */
  predicate SameShape(db: Tables, after: Tables) {
    && after.revisions == db.revisions && after.scenarios == db.scenarios && after.baselines == db.baselines
    && |after.executions| == |db.executions| && |after.runs| == |db.runs| && |after.attempts| == |db.attempts|
    && (forall i :: 0 <= i < |db.executions| ==> after.executions[i].manifest == db.executions[i].manifest)
    && (forall r :: 0 <= r < |db.runs| ==> RunShape(db.runs[r], after.runs[r]))
    && (forall a :: 0 <= a < |db.attempts| ==> AttemptShape(db.attempts[a], after.attempts[a]))
  }

  lemma ShapeKeepsLinks(db: Tables, after: Tables)
    requires Linked(db) && SameShape(db, after)
    ensures Linked(after)
  {
    forall i | 0 <= i < |after.executions| ensures RowLinked(after, after.executions[i]) {
      assert RowLinked(db, db.executions[i]);
    }
    forall r | 0 <= r < |after.runs| ensures RunLinked(after, after.runs[r]) {
      assert RunLinked(db, db.runs[r]);
    }
    forall i, a | && 0 <= i < |after.executions| && 0 <= a < |after.attempts|
                  && after.attempts[a].run == after.executions[i].manifest.run
      ensures after.executions[i].InAttempt(a)
    {
      assert db.attempts[a].run == db.executions[i].manifest.run;
      assert db.executions[i].InAttempt(a);
    }
  }

  lemma ShapeKeepsRows(db: Tables, after: Tables)
    requires SameShape(db, after)
    ensures DistinctOrdinals(db.executions) ==> DistinctOrdinals(after.executions)
    ensures RunsNonempty(db) ==> RunsNonempty(after)
  {
    if RunsNonempty(db) {
      forall r | 0 <= r < |after.runs| ensures HasRow(after.executions, r) {
        assert HasRow(db.executions, r);
        var i :| 0 <= i < |db.executions| && db.executions[i].manifest.run == r;
        assert after.executions[i].manifest.run == r;
      }
    }
  }

  /** Terminal rows stay terminal, and only a turn whose predecessors are done gets its first claim. */
  lemma OrderKept(es: seq<Execution>, fs: seq<Execution>)
    requires TurnOrder(es) && |fs| == |es|
    requires forall i :: 0 <= i < |es| ==> fs[i].manifest == es[i].manifest
    requires forall i :: 0 <= i < |es| && es[i].outcome.Terminal() ==> fs[i].outcome.Terminal()
    requires forall i, j :: 0 <= i < |es| && 0 <= j < |es| && es[j].claimAttempt == 0 && fs[j].claimAttempt > 0
                            && EarlierTurn(es[i], es[j])
                            ==> es[i].outcome.Terminal()
    ensures TurnOrder(fs)
  {
    forall i, j | 0 <= i < |fs| && 0 <= j < |fs| && EarlierTurn(fs[i], fs[j]) && fs[j].claimAttempt > 0
      ensures fs[i].outcome.Terminal()
    {
      assert EarlierTurn(es[i], es[j]);
    }
  }

  /** Run `r` after a transaction that changed no outcome of its rows and not its state. */
  lemma UntouchedRunAgrees(db: Tables, after: Tables, r: nat)
    requires r < |db.runs| && r < |after.runs| && RunAgrees(db, r)
    requires after.runs[r].state == db.runs[r].state
    requires |after.executions| == |db.executions|
    requires forall i :: 0 <= i < |db.executions| ==>
               after.executions[i].manifest == db.executions[i].manifest
               && (db.executions[i].manifest.run == r ==> after.executions[i].outcome == db.executions[i].outcome)
    ensures RunAgrees(after, r)
  {
    assert RunDone(db.executions, r) <==> RunDone(after.executions, r);
    assert RunClean(db.executions, r) <==> RunClean(after.executions, r);
  }

  /** Finalizing derives exactly the state that agrees with the rows. */
  lemma FinishedRunAgrees(db: Tables, r: nat)
    requires r < |db.runs| && RunDone(db.executions, r) && HasRow(db.executions, r)
    requires db.runs[r].state == if RunFailed(db.executions, r) then CompletedWithErrors else Completed
    ensures RunAgrees(db, r)
  {
    if !RunFailed(db.executions, r) {
      forall i | 0 <= i < |db.executions| && db.executions[i].manifest.run == r
        ensures db.executions[i].outcome == Success
      {
        assert db.executions[i].outcome.Terminal();
      }
    }
  }

  lemma UnfinishedRunAgrees(db: Tables, r: nat)
    requires r < |db.runs| && !RunDone(db.executions, r) && !db.runs[r].Terminal()
    ensures RunAgrees(db, r)
  {
    var i :| 0 <= i < |db.executions| && db.executions[i].manifest.run == r && !db.executions[i].outcome.Terminal();
    assert db.executions[i].outcome != Success;
  }
}
