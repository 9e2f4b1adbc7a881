/** Every transaction keeps the tables sound, and the ones that could abort on a terminal run are told apart. */
module TransactionProofs {
  import opened Wrappers
  import opened Rows
  import opened Transactions
  import opened TableInvariants

  // ---------- claiming ----------

  lemma ClaimKeepsRuns(db: Tables, i: nat, worker: string, t: Token, now: Time, lease: nat)
    requires RunsAgree(db) && i < |db.executions| && db.executions[i].manifest.run < |db.runs|
    requires db.executions[i].outcome == Pending
    ensures RunsAgree(RecordClaim(db, i, worker, t, now, lease))
  {
    var after := RecordClaim(db, i, worker, t, now, lease);
    forall r | 0 <= r < |after.runs| ensures RunAgrees(after, r) {
      assert RunAgrees(db, r);
      if r == db.executions[i].manifest.run {
        assert !after.executions[i].outcome.Terminal() && after.executions[i].manifest.run == r;
        UnfinishedRunAgrees(after, r);
      } else {
        UntouchedRunAgrees(db, after, r);
      }
    }
  }

  lemma ClaimedRowSound(e: Execution, worker: string, t: Token, now: Time, lease: nat)
    requires RowSound(e) && e.outcome == Pending && worker != ""
    ensures RowSound(TakeClaim(e, worker, t, now, lease))
  {
  }

  lemma ClaimKeepsSound(db: Tables, i: nat, worker: string, t: Token, now: Time, lease: nat)
    requires Sound(db) && i < |db.executions| && db.executions[i].manifest.run < |db.runs|
    requires db.executions[i].outcome == Pending && TurnReady(db, db.executions[i]) && worker != ""
    ensures Sound(RecordClaim(db, i, worker, t, now, lease))
    ensures SameShape(db, RecordClaim(db, i, worker, t, now, lease))
  {
    var after := RecordClaim(db, i, worker, t, now, lease);
    assert SameShape(db, after);
    ShapeKeepsLinks(db, after);
    ShapeKeepsRows(db, after);
    assert RowSound(db.executions[i]);
    ClaimedRowSound(db.executions[i], worker, t, now, lease);
    OrderKept(db.executions, after.executions);
    ClaimKeepsRuns(db, i, worker, t, now, lease);
  }

  // ---------- renewing, marking, deciding validity ----------

  /** A change of one row that leaves its outcome and its claim count alone. */
  lemma RowChangeKeepsSound(db: Tables, i: nat, e: Execution)
    requires Sound(db) && i < |db.executions|
    requires RowSound(e) && e.manifest == db.executions[i].manifest
    requires e.outcome == db.executions[i].outcome && e.claimAttempt == db.executions[i].claimAttempt
    ensures Sound(db.(executions := db.executions[i := e]))
    ensures SameShape(db, db.(executions := db.executions[i := e]))
  {
    var after := db.(executions := db.executions[i := e]);
    ShapeKeepsLinks(db, after);
    ShapeKeepsRows(db, after);
    OrderKept(db.executions, after.executions);
    forall r | 0 <= r < |after.runs| ensures RunAgrees(after, r) {
      assert RunAgrees(db, r);
      UntouchedRunAgrees(db, after, r);
    }
  }

  lemma HeldRowSound(e: Execution, now: Time, lease: nat)
    requires RowSound(e) && e.Held()
    ensures RowSound(Renew(e, now, lease)) && RowSound(MarkStarted(e, now, lease))
  {
  }

  lemma FinalizedRowSound(e: Execution, outcome: FinalOutcome, seen: Observation, now: Time)
    requires RowSound(e) && !e.outcome.Terminal()
    ensures RowSound(FinalizeExecution(e, outcome, seen, now))
  {
  }

  // ---------- finalizing the run of some rows that became terminal ----------

  /** Rows of one run became terminal and the run was finalized if it is complete: all runs agree again. */
  lemma FinalizationKeepsRuns(db: Tables, after: Tables, r0: nat)
    requires RunsAgree(db) && RunsNonempty(after) && r0 < |db.runs| && !db.runs[r0].Terminal()
    requires |after.runs| == |db.runs| && |after.executions| == |db.executions|
    requires forall k :: 0 <= k < |db.executions| ==>
               && after.executions[k].manifest == db.executions[k].manifest
               && (db.executions[k].manifest.run != r0 ==> after.executions[k].outcome == db.executions[k].outcome)
    requires forall r :: 0 <= r < |db.runs| && r != r0 ==> after.runs[r].state == db.runs[r].state
    requires after.runs[r0].state == if !RunDone(after.executions, r0) then db.runs[r0].state
                                     else if RunFailed(after.executions, r0) then CompletedWithErrors else Completed
    ensures RunsAgree(after)
  {
    forall r | 0 <= r < |after.runs| ensures RunAgrees(after, r) {
      assert RunAgrees(db, r) && HasRow(after.executions, r);
      if r != r0 {
        UntouchedRunAgrees(db, after, r);
      } else if RunDone(after.executions, r) {
        FinishedRunAgrees(after, r);
      } else {
        UnfinishedRunAgrees(after, r);
      }
    }
  }

  // ---------- completing ----------

  /** The holder of a running row always commits: its run cannot be terminal yet. */
  lemma CompleteCommits(db: Tables, i: nat, outcome: FinalOutcome, seen: Observation, now: Time)
    requires RunsAgree(db) && i < |db.executions| && db.executions[i].outcome == Running
    requires db.executions[i].manifest.run < |db.runs|
    ensures Complete(db, i, outcome, seen, now).Some?
    ensures !db.runs[db.executions[i].manifest.run].Terminal()
  {
    assert RunAgrees(db, db.executions[i].manifest.run);
  }

  lemma CompletedRowsSound(db: Tables, i: nat, outcome: FinalOutcome, seen: Observation, now: Time, fs: seq<Execution>)
    requires RowsSound(db.executions) && TurnOrder(db.executions)
    requires i < |db.executions| && db.executions[i].outcome == Running
    requires fs == db.executions[i := FinalizeExecution(db.executions[i], outcome, seen, now)]
    ensures RowsSound(fs) && TurnOrder(fs)
  {
    assert RowSound(db.executions[i]);
    FinalizedRowSound(db.executions[i], outcome, seen, now);
    OrderKept(db.executions, fs);
  }

  lemma CompleteKeepsSound(db: Tables, i: nat, outcome: FinalOutcome, seen: Observation, now: Time)
    requires Sound(db) && i < |db.executions| && db.executions[i].outcome == Running
    requires db.executions[i].manifest.run < |db.runs|
    requires Complete(db, i, outcome, seen, now).Some?
    ensures Sound(Complete(db, i, outcome, seen, now).value)
    ensures SameShape(db, Complete(db, i, outcome, seen, now).value)
  {
    var after := Complete(db, i, outcome, seen, now).value;
    CompleteCommits(db, i, outcome, seen, now);
    ShapeKeepsLinks(db, after);
    ShapeKeepsRows(db, after);
    CompletedRowsSound(db, i, outcome, seen, now, after.executions);
    FinalizationKeepsRuns(db, after, db.executions[i].manifest.run);
  }

  // ---------- breaking a session ----------

  predicate TurnOf(db: Tables, i: nat) {
    && i < |db.executions| && db.executions[i].manifest.run < |db.runs|
    && db.executions[i].manifest.conversation.Some?
    && db.executions[i].manifest.conversation.value.attempt < |db.attempts|
  }

  /** Blocking aborts exactly when the run was already finalized: by then no turn is left to block. */
  lemma MarkUnusableAborts(db: Tables, i: nat, now: Time)
    requires RunsAgree(db) && TurnOf(db, i)
    ensures MarkUnusable(db, i, now).None? <==> db.runs[db.executions[i].manifest.run].Terminal()
  {
    var r := db.executions[i].manifest.run;
    var a := db.executions[i].manifest.conversation.value.attempt;
    assert RunAgrees(db, r);
    if db.runs[r].Terminal() {
      forall k | 0 <= k < |db.executions| && db.executions[k].manifest.run == r
        ensures BlockTurns(db.executions, a, now)[k].outcome.Terminal()
      {
        assert db.executions[k].outcome.Terminal();
      }
    }
  }

  lemma BlockedRow(db: Tables, a: nat, k: nat, now: Time)
    requires Linked(db) && k < |db.executions| && a < |db.attempts|
    ensures var f := BlockTurn(db.executions[k], a, now);
      && f.manifest == db.executions[k].manifest
      && (db.executions[k].manifest.run != db.attempts[a].run ==> f == db.executions[k])
      && (RowSound(db.executions[k]) ==> RowSound(f))
      && f.claimAttempt == db.executions[k].claimAttempt
      && (db.executions[k].outcome.Terminal() ==> f == db.executions[k])
  {
    assert RowLinked(db, db.executions[k]);
  }

  lemma MarkUnusableKeepsSound(db: Tables, i: nat, now: Time)
    requires Sound(db) && TurnOf(db, i)
    requires MarkUnusable(db, i, now).Some?
    ensures Sound(MarkUnusable(db, i, now).value)
    ensures SameShape(db, MarkUnusable(db, i, now).value)
  {
    var after := MarkUnusable(db, i, now).value;
    var r0 := db.executions[i].manifest.run;
    var a := db.executions[i].manifest.conversation.value.attempt;
    MarkUnusableAborts(db, i, now);
    assert db.attempts[a].run == r0 by { assert RowLinked(db, db.executions[i]); }
    forall k | 0 <= k < |db.executions|
      ensures after.executions[k] == BlockTurn(db.executions[k], a, now)
      ensures after.executions[k].manifest == db.executions[k].manifest
      ensures db.executions[k].manifest.run != r0 ==> after.executions[k] == db.executions[k]
      ensures RowSound(after.executions[k])
      ensures after.executions[k].claimAttempt == db.executions[k].claimAttempt
      ensures db.executions[k].outcome.Terminal() ==> after.executions[k] == db.executions[k]
    {
      BlockedRow(db, a, k, now);
      assert RowSound(db.executions[k]);
    }
    MarkUnusableRuns(db, i, now);
    assert SameShape(db, after);
    ShapeKeepsLinks(db, after);
    ShapeKeepsRows(db, after);
    OrderKept(db.executions, after.executions);
    FinalizationKeepsRuns(db, after, r0);
  }

  lemma MarkUnusableRuns(db: Tables, i: nat, now: Time)
    requires TurnOf(db, i) && MarkUnusable(db, i, now).Some?
    ensures var after := MarkUnusable(db, i, now).value;
      var r0 := db.executions[i].manifest.run;
      && |after.runs| == |db.runs|
      && (forall r :: 0 <= r < |db.runs| ==> RunShape(db.runs[r], after.runs[r]))
      && (forall r :: 0 <= r < |db.runs| && r != r0 ==> after.runs[r].state == db.runs[r].state)
      && (after.runs[r0].state == if !RunDone(after.executions, r0) then db.runs[r0].state
                                  else if RunFailed(after.executions, r0) then CompletedWithErrors else Completed)
  {
  }

  // ---------- reconciliation ----------

  lemma ReconciledRowSound(es: seq<Execution>, k: nat, now: Time, skipped: set<nat>)
    requires k < |es| && RowSound(es[k])
    ensures RowSound(ReconcileRow(es, k, now, skipped))
  {
  }

  /** A row of a run that no ambiguous row touched is at most reclaimed. */
  lemma UntouchedRowKept(db: Tables, k: nat, now: Time, skipped: set<nat>)
    requires Linked(db) && k < |db.executions|
    requires !TouchedRun(db.executions, db.executions[k].manifest.run, now, skipped)
    ensures var f := ReconcileRow(db.executions, k, now, skipped);
      f == db.executions[k] || (db.executions[k].outcome == Running && f.outcome == Pending)
  {
    var es := db.executions;
    if es[k].manifest.conversation.Some? {
      var a := es[k].manifest.conversation.value.attempt;
      assert RowLinked(db, es[k]);
      forall i | 0 <= i < |es| && Ambiguous(es, i, now, skipped) ensures !es[i].InAttempt(a) {
        assert RowLinked(db, es[i]);
      }
      assert !BrokenAttempt(es, a, now, skipped);
    }
  }

  lemma UntouchedReconciledRunAgrees(db: Tables, r: nat, now: Time, skipped: set<nat>)
    requires Linked(db) && r < |db.runs| && RunAgrees(db, r)
    requires !TouchedRun(db.executions, r, now, skipped)
    ensures RunAgrees(Reconcile(db, now, skipped), r)
  {
    var es := db.executions;
    var after := Reconcile(db, now, skipped);
    var fs := after.executions;
    assert after.runs[r] == db.runs[r];
    forall k | 0 <= k < |es| && es[k].manifest.run == r
      ensures fs[k] == es[k] || (es[k].outcome == Running && fs[k].outcome == Pending)
    {
      UntouchedRowKept(db, k, now, skipped);
    }
    assert RunDone(es, r) <==> RunDone(fs, r);
    assert RunClean(es, r) <==> RunClean(fs, r);
  }

  lemma TouchedReconciledRunAgrees(db: Tables, r: nat, now: Time, skipped: set<nat>)
    requires r < |db.runs| && RunAgrees(db, r)
    requires TouchedRun(db.executions, r, now, skipped)
    ensures RunAgrees(Reconcile(db, now, skipped), r)
    ensures !db.runs[r].Terminal()
  {
    var es := db.executions;
    var after := Reconcile(db, now, skipped);
    var i :| 0 <= i < |es| && Ambiguous(es, i, now, skipped) && es[i].manifest.run == r;
    assert !es[i].outcome.Terminal();
    assert after.executions[i].manifest.run == r;
    if RunDone(after.executions, r) {
      assert after.runs[r] == FinishRun(db.runs[r], after.executions, r, now);
      FinishedRunAgrees(after, r);
    } else {
      assert after.runs[r] == db.runs[r];
      UnfinishedRunAgrees(after, r);
    }
  }

  lemma ReconcileKeepsSound(db: Tables, now: Time, skipped: set<nat>)
    requires Sound(db)
    ensures Sound(Reconcile(db, now, skipped))
    ensures SameShape(db, Reconcile(db, now, skipped))
  {
    var after := Reconcile(db, now, skipped);
    ShapeKeepsLinks(db, after);
    ShapeKeepsRows(db, after);
    forall k | 0 <= k < |after.executions| ensures RowSound(after.executions[k]) {
      assert RowSound(db.executions[k]);
      ReconciledRowSound(db.executions, k, now, skipped);
    }
    OrderKept(db.executions, after.executions);
    forall r | 0 <= r < |after.runs| ensures RunAgrees(after, r) {
      assert RunAgrees(db, r);
      if TouchedRun(db.executions, r, now, skipped) {
        TouchedReconciledRunAgrees(db, r, now, skipped);
      } else {
        UntouchedReconciledRunAgrees(db, r, now, skipped);
      }
    }
  }

  // ---------- the session transactions ----------

  /** Recording, closing or failing to change one attempt. */
  lemma AttemptChangeKeepsSound(db: Tables, a: nat, attempt: Attempt)
    requires Sound(db) && a < |db.attempts| && AttemptShape(db.attempts[a], attempt)
    ensures Sound(db.(attempts := db.attempts[a := attempt]))
    ensures SameShape(db, db.(attempts := db.attempts[a := attempt]))
  {
    var after := db.(attempts := db.attempts[a := attempt]);
    ShapeKeepsLinks(db, after);
    forall r | 0 <= r < |after.runs| ensures RunAgrees(after, r) {
      assert RunAgrees(db, r);
    }
  }
}
