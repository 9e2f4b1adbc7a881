/** The work queue in the form the service has it: transactions that update rows in place, in loops. Each one is proved
    to do exactly what its function in `Transactions` says, so every result about those functions is about these. */
module WorkQueue {
  import opened Wrappers
  import opened Rows
  import opened Transactions
  import opened TableInvariants
  import opened TransactionProofs
  import opened RunHistory
  import opened ReconcileLoop
  import opened Columns
  import Comparison
  import Launches

  /** How a completion ended: it committed, the claim was no longer the caller's, or it raised and rolled back. */
  datatype Reply = Committed | Refused | Raised

  /** The identity of a worker that does not give one. */
  const IN_PROCESS_WORKER := "in-process"

  function WorkerIdentity(worker: string): string { if worker == "" then IN_PROCESS_WORKER else worker }

  /** Claim acceptance on one row, as the claim loop decides it. */
  predicate Candidate(db: Tables, i: nat, now: Time) {
    && i < |db.executions| && db.executions[i].outcome == Pending
    && db.executions[i].manifest.run < |db.runs|
    && db.runs[db.executions[i].manifest.run].state in {Queued, InProgress}
    && db.runs[db.executions[i].manifest.run].DispatchableAt(now)
  }

  /** No row below `n` that nobody has locked may be claimed. */
  predicate NoneOffered(db: Tables, n: nat, now: Time, skipped: set<nat>) {
    forall k :: 0 <= k < n && k !in skipped ==> !Claimable(db, k, now)
  }

  class Queue {
    var revisions: seq<Revision>
    var scenarios: seq<seq<Turn>>
    var runs: seq<Run>
    var executions: seq<Execution>
    var attempts: seq<Attempt>
    var baselines: seq<Baseline>
    var items: seq<ComparisonItem>

    constructor (db: Tables)
      ensures Db() == db
    {
      revisions, scenarios, runs, executions := db.revisions, db.scenarios, db.runs, db.executions;
      attempts, baselines, items := db.attempts, db.baselines, db.items;
    }

    function Db(): Tables
      reads this
    {
      Tables(revisions, scenarios, runs, executions, attempts, baselines, items)
    }

    predicate Linked(i: nat)
      reads this
    {
      i < |executions| && executions[i].manifest.run < |runs|
    }

    // ---------- claiming ----------

    /** `claim_next_execution`: the first row, in order, that nobody else has locked and that may run now. */
    method ClaimNextExecution(worker: string, token: Token, now: Time, lease: nat, skipped: set<nat>)
      returns (claimed: Option<nat>)
      requires Sound(Db())
      modifies this
      ensures Sound(Db())
      ensures claimed.None? ==> Db() == old(Db()) && NoneOffered(Db(), |executions|, now, skipped)
      ensures claimed.Some? ==> claimed.value !in skipped && Claimable(old(Db()), claimed.value, now)
      ensures claimed.Some? ==> NoneOffered(old(Db()), claimed.value, now, skipped)
      ensures claimed.Some? ==>
        Db() == RecordClaim(old(Db()), claimed.value, WorkerIdentity(worker), token, now, lease)
    {
      var identity := WorkerIdentity(worker);
      for i := 0 to |executions|
        invariant Db() == old(Db())
        invariant NoneOffered(Db(), i, now, skipped)
      {
        var e := executions[i];
        if i in skipped || !Candidate(Db(), i, now) { continue; }
        if e.manifest.conversation.Some? {
          var a := e.manifest.conversation.value.attempt;
          if a >= |attempts| || attempts[a].state == Unusable { continue; }
          var priorIsActive := exists j :: 0 <= j < |executions| && EarlierTurn(executions[j], e)
                                           && !executions[j].outcome.Terminal();
          if priorIsActive { continue; }
        }
        var runActive := |RunActive(executions, e.manifest.run, now)|;
        var targetActive := |RevisionActive(executions, e.manifest.revision, now)|;
        if runActive >= runs[e.manifest.run].actualConcurrency
           || targetActive >= runs[e.manifest.run].configuredMaxConcurrency { continue; }
        TakeRow(i, identity, token, now, lease);
        return Some(i);
      }
      return None;
    }

    /** The writes of a claim: the row, and its run if this is the first claim in it. */
    method TakeRow(i: nat, worker: string, token: Token, now: Time, lease: nat)
      requires Sound(Db()) && worker != "" && Claimable(Db(), i, now)
      modifies `runs, `executions
      ensures Sound(Db()) && Db() == RecordClaim(old(Db()), i, worker, token, now, lease)
    {
      ClaimKeepsSound(Db(), i, worker, token, now, lease);
      var e := executions[i];
      runs := runs[e.manifest.run := StartRun(runs[e.manifest.run], now)];
      executions := executions[i := TakeClaim(e, worker, token, now, lease)];
    }

    // ---------- acting under a claim ----------

    /** `refresh_claim_lease`: no look at whether the lease is still live. */
    method RefreshClaimLease(i: nat, worker: string, token: Token, now: Time, lease: nat) returns (renewed: bool)
      requires i < |executions|
      modifies `executions
      ensures renewed <==> old(executions[i]).OwnedBy(worker, token) && old(executions[i]).Held()
      ensures Db() == if renewed then RefreshLease(old(Db()), i, now, lease) else old(Db())
      ensures Sound(old(Db())) ==> Sound(Db())
    {
      var e := executions[i];
      renewed := e.OwnedBy(worker, token) && e.Held();
      if renewed {
        if Sound(Db()) {
          assert RowSound(e);
          HeldRowSound(e, now, lease);
          RowChangeKeepsSound(Db(), i, Renew(e, now, lease));
        }
        executions := executions[i := e.(heartbeatAt := Some(now), expiresAt := Some(now + lease))];
      }
    }

    /** `_mark_submission_started`: the boundary after which a question may have left. */
    method MarkSubmissionStarted(i: nat, worker: string, token: Token, now: Time, lease: nat) returns (marked: bool)
      requires i < |executions|
      modifies `executions
      ensures marked <==> MayMark(old(Db()), i, worker, token)
      ensures Db() == if marked then MarkSubmission(old(Db()), i, now, lease) else old(Db())
      ensures Sound(old(Db())) ==> Sound(Db())
    {
      var e := executions[i];
      if e.outcome != Running || e.worker != worker || e.token != Some(token) || e.phase != Claimed { return false; }
      if Sound(Db()) {
        assert RowSound(e);
        HeldRowSound(e, now, lease);
        RowChangeKeepsSound(Db(), i, MarkStarted(e, now, lease));
      }
      executions :=
        executions[i := e.(phase := SubmissionStarted, heartbeatAt := Some(now), expiresAt := Some(now + lease))];
      return true;
    }

    /** `_finalize_run_if_complete`, from the grouped counts: false when saving an already terminal run raises. */
    method FinalizeRun(r: nat, now: Time) returns (ok: bool)
      requires r < |runs|
      modifies `runs
      ensures ok <==> FinalizeRunIfComplete(old(runs), executions, r, now).Some?
      ensures runs == if ok then FinalizeRunIfComplete(old(runs), executions, r, now).value else old(runs)
    {
      var counts := RunProgress(executions, r);
      ProgressMeansDone(executions, r);
      if counts.pending > 0 || counts.running > 0 { return true; }
      if runs[r].Terminal() { return false; }
      var state := if counts.error > 0 || counts.timeout > 0 then CompletedWithErrors else Completed;
      runs := runs[r := runs[r].(state := state, completedAt := Some(now), nextDispatchAt := None)];
      return true;
    }

    method Restore(db: Tables)
      modifies this
      ensures Db() == db
    {
      revisions, scenarios, runs, executions := db.revisions, db.scenarios, db.runs, db.executions;
      attempts, baselines, items := db.attempts, db.baselines, db.items;
    }

    /** The pause a run asks for between questions starts when one of them ends. */
    method DelayDispatch(r: nat, now: Time)
      requires r < |runs|
      modifies `runs
      ensures runs == old(runs)[r := Dispatched(old(runs)[r], now)]
    {
      if !runs[r].Terminal() && runs[r].delay != 0 {
        runs := runs[r := runs[r].(nextDispatchAt := Some(now + runs[r].delay))];
      }
    }

    /** `_complete_execution`: fenced by the claim token, and all or nothing. */
    method CompleteExecution(i: nat, worker: string, token: Token, outcome: FinalOutcome, seen: Observation, now: Time)
      returns (reply: Reply)
      requires Linked(i)
      modifies this
      ensures reply == Refused <==> !old(executions[i]).OwnedBy(worker, token)
      ensures reply == Raised <==>
        old(executions[i]).OwnedBy(worker, token) && Complete(old(Db()), i, outcome, seen, now).None?
      ensures Db() == if reply == Committed then Complete(old(Db()), i, outcome, seen, now).value else old(Db())
      ensures Sound(old(Db())) ==> reply != Raised && Sound(Db())
    {
      var before := Db();
      var e := executions[i];
      if e.outcome.Terminal() || e.outcome != Running || e.worker != worker || e.token != Some(token) {
        return Refused;
      }
      CompletionSound(before, i, outcome, seen, now);
      executions := executions[i := FinalizeExecution(e, outcome, seen, now)];
      items := Comparison.Record(Db(), i);
      var r := e.manifest.run;
      DelayDispatch(r, now);
      var ok := FinalizeRun(r, now);
      if !ok {
        Restore(before);
        return Raised;
      }
      return Committed;
    }

    // ---------- the conversation session ----------

    /** The locked part of `_ensure_conversation_session`: false when another session is already recorded. */
    method RecordOpenedSession(a: nat, session: string) returns (ok: bool)
      requires a < |attempts|
      modifies `attempts
      ensures ok <==> RecordSession(old(attempts[a]), session).Some?
      ensures attempts == if ok then old(attempts)[a := RecordSession(old(attempts[a]), session).value]
        else old(attempts)
      ensures Sound(old(Db())) ==> Sound(Db())
    {
      var locked := attempts[a];
      if locked.session != "" && locked.session != session { return false; }
      if locked.session == "" {
        if Sound(Db()) { AttemptChangeKeepsSound(Db(), a, locked.(session := session, state := Active)); }
        attempts := attempts[a := locked.(session := session, state := Active)];
      }
      return true;
    }

    /** `_mark_conversation_session_unusable`: blocks the turns that were never claimed; raises on a finished run. */
    method MarkSessionUnusable(i: nat, now: Time) returns (ok: bool)
      requires TurnOf(Db(), i)
      modifies this
      ensures ok <==> MarkUnusable(old(Db()), i, now).Some?
      ensures Db() == if ok then MarkUnusable(old(Db()), i, now).value else old(Db())
    {
      var before := Db();
      var a := executions[i].manifest.conversation.value.attempt;
      attempts := attempts[a := attempts[a].(state := Unusable)];
      for k := 0 to |executions|
        invariant |executions| == |before.executions|
        invariant Db() == before.(executions := executions, attempts := attempts)
        invariant attempts == before.attempts[a := before.attempts[a].(state := Unusable)]
        invariant forall j :: 0 <= j < k ==> executions[j] == BlockTurn(before.executions[j], a, now)
        invariant forall j :: k <= j < |executions| ==> executions[j] == before.executions[j]
      {
        if executions[k].outcome == Pending && executions[k].InAttempt(a) {
          executions := executions[k := FinalizeExecution(executions[k], Error, BLOCKED, now)];
        }
      }
      assert executions == BlockTurns(before.executions, a, now);
      if AttemptDone(executions, a) {
        attempts := attempts[a := attempts[a].(completedAt := Some(now))];
      }
      assert attempts == before.attempts[a := BreakSession(before.attempts[a], AttemptDone(executions, a), now)];
      ok := FinalizeRun(executions[i].manifest.run, now);
      if !ok { Restore(before); }
    }

    /** The closing transaction of `_close_conversation_if_complete`. */
    method RecordClosedSession(a: nat, closed: bool, now: Time)
      requires a < |attempts|
      modifies `attempts
      ensures attempts == old(attempts)[a := CloseSession(old(attempts[a]), closed, now)]
      ensures Sound(old(Db())) ==> Sound(Db())
    {
      var locked := attempts[a];
      if locked.completedAt.Some? { return; }
      if Sound(Db()) { AttemptChangeKeepsSound(Db(), a, CloseSession(locked, closed, now)); }
      attempts := attempts[a := locked.(completedAt := Some(now))];
      if closed { attempts := attempts[a := attempts[a].(state := Closed)]; }
    }

    // ---------- reconciliation ----------

    /** `reconcile_stale_claims`: the loop over the stale rows, with session blocking inside it, then the runs; it
        raises at the first row whose latency does not fit. */
    method ReconcileStaleClaims(now: Time, skipped: set<nat>) returns (ok: bool, safeReclaimed: nat, ambiguous: nat)
      requires Sound(Db())
      modifies this
      ensures ok <==> RecoveryFits(old(executions), now, skipped)
      ensures Db() == if ok then Reconcile(old(Db()), now, skipped) else old(Db())
      ensures Sound(Db())
      ensures ok ==>
        safeReclaimed == |set k: nat | k < |old(executions)| && Reclaimed(old(executions), k, now, skipped)|
      ensures ok ==>
        ambiguous == |set k: nat | k < |old(executions)| && Ambiguous(old(executions), k, now, skipped)|
    {
      var before := Db();
      var finalizedRuns;
      ok, safeReclaimed, ambiguous, finalizedRuns := HandleStaleRows(now, skipped);
      if !ok {
        Restore(before);
        return false, 0, 0;
      }
      assert ReclaimedBelow(before.executions, |before.executions|, now, skipped)
        == set k: nat | k < |before.executions| && Reclaimed(before.executions, k, now, skipped);
      assert AmbiguousBelow(before.executions, |before.executions|, now, skipped)
        == set k: nat | k < |before.executions| && Ambiguous(before.executions, k, now, skipped);
      LoopLeavesRuns(before, now, skipped);
      FinalizeTouchedRuns(finalizedRuns, now, ReconcileRuns(before, now, skipped));
      ReconcileKeepsSound(before, now, skipped);
    }

    /** The loop over the stale rows as they were found. */
    method HandleStaleRows(now: Time, skipped: set<nat>)
      returns (ok: bool, safeReclaimed: nat, ambiguous: nat, finalizedRuns: set<nat>)
      requires Sound(Db())
      modifies this
      ensures ok <==> RecoveryFits(old(executions), now, skipped)
      ensures ok ==> Db() == Partial(old(Db()), |old(executions)|, now, skipped)
      ensures ok ==> safeReclaimed == |ReclaimedBelow(old(executions), |old(executions)|, now, skipped)|
      ensures ok ==> ambiguous == |AmbiguousBelow(old(executions), |old(executions)|, now, skipped)|
      ensures ok ==> finalizedRuns == SingleRuns(old(executions), |old(executions)|, now, skipped)
    {
      ghost var before := Db();
      var found := executions;
      ok, safeReclaimed, ambiguous, finalizedRuns := true, 0, 0, {};
      NothingYet(before, now, skipped);
      for n := 0 to |found|
        invariant Db() == Partial(before, n, now, skipped)
        invariant forall k :: 0 <= k < n ==> GivenUpFits(found, k, now, skipped)
        invariant finalizedRuns == SingleRuns(found, n, now, skipped)
        invariant safeReclaimed == |ReclaimedBelow(found, n, now, skipped)|
        invariant ambiguous == |AmbiguousBelow(found, n, now, skipped)|
      {
        MoreSingleRuns(found, n, now, skipped);
        MoreStale(found, n, now, skipped);
        var reclaimed, gaveUp;
        ok, reclaimed, gaveUp := HandleRow(n, found[n], now, skipped, before);
        if !ok { return; }
        if reclaimed {
          safeReclaimed := safeReclaimed + 1;
        } else if gaveUp {
          if found[n].manifest.conversation.None? { finalizedRuns := finalizedRuns + {found[n].manifest.run}; }
          ambiguous := ambiguous + 1;
        }
      }
    }

    /** One row of the loop: left alone, cleared for another claim, or given up. */
    method HandleRow(n: nat, row: Execution, now: Time, skipped: set<nat>, ghost before: Tables)
      returns (ok: bool, reclaimed: bool, gaveUp: bool)
      requires Sound(before) && n < |before.executions| && row == before.executions[n]
      requires Db() == Partial(before, n, now, skipped)
      modifies this
      ensures ok <==> GivenUpFits(before.executions, n, now, skipped)
      ensures ok ==> Db() == Partial(before, n + 1, now, skipped)
      ensures reclaimed <==> Reclaimed(before.executions, n, now, skipped)
      ensures gaveUp <==> Ambiguous(before.executions, n, now, skipped)
    {
      ok, reclaimed, gaveUp := true, false, false;
      if n in skipped || !Stale(row, now) {
        StillRow(before, n, now, skipped);
      } else if row.phase == Claimed {
        ReclaimedRow(before, n, now, skipped);
        executions := executions[n := ClearSafeClaim(executions[n])];
        reclaimed := true;
      } else {
        AmbiguousRow(before, n, now, skipped);
        ok := GiveUp(n, now);
        gaveUp := true;
      }
    }

    /** The body of the loop at a row whose question may have been sent. */
    method GiveUp(n: nat, now: Time) returns (ok: bool)
      requires n < |executions|
      requires executions[n].manifest.conversation.Some? ==> TurnOf(Db(), n)
      modifies this
      ensures ok <==> RowFits(FinalizeExecution(old(executions[n]), Error, AMBIGUOUS, now))
      ensures ok ==>
        var ended := FinalizeExecution(old(executions[n]), Error, AMBIGUOUS, now);
        var given := old(Db()).(executions := old(executions)[n := ended]);
        if old(executions[n]).manifest.conversation.None? then Db() == given
        else Db() == match MarkUnusable(given, n, now) case Some(db) => db case None => given
    {
      executions := executions[n := FinalizeExecution(executions[n], Error, AMBIGUOUS, now)];
      if !RowFits(executions[n]) { return false; }
      if executions[n].manifest.conversation.Some? { var blocked := MarkSessionUnusable(n, now); }
      return true;
    }

    /** The loop over the set of runs that an ambiguous single question touched, in any order. */
    method FinalizeTouchedRuns(touched: set<nat>, now: Time, ghost target: seq<Run>)
      requires |target| == |runs|
      requires forall r :: r in touched ==> r < |runs| && FinalizesTo(executions, runs[r], r, now, target[r])
      requires forall r :: 0 <= r < |runs| && r !in touched ==> target[r] == runs[r]
      modifies `runs
      ensures runs == target
    {
      ghost var start := runs;
      var left := touched;
      while left != {}
        invariant left <= touched && |runs| == |start|
        invariant forall r :: 0 <= r < |runs| ==> runs[r] == if r in left then start[r] else target[r]
        decreases |left|
      {
        var r :| r in left;
        var ok := FinalizeRun(r, now);
        left := left - {r};
      }
    }
  }

  /** Finalizing run `r` does not raise and leaves it as `after`. */
  predicate FinalizesTo(es: seq<Execution>, run: Run, r: nat, now: Time, after: Run) {
    !run.Terminal() && after == if RunDone(es, r) then FinishRun(run, es, r, now) else run
  }

  lemma CompletionSound(db: Tables, i: nat, outcome: FinalOutcome, seen: Observation, now: Time)
    requires i < |db.executions| && db.executions[i].manifest.run < |db.runs| && db.executions[i].outcome == Running
    ensures Sound(db) ==> Complete(db, i, outcome, seen, now).Some? && Sound(Complete(db, i, outcome, seen, now).value)
  {
    if Sound(db) {
      CompleteCommits(db, i, outcome, seen, now);
      CompleteKeepsSound(db, i, outcome, seen, now);
    }
  }

  // ---------- the loop body, case by case ----------

  lemma StillRow(db: Tables, n: nat, now: Time, skipped: set<nat>)
    requires n < |db.executions| && !Handled(db.executions, n, now, skipped)
    ensures Partial(db, n + 1, now, skipped) == Partial(db, n, now, skipped)
  {
    PlainBody(db, n, now, skipped);
    var es := Partial(db, n, now, skipped).executions;
    assert es == es[n := es[n]];
  }

  lemma ReclaimedRow(db: Tables, n: nat, now: Time, skipped: set<nat>)
    requires n < |db.executions| && Reclaimed(db.executions, n, now, skipped)
    ensures var p := Partial(db, n, now, skipped);
      Partial(db, n + 1, now, skipped) == p.(executions := p.executions[n := ClearSafeClaim(p.executions[n])])
  {
    PlainBody(db, n, now, skipped);
  }

  lemma AmbiguousRow(db: Tables, n: nat, now: Time, skipped: set<nat>)
    requires Sound(db) && n < |db.executions| && Ambiguous(db.executions, n, now, skipped)
    ensures var p := Partial(db, n, now, skipped);
      var q := p.(executions := p.executions[n := FinalizeExecution(p.executions[n], Error, AMBIGUOUS, now)]);
      && (db.executions[n].manifest.conversation.None? ==> Partial(db, n + 1, now, skipped) == q)
      && (db.executions[n].manifest.conversation.Some? ==>
            TurnOf(q, n) && MarkUnusable(q, n, now) == Some(Partial(db, n + 1, now, skipped)))
  {
    if db.executions[n].manifest.conversation.Some? {
      TurnBody(db, n, now, skipped);
    } else {
      PlainBody(db, n, now, skipped);
    }
  }

  /** What the loop leaves for the runs: exactly the touched single-question runs still need finalizing. */
  lemma LoopLeavesRuns(db: Tables, now: Time, skipped: set<nat>)
    requires Sound(db)
    ensures var p, q := Partial(db, |db.executions|, now, skipped), Reconcile(db, now, skipped);
      var touched := SingleRuns(db.executions, |db.executions|, now, skipped);
      && q == p.(runs := q.runs) && |q.runs| == |p.runs|
      && (forall r :: r in touched ==> r < |p.runs| && FinalizesTo(p.executions, p.runs[r], r, now, q.runs[r]))
      && (forall r :: 0 <= r < |p.runs| && r !in touched ==> q.runs[r] == p.runs[r])
  {
    AllRows(db, now, skipped);
    AllAttempts(db, now, skipped);
    TouchedRunsExist(db, now, skipped);
    forall r | 0 <= r < |db.runs|
      ensures var p, q := Partial(db, |db.executions|, now, skipped), Reconcile(db, now, skipped);
        if r in SingleRuns(db.executions, |db.executions|, now, skipped)
        then FinalizesTo(p.executions, p.runs[r], r, now, q.runs[r]) else q.runs[r] == p.runs[r]
    {
      RunsAfterLoop(db, r, now, skipped);
    }
  }

  function ReclaimedBelow(es: seq<Execution>, n: nat, now: Time, skipped: set<nat>): set<nat> {
    set k: nat | k < |es| && k < n && Reclaimed(es, k, now, skipped)
  }

  function AmbiguousBelow(es: seq<Execution>, n: nat, now: Time, skipped: set<nat>): set<nat> {
    set k: nat | k < |es| && k < n && Ambiguous(es, k, now, skipped)
  }

  lemma OneMore(s: set<nat>, n: nat, more: set<nat>, added: bool)
    requires n !in s && more == if added then s + {n} else s
    ensures |more| == |s| + if added then 1 else 0
  {
  }

  lemma MoreStale(es: seq<Execution>, n: nat, now: Time, skipped: set<nat>)
    requires n < |es|
    ensures |ReclaimedBelow(es, n + 1, now, skipped)|
            == |ReclaimedBelow(es, n, now, skipped)| + if Reclaimed(es, n, now, skipped) then 1 else 0
    ensures |AmbiguousBelow(es, n + 1, now, skipped)|
            == |AmbiguousBelow(es, n, now, skipped)| + if Ambiguous(es, n, now, skipped) then 1 else 0
  {
    OneMore(ReclaimedBelow(es, n, now, skipped), n, ReclaimedBelow(es, n + 1, now, skipped),
      Reclaimed(es, n, now, skipped));
    OneMore(AmbiguousBelow(es, n, now, skipped), n, AmbiguousBelow(es, n + 1, now, skipped),
      Ambiguous(es, n, now, skipped));
  }

  lemma TouchedRunsExist(db: Tables, now: Time, skipped: set<nat>)
    requires Sound(db)
    ensures forall r :: r in SingleRuns(db.executions, |db.executions|, now, skipped) ==> r < |db.runs|
  {
    forall i | 0 <= i < |db.executions| ensures db.executions[i].manifest.run < |db.runs| {
      assert RowLinked(db, db.executions[i]);
    }
  }
}
