/** The state of the reconciliation loop after the stale rows below `n` have been handled, as a function of
    the tables it started from. Going one row further is one loop body; going all the way is `Reconcile`. */
module ReconcileLoop {
  import opened Wrappers
  import opened Rows
  import opened Transactions
  import opened TableInvariants
  import opened TransactionProofs

  predicate BrokenBefore(es: seq<Execution>, a: nat, n: nat, now: Time, skipped: set<nat>) {
    exists i :: 0 <= i < |es| && i < n && Ambiguous(es, i, now, skipped) && es[i].InAttempt(a)
  }

  predicate BrokenRunBefore(es: seq<Execution>, r: nat, n: nat, now: Time, skipped: set<nat>) {
    exists i :: 0 <= i < |es| && i < n && Ambiguous(es, i, now, skipped)
                && es[i].manifest.conversation.Some? && es[i].manifest.run == r
  }

  function PartialRow(es: seq<Execution>, k: nat, n: nat, now: Time, skipped: set<nat>): Execution
    requires k < |es|
  {
    if k < n && Reclaimed(es, k, now, skipped) then ClearSafeClaim(es[k])
    else if k < n && Ambiguous(es, k, now, skipped) then FinalizeExecution(es[k], Error, AMBIGUOUS, now)
    else if && es[k].outcome == Pending && es[k].manifest.conversation.Some?
            && BrokenBefore(es, es[k].manifest.conversation.value.attempt, n, now, skipped)
    then FinalizeExecution(es[k], Error, BLOCKED, now)
    else es[k]
  }

  function PartialRows(es: seq<Execution>, n: nat, now: Time, skipped: set<nat>): (fs: seq<Execution>)
    ensures |fs| == |es|
    ensures forall k :: 0 <= k < |es| ==> fs[k] == PartialRow(es, k, n, now, skipped)
  {
    seq(|es|, k requires 0 <= k < |es| => PartialRow(es, k, n, now, skipped))
  }

  function PartialAttempt(db: Tables, a: nat, n: nat, now: Time, skipped: set<nat>): Attempt
    requires a < |db.attempts|
  {
    if BrokenBefore(db.executions, a, n, now, skipped) then BreakSession(db.attempts[a], true, now) else db.attempts[a]
  }

  function PartialAttempts(db: Tables, n: nat, now: Time, skipped: set<nat>): (attempts: seq<Attempt>)
    ensures |attempts| == |db.attempts|
    ensures forall a :: 0 <= a < |db.attempts| ==> attempts[a] == PartialAttempt(db, a, n, now, skipped)
  {
    seq(|db.attempts|, a requires 0 <= a < |db.attempts| => PartialAttempt(db, a, n, now, skipped))
  }

  function FailedRun(run: Run, now: Time): Run {
    run.(state := CompletedWithErrors, completedAt := Some(now), nextDispatchAt := None)
  }

  function PartialRun(db: Tables, r: nat, n: nat, now: Time, skipped: set<nat>): Run
    requires r < |db.runs|
  {
    if BrokenRunBefore(db.executions, r, n, now, skipped) then FailedRun(db.runs[r], now) else db.runs[r]
  }

  function PartialRuns(db: Tables, n: nat, now: Time, skipped: set<nat>): (runs: seq<Run>)
    ensures |runs| == |db.runs|
    ensures forall r :: 0 <= r < |db.runs| ==> runs[r] == PartialRun(db, r, n, now, skipped)
  {
    seq(|db.runs|, r requires 0 <= r < |db.runs| => PartialRun(db, r, n, now, skipped))
  }

  function Partial(db: Tables, n: nat, now: Time, skipped: set<nat>): Tables {
    db.(executions := PartialRows(db.executions, n, now, skipped),
        attempts := PartialAttempts(db, n, now, skipped), runs := PartialRuns(db, n, now, skipped))
  }

  // ---------- one body ----------

  lemma NothingYet(db: Tables, now: Time, skipped: set<nat>)
    ensures Partial(db, 0, now, skipped) == db
  {
    assert PartialRows(db.executions, 0, now, skipped) == db.executions;
    assert PartialAttempts(db, 0, now, skipped) == db.attempts;
    assert PartialRuns(db, 0, now, skipped) == db.runs;
  }

  lemma SameBroken(es: seq<Execution>, n: nat, now: Time, skipped: set<nat>)
    requires n < |es| && !(Ambiguous(es, n, now, skipped) && es[n].manifest.conversation.Some?)
    ensures forall a: nat :: BrokenBefore(es, a, n + 1, now, skipped) <==> BrokenBefore(es, a, n, now, skipped)
    ensures forall r: nat :: BrokenRunBefore(es, r, n + 1, now, skipped) <==> BrokenRunBefore(es, r, n, now, skipped)
  {
    forall a: nat ensures BrokenBefore(es, a, n + 1, now, skipped) <==> BrokenBefore(es, a, n, now, skipped) {
      if BrokenBefore(es, a, n + 1, now, skipped) {
        var i :| 0 <= i < |es| && i < n + 1 && Ambiguous(es, i, now, skipped) && es[i].InAttempt(a);
        assert i < n;
      }
      if BrokenBefore(es, a, n, now, skipped) {
        var i :| 0 <= i < |es| && i < n && Ambiguous(es, i, now, skipped) && es[i].InAttempt(a);
        assert i < n + 1;
      }
    }
    forall r: nat ensures BrokenRunBefore(es, r, n + 1, now, skipped) <==> BrokenRunBefore(es, r, n, now, skipped) {
      if BrokenRunBefore(es, r, n + 1, now, skipped) {
        var i :| 0 <= i < |es| && i < n + 1 && Ambiguous(es, i, now, skipped)
                 && es[i].manifest.conversation.Some? && es[i].manifest.run == r;
        assert i < n;
      }
      if BrokenRunBefore(es, r, n, now, skipped) {
        var i :| 0 <= i < |es| && i < n && Ambiguous(es, i, now, skipped)
                 && es[i].manifest.conversation.Some? && es[i].manifest.run == r;
        assert i < n + 1;
      }
    }
  }

  /** A row that is not stale, is reclaimed, or is a single question changes at most itself. */
  lemma PlainBody(db: Tables, n: nat, now: Time, skipped: set<nat>)
    requires n < |db.executions|
    requires !(Ambiguous(db.executions, n, now, skipped) && db.executions[n].manifest.conversation.Some?)
    ensures var p := Partial(db, n, now, skipped);
      && n < |p.executions|
      && (Handled(db.executions, n, now, skipped) ==> p.executions[n] == db.executions[n])
      && Partial(db, n + 1, now, skipped) == p.(executions := p.executions[n :=
           if Reclaimed(db.executions, n, now, skipped) then ClearSafeClaim(db.executions[n])
           else if Ambiguous(db.executions, n, now, skipped) then
             FinalizeExecution(db.executions[n], Error, AMBIGUOUS, now)
           else p.executions[n]])
  {
    var p, q := Partial(db, n, now, skipped), Partial(db, n + 1, now, skipped);
    SameBroken(db.executions, n, now, skipped);
    forall k | 0 <= k < |db.executions| && k != n ensures q.executions[k] == p.executions[k] {}
    assert q.executions == p.executions[n := q.executions[n]];
    assert q.attempts == p.attempts;
    assert q.runs == p.runs;
  }

  // ---------- an ambiguous conversation turn ----------

  lemma OneRunningTurn(es: seq<Execution>, i: nat, j: nat)
    requires RowsSound(es) && TurnOrder(es) && DistinctOrdinals(es)
    requires i < |es| && j < |es| && SameAttempt(es[i], es[j])
    requires es[i].outcome == Running && es[j].outcome == Running
    ensures i == j
  {
    assert RowSound(es[i]) && RowSound(es[j]);
    if i != j {
      if EarlierTurn(es[i], es[j]) { assert false; }
      assert EarlierTurn(es[j], es[i]);
    }
  }

  /** Every other turn of the attempt of a running turn is terminal, or pending and never claimed before it ends. */
  lemma OthersOfAttempt(es: seq<Execution>, i: nat, k: nat)
    requires RowsSound(es) && TurnOrder(es) && DistinctOrdinals(es)
    requires i < |es| && k < |es| && k != i && SameAttempt(es[i], es[k]) && es[i].outcome == Running
    ensures es[k].outcome.Terminal() || es[k].outcome == Pending
  {
    if es[k].outcome == Running { OneRunningTurn(es, i, k); }
  }

  /** Rows of a conversation run are exactly the turns of its attempt. */
  lemma RunIsAttempt(db: Tables, i: nat, k: nat)
    requires Linked(db) && i < |db.executions| && k < |db.executions|
    requires db.executions[i].manifest.conversation.Some?
    ensures db.executions[k].manifest.run == db.executions[i].manifest.run
            <==> db.executions[k].InAttempt(db.executions[i].manifest.conversation.value.attempt)
  {
    assert RowLinked(db, db.executions[i]) && RowLinked(db, db.executions[k]);
  }

  /** The loop body at an ambiguous turn: its row is finalized. */
  function GivenUp(db: Tables, n: nat, now: Time, skipped: set<nat>): Tables
    requires n < |db.executions|
  {
    var p := Partial(db, n, now, skipped);
    p.(executions := p.executions[n := FinalizeExecution(db.executions[n], Error, AMBIGUOUS, now)])
  }

  lemma TurnRows(db: Tables, n: nat, now: Time, skipped: set<nat>)
    requires RowsSound(db.executions) && TurnOrder(db.executions) && DistinctOrdinals(db.executions)
    requires n < |db.executions| && Ambiguous(db.executions, n, now, skipped)
    requires db.executions[n].manifest.conversation.Some?
    ensures BlockTurns(GivenUp(db, n, now, skipped).executions,
                       db.executions[n].manifest.conversation.value.attempt, now)
            == PartialRows(db.executions, n + 1, now, skipped)
  {
    var es := db.executions;
    var a := es[n].manifest.conversation.value.attempt;
    var g, q := BlockTurns(GivenUp(db, n, now, skipped).executions, a, now), PartialRows(es, n + 1, now, skipped);
    forall k | 0 <= k < |es| ensures g[k] == q[k] {
      TurnRow(db, n, k, now, skipped);
    }
  }

  lemma TurnRow(db: Tables, n: nat, k: nat, now: Time, skipped: set<nat>)
    requires RowsSound(db.executions) && TurnOrder(db.executions) && DistinctOrdinals(db.executions)
    requires n < |db.executions| && k < |db.executions| && Ambiguous(db.executions, n, now, skipped)
    requires db.executions[n].manifest.conversation.Some?
    ensures BlockTurn(GivenUp(db, n, now, skipped).executions[k],
                      db.executions[n].manifest.conversation.value.attempt, now)
            == PartialRow(db.executions, k, n + 1, now, skipped)
  {
    var es := db.executions;
    var a := es[n].manifest.conversation.value.attempt;
    if k != n {
      if es[k].InAttempt(a) {
        OthersOfAttempt(es, n, k);
        assert BrokenBefore(es, a, n + 1, now, skipped);
      } else if es[k].manifest.conversation.Some? {
        BrokenByOther(es, es[k].manifest.conversation.value.attempt, n, now, skipped);
      }
    }
  }

  lemma BrokenByOther(es: seq<Execution>, a: nat, n: nat, now: Time, skipped: set<nat>)
    requires n < |es| && !es[n].InAttempt(a)
    ensures BrokenBefore(es, a, n + 1, now, skipped) <==> BrokenBefore(es, a, n, now, skipped)
  {
    if BrokenBefore(es, a, n + 1, now, skipped) {
      var i :| 0 <= i < |es| && i < n + 1 && Ambiguous(es, i, now, skipped) && es[i].InAttempt(a);
      assert i < n;
    }
    if BrokenBefore(es, a, n, now, skipped) {
      var i :| 0 <= i < |es| && i < n && Ambiguous(es, i, now, skipped) && es[i].InAttempt(a);
      assert i < n + 1;
    }
  }

  lemma BrokenRunByOther(es: seq<Execution>, r: nat, n: nat, now: Time, skipped: set<nat>)
    requires n < |es| && es[n].manifest.run != r
    ensures BrokenRunBefore(es, r, n + 1, now, skipped) <==> BrokenRunBefore(es, r, n, now, skipped)
  {
    if BrokenRunBefore(es, r, n + 1, now, skipped) {
      var i :| 0 <= i < |es| && i < n + 1 && Ambiguous(es, i, now, skipped)
               && es[i].manifest.conversation.Some? && es[i].manifest.run == r;
      assert i < n;
    }
    if BrokenRunBefore(es, r, n, now, skipped) {
      var i :| 0 <= i < |es| && i < n && Ambiguous(es, i, now, skipped)
               && es[i].manifest.conversation.Some? && es[i].manifest.run == r;
      assert i < n + 1;
    }
  }

  /** No earlier row of the loop was of the same conversation run. */
  lemma FirstOfItsRun(db: Tables, n: nat, now: Time, skipped: set<nat>)
    requires Linked(db) && RowsSound(db.executions) && TurnOrder(db.executions) && DistinctOrdinals(db.executions)
    requires n < |db.executions| && Ambiguous(db.executions, n, now, skipped)
    requires db.executions[n].manifest.conversation.Some?
    ensures !BrokenRunBefore(db.executions, db.executions[n].manifest.run, n, now, skipped)
    ensures !BrokenBefore(db.executions, db.executions[n].manifest.conversation.value.attempt, n, now, skipped)
  {
    var es := db.executions;
    var a := es[n].manifest.conversation.value.attempt;
    forall i | 0 <= i < n && Ambiguous(es, i, now, skipped)
      ensures !es[i].InAttempt(a) && es[i].manifest.run != es[n].manifest.run
    {
      RunIsAttempt(db, n, i);
      if es[i].InAttempt(a) { OneRunningTurn(es, i, n); }
    }
  }

  lemma TurnAttempts(db: Tables, n: nat, now: Time, skipped: set<nat>)
    requires Linked(db) && RowsSound(db.executions) && TurnOrder(db.executions) && DistinctOrdinals(db.executions)
    requires n < |db.executions| && Ambiguous(db.executions, n, now, skipped)
    requires db.executions[n].manifest.conversation.Some?
    requires db.executions[n].manifest.conversation.value.attempt < |db.attempts|
    ensures var a := db.executions[n].manifest.conversation.value.attempt;
      var p := PartialAttempts(db, n, now, skipped);
      p[a := BreakSession(p[a], true, now)] == PartialAttempts(db, n + 1, now, skipped)
  {
    var es := db.executions;
    var a0 := es[n].manifest.conversation.value.attempt;
    var p, q := PartialAttempts(db, n, now, skipped), PartialAttempts(db, n + 1, now, skipped);
    FirstOfItsRun(db, n, now, skipped);
    assert BrokenBefore(es, a0, n + 1, now, skipped);
    forall a | 0 <= a < |db.attempts| && a != a0 ensures q[a] == p[a] {
      BrokenByOther(es, a, n, now, skipped);
    }
  }

  lemma TurnRuns(db: Tables, n: nat, now: Time, skipped: set<nat>)
    requires Linked(db) && RowsSound(db.executions) && TurnOrder(db.executions) && DistinctOrdinals(db.executions)
    requires n < |db.executions| && Ambiguous(db.executions, n, now, skipped)
    requires db.executions[n].manifest.conversation.Some?
    requires db.executions[n].manifest.run < |db.runs|
    ensures var r := db.executions[n].manifest.run;
      var p := PartialRuns(db, n, now, skipped);
      p[r] == db.runs[r] && p[r := FailedRun(p[r], now)] == PartialRuns(db, n + 1, now, skipped)
  {
    var es := db.executions;
    var r0 := es[n].manifest.run;
    var p, q := PartialRuns(db, n, now, skipped), PartialRuns(db, n + 1, now, skipped);
    FirstOfItsRun(db, n, now, skipped);
    assert BrokenRunBefore(es, r0, n + 1, now, skipped);
    forall r | 0 <= r < |db.runs| && r != r0 ensures q[r] == p[r] {
      BrokenRunByOther(es, r, n, now, skipped);
    }
  }

  /** After the body every turn of the attempt is terminal. */
  lemma TurnsAllEnded(db: Tables, n: nat, now: Time, skipped: set<nat>)
    requires Linked(db) && RowsSound(db.executions) && TurnOrder(db.executions) && DistinctOrdinals(db.executions)
    requires n < |db.executions| && Ambiguous(db.executions, n, now, skipped)
    requires db.executions[n].manifest.conversation.Some?
    ensures var fs := PartialRows(db.executions, n + 1, now, skipped);
      && AttemptDone(fs, db.executions[n].manifest.conversation.value.attempt)
      && RunDone(fs, db.executions[n].manifest.run)
      && RunFailed(fs, db.executions[n].manifest.run)
  {
    var es := db.executions;
    var a := es[n].manifest.conversation.value.attempt;
    var fs := PartialRows(es, n + 1, now, skipped);
    assert BrokenBefore(es, a, n + 1, now, skipped);
    forall k | 0 <= k < |fs| && es[k].InAttempt(a) ensures fs[k].outcome.Terminal() {
      if k != n { OthersOfAttempt(es, n, k); }
    }
    forall k | 0 <= k < |fs| && fs[k].manifest.run == es[n].manifest.run ensures fs[k].outcome.Terminal() {
      RunIsAttempt(db, n, k);
    }
    assert fs[n].outcome == Error;
  }

  /** The loop body at an ambiguous turn, session blocking included, goes one row further. */
  lemma TurnBody(db: Tables, n: nat, now: Time, skipped: set<nat>)
    requires Sound(db) && n < |db.executions| && Ambiguous(db.executions, n, now, skipped)
    requires db.executions[n].manifest.conversation.Some?
    ensures Partial(db, n, now, skipped).executions[n] == db.executions[n]
    ensures TurnOf(GivenUp(db, n, now, skipped), n)
    ensures MarkUnusable(GivenUp(db, n, now, skipped), n, now) == Some(Partial(db, n + 1, now, skipped))
  {
    var e := db.executions[n];
    assert RowLinked(db, e) && RunAgrees(db, e.manifest.run);
    TurnRows(db, n, now, skipped);
    TurnAttempts(db, n, now, skipped);
    TurnRuns(db, n, now, skipped);
    TurnsAllEnded(db, n, now, skipped);
  }

  // ---------- the end of the loop ----------

  lemma AllRows(db: Tables, now: Time, skipped: set<nat>)
    ensures PartialRows(db.executions, |db.executions|, now, skipped) == ReconcileRows(db.executions, now, skipped)
    ensures forall a: nat :: BrokenBefore(db.executions, a, |db.executions|, now, skipped)
                             <==> BrokenAttempt(db.executions, a, now, skipped)
  {
  }

  lemma AllAttempts(db: Tables, now: Time, skipped: set<nat>)
    requires Sound(db)
    ensures PartialAttempts(db, |db.executions|, now, skipped) == ReconcileAttempts(db, now, skipped)
  {
    var es := db.executions;
    AllRows(db, now, skipped);
    forall a | 0 <= a < |db.attempts|
      ensures PartialAttempts(db, |es|, now, skipped)[a] == ReconcileAttempts(db, now, skipped)[a]
    {
      if BrokenAttempt(es, a, now, skipped) { BrokenAttemptDone(db, a, now, skipped); }
    }
  }

  lemma BrokenAttemptDone(db: Tables, a: nat, now: Time, skipped: set<nat>)
    requires Sound(db) && BrokenAttempt(db.executions, a, now, skipped)
    ensures AttemptDone(ReconcileRows(db.executions, now, skipped), a)
  {
    var es := db.executions;
    var fs := ReconcileRows(es, now, skipped);
    var i :| 0 <= i < |es| && Ambiguous(es, i, now, skipped) && es[i].InAttempt(a);
    forall k | 0 <= k < |fs| && es[k].InAttempt(a) ensures fs[k].outcome.Terminal() {
      if k != i { OthersOfAttempt(es, i, k); }
    }
  }

  /** The runs still to finalize after the loop: those of ambiguous single questions. */
  function SingleRuns(es: seq<Execution>, n: nat, now: Time, skipped: set<nat>): set<nat> {
    set i | 0 <= i < |es| && i < n && Ambiguous(es, i, now, skipped) && es[i].manifest.conversation.None?
      :: es[i].manifest.run
  }

  lemma MoreSingleRuns(es: seq<Execution>, n: nat, now: Time, skipped: set<nat>)
    requires n < |es|
    ensures SingleRuns(es, n + 1, now, skipped) == SingleRuns(es, n, now, skipped) +
      if Ambiguous(es, n, now, skipped) && es[n].manifest.conversation.None? then {es[n].manifest.run} else {}
  {
  }

  /** What finalizing one more touched run of the set leaves to do. */
  lemma RunsAfterLoop(db: Tables, r: nat, now: Time, skipped: set<nat>)
    requires Sound(db) && r < |db.runs|
    ensures var es := db.executions;
      var fs := ReconcileRows(es, now, skipped);
      var p := PartialRuns(db, |es|, now, skipped)[r];
      && (r in SingleRuns(es, |es|, now, skipped) ==>
            && p == db.runs[r] && !p.Terminal()
            && ReconcileRuns(db, now, skipped)[r] == if RunDone(fs, r) then FinishRun(p, fs, r, now) else p)
      && (r !in SingleRuns(es, |es|, now, skipped) ==> ReconcileRuns(db, now, skipped)[r] == p)
  {
    var es := db.executions;
    var fs := ReconcileRows(es, now, skipped);
    assert RunAgrees(db, r);
    if r in SingleRuns(es, |es|, now, skipped) {
      var i :| 0 <= i < |es| && Ambiguous(es, i, now, skipped) && es[i].manifest.conversation.None?
        && es[i].manifest.run == r;
      assert TouchedRun(es, r, now, skipped);
      assert !es[i].outcome.Terminal();
      forall j | 0 <= j < |es| && es[j].manifest.conversation.Some? ensures es[j].manifest.run != r {
        RunIsAttempt(db, j, i);
      }
    } else if BrokenRunBefore(es, r, |es|, now, skipped) {
      var i :| 0 <= i < |es| && Ambiguous(es, i, now, skipped) && es[i].manifest.conversation.Some?
        && es[i].manifest.run == r;
      BrokenRunEnds(db, i, now, skipped);
    } else {
      assert !TouchedRun(es, r, now, skipped);
    }
  }

  lemma BrokenRunEnds(db: Tables, i: nat, now: Time, skipped: set<nat>)
    requires Sound(db) && i < |db.executions| && Ambiguous(db.executions, i, now, skipped)
    requires db.executions[i].manifest.conversation.Some?
    ensures var fs, r := ReconcileRows(db.executions, now, skipped), db.executions[i].manifest.run;
      TouchedRun(db.executions, r, now, skipped) && RunDone(fs, r) && RunFailed(fs, r)
  {
    var es := db.executions;
    var fs := ReconcileRows(es, now, skipped);
    var a := es[i].manifest.conversation.value.attempt;
    assert es[i].InAttempt(a);
    BrokenAttemptDone(db, a, now, skipped);
    forall k | 0 <= k < |fs| && fs[k].manifest.run == es[i].manifest.run ensures fs[k].outcome.Terminal() {
      RunIsAttempt(db, i, k);
    }
    assert fs[i].outcome == Error;
  }
}
