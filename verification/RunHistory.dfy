/** Runs over time: a terminal run never changes again, and its progress counts add up to its plan. */
module RunHistory {
  import opened Wrappers
  import opened Rows
  import opened Transactions
  import opened Protocol
  import opened TableInvariants
  import opened TransactionProofs
  import Launches
  import LaunchProofs

  // ---------- terminal runs are final ----------

  predicate TerminalRunsKept(db: Tables, after: Tables) {
    && |db.runs| <= |after.runs|
    && forall r :: 0 <= r < |db.runs| && db.runs[r].Terminal() ==> after.runs[r] == db.runs[r]
  }

  lemma ClaimKeepsRuns(db: Tables, i: nat, worker: string, t: Token, now: Time, lease: nat)
    requires Claimable(db, i, now)
    ensures TerminalRunsKept(db, RecordClaim(db, i, worker, t, now, lease))
  {
  }

  lemma CompleteKeepsRuns(db: Tables, i: nat, outcome: FinalOutcome, seen: Observation, now: Time)
    requires RunsAgree(db) && i < |db.executions| && db.executions[i].outcome == Running
    requires db.executions[i].manifest.run < |db.runs|
    ensures Complete(db, i, outcome, seen, now).Some?
    ensures TerminalRunsKept(db, Complete(db, i, outcome, seen, now).value)
  {
    CompleteCommits(db, i, outcome, seen, now);
  }

  lemma MarkUnusableKeepsRuns(db: Tables, i: nat, now: Time)
    requires RunsAgree(db) && TurnOf(db, i) && MarkUnusable(db, i, now).Some?
    ensures TerminalRunsKept(db, MarkUnusable(db, i, now).value)
  {
    MarkUnusableAborts(db, i, now);
  }

  lemma ReconcileKeepsRuns(db: Tables, now: Time, skipped: set<nat>)
    requires Sound(db)
    ensures TerminalRunsKept(db, Reconcile(db, now, skipped))
  {
    forall r | 0 <= r < |db.runs| && db.runs[r].Terminal()
      ensures Reconcile(db, now, skipped).runs[r] == db.runs[r]
    {
      assert RunAgrees(db, r);
      if TouchedRun(db.executions, r, now, skipped) { TouchedReconciledRunAgrees(db, r, now, skipped); }
    }
  }

  lemma ActionKeepsRuns(s: System, t: Token, action: Action)
    requires RunsAgree(s.db) && ActionEnabled(s, t, action)
    ensures TerminalRunsKept(s.db, Act(s, t, action).db)
  {
    match action
    case Finish(now) =>
      var pc := s.tasks[t].pc;
      if Owns(s, t) { CompleteKeepsRuns(s.db, s.tasks[t].execution, pc.outcome, pc.seen, now); }
    case Block(now) =>
      if MarkUnusable(s.db, s.tasks[t].execution, now).Some? { MarkUnusableKeepsRuns(s.db, s.tasks[t].execution, now); }
    case _ => assert Act(s, t, action).db.runs == s.db.runs;
  }

  /** No step of any kind changes a terminal run: the guard on saving one is never the reason, it is never tried. */
  lemma StepKeepsTerminalRuns(s: System, step: Step)
    requires Sound(s.db) && Enabled(s, step)
    ensures TerminalRunsKept(s.db, Apply(s, step).db)
  {
    match step
    case Claim(i, worker, t, now, lease) => ClaimKeepsRuns(s.db, i, worker, t, now, lease);
    case Work(t, action) => ActionKeepsRuns(s, t, action);
    case Reconciliation(now, skipped) => ReconcileKeepsRuns(s.db, now, skipped);
    case _ =>
  }

  // ---------- progress counts ----------

  datatype Progress = Progress(pending: nat, running: nat, success: nat, error: nat, timeout: nat)

  function RowsWith(es: seq<Execution>, r: nat, outcome: Outcome): set<nat> {
    set i: nat | i < |es| && es[i].manifest.run == r && es[i].outcome == outcome
  }

  function RowsOf(es: seq<Execution>, r: nat): set<nat> {
    set i: nat | i < |es| && es[i].manifest.run == r
  }

  /** The grouped count of `run_progress`. */
  function RunProgress(es: seq<Execution>, r: nat): Progress {
    Progress(|RowsWith(es, r, Pending)|, |RowsWith(es, r, Running)|, |RowsWith(es, r, Success)|,
             |RowsWith(es, r, Error)|, |RowsWith(es, r, Timeout)|)
  }

  /** The manifest is complete from the launch on. */
  predicate FullyPlanned(db: Tables) {
    forall r :: 0 <= r < |db.runs| ==> |RowsOf(db.executions, r)| == db.runs[r].totalPlanned
  }

  /** Five disjoint sets that cover a sixth. */
  lemma PartitionSizes(a: set<nat>, b: set<nat>, c: set<nat>, d: set<nat>, e: set<nat>, whole: set<nat>)
    requires a !! b !! c !! d !! e
    requires forall i :: i in whole <==> i in a || i in b || i in c || i in d || i in e
    ensures |whole| == |a| + |b| + |c| + |d| + |e|
  {
    assert |a + b| == |a| + |b|;
    assert |a + b + c| == |a + b| + |c|;
    assert |a + b + c + d| == |a + b + c| + |d|;
    assert |a + b + c + d + e| == |a + b + c + d| + |e|;
    assert whole == a + b + c + d + e;
  }

  lemma CountsAddUp(es: seq<Execution>, r: nat)
    ensures var p := RunProgress(es, r);
      p.pending + p.running + p.success + p.error + p.timeout == |RowsOf(es, r)|
  {
    forall o: Outcome, p: Outcome | o != p ensures RowsWith(es, r, o) !! RowsWith(es, r, p) {}
    forall i: nat ensures i in RowsOf(es, r) <==> exists o: Outcome :: i in RowsWith(es, r, o) {
      if i in RowsOf(es, r) { assert i in RowsWith(es, r, es[i].outcome); }
    }
    PartitionSizes(RowsWith(es, r, Pending), RowsWith(es, r, Running), RowsWith(es, r, Success),
                   RowsWith(es, r, Error), RowsWith(es, r, Timeout), RowsOf(es, r));
  }

  /** Finalization tests the counts; they say the same as the rows. */
  lemma ProgressMeansDone(es: seq<Execution>, r: nat)
    ensures RunDone(es, r) <==> RunProgress(es, r).pending == 0 && RunProgress(es, r).running == 0
    ensures RunFailed(es, r) <==> RunProgress(es, r).error > 0 || RunProgress(es, r).timeout > 0
  {
    var a, b := RowsWith(es, r, Pending), RowsWith(es, r, Running);
    var d, e := RowsWith(es, r, Error), RowsWith(es, r, Timeout);
    if |a| == 0 && |b| == 0 {
      forall i | 0 <= i < |es| && es[i].manifest.run == r ensures es[i].outcome.Terminal() {
        assert i !in a && i !in b;
      }
    }
    if RunDone(es, r) {
      assert a == {} && b == {};
    }
    if RunFailed(es, r) {
      var i :| 0 <= i < |es| && es[i].manifest.run == r && es[i].outcome in {Error, Timeout};
      assert i in d || i in e;
    }
    if |d| > 0 { var i :| i in d; assert RunFailed(es, r); }
    if |e| > 0 { var i :| i in e; assert RunFailed(es, r); }
  }

  lemma SameManifestsSameRows(es: seq<Execution>, fs: seq<Execution>, r: nat)
    requires |es| == |fs| && forall i :: 0 <= i < |es| ==> fs[i].manifest == es[i].manifest
    ensures RowsOf(fs, r) == RowsOf(es, r)
  {
  }

  function Interval(lo: nat, hi: nat): (s: set<nat>)
    requires lo <= hi
    ensures forall i :: i in s <==> lo <= i < hi
    ensures |s| == hi - lo
    decreases hi - lo
  {
    if lo == hi then {} else {lo} + Interval(lo + 1, hi)
  }

  lemma LaunchKeepsPlanned(db: Tables, plan: Launches.Plan)
    requires Sound(db) && FullyPlanned(db) && Launches.Launched(db, plan).Some?
    ensures FullyPlanned(Launches.Launched(db, plan).value)
  {
    var n := Launches.Planned(db, plan).value;
    var after := Launches.Launched(db, plan).value;
    LaunchProofs.PlanFits(db, plan);
    forall i | 0 <= i < |after.executions|
      ensures i < |db.executions| ==>
        after.executions[i] == db.executions[i] && after.executions[i].manifest.run < |db.runs|
      ensures i >= |db.executions| ==> after.executions[i].manifest.run == |db.runs|
    {
      LaunchProofs.AppendedRow(db, n, i);
      if i < |db.executions| {
        assert RowLinked(db, db.executions[i]);
      } else {
        assert LaunchProofs.ManifestFits(db, n, n.manifests[i - |db.executions|]);
      }
    }
    forall r | 0 <= r < |after.runs| ensures |RowsOf(after.executions, r)| == after.runs[r].totalPlanned {
      if r < |db.runs| {
        assert RowsOf(after.executions, r) == RowsOf(db.executions, r);
      } else {
        assert RowsOf(after.executions, r) == Interval(|db.executions|, |after.executions|);
      }
    }
  }

  lemma ShapeKeepsPlanned(db: Tables, after: Tables)
    requires SameShape(db, after) && FullyPlanned(db)
    ensures FullyPlanned(after)
  {
    forall r | 0 <= r < |after.runs| ensures |RowsOf(after.executions, r)| == after.runs[r].totalPlanned {
      SameManifestsSameRows(db.executions, after.executions, r);
      assert RunShape(db.runs[r], after.runs[r]);
    }
  }
}
