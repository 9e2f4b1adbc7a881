/** The tables stay sound under every interleaving of workers, recovery, launches and operators. */
module SystemSound {
  import opened Wrappers
  import opened Rows
  import opened Transactions
  import opened Protocol
  import opened TableInvariants
  import opened TransactionProofs
  import Launches
  import LaunchProofs

  lemma HeartbeatSound(s: System, t: Token, now: Time, lease: nat)
    requires Sound(s.db) && HeartbeatEnabled(s, t, now)
    ensures Sound(HeartbeatStep(s, t, now, lease).db) && SameShape(s.db, HeartbeatStep(s, t, now, lease).db)
  {
    var i := s.tasks[t].execution;
    assert RowSound(s.db.executions[i]);
    HeldRowSound(s.db.executions[i], now, lease);
    RowChangeKeepsSound(s.db, i, Renew(s.db.executions[i], now, lease));
  }

  lemma MarkSound(s: System, t: Token, now: Time, lease: nat)
    requires Sound(s.db) && MarkEnabled(s, t, now)
    ensures Sound(MarkStep(s, t, now, lease).db) && SameShape(s.db, MarkStep(s, t, now, lease).db)
  {
    var i := s.tasks[t].execution;
    assert RowSound(s.db.executions[i]);
    HeldRowSound(s.db.executions[i], now, lease);
    RowChangeKeepsSound(s.db, i, MarkStarted(s.db.executions[i], now, lease));
  }

  lemma CommitSessionSound(s: System, t: Token)
    requires Sound(s.db) && CommitSessionEnabled(s, t)
    ensures Sound(CommitSessionStep(s, t).db) && SameShape(s.db, CommitSessionStep(s, t).db)
  {
    var a := AttemptOf(s, t);
    var recorded := RecordSession(s.db.attempts[a], s.tasks[t].pc.session);
    if recorded.Some? { AttemptChangeKeepsSound(s.db, a, recorded.value); }
  }

  lemma FinishSound(s: System, t: Token, now: Time)
    requires Sound(s.db) && FinishEnabled(s, t)
    ensures Sound(FinishStep(s, t, now).db) && SameShape(s.db, FinishStep(s, t, now).db)
  {
    var i, pc := s.tasks[t].execution, s.tasks[t].pc;
    if Owns(s, t) {
      CompleteCommits(s.db, i, pc.outcome, pc.seen, now);
      CompleteKeepsSound(s.db, i, pc.outcome, pc.seen, now);
    }
  }

  lemma BlockSound(s: System, t: Token, now: Time)
    requires Sound(s.db) && BlockEnabled(s, t, now)
    ensures Sound(BlockStep(s, t, now).db) && SameShape(s.db, BlockStep(s, t, now).db)
  {
    var i := s.tasks[t].execution;
    if MarkUnusable(s.db, i, now).Some? { MarkUnusableKeepsSound(s.db, i, now); }
  }

  lemma CloseSound(s: System, t: Token, closed: bool, now: Time)
    requires Sound(s.db) && CloseEnabled(s, t)
    ensures Sound(CloseStep(s, t, closed, now).db) && SameShape(s.db, CloseStep(s, t, closed, now).db)
  {
    var a := AttemptOf(s, t);
    AttemptChangeKeepsSound(s.db, a, CloseSession(s.db.attempts[a], closed, now));
  }

  lemma ActionKeepsSound(s: System, t: Token, action: Action)
    requires Sound(s.db) && ActionEnabled(s, t, action)
    ensures Sound(Act(s, t, action).db) && SameShape(s.db, Act(s, t, action).db)
  {
    if TakesEffect(action) {
      EffectKeepsSound(s, t, action);
    } else {
      TablesKept(s, t, action);
      SameTablesSameShape(s.db);
    }
  }

  /** The actions that commit a change of the tables; the others move the task on. */
  predicate TakesEffect(action: Action) {
    action.Heartbeat? || action.Mark? || action.CommitSession? || action.Finish? || action.Block? || action.Close?
  }

  lemma EffectKeepsSound(s: System, t: Token, action: Action)
    requires Sound(s.db) && ActionEnabled(s, t, action) && TakesEffect(action)
    ensures Sound(Act(s, t, action).db) && SameShape(s.db, Act(s, t, action).db)
  {
    match action
    case Heartbeat(now, lease) => HeartbeatSound(s, t, now, lease);
    case Mark(now, lease) => MarkSound(s, t, now, lease);
    case CommitSession => CommitSessionSound(s, t);
    case Finish(now) => FinishSound(s, t, now);
    case Block(now) => BlockSound(s, t, now);
    case Close(closed, now) => CloseSound(s, t, closed, now);
  }

  lemma TablesKept(s: System, t: Token, action: Action)
    requires ActionEnabled(s, t, action) && !TakesEffect(action)
    ensures Act(s, t, action).db == s.db
  {
  }

  lemma SameTablesSameShape(db: Tables)
    ensures SameShape(db, db)
  {
  }

  lemma EnvironmentKeepsSound(s: System, step: Step)
    requires Sound(s.db) && Enabled(s, step)
    requires step.Tick? || step.AddRevision? || step.AddScenario? || step.Promote?
    ensures Sound(Apply(s, step).db)
  {
    match step
    case Tick(to) =>
    case AddRevision(revision) => CatalogKeepsSound(s.db, Apply(s, step).db);
    case AddScenario(turns) => CatalogKeepsSound(s.db, Apply(s, step).db);
    case Promote(r) => CatalogKeepsSound(s.db, Apply(s, step).db);
  }

  lemma CatalogKeepsSound(db: Tables, after: Tables)
    requires Sound(db)
    requires after == db.(revisions := after.revisions, scenarios := after.scenarios, baselines := after.baselines)
    requires |after.revisions| >= |db.revisions| && after.revisions[..|db.revisions|] == db.revisions
    requires forall k :: |db.scenarios| <= k < |after.scenarios| ==> TurnsOrdered(after.scenarios[k])
    requires |after.scenarios| >= |db.scenarios| && after.scenarios[..|db.scenarios|] == db.scenarios
    ensures Sound(after)
  {
    forall k | 0 <= k < |after.scenarios| ensures TurnsOrdered(after.scenarios[k]) {
      if k < |db.scenarios| {
        assert after.scenarios[..|db.scenarios|][k] == after.scenarios[k];
        assert TurnsOrdered(db.scenarios[k]);
      }
    }
    LaunchProofs.CatalogKeepsSound(db, after);
  }

  /** Steps of workers, of recovery and of validity decisions. */
  predicate WorksOnRows(step: Step) { step.Claim? || step.Work? || step.Reconciliation? || step.Validate? }

  lemma StepKeepsShape(s: System, step: Step)
    requires Sound(s.db) && Enabled(s, step) && WorksOnRows(step)
    ensures SameShape(s.db, Apply(s, step).db)
  {
    match step
    case Claim(i, worker, t, now, lease) => ClaimKeepsSound(s.db, i, worker, t, now, lease);
    case Work(t, action) => ActionKeepsSound(s, t, action);
    case Reconciliation(now, skipped) => ReconcileKeepsSound(s.db, now, skipped);
    case Validate(i, validity) => SameTablesSameShape(s.db);
  }

  /** The table invariant is inductive over all steps. */
  lemma StepKeepsSound(s: System, step: Step)
    requires Sound(s.db) && Enabled(s, step)
    ensures Sound(Apply(s, step).db)
  {
    match step
    case Launch(plan) => LaunchProofs.LaunchKeepsSound(s.db, plan);
    case Claim(i, worker, t, now, lease) => ClaimKeepsSound(s.db, i, worker, t, now, lease);
    case Work(t, action) => ActionKeepsSound(s, t, action);
    case Reconciliation(now, skipped) => ReconcileKeepsSound(s.db, now, skipped);
    case Validate(i, validity) =>
      assert RowSound(s.db.executions[i]);
      RowChangeKeepsSound(s.db, i, s.db.executions[i].(validity := validity));
    case _ => EnvironmentKeepsSound(s, step);
  }
}
