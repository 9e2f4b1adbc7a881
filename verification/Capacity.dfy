/** Concurrency limits. The unexpired claims of a run and of a target revision stay within their
    limits exactly as long as no late renewal revives a claim whose place was given away. */
module Capacity {
  import opened Sets
  import opened Wrappers
  import opened Rows
  import opened Transactions
  import opened Protocol
  import opened TableInvariants
  import opened Traces
  import Launches
  import LaunchProofs
  import SystemSound
  import TransactionProofs

  predicate RunWithin(db: Tables, r: nat, at: Time)
    requires r < |db.runs|
  {
    |RunActive(db.executions, r, at)| <= db.runs[r].actualConcurrency
  }

  predicate RevisionWithin(db: Tables, v: nat, at: Time)
    requires v < |db.revisions|
  {
    |RevisionActive(db.executions, v, at)| <= db.revisions[v].maxConcurrency
  }

  /** At the present time no run and no revision has more live claims than it may. */
  predicate WithinLimits(s: System) {
    && (forall r: nat :: r < |s.db.runs| ==> RunWithin(s.db, r, s.clock))
    && (forall v: nat :: v < |s.db.revisions| ==> RevisionWithin(s.db, v, s.clock))
  }

  /** A heartbeat or mark of row `i` that does not push a limit: the lease is still live, or the renewed
      one is not, or there is room for the row to come back. */
  predicate RenewalFits(s: System, i: nat, now: Time, lease: nat)
    requires i < |s.db.executions| && s.db.executions[i].manifest.run < |s.db.runs|
    requires s.db.executions[i].manifest.revision < |s.db.revisions|
  {
    var m := s.db.executions[i].manifest;
    || s.db.executions[i].ActiveAt(s.clock)
    || now + lease <= s.clock
    || (&& |RunActive(s.db.executions, m.run, s.clock)| < s.db.runs[m.run].actualConcurrency
        && |RevisionActive(s.db.executions, m.revision, s.clock)| < s.db.revisions[m.revision].maxConcurrency)
  }

  predicate Renews(s: System, step: Step, i: nat, now: Time, lease: nat) {
    && step.Work? && HasTask(s, step.token) && s.tasks[step.token].execution == i
    && ((step.action.Heartbeat? && step.action.now == now && step.action.lease == lease)
        || (step.action.Mark? && step.action.now == now && step.action.lease == lease))
  }

  /** The step is not a renewal, or it is one that fits. */
  predicate Fits(s: System, step: Step) {
    step.Work? && HasTask(s, step.token) && (step.action.Heartbeat? || step.action.Mark?) ==>
      var i := s.tasks[step.token].execution;
      && s.db.executions[i].manifest.run < |s.db.runs| && s.db.executions[i].manifest.revision < |s.db.revisions|
      && RenewalFits(s, i, step.action.now, step.action.lease)
  }

  // ---------- steps that revive nothing ----------

  /** Every row live afterwards was live before, in the same run and revision. */
  predicate NoneRevived(es: seq<Execution>, before: Time, fs: seq<Execution>, after: Time) {
    forall i: nat :: i < |fs| && fs[i].ActiveAt(after) ==>
      i < |es| && es[i].ActiveAt(before) && es[i].manifest == fs[i].manifest
  }

  lemma NoneRevivedKeeps(s: System, after: System)
    requires WithinLimits(s) && NoneRevived(s.db.executions, s.clock, after.db.executions, after.clock)
    requires |s.db.runs| <= |after.db.runs| && |s.db.revisions| <= |after.db.revisions|
    requires forall i :: 0 <= i < |s.db.executions| ==>
               s.db.executions[i].manifest.run < |s.db.runs| && s.db.executions[i].manifest.revision < |s.db.revisions|
    requires forall r :: 0 <= r < |s.db.runs| ==> after.db.runs[r].actualConcurrency == s.db.runs[r].actualConcurrency
    requires forall v :: 0 <= v < |s.db.revisions| ==> after.db.revisions[v] == s.db.revisions[v]
    ensures WithinLimits(after)
  {
    forall r: nat | r < |after.db.runs| ensures RunWithin(after.db, r, after.clock) {
      SubsetSize(RunActive(after.db.executions, r, after.clock), RunActive(s.db.executions, r, s.clock));
      if r < |s.db.runs| {
        assert RunWithin(s.db, r, s.clock);
      } else {
        assert RunActive(s.db.executions, r, s.clock) == {};
      }
    }
    forall v: nat | v < |after.db.revisions| ensures RevisionWithin(after.db, v, after.clock) {
      SubsetSize(RevisionActive(after.db.executions, v, after.clock), RevisionActive(s.db.executions, v, s.clock));
      if v < |s.db.revisions| {
        assert RevisionWithin(s.db, v, s.clock);
      } else {
        assert RevisionActive(s.db.executions, v, s.clock) == {};
      }
    }
  }

  lemma LinkedRanges(db: Tables)
    requires Linked(db)
    ensures forall i :: 0 <= i < |db.executions| ==>
      db.executions[i].manifest.run < |db.runs| && db.executions[i].manifest.revision < |db.revisions|
  {
    forall i | 0 <= i < |db.executions|
      ensures db.executions[i].manifest.run < |db.runs| && db.executions[i].manifest.revision < |db.revisions|
    {
      assert RowLinked(db, db.executions[i]);
      assert RunLinked(db, db.runs[db.executions[i].manifest.run]);
    }
  }

  // ---------- one row becomes live ----------

  /** Only row `i` may have become live, at the same clock. */
  predicate OnlyRevived(s: System, after: System, i: nat) {
    && after.clock == s.clock && i < |s.db.executions| && |after.db.executions| == |s.db.executions|
    && after.db.revisions == s.db.revisions && |after.db.runs| == |s.db.runs|
    && (forall r :: 0 <= r < |s.db.runs| ==> after.db.runs[r].actualConcurrency == s.db.runs[r].actualConcurrency)
    && (forall j :: 0 <= j < |s.db.executions| ==> after.db.executions[j].manifest == s.db.executions[j].manifest)
    && (forall j :: 0 <= j < |s.db.executions| && j != i ==>
          (after.db.executions[j].ActiveAt(s.clock) <==> s.db.executions[j].ActiveAt(s.clock)))
  }

  lemma RevivedWithRoom(s: System, after: System, i: nat)
    requires Linked(s.db) && WithinLimits(s) && OnlyRevived(s, after, i)
    requires var m := s.db.executions[i].manifest;
      && m.run < |s.db.runs| && m.revision < |s.db.revisions|
      && |RunActive(s.db.executions, m.run, s.clock)| < s.db.runs[m.run].actualConcurrency
      && |RevisionActive(s.db.executions, m.revision, s.clock)| < s.db.revisions[m.revision].maxConcurrency
    ensures WithinLimits(after)
  {
    var es, fs, m := s.db.executions, after.db.executions, s.db.executions[i].manifest;
    forall r: nat | r < |after.db.runs| ensures RunWithin(after.db, r, after.clock) {
      assert RunWithin(s.db, r, s.clock);
      if r == m.run {
        OneMoreSize(RunActive(fs, r, s.clock), RunActive(es, r, s.clock), i);
      } else {
        SubsetSize(RunActive(fs, r, s.clock), RunActive(es, r, s.clock));
      }
    }
    forall v: nat | v < |after.db.revisions| ensures RevisionWithin(after.db, v, after.clock) {
      assert RevisionWithin(s.db, v, s.clock);
      if v == m.revision {
        OneMoreSize(RevisionActive(fs, v, s.clock), RevisionActive(es, v, s.clock), i);
      } else {
        SubsetSize(RevisionActive(fs, v, s.clock), RevisionActive(es, v, s.clock));
      }
    }
  }

  /** If a row comes back to life and everything is within limits afterwards, there was room before. */
  lemma RevivedNeedsRoom(s: System, after: System, i: nat)
    requires Linked(s.db) && OnlyRevived(s, after, i) && WithinLimits(after)
    requires !s.db.executions[i].ActiveAt(s.clock) && after.db.executions[i].ActiveAt(s.clock)
    requires var m := s.db.executions[i].manifest; m.run < |s.db.runs| && m.revision < |s.db.revisions|
    ensures var m := s.db.executions[i].manifest;
      && |RunActive(s.db.executions, m.run, s.clock)| < s.db.runs[m.run].actualConcurrency
      && |RevisionActive(s.db.executions, m.revision, s.clock)| < s.db.revisions[m.revision].maxConcurrency
  {
    var es, fs, m := s.db.executions, after.db.executions, s.db.executions[i].manifest;
    assert RunWithin(after.db, m.run, after.clock) && RevisionWithin(after.db, m.revision, after.clock);
    assert RunActive(fs, m.run, s.clock) == RunActive(es, m.run, s.clock) + {i};
    assert RevisionActive(fs, m.revision, s.clock) == RevisionActive(es, m.revision, s.clock) + {i};
  }

  // ---------- the steps ----------

  /** The claim counts at a `now` that may lag behind the clock, which can only overcount. */
  lemma ClaimStaysWithin(s: System, i: nat, worker: string, t: Token, now: Time, lease: nat)
    requires Linked(s.db) && WithinLimits(s) && ClaimEnabled(s, i, worker, t, now)
    ensures WithinLimits(ClaimStep(s, i, worker, t, now, lease))
  {
    var after := ClaimStep(s, i, worker, t, now, lease);
    var m := s.db.executions[i].manifest;
    LinkedRanges(s.db);
    assert RowLinked(s.db, s.db.executions[i]) && RunLinked(s.db, s.db.runs[m.run]);
    SubsetSize(RunActive(s.db.executions, m.run, s.clock), RunActive(s.db.executions, m.run, now));
    SubsetSize(RevisionActive(s.db.executions, m.revision, s.clock), RevisionActive(s.db.executions, m.revision, now));
    RevivedWithRoom(s, after, i);
  }

  lemma RenewalMovesOneRow(s: System, step: Step, i: nat, now: Time, lease: nat)
    requires Enabled(s, step) && Renews(s, step, i, now, lease)
    ensures i < |s.db.executions|
    ensures OnlyRevived(s, Apply(s, step), i)
    ensures Apply(s, step).db.executions[i].ActiveAt(s.clock) <==> now + lease > s.clock
  {
    assert ActionEnabled(s, step.token, step.action);
  }

  /** A renewal keeps the limits if and only if it fits. */
  lemma RenewalStaysWithinIff(s: System, step: Step, i: nat, now: Time, lease: nat)
    requires Linked(s.db) && WithinLimits(s) && Enabled(s, step) && Renews(s, step, i, now, lease)
    ensures i < |s.db.executions| && s.db.executions[i].manifest.run < |s.db.runs|
    ensures s.db.executions[i].manifest.revision < |s.db.revisions|
    ensures WithinLimits(Apply(s, step)) <==> RenewalFits(s, i, now, lease)
  {
    var after := Apply(s, step);
    LinkedRanges(s.db);
    RenewalMovesOneRow(s, step, i, now, lease);
    if s.db.executions[i].ActiveAt(s.clock) || now + lease <= s.clock {
      NoneRevivedKeeps(s, after);
    } else if RenewalFits(s, i, now, lease) {
      RevivedWithRoom(s, after, i);
    } else if WithinLimits(after) {
      RevivedNeedsRoom(s, after, i);
    }
  }

  lemma UnchangedRows(s: System, after: System)
    requires after.db.executions == s.db.executions && s.clock <= after.clock
    ensures NoneRevived(s.db.executions, s.clock, after.db.executions, after.clock)
  {
  }

  lemma ReconcileRevivesNone(s: System, now: Time, skipped: set<nat>)
    ensures NoneRevived(s.db.executions, s.clock, ReconciliationStep(s, now, skipped).db.executions, s.clock)
  {
  }

  lemma FinishRevivesNone(s: System, t: Token, now: Time)
    requires FinishEnabled(s, t)
    ensures NoneRevived(s.db.executions, s.clock, FinishStep(s, t, now).db.executions, s.clock)
  {
  }

  lemma BlockRevivesNone(s: System, t: Token, now: Time)
    requires BlockEnabled(s, t, now)
    ensures NoneRevived(s.db.executions, s.clock, BlockStep(s, t, now).db.executions, s.clock)
  {
  }

  /** What other steps leave alone. */
  predicate LimitsKept(s: System, after: System) {
    && s.clock <= after.clock
    && |s.db.runs| <= |after.db.runs| && |s.db.revisions| <= |after.db.revisions|
    && (forall r :: 0 <= r < |s.db.runs| ==> after.db.runs[r].actualConcurrency == s.db.runs[r].actualConcurrency)
    && (forall v :: 0 <= v < |s.db.revisions| ==> after.db.revisions[v] == s.db.revisions[v])
  }

  lemma ShapeKeepsLimits(s: System, after: System)
    requires SameShape(s.db, after.db) && s.clock <= after.clock
    ensures LimitsKept(s, after)
  {
    forall r | 0 <= r < |s.db.runs| ensures after.db.runs[r].actualConcurrency == s.db.runs[r].actualConcurrency {
      assert RunShape(s.db.runs[r], after.db.runs[r]);
    }
  }

  lemma ActionStaysWithin(s: System, t: Token, action: Action)
    requires Sound(s.db) && WithinLimits(s) && ActionEnabled(s, t, action)
    requires !action.Heartbeat? && !action.Mark?
    ensures WithinLimits(Act(s, t, action))
  {
    var after := Act(s, t, action);
    SystemSound.ActionKeepsSound(s, t, action);
    ClockKept(s, t, action);
    ShapeKeepsLimits(s, after);
    LinkedRanges(s.db);
    ActionRevivesNone(s, t, action);
    NoneRevivedKeeps(s, after);
  }

  lemma ActionRevivesNone(s: System, t: Token, action: Action)
    requires ActionEnabled(s, t, action) && !action.Heartbeat? && !action.Mark?
    ensures NoneRevived(s.db.executions, s.clock, Act(s, t, action).db.executions, s.clock)
  {
    match action
    case Finish(now) => FinishRevivesNone(s, t, now);
    case Block(now) => BlockRevivesNone(s, t, now);
    case _ => OtherActionKeepsRows(s, t, action);
  }

  lemma OtherActionKeepsRows(s: System, t: Token, action: Action)
    requires ActionEnabled(s, t, action)
    requires !action.Heartbeat? && !action.Mark? && !action.Finish? && !action.Block?
    ensures NoneRevived(s.db.executions, s.clock, Act(s, t, action).db.executions, s.clock)
  {
    assert Act(s, t, action).db.executions == s.db.executions;
  }

  lemma ClockKept(s: System, t: Token, action: Action)
    requires ActionEnabled(s, t, action)
    ensures Act(s, t, action).clock == s.clock
  {
  }

  lemma LaunchStaysWithin(s: System, plan: Launches.Plan)
    requires Sound(s.db) && WithinLimits(s) && Launches.Launched(s.db, plan).Some?
    ensures WithinLimits(s.(db := Launches.Launched(s.db, plan).value))
  {
    var n := Launches.Planned(s.db, plan).value;
    var after := s.(db := Launches.Launched(s.db, plan).value);
    LinkedRanges(s.db);
    forall i: nat | i < |after.db.executions| && after.db.executions[i].ActiveAt(s.clock)
      ensures i < |s.db.executions| && after.db.executions[i] == s.db.executions[i]
    {
      LaunchProofs.AppendedRow(s.db, n, i);
    }
    NoneRevivedKeeps(s, after);
  }

  lemma CatalogStaysWithin(s: System, step: Step)
    requires Sound(s.db) && WithinLimits(s) && Enabled(s, step)
    requires step.Tick? || step.AddRevision? || step.AddScenario? || step.Promote?
    ensures WithinLimits(Apply(s, step))
  {
    CatalogStepsAreQuiet(s, step);
    var after := Apply(s, step);
    LinkedRanges(s.db);
    UnchangedRows(s, after);
    forall v | 0 <= v < |s.db.revisions| ensures after.db.revisions[v] == s.db.revisions[v] {
      assert after.db.revisions[..|s.db.revisions|][v] == after.db.revisions[v];
    }
    NoneRevivedKeeps(s, after);
  }

  lemma ReconciliationStaysWithin(s: System, now: Time, skipped: set<nat>)
    requires Sound(s.db) && WithinLimits(s)
    ensures WithinLimits(ReconciliationStep(s, now, skipped))
  {
    var after := ReconciliationStep(s, now, skipped);
    TransactionProofs.ReconcileKeepsSound(s.db, now, skipped);
    ShapeKeepsLimits(s, after);
    LinkedRanges(s.db);
    ReconcileRevivesNone(s, now, skipped);
    NoneRevivedKeeps(s, after);
  }

  lemma ValidateStaysWithin(s: System, i: nat, validity: Validity)
    requires Sound(s.db) && WithinLimits(s) && i < |s.db.executions|
    ensures WithinLimits(s.(db := SetValidity(s.db, i, validity)))
  {
    LinkedRanges(s.db);
    NoneRevivedKeeps(s, s.(db := SetValidity(s.db, i, validity)));
  }

  lemma OtherStepStaysWithin(s: System, step: Step)
    requires Sound(s.db) && WithinLimits(s) && Enabled(s, step)
    requires !(step.Work? && (step.action.Heartbeat? || step.action.Mark?))
    ensures WithinLimits(Apply(s, step))
  {
    match step
    case Claim(i, worker, t, now, lease) => ClaimStaysWithin(s, i, worker, t, now, lease);
    case Work(t, action) => ActionStaysWithin(s, t, action);
    case Launch(plan) => LaunchStaysWithin(s, plan);
    case Reconciliation(now, skipped) => ReconciliationStaysWithin(s, now, skipped);
    case Validate(i, validity) => ValidateStaysWithin(s, i, validity);
    case _ => CatalogStaysWithin(s, step);
  }

  /** One step keeps the limits if and only if it is not a renewal that does not fit. */
  lemma StepStaysWithinIff(s: System, step: Step)
    requires Sound(s.db) && WithinLimits(s) && Enabled(s, step)
    ensures WithinLimits(Apply(s, step)) <==> Fits(s, step)
  {
    if step.Work? && (step.action.Heartbeat? || step.action.Mark?) {
      assert ActionEnabled(s, step.token, step.action);
      var i := s.tasks[step.token].execution;
      assert Renews(s, step, i, step.action.now, step.action.lease);
      RenewalStaysWithinIff(s, step, i, step.action.now, step.action.lease);
    } else {
      OtherStepStaysWithin(s, step);
    }
  }

  // ---------- whole traces ----------

  predicate FitsAt(states: seq<System>, steps: seq<Step>, k: nat)
    requires |states| == |steps| + 1 && k < |steps|
  {
    Fits(states[k], steps[k])
  }

  lemma StepWithin(states: seq<System>, steps: seq<Step>, k: nat)
    requires Behavior(states, steps) && k < |steps| && WithinLimits(states[k])
    ensures WithinLimits(states[k + 1]) <==> FitsAt(states, steps, k)
  {
    TraceHoldsInv(states, steps, k);
    assert StepAt(states, steps, k);
    StepStaysWithinIff(states[k], steps[k]);
  }

  lemma InitWithinLimits(s: System)
    requires Init(s)
    ensures WithinLimits(s)
  {
    forall i | 0 <= i < |s.db.executions| ensures !s.db.executions[i].ActiveAt(s.clock) {
      assert LegacyRow(s.db.executions[i]);
    }
    forall r: nat | r < |s.db.runs| ensures RunWithin(s.db, r, s.clock) {
      assert RunActive(s.db.executions, r, s.clock) == {};
    }
    forall v: nat | v < |s.db.revisions| ensures RevisionWithin(s.db, v, s.clock) {
      assert RevisionActive(s.db.executions, v, s.clock) == {};
    }
  }

  lemma {:induction false} WithinUpTo(states: seq<System>, steps: seq<Step>, k: nat)
    requires Behavior(states, steps) && k < |states|
    requires forall j: nat :: j < k ==> FitsAt(states, steps, j)
    ensures WithinLimits(states[k])
  {
    if k == 0 {
      InitWithinLimits(states[0]);
    } else {
      WithinUpTo(states, steps, k - 1);
      StepWithin(states, steps, k - 1);
    }
  }

  /** In every trace: the limits hold throughout if and only if every renewal fits. Launches of every kind,
      claims with a lagging clock, recoveries and completions never break them. */
  lemma LimitsHoldIffRenewalsFit(states: seq<System>, steps: seq<Step>)
    requires Behavior(states, steps)
    ensures (forall k: nat :: k < |states| ==> WithinLimits(states[k])) <==>
            (forall k: nat :: k < |steps| ==> FitsAt(states, steps, k))
  {
    if forall k: nat :: k < |states| ==> WithinLimits(states[k]) {
      forall k: nat | k < |steps| ensures FitsAt(states, steps, k) {
        assert WithinLimits(states[k]) && WithinLimits(states[k + 1]);
        StepWithin(states, steps, k);
      }
    }
    if forall k: nat :: k < |steps| ==> FitsAt(states, steps, k) {
      forall k: nat | k < |states| ensures WithinLimits(states[k]) {
        WithinUpTo(states, steps, k);
      }
    }
  }

  predicate LiveRenewalAt(states: seq<System>, steps: seq<Step>, k: nat)
    requires |states| == |steps| + 1 && k < |steps|
  {
    steps[k].Work? && HasTask(states[k], steps[k].token) && (steps[k].action.Heartbeat? || steps[k].action.Mark?) ==>
      RowOf(states[k], steps[k].token).ActiveAt(states[k].clock)
  }

  /** In particular the limits hold in every trace whose leases are only renewed while they are live. */
  lemma LimitsHoldWhenRenewalsAreLive(states: seq<System>, steps: seq<Step>, k: nat)
    requires Behavior(states, steps) && k < |states|
    requires forall j: nat :: j < |steps| ==> LiveRenewalAt(states, steps, j)
    ensures WithinLimits(states[k])
  {
    forall j: nat | j < k ensures FitsAt(states, steps, j) {
      assert LiveRenewalAt(states, steps, j);
      TraceHoldsInv(states, steps, j);
      LinkedRanges(states[j].db);
    }
    WithinUpTo(states, steps, k);
  }

  // ---------- a late renewal does break a limit ----------

  const ONE_AT_A_TIME := Revision(1, 0)
  const QUESTION := Launches.Question(FrozenInput(Some(0), Some(0), "q", "q", map[]), "")

  function EmptySystem(): System {
    System(Tables([ONE_AT_A_TIME], [], [], [], [], [], []), 0, map[], map[], [], [], {}, map[])
  }

  const QUEUE_TWO := Launch(Launches.Questions(0, true, 1, [QUESTION, QUESTION]))
  const FIRST_CLAIM := Claim(0, "a", 0, 0, 30)
  const SECOND_CLAIM := Claim(1, "b", 1, 31, 30)
  const LATE_HEARTBEAT := Work(0, Heartbeat(31, 30))

  /** Two queued rows of one sequential run. */
  predicate TwoQueued(s: System) {
    && |s.db.runs| == 1 && s.db.runs[0].actualConcurrency == 1 && s.db.runs[0].configuredMaxConcurrency == 1
    && s.db.runs[0].state == Queued && s.db.runs[0].nextDispatchAt.None?
    && |s.db.executions| == 2 && s.clock == 0 && s.tasks == map[]
    && forall i :: 0 <= i < 2 ==>
         && s.db.executions[i] == Launches.FreshExecution(s.db.executions[i].manifest)
         && s.db.executions[i].manifest.run == 0 && s.db.executions[i].manifest.revision == 0
         && s.db.executions[i].manifest.conversation.None?
  }

  /** The first row claimed by `a` under a lease that has run out. */
  predicate FirstExpired(s: System) {
    && |s.db.runs| == 1 && s.db.runs[0].actualConcurrency == 1 && s.db.runs[0].configuredMaxConcurrency == 1
    && s.db.runs[0].state == InProgress && s.db.runs[0].nextDispatchAt.None?
    && |s.db.executions| == 2 && s.clock == 31 && s.tasks == map[0 := Task(0, "a", Holding)]
    && s.db.executions[0].OwnedBy("a", 0) && s.db.executions[0].phase == Claimed
    && s.db.executions[0].expiresAt == Some(30)
    && s.db.executions[1].outcome == Pending && s.db.executions[1].manifest.conversation.None?
    && forall i :: 0 <= i < 2 ==> s.db.executions[i].manifest.run == 0 && s.db.executions[i].manifest.revision == 0
  }

  lemma QueueTwo() returns (s: System)
    ensures IsTrace([EmptySystem(), s], [QUEUE_TWO]) && TwoQueued(s)
  {
    s := Apply(EmptySystem(), QUEUE_TWO);
    assert StepAt([EmptySystem(), s], [QUEUE_TWO], 0);
  }

  lemma ClaimFirst(s: System) returns (t: System)
    requires TwoQueued(s)
    ensures IsTrace([s, t, t.(clock := 31)], [FIRST_CLAIM, Tick(31)]) && FirstExpired(t.(clock := 31))
  {
    assert RunActive(s.db.executions, 0, 0) == {} && RevisionActive(s.db.executions, 0, 0) == {};
    assert Claimable(s.db, 0, 0);
    t := ClaimStep(s, 0, "a", 0, 0, 30);
    var states, steps := [s, t, t.(clock := 31)], [FIRST_CLAIM, Tick(31)];
    assert StepAt(states, steps, 0) && StepAt(states, steps, 1);
  }

  lemma ClaimSecond(s: System) returns (t: System)
    requires FirstExpired(s)
    ensures IsTrace([s, t], [SECOND_CLAIM])
    ensures t.clock == 31 && t.tasks == s.tasks[1 := Task(1, "b", Holding)]
    ensures |t.db.runs| == 1 && t.db.runs[0].actualConcurrency == 1
    ensures |t.db.executions| == 2 && t.db.executions[0] == s.db.executions[0]
    ensures t.db.executions[1].ActiveAt(31) && t.db.executions[1].manifest.run == 0
  {
    assert RunActive(s.db.executions, 0, 31) == {} && RevisionActive(s.db.executions, 0, 31) == {};
    assert Claimable(s.db, 1, 31);
    t := ClaimStep(s, 1, "b", 1, 31, 30);
    assert StepAt([s, t], [SECOND_CLAIM], 0);
  }

  lemma ReviveFirst(s: System) returns (t: System)
    requires s.clock == 31 && 0 in s.tasks && s.tasks[0] == Task(0, "a", Holding)
    requires |s.db.runs| == 1 && s.db.runs[0].actualConcurrency == 1
    requires |s.db.executions| == 2 && s.db.executions[0].OwnedBy("a", 0) && s.db.executions[0].phase == Claimed
    requires s.db.executions[0].manifest.run == 0
    requires s.db.executions[1].ActiveAt(31) && s.db.executions[1].manifest.run == 0
    ensures IsTrace([s, t], [LATE_HEARTBEAT]) && !WithinLimits(t)
  {
    t := HeartbeatStep(s, 0, 31, 30);
    assert StepAt([s, t], [LATE_HEARTBEAT], 0);
    assert RunActive(t.db.executions, 0, 31) == {0, 1};
    assert !RunWithin(t.db, 0, t.clock);
  }

  /** Worker `a` lets its lease run out, `b` takes its place, then `a` renews: two live claims where one is allowed. */
  lemma LateRenewalBreaksLimits() returns (states: seq<System>, steps: seq<Step>)
    ensures Behavior(states, steps)
    ensures !WithinLimits(states[|steps|])
  {
    var s1 := QueueTwo();
    var s2 := ClaimFirst(s1);
    var s3 := s2.(clock := 31);
    var s4 := ClaimSecond(s3);
    var s5 := ReviveFirst(s4);
    states, steps := [EmptySystem(), s1], [QUEUE_TWO];
    StepsAppend(states, steps, [s1, s2, s3], [FIRST_CLAIM, Tick(31)]);
    states, steps := states + [s1, s2, s3][1..], steps + [FIRST_CLAIM, Tick(31)];
    StepsAppend(states, steps, [s3, s4], [SECOND_CLAIM]);
    states, steps := states + [s3, s4][1..], steps + [SECOND_CLAIM];
    StepsAppend(states, steps, [s4, s5], [LATE_HEARTBEAT]);
    states, steps := states + [s4, s5][1..], steps + [LATE_HEARTBEAT];
    EmptyIsInitial();
  }

  lemma EmptyIsInitial()
    ensures Init(EmptySystem())
  {
  }
}
