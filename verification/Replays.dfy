/** A controlled replay keeps the exact inputs of its baseline from launch to comparison. */
module Replays {
  import opened Wrappers
  import opened Rows
  import opened Transactions
  import opened Protocol
  import opened TableInvariants
  import Comparison
  import Launches
  import LaunchProofs
  import SystemSound

  /** A baseline's members are executions of its source run. */
  predicate MembersSound(db: Tables, b: Baseline) {
    forall m :: m in b.members ==> m < |db.executions| && db.executions[m].manifest.run == b.sourceRun
  }

  predicate SameTurn(db: Tables, base: Execution, c: Execution) {
    match base.manifest.conversation
    case None => c.manifest.conversation.None?
    case Some(bt) =>
      && c.manifest.conversation.Some?
      && var ct := c.manifest.conversation.value;
      && ct.turn == bt.turn && ct.attempt < |db.attempts| && bt.attempt < |db.attempts|
      && db.attempts[ct.attempt].scenarioVersion == db.attempts[bt.attempt].scenarioVersion
      && db.attempts[ct.attempt].baselineAttempt == Some(bt.attempt)
  }

  /** Same input, same turn, and a member of the baseline the run is compared against. */
  predicate Faithful(db: Tables, c: Execution) {
    c.manifest.baseline.Some? ==>
      var b := c.manifest.baseline.value;
      && b < |db.executions| && c.manifest.run < |db.runs|
      && c.manifest.input == db.executions[b].manifest.input
      && Comparison.MembershipAgrees(db, db.runs[c.manifest.run], b)
      && SameTurn(db, db.executions[b], c)
  }

  predicate ReplaysFaithful(db: Tables) {
    && (forall b :: 0 <= b < |db.baselines| ==> MembersSound(db, db.baselines[b]))
    && (forall i :: 0 <= i < |db.executions| ==> Faithful(db, db.executions[i]))
  }

  // ---------- inductive ----------

  /** Launch-time fields are kept, rows and baselines only appended. */
  predicate ReplayFrame(db: Tables, after: Tables) {
    && |db.executions| <= |after.executions| && |db.runs| <= |after.runs|
    && |db.attempts| <= |after.attempts| && |db.baselines| <= |after.baselines|
    && (forall i :: 0 <= i < |db.executions| ==> after.executions[i].manifest == db.executions[i].manifest)
    && (forall r :: 0 <= r < |db.runs| ==>
          && after.runs[r].comparison == db.runs[r].comparison
          && after.runs[r].comparisonBaseline == db.runs[r].comparisonBaseline)
    && (forall a :: 0 <= a < |db.attempts| ==>
          && after.attempts[a].scenarioVersion == db.attempts[a].scenarioVersion
          && after.attempts[a].baselineAttempt == db.attempts[a].baselineAttempt)
    && (forall b :: 0 <= b < |db.baselines| ==> after.baselines[b] == db.baselines[b])
  }

  lemma FrameKeepsFaithful(db: Tables, after: Tables, i: nat)
    requires ReplayFrame(db, after) && i < |db.executions| && Faithful(db, db.executions[i])
    ensures Faithful(after, after.executions[i])
  {
  }

  lemma FrameKeepsMembers(db: Tables, after: Tables, b: Baseline)
    requires ReplayFrame(db, after) && MembersSound(db, b)
    ensures MembersSound(after, b)
  {
  }

  lemma FrameKeepsReplays(db: Tables, after: Tables)
    requires ReplaysFaithful(db) && ReplayFrame(db, after)
    requires |after.executions| == |db.executions| && |after.baselines| == |db.baselines|
    ensures ReplaysFaithful(after)
  {
    forall b | 0 <= b < |after.baselines| ensures MembersSound(after, after.baselines[b]) {
      FrameKeepsMembers(db, after, db.baselines[b]);
    }
    forall i | 0 <= i < |after.executions| ensures Faithful(after, after.executions[i]) {
      FrameKeepsFaithful(db, after, i);
    }
  }

  lemma PromoteKeepsReplays(db: Tables, r: nat)
    requires ReplaysFaithful(db) && Launches.PromoteBaseline(db, r).Some?
    ensures ReplaysFaithful(Launches.PromoteBaseline(db, r).value)
  {
    var after := Launches.PromoteBaseline(db, r).value;
    forall b | 0 <= b < |after.baselines| ensures MembersSound(after, after.baselines[b]) {
      if b < |db.baselines| { FrameKeepsMembers(db, after, db.baselines[b]); }
    }
    forall i | 0 <= i < |after.executions| ensures Faithful(after, after.executions[i]) {
      FrameKeepsFaithful(db, after, i);
    }
  }

  /** The rows that a controlled launch adds are faithful to the members it copies. */
  lemma ReplayRowFaithful(db: Tables, plan: Launches.Plan, k: nat)
    requires Linked(db) && ReplaysFaithful(db) && Launches.Launched(db, plan).Some?
    requires plan.Controlled?
    requires k < |Launches.Planned(db, plan).value.manifests|
    ensures Faithful(Launches.Launched(db, plan).value,
                     Launches.FreshExecution(Launches.Planned(db, plan).value.manifests[k]))
  {
    var n := Launches.Planned(db, plan).value;
    var m := n.manifests[k];
    var members := Launches.MembersFrom(db.executions, db.baselines[plan.baseline].members, 0);
    var b := members[k];
    assert m == Launches.ReplayManifest(db.executions[b], b, |db.runs|, k + 1, plan.v);
    assert b in members;
    assert MembersSound(db, db.baselines[plan.baseline]);
    assert RowLinked(db, db.executions[b]);
  }

  lemma ReplayTurnFaithful(db: Tables, plan: Launches.Plan, k: nat)
    requires Linked(db) && ReplaysFaithful(db) && Launches.Launched(db, plan).Some?
    requires plan.ControlledConversation?
    requires k < |Launches.Planned(db, plan).value.manifests|
    ensures Faithful(Launches.Launched(db, plan).value,
                     Launches.FreshExecution(Launches.Planned(db, plan).value.manifests[k]))
  {
    var n := Launches.Planned(db, plan).value;
    var turns := db.scenarios[db.attempts[plan.attempt].scenarioVersion];
    var b := plan.sources[k];
    assert n.manifests[k]
      == Launches.ReplayTurnManifest(db.executions[b], b, |db.runs|, k + 1, plan.v, |db.attempts|, turns[k]);
  }

  lemma LaunchKeepsReplays(db: Tables, plan: Launches.Plan)
    requires Linked(db) && ReplaysFaithful(db) && Launches.Launched(db, plan).Some?
    ensures ReplaysFaithful(Launches.Launched(db, plan).value)
  {
    var n := Launches.Planned(db, plan).value;
    var after := Launches.Launched(db, plan).value;
    forall i | 0 <= i < |after.executions| ensures Faithful(after, after.executions[i]) {
      LaunchProofs.AppendedRow(db, n, i);
      if i < |db.executions| {
        FrameKeepsFaithful(db, after, i);
      } else if plan.Controlled? {
        ReplayRowFaithful(db, plan, i - |db.executions|);
      } else if plan.ControlledConversation? {
        ReplayTurnFaithful(db, plan, i - |db.executions|);
      }
    }
    forall b | 0 <= b < |after.baselines| ensures MembersSound(after, after.baselines[b]) {
      FrameKeepsMembers(db, after, db.baselines[b]);
    }
  }

  lemma ShapeFrames(db: Tables, after: Tables)
    requires SameShape(db, after)
    ensures ReplayFrame(db, after) && |after.executions| == |db.executions| && |after.baselines| == |db.baselines|
  {
  }

  lemma StepKeepsReplays(s: System, step: Step)
    requires Sound(s.db) && ReplaysFaithful(s.db) && Enabled(s, step)
    ensures ReplaysFaithful(Apply(s, step).db)
  {
    if SystemSound.WorksOnRows(step) {
      SystemSound.StepKeepsShape(s, step);
      ShapeKeepsReplays(s.db, Apply(s, step).db);
    } else if step.Launch? {
      LaunchKeepsReplays(s.db, step.plan);
    } else if step.Promote? {
      PromoteKeepsReplays(s.db, step.run);
    } else {
      FrameKeepsReplays(s.db, Apply(s, step).db);
    }
  }

  lemma ShapeKeepsReplays(db: Tables, after: Tables)
    requires ReplaysFaithful(db) && SameShape(db, after)
    ensures ReplaysFaithful(after)
  {
    ShapeFrames(db, after);
    FrameKeepsReplays(db, after);
  }

  // ---------- what it means at comparison ----------

  /** The classification of a replay with every identity, version, turn, question, binding and membership
      comparison left out. */
  function AnswerChange(base: Execution, c: Execution): Change {
    if c.manifest.nonComparableReason != "" then NonComparable(c.manifest.nonComparableReason)
    else if Comparison.PreflightReason(base).Some? then NonComparable(Comparison.PreflightReason(base).value)
    else if c.validity == Invalid then NonComparable("CURRENT_EXECUTION_INVALID")
    else if c.outcome != Success || c.observation.rawAnswer == "" then NonComparable("CURRENT_NO_USABLE_ANSWER")
    else if Comparison.ExactAnswer(base) == Comparison.ExactAnswer(c) then Unchanged
    else Changed
  }

  /** For a faithful replay the mismatch branches are dead: only answers and their usability decide. */
  lemma MismatchUnreachable(db: Tables, i: nat)
    requires i < |db.executions| && Faithful(db, db.executions[i]) && db.executions[i].manifest.baseline.Some?
    ensures db.executions[i].manifest.baseline.value < |db.executions| && db.executions[i].manifest.run < |db.runs|
    ensures Comparison.Classify(db, i, db.executions[i].manifest.baseline.value)
            == AnswerChange(db.executions[db.executions[i].manifest.baseline.value], db.executions[i])
  {
  }
}
