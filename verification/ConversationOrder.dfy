/** Turns of a conversation are submitted in order, whatever workers crash, stall or lose their lease. */
module ConversationOrder {
  import opened Wrappers
  import opened Rows
  import opened Transactions
  import opened Protocol
  import opened TableInvariants
  import TransactionProofs
  import opened Submissions
  import Launches
  import LaunchProofs

  predicate MaySend(s: System, t: Token) {
    HasTask(s, t) && s.tasks[t].pc.MaySubmit()
  }

  /** A worker stalled between the mark and the send while recovery finalized its row has lost the
      whole attempt: no turn of it is left that anyone could claim. */
  predicate StrayTurn(s: System, t: Token)
    requires HasTask(s, t)
  {
    RowOf(s, t).outcome.Terminal() && RowOf(s, t).manifest.conversation.Some? ==>
      AttemptDone(s.db.executions, RowOf(s, t).manifest.conversation.value.attempt)
  }

  predicate Strays(s: System) {
    forall t :: t in s.tasks && MaySend(s, t) ==> StrayTurn(s, t)
  }

  /** While a turn may still be sent, no later turn has ever been claimed. */
  predicate NoOvertaking(s: System) {
    forall t, j :: t in s.tasks && MaySend(s, t) && 0 <= j < |s.db.executions|
                   && EarlierTurn(RowOf(s, t), s.db.executions[j])
                   ==> s.db.executions[j].claimAttempt == 0
  }

  predicate InOrder(s: System, c: Call, d: Call) {
    c.execution < |s.db.executions| && d.execution < |s.db.executions|
    && (SameAttempt(s.db.executions[c.execution], s.db.executions[d.execution])
        ==> EarlierTurn(s.db.executions[c.execution], s.db.executions[d.execution]))
  }

  predicate CallsOrdered(s: System) {
    forall j, k :: 0 <= j < k < |s.calls| ==> InOrder(s, s.calls[j], s.calls[k])
  }

  predicate Ordered(s: System) {
    Strays(s) && NoOvertaking(s) && CallsOrdered(s)
  }

  lemma PcKeepsOrdered(s: System, after: System, t: Token)
    requires Ordered(s) && OnlyPc(s, after, t) && after.calls == s.calls
    requires after.tasks[t].pc.MaySubmit() ==> s.tasks[t].pc.MaySubmit()
    ensures Ordered(after)
  {
    forall u | u in after.tasks && MaySend(after, u) ensures StrayTurn(after, u) {
      assert MaySend(s, u);
      assert StrayTurn(s, u);
    }
    forall u, j | u in after.tasks && MaySend(after, u) && 0 <= j < |after.db.executions|
                  && EarlierTurn(RowOf(after, u), after.db.executions[j])
      ensures after.db.executions[j].claimAttempt == 0
    {
      assert MaySend(s, u);
    }
    forall j, k | 0 <= j < k < |after.calls| ensures InOrder(after, after.calls[j], after.calls[k]) {
      assert InOrder(s, s.calls[j], s.calls[k]);
    }
  }

  /** Rows changed, no claim was taken and no turn with a sender was finished without its whole attempt. */
  lemma RowsKeepOrdered(s: System, after: System)
    requires Ordered(s) && TasksLinked(s)
    requires after.tasks == s.tasks && after.calls == s.calls
    requires |s.db.executions| <= |after.db.executions|
    requires forall i :: 0 <= i < |s.db.executions| ==>
               && after.db.executions[i].manifest == s.db.executions[i].manifest
               && after.db.executions[i].claimAttempt == s.db.executions[i].claimAttempt
               && (s.db.executions[i].outcome.Terminal() ==> after.db.executions[i].outcome.Terminal())
    requires forall i :: |s.db.executions| <= i < |after.db.executions| ==> after.db.executions[i].claimAttempt == 0
    requires forall t :: t in s.tasks && MaySend(s, t) ==> StrayTurn(after, t)
    ensures Ordered(after)
  {
    forall u, j | u in after.tasks && MaySend(after, u) && 0 <= j < |after.db.executions|
                  && EarlierTurn(RowOf(after, u), after.db.executions[j])
      ensures after.db.executions[j].claimAttempt == 0
    {
      assert MaySend(s, u);
    }
    forall j, k | 0 <= j < k < |after.calls| ensures InOrder(after, after.calls[j], after.calls[k]) {
      assert InOrder(s, s.calls[j], s.calls[k]);
    }
  }

  /** If no sender's row becomes terminal, strays keep what they had. */
  lemma OldStray(s: System, after: System, t: Token)
    requires HasTask(s, t) && HasTask(after, t) && after.tasks[t].execution == s.tasks[t].execution && StrayTurn(s, t)
    requires |after.db.executions| == |s.db.executions|
    requires RowOf(after, t).manifest == RowOf(s, t).manifest
    requires RowOf(after, t).outcome.Terminal() ==> RowOf(s, t).outcome.Terminal()
    requires forall i :: 0 <= i < |s.db.executions| ==>
               && after.db.executions[i].manifest == s.db.executions[i].manifest
               && (s.db.executions[i].outcome.Terminal() ==> after.db.executions[i].outcome.Terminal())
    ensures StrayTurn(after, t)
  {
  }

  lemma SenderStarted(s: System, t: Token)
    requires Submitting(s) && t in s.tasks && MaySend(s, t)
    ensures s.tasks[t].execution in s.started && s.started[s.tasks[t].execution] == t
    ensures StartedRow(RowOf(s, t), t)
  {
  }

  // ---------- the steps that matter ----------

  /** The turn guard of the claim keeps a later turn from overtaking one that may still be sent. */
  lemma ClaimKeepsStray(s: System, i: nat, worker: string, t: Token, now: Time, lease: nat, u: Token)
    requires Submitting(s) && Ordered(s) && ClaimEnabled(s, i, worker, t, now)
    requires var after := ClaimStep(s, i, worker, t, now, lease); u in after.tasks && MaySend(after, u)
    ensures StrayTurn(ClaimStep(s, i, worker, t, now, lease), u)
  {
    assert u != t && MaySend(s, u);
    SenderStarted(s, u);
    OldStray(s, ClaimStep(s, i, worker, t, now, lease), u);
  }

  lemma ClaimKeepsOrdered(s: System, i: nat, worker: string, t: Token, now: Time, lease: nat)
    requires Submitting(s) && Ordered(s) && ClaimEnabled(s, i, worker, t, now)
    ensures Ordered(ClaimStep(s, i, worker, t, now, lease))
  {
    var after := ClaimStep(s, i, worker, t, now, lease);
    forall u | u in after.tasks && MaySend(after, u) ensures StrayTurn(after, u) {
      ClaimKeepsStray(s, i, worker, t, now, lease, u);
    }
    forall u, j | u in after.tasks && MaySend(after, u) && 0 <= j < |after.db.executions|
                  && EarlierTurn(RowOf(after, u), after.db.executions[j])
      ensures after.db.executions[j].claimAttempt == 0
    {
      assert u != t && MaySend(s, u);
      SenderStarted(s, u);
      assert EarlierTurn(RowOf(s, u), s.db.executions[j]);
      assert StrayTurn(s, u);
      assert j != i;
    }
    forall j, k | 0 <= j < k < |after.calls| ensures InOrder(after, after.calls[j], after.calls[k]) {
      assert InOrder(s, s.calls[j], s.calls[k]);
    }
  }

  lemma MarkKeepsOrdered(s: System, t: Token, now: Time, lease: nat)
    requires TurnOrder(s.db.executions) && TasksLinked(s) && Ordered(s) && MarkEnabled(s, t, now)
    ensures Ordered(MarkStep(s, t, now, lease))
  {
    var after := MarkStep(s, t, now, lease);
    forall u | u in after.tasks && MaySend(after, u) ensures StrayTurn(after, u) {
      if u != t {
        assert MaySend(s, u);
        OldStray(s, after, u);
      }
    }
    forall u, j | u in after.tasks && MaySend(after, u) && 0 <= j < |after.db.executions|
                  && EarlierTurn(RowOf(after, u), after.db.executions[j])
      ensures after.db.executions[j].claimAttempt == 0
    {
      assert EarlierTurn(RowOf(s, u), s.db.executions[j]);
      if u != t { assert MaySend(s, u); }
    }
    forall j, k | 0 <= j < k < |after.calls| ensures InOrder(after, after.calls[j], after.calls[k]) {
      assert InOrder(s, s.calls[j], s.calls[k]);
    }
  }

  /** A submission comes after all earlier submissions of its attempt, in time and in ordinal. */
  lemma SubmitKeepsOrdered(s: System, t: Token, outcome: FinalOutcome, seen: Observation, usable: bool)
    requires DistinctOrdinals(s.db.executions) && RowsSound(s.db.executions)
    requires Submitting(s) && Ordered(s) && SubmitEnabled(s, t)
    ensures Ordered(SubmitStep(s, t, outcome, seen, usable))
  {
    var after := SubmitStep(s, t, outcome, seen, usable);
    var quiet := after.(calls := s.calls);
    PcKeepsOrdered(s, quiet, t);
    SenderStarted(s, t);
    forall j, k | 0 <= j < k < |after.calls| ensures InOrder(after, after.calls[j], after.calls[k]) {
      if k < |s.calls| {
        assert InOrder(s, s.calls[j], s.calls[k]);
      } else {
        EarlierCall(s, t, j);
      }
    }
  }

  lemma EarlierCall(s: System, t: Token, j: nat)
    requires DistinctOrdinals(s.db.executions) && RowsSound(s.db.executions)
    requires Submitting(s) && Ordered(s) && MaySend(s, t) && j < |s.calls|
    ensures s.calls[j].execution < |s.db.executions|
    ensures SameAttempt(s.db.executions[s.calls[j].execution], RowOf(s, t))
            ==> EarlierTurn(s.db.executions[s.calls[j].execution], RowOf(s, t))
  {
    var i, p := s.tasks[t].execution, s.calls[j].execution;
    SenderStarted(s, t);
    assert CallMade(s, s.calls[j]);
    assert StartedRow(s.db.executions[p], s.started[p]);
    assert RowSound(s.db.executions[p]);
    assert i != p;
    if SameAttempt(s.db.executions[p], RowOf(s, t)) {
      assert !EarlierTurn(RowOf(s, t), s.db.executions[p]);
    }
  }

  lemma FinishedRowKeepsOrdered(s: System, mid: System, t: Token, outcome: FinalOutcome, seen: Observation, now: Time)
    requires Submitting(s) && Ordered(s) && HasTask(s, t) && Owns(s, t) && !s.tasks[t].pc.MaySubmit()
    requires FinishedRow(s, mid, s.tasks[t].execution, outcome, seen, now)
    ensures Ordered(mid)
  {
    forall u | u in s.tasks && MaySend(s, u) ensures StrayTurn(mid, u) {
      SenderStarted(s, u);
      assert s.tasks[u].execution != s.tasks[t].execution;
      OldStray(s, mid, u);
    }
    RowsKeepOrdered(s, mid);
  }

  lemma FinishKeepsOrdered(s: System, t: Token, now: Time)
    requires Submitting(s) && Ordered(s) && FinishEnabled(s, t)
    ensures Ordered(FinishStep(s, t, now))
  {
    var i, pc := s.tasks[t].execution, s.tasks[t].pc;
    var after := FinishStep(s, t, now);
    if Owns(s, t) && Complete(s.db, i, pc.outcome, pc.seen, now).Some? {
      var mid := s.(db := Complete(s.db, i, pc.outcome, pc.seen, now).value);
      FinishSplits(s, t, now);
      FinishedRowKeepsOrdered(s, mid, t, pc.outcome, pc.seen, now);
      PcKeepsOrdered(mid, after, t);
    } else {
      PcKeepsOrdered(s, after, t);
    }
  }

  lemma BlockedRowsKeepOrdered(s: System, mid: System, i: nat, now: Time)
    requires Submitting(s) && Ordered(s) && TransactionProofs.TurnOf(s.db, i)
    requires MarkUnusable(s.db, i, now).Some? && mid == s.(db := MarkUnusable(s.db, i, now).value)
    ensures Ordered(mid)
  {
    forall u | u in s.tasks && MaySend(s, u) ensures StrayTurn(mid, u) {
      SenderStarted(s, u);
      OldStray(s, mid, u);
    }
    RowsKeepOrdered(s, mid);
  }

  lemma BlockKeepsOrdered(s: System, t: Token, now: Time)
    requires Submitting(s) && Ordered(s) && BlockEnabled(s, t, now)
    ensures Ordered(BlockStep(s, t, now))
  {
    var i := s.tasks[t].execution;
    var after := BlockStep(s, t, now);
    if MarkUnusable(s.db, i, now).Some? {
      var mid := s.(db := MarkUnusable(s.db, i, now).value);
      BlockedRowsKeepOrdered(s, mid, i, now);
      PcKeepsOrdered(mid, after, t);
    } else {
      PcKeepsOrdered(s, after, t);
    }
  }

  /** When recovery gives up on a marked turn it takes all of the attempt with it. */
  lemma AmbiguousTurnEndsAttempt(es: seq<Execution>, i: nat, a: nat, now: Time, skipped: set<nat>)
    requires RowsSound(es) && TurnOrder(es) && DistinctOrdinals(es)
    requires i < |es| && es[i].InAttempt(a) && Ambiguous(es, i, now, skipped)
    ensures AttemptDone(ReconcileRows(es, now, skipped), a)
  {
    var fs := ReconcileRows(es, now, skipped);
    assert RowSound(es[i]);
    assert BrokenAttempt(es, a, now, skipped);
    forall k | 0 <= k < |fs| && fs[k].InAttempt(a) ensures fs[k].outcome.Terminal() {
      assert RowSound(es[k]);
      if k != i {
        assert SameAttempt(es[i], es[k]);
        if EarlierTurn(es[k], es[i]) {
        } else {
          assert EarlierTurn(es[i], es[k]);
        }
      }
    }
  }

  lemma ReconciliationKeepsOrdered(s: System, now: Time, skipped: set<nat>)
    requires RowsSound(s.db.executions) && TurnOrder(s.db.executions) && DistinctOrdinals(s.db.executions)
    requires Submitting(s) && Ordered(s)
    ensures Ordered(ReconciliationStep(s, now, skipped))
  {
    var after := ReconciliationStep(s, now, skipped);
    forall u | u in s.tasks && MaySend(s, u) ensures StrayTurn(after, u) {
      SenderStarted(s, u);
      var i := s.tasks[u].execution;
      assert StrayTurn(s, u);
      if Ambiguous(s.db.executions, i, now, skipped) && RowOf(s, u).manifest.conversation.Some? {
        AmbiguousTurnEndsAttempt(s.db.executions, i, RowOf(s, u).manifest.conversation.value.attempt, now, skipped);
      } else {
        StrayReconciled(s, now, skipped, u);
      }
    }
    RowsKeepOrdered(s, after);
  }

  lemma StrayReconciled(s: System, now: Time, skipped: set<nat>, u: Token)
    requires MaySend(s, u) && StrayTurn(s, u)
    requires StartedRow(RowOf(s, u), u)
    requires Ambiguous(s.db.executions, s.tasks[u].execution, now, skipped) ==> RowOf(s, u).manifest.conversation.None?
    ensures StrayTurn(ReconciliationStep(s, now, skipped), u)
  {
    var after := ReconciliationStep(s, now, skipped);
    if RowOf(s, u).manifest.conversation.Some? {
      OldStray(s, after, u);
    }
  }

  lemma LaunchKeepsOrdered(s: System, plan: Launches.Plan)
    requires Linked(s.db) && TasksLinked(s) && Ordered(s) && Launches.Launched(s.db, plan).Some?
    ensures Ordered(s.(db := Launches.Launched(s.db, plan).value))
  {
    var n := Launches.Planned(s.db, plan).value;
    var after := s.(db := Launches.Launched(s.db, plan).value);
    LaunchProofs.PlanFits(s.db, plan);
    forall i | 0 <= i < |after.db.executions|
      ensures i < |s.db.executions| ==> after.db.executions[i] == s.db.executions[i]
      ensures i >= |s.db.executions| ==> after.db.executions[i].claimAttempt == 0
      ensures forall a: nat :: a < |s.db.attempts| && i >= |s.db.executions| ==> !after.db.executions[i].InAttempt(a)
    {
      LaunchProofs.AppendedRow(s.db, n, i);
      if i >= |s.db.executions| {
        assert LaunchProofs.ManifestFits(s.db, n, n.manifests[i - |s.db.executions|]);
      }
    }
    forall u | u in s.tasks && MaySend(s, u) ensures StrayTurn(after, u) {
      assert StrayTurn(s, u);
      assert RowLinked(s.db, RowOf(s, u));
      if RowOf(s, u).outcome.Terminal() && RowOf(s, u).manifest.conversation.Some? {
        var a := RowOf(s, u).manifest.conversation.value.attempt;
        forall k | 0 <= k < |after.db.executions| && after.db.executions[k].InAttempt(a)
          ensures after.db.executions[k].outcome.Terminal()
        {
          assert k < |s.db.executions|;
        }
      }
    }
    RowsKeepOrdered(s, after);
  }

  lemma HeartbeatKeepsOrdered(s: System, t: Token, now: Time, lease: nat)
    requires TasksLinked(s) && Ordered(s) && HeartbeatEnabled(s, t, now)
    ensures Ordered(HeartbeatStep(s, t, now, lease))
  {
    var after := HeartbeatStep(s, t, now, lease);
    forall u | u in s.tasks && MaySend(s, u) ensures StrayTurn(after, u) {
      OldStray(s, after, u);
    }
    RowsKeepOrdered(s, after);
  }

  lemma ValidateKeepsOrdered(s: System, i: nat, validity: Validity)
    requires TasksLinked(s) && Ordered(s) && i < |s.db.executions|
    ensures Ordered(s.(db := SetValidity(s.db, i, validity)))
  {
    var after := s.(db := SetValidity(s.db, i, validity));
    forall u | u in s.tasks && MaySend(s, u) ensures StrayTurn(after, u) {
      OldStray(s, after, u);
    }
    RowsKeepOrdered(s, after);
  }

  lemma ActionKeepsOrdered(s: System, t: Token, action: Action)
    requires Sound(s.db) && Submitting(s) && Ordered(s) && ActionEnabled(s, t, action)
    ensures Ordered(Act(s, t, action))
  {
    match action
    case Heartbeat(now, lease) => HeartbeatKeepsOrdered(s, t, now, lease);
    case Mark(now, lease) => MarkKeepsOrdered(s, t, now, lease);
    case Submit(outcome, seen, usable) => SubmitKeepsOrdered(s, t, outcome, seen, usable);
    case Finish(now) => FinishKeepsOrdered(s, t, now);
    case Block(now) => BlockKeepsOrdered(s, t, now);
    case _ =>
      QuietMovesOnlyPc(s, t, action);
      PcKeepsOrdered(s, Act(s, t, action), t);
  }

  lemma CatalogKeepsOrdered(s: System, step: Step)
    requires TasksLinked(s) && Ordered(s) && Enabled(s, step)
    requires step.Tick? || step.AddRevision? || step.AddScenario? || step.Promote?
    ensures Ordered(Apply(s, step))
  {
    CatalogStepsAreQuiet(s, step);
    var after := Apply(s, step);
    forall u | u in s.tasks && MaySend(s, u) ensures StrayTurn(after, u) {
      assert StrayTurn(s, u);
    }
    RowsKeepOrdered(s, after);
  }

  lemma StepKeepsOrdered(s: System, step: Step)
    requires Sound(s.db) && Submitting(s) && Ordered(s) && Enabled(s, step)
    ensures Ordered(Apply(s, step))
  {
    match step
    case Launch(plan) => LaunchKeepsOrdered(s, plan);
    case Claim(i, worker, t, now, lease) => ClaimKeepsOrdered(s, i, worker, t, now, lease);
    case Work(t, action) => ActionKeepsOrdered(s, t, action);
    case Reconciliation(now, skipped) => ReconciliationKeepsOrdered(s, now, skipped);
    case Validate(i, validity) => ValidateKeepsOrdered(s, i, validity);
    case _ => CatalogKeepsOrdered(s, step);
  }
}
