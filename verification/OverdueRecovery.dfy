/** Recovery that stops for good: a question that was in flight when 2^31 milliseconds had passed since its claim can no
    longer be ended, by nobody, and a recovery that finds it raises, so that it recovers nothing else either. */
module OverdueRecovery {
  import opened Wrappers
  import opened Rows
  import opened Transactions
  import opened TableInvariants
  import opened Columns
  import opened ReviewedRuns
  import Completion
  import P = Protocol
  import Capacity
  import Launches
  import Stuck = StuckConversation
  import Traces

  /** Row `i` runs, may have been sent, and was claimed (or begun by the old worker) at `started`. */
  predicate InFlight(es: seq<Execution>, i: nat, started: Time) {
    i < |es| && es[i].outcome == Running && es[i].phase != Claimed && es[i].startedAt == Some(started)
  }

  /** The step ends no row with a timestamp before the deadline. */
  predicate After(step: Step, deadline: Time) {
    match step
    case Queue(work) => work.Reconciliation? ==> deadline <= work.now
    case Completes(_, _, now) => deadline <= now
    case Attends(_, _) => true
  }

  lemma ActionKeepsInFlight(s: P.System, t: Token, action: P.Action, i: nat, started: Time)
    requires P.ActionEnabled(s, t, action) && !IsCompletion(s, P.Work(t, action))
    requires InFlight(s.db.executions, i, started)
    ensures InFlight(P.Act(s, t, action).db.executions, i, started)
  {
  }

  lemma RecoveryKeepsInFlight(es: seq<Execution>, now: Time, skipped: set<nat>, i: nat, started: Time)
    requires RowsSound(es) && RecoveryFits(es, now, skipped)
    requires InFlight(es, i, started) && started + INTEGER_LIMIT <= now
    ensures ReconcileRow(es, i, now, skipped) == es[i] && !Ambiguous(es, i, now, skipped)
  {
    RecoveryFitsIff(es, now, skipped);
  }

  lemma WorkKeepsInFlight(s: System, work: P.Step, i: nat, started: Time)
    requires Enabled(s, Queue(work)) && RowsSound(s.queue.db.executions)
    requires InFlight(s.queue.db.executions, i, started) && After(Queue(work), started + INTEGER_LIMIT)
    ensures InFlight(Apply(s, Queue(work)).queue.db.executions, i, started)
  {
    match work
    case Work(t, action) => ActionKeepsInFlight(s.queue, t, action, i, started);
    case Reconciliation(now, skipped) => RecoveryKeepsInFlight(s.queue.db.executions, now, skipped, i, started);
    case _ =>
  }

  lemma CompletionKeepsInFlight(s: System, t: Token, r: Completion.Remarks, now: Time, i: nat, started: Time)
    requires Enabled(s, Completes(t, r, now)) && RowsSound(s.queue.db.executions)
    requires InFlight(s.queue.db.executions, i, started) && started + INTEGER_LIMIT <= now
    ensures InFlight(CompleteStep(s, t, r, now).queue.db.executions, i, started)
  {
    var j, pc, db := s.queue.tasks[t].execution, s.queue.tasks[t].pc, s.queue.db;
    if j == i {
      assert RowSound(db.executions[i]);
      RowFitsIff(db.executions[i], pc.outcome, pc.seen, now);
      assert CompletedAt(s, t, r, now).None?;
    }
  }

  lemma StepKeepsInFlight(s: System, step: Step, i: nat, started: Time)
    requires Enabled(s, step) && RowsSound(s.queue.db.executions)
    requires InFlight(s.queue.db.executions, i, started) && After(step, started + INTEGER_LIMIT)
    ensures InFlight(Apply(s, step).queue.db.executions, i, started)
  {
    match step
    case Queue(work) => WorkKeepsInFlight(s, work, i, started);
    case Completes(t, r, now) => CompletionKeepsInFlight(s, t, r, now, i, started);
    case Attends(_, _) =>
  }

  /** In every run: a question in flight that nobody ends within 2^31 milliseconds of its claim is never ended, its run
      neither. */
  lemma OverdueIsNeverEnded(states: seq<System>, steps: seq<Step>, k: nat, m: nat, i: nat, started: Time)
    requires Behavior(states, steps) && k <= m < |states| && InFlight(states[k].queue.db.executions, i, started)
    requires forall j :: k <= j < m ==> After(steps[j], started + INTEGER_LIMIT)
    ensures InFlight(states[m].queue.db.executions, i, started)
    ensures var db := states[m].queue.db;
      db.executions[i].manifest.run < |db.runs| && !db.runs[db.executions[i].manifest.run].Terminal()
  {
    StaysInFlight(states, steps, k, m, i, started);
    QueueHoldsInv(states, steps, m);
    RunStaysOpen(states[m].queue.db, i);
  }

  lemma {:induction false} StaysInFlight(states: seq<System>, steps: seq<Step>, k: nat, m: nat, i: nat, started: Time)
    requires Behavior(states, steps) && k <= m < |states| && InFlight(states[k].queue.db.executions, i, started)
    requires forall j :: k <= j < m ==> After(steps[j], started + INTEGER_LIMIT)
    ensures InFlight(states[m].queue.db.executions, i, started)
    decreases m
  {
    if k < m {
      StaysInFlight(states, steps, k, m - 1, i, started);
      NextIsInFlight(states, steps, m - 1, i, started);
    }
  }

  lemma NextIsInFlight(states: seq<System>, steps: seq<Step>, j: nat, i: nat, started: Time)
    requires Behavior(states, steps) && j < |steps| && InFlight(states[j].queue.db.executions, i, started)
    requires After(steps[j], started + INTEGER_LIMIT)
    ensures InFlight(states[j + 1].queue.db.executions, i, started)
  {
    var s, after := states[j], states[j + 1];
    assert StepAt(states, steps, j);
    assert Enabled(s, steps[j]) && after == Apply(s, steps[j]);
    QueueHoldsInv(states, steps, j);
    StepKeepsInFlight(s, steps[j], i, started);
  }

  lemma RunStaysOpen(db: Tables, i: nat)
    requires Sound(db) && i < |db.executions| && db.executions[i].outcome == Running
    ensures db.executions[i].manifest.run < |db.runs| && !db.runs[db.executions[i].manifest.run].Terminal()
  {
    assert RowLinked(db, db.executions[i]);
    assert RunAgrees(db, db.executions[i].manifest.run);
  }

  /** And from then on no recovery that finds it stale and not locked is possible, whatever else there is to recover. */
  lemma OverdueStopsRecovery(states: seq<System>, steps: seq<Step>, k: nat, i: nat, started: Time, now: Time,
      skipped: set<nat>)
    requires Behavior(states, steps) && k < |states| && InFlight(states[k].queue.db.executions, i, started)
    requires started + INTEGER_LIMIT <= now && i !in skipped && Stale(states[k].queue.db.executions[i], now)
    ensures !RecoveryFits(states[k].queue.db.executions, now, skipped)
    ensures !Enabled(states[k], Queue(P.Reconciliation(now, skipped)))
  {
    QueueHoldsInv(states, steps, k);
    RecoveryFitsIff(states[k].queue.db.executions, now, skipped);
  }

  // ---------- such a state can be reached ----------

  predicate PlainStep(step: P.Step) { !step.Reconciliation? && !(step.Work? && step.action.Finish?) }

  /** A protocol run without completions and recoveries is one of these runs in which nobody attends to any row. */
  lemma Unattended(queues: seq<P.System>, works: seq<P.Step>) returns (states: seq<System>, steps: seq<Step>)
    requires Traces.Behavior(queues, works) && forall k :: 0 <= k < |works| ==> PlainStep(works[k])
    ensures Behavior(states, steps) && |steps| == |works| && states[|steps|].queue == queues[|works|]
  {
    states := seq(|queues|, k requires 0 <= k < |queues| => System(queues[k], map[]));
    steps := seq(|works|, k requires 0 <= k < |works| => Queue(works[k]));
    forall i: nat ensures RowAttended(states[0], i) {}
    forall k: nat | k < |steps| ensures StepAt(states, steps, k) {
      assert P.StepAt(queues, works, k) && PlainStep(works[k]);
    }
  }

  /** One worker claims a question, marks it and is never heard of again; nobody looks for 2^31 milliseconds. */
  lemma RecoveryCanStop() returns (states: seq<System>, steps: seq<Step>)
    ensures Behavior(states, steps) && InFlight(states[|steps|].queue.db.executions, 0, 0)
    ensures states[|steps|].queue.clock == INTEGER_LIMIT
    ensures forall now: Time, skipped: set<nat> :: INTEGER_LIMIT <= now && 0 !in skipped ==>
      !RecoveryFits(states[|steps|].queue.db.executions, now, skipped)
  {
    var queues, works := LostAfterMark();
    states, steps := Unattended(queues, works);
    var es := states[|steps|].queue.db.executions;
    QueueHoldsInv(states, steps, |steps|);
    forall now: Time, skipped: set<nat> | INTEGER_LIMIT <= now && 0 !in skipped
      ensures !RecoveryFits(es, now, skipped) {
      assert Ambiguous(es, 0, now, skipped);
      RecoveryFitsIff(es, now, skipped);
    }
  }

  lemma LostAfterMark() returns (queues: seq<P.System>, works: seq<P.Step>)
    ensures Traces.Behavior(queues, works) && forall k :: 0 <= k < |works| ==> PlainStep(works[k])
    ensures var s := queues[|works|];
      && s.clock == INTEGER_LIMIT && InFlight(s.db.executions, 0, 0)
      && s.db.executions[0].expiresAt == Some(30)
  {
    var a, b := Stuck.Launch2();
    var c := Stuck.ClaimFirst(b);
    var d := Stuck.MarkFirst(c);
    var e := d.(clock := INTEGER_LIMIT);
    var claim, mark, tick := P.Claim(0, "a", 0, 0, 30), P.Work(0, P.Mark(0, 30)), P.Tick(INTEGER_LIMIT);
    var launch := [P.AddScenario(Stuck.TURNS), P.Launch(Launches.Conversation(0, 0))];
    Stuck.OneStep(d, e, tick);
    queues, works := Stuck.Then([Capacity.EmptySystem(), a, b], launch, [b, c], [claim]);
    queues, works := Stuck.Then(queues, works, [c, d], [mark]);
    queues, works := Stuck.Then(queues, works, [d, e], [tick]);
    assert works == launch + [claim] + [mark] + [tick];
    Capacity.EmptyIsInitial();
  }
}
