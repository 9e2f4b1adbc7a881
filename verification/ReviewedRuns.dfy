/** The worker protocol together with the review state of every row: completions carry both comparisons, people and
    later comparisons attend to rows that have ended. Whatever these runs do to the tables, protocol runs do. */
module ReviewedRuns {
  import opened Wrappers
  import opened Rows
  import opened Transactions
  import opened TableInvariants
  import opened ProtocolRuns
  import opened Completion
  import opened Columns
  import opened ReviewLogs
  import A = Attention
  import P = Protocol
  import Comparison
  import Evolution
  import Ledger
  import Traces
  import TransactionProofs

  /** Rows that nobody has attended to yet have no entry. */
  datatype System = System(queue: P.System, reviews: map<nat, A.Attention>)

  datatype Step =
    | Queue(work: P.Step)
    | Completes(token: Token, remarks: Remarks, now: Time)
    | Attends(execution: nat, attention: A.Step)

  function ReviewOf(s: System, i: nat): A.Attention { if i in s.reviews then s.reviews[i] else A.START }

  /** The step of the holder of a claim that its completion is part of. */
  predicate IsCompletion(s: P.System, step: P.Step) {
    step.Work? && step.action.Finish? && P.FinishEnabled(s, step.token) && P.Owns(s, step.token)
  }

  /** A person looks at an ended row, or its pair is compared again. */
  predicate MayAttend(s: System, i: nat, step: A.Step) {
    && i < |s.queue.db.executions| && s.queue.db.executions[i].outcome.Terminal()
    && !step.Exact? && A.Enabled(ReviewOf(s, i), step)
  }

  /** A recovery that raises is no step: it changes nothing. */
  predicate Enabled(s: System, step: Step) {
    match step
    case Queue(work) =>
      && P.Enabled(s.queue, work) && !IsCompletion(s.queue, work)
      && (work.Reconciliation? ==> RecoveryFits(s.queue.db.executions, work.now, work.skipped))
    case Completes(t, _, now) => P.FinishEnabled(s.queue, t) && P.Owns(s.queue, t)
    case Attends(i, attention) => MayAttend(s, i, attention)
  }

  /** The whole completion of the claim, if it commits. */
  function CompletedAt(s: System, t: Token, r: Remarks, now: Time): Option<Done>
    requires P.FinishEnabled(s.queue, t)
  {
    var i, pc := s.queue.tasks[t].execution, s.queue.tasks[t].pc;
    CompleteAll(s.queue.db, ReviewOf(s, i), i, pc.outcome, pc.seen, r, now)
  }

  /** A completion that raises leaves the claim to recovery: its worker is gone and nothing was written. */
  function CompleteStep(s: System, t: Token, r: Remarks, now: Time): System
    requires P.FinishEnabled(s.queue, t)
  {
    var pc, i := s.queue.tasks[t].pc, s.queue.tasks[t].execution;
    match CompletedAt(s, t, r, now)
    case None => s.(queue := P.SetPc(s.queue, t, P.Ended))
    case Some(done) =>
      var credits := P.Credited(s.queue.db.executions, done.db.executions, s.queue.finished, P.ByWorker(t));
      var queue := P.SetPc(s.queue, t, P.AfterFinish(P.Conversational(s.queue, t), pc.usable));
      System(queue.(db := done.db, finished := credits), s.reviews[i := done.review])
  }

  function Apply(s: System, step: Step): System
    requires Enabled(s, step)
  {
    match step
    case Queue(work) => s.(queue := P.Apply(s.queue, work))
    case Completes(t, r, now) => CompleteStep(s, t, r, now)
    case Attends(i, attention) => s.(reviews := s.reviews[i := A.Apply(ReviewOf(s, i), attention)])
  }

  // ---------- what happens to the tables ----------

  /** The protocol step behind one of these, if it touches the tables: a completion that raises is a crash. */
  function Shadow(s: System, step: Step): seq<P.Step>
    requires Enabled(s, step)
  {
    match step
    case Queue(work) => [work]
    case Completes(t, r, now) =>
      [P.Work(t, if CompletedAt(s, t, r, now).Some? then P.Finish(now) else P.Crash)]
    case Attends(_, _) => []
  }

  lemma StepIsShadow(s: System, step: Step)
    requires Enabled(s, step)
    ensures Reaches(s.queue, Shadow(s, step), Apply(s, step).queue)
  {
    if Shadow(s, step) != [] {
      assert P.Enabled(s.queue, Shadow(s, step)[0]);
      assert P.Apply(s.queue, Shadow(s, step)[0]) == Apply(s, step).queue;
      OneStep(s.queue, Shadow(s, step)[0]);
    }
  }

  ghost predicate StepAt(states: seq<System>, steps: seq<Step>, k: nat)
    requires k < |steps| && |states| == |steps| + 1
  {
    Enabled(states[k], steps[k]) && states[k + 1] == Apply(states[k], steps[k])
  }

  /** Runs that begin like those of the protocol; rows that ended before may have been looked at. */
  ghost predicate Behavior(states: seq<System>, steps: seq<Step>) {
    && |states| == |steps| + 1 && Traces.Init(states[0].queue)
    && (forall i: nat :: RowAttended(states[0], i))
    && forall k: nat :: k < |steps| ==> StepAt(states, steps, k)
  }

  /** The tables, the tasks and the logs of every such run are those of a run of the protocol. */
  lemma {:induction false} RunsAreProtocolRuns(states: seq<System>, steps: seq<Step>, k: nat)
    returns (queues: seq<P.System>, works: seq<P.Step>)
    requires Behavior(states, steps) && k < |states|
    ensures Traces.Behavior(queues, works) && queues[|works|] == states[k].queue
  {
    works := Works(states, steps, k);
    queues := ReachesIsTrace(states[0].queue, works, states[k].queue);
  }

  lemma {:induction false} Works(states: seq<System>, steps: seq<Step>, k: nat) returns (works: seq<P.Step>)
    requires Behavior(states, steps) && k < |states|
    ensures Reaches(states[0].queue, works, states[k].queue)
  {
    works := [];
    if k > 0 {
      works := Works(states, steps, k - 1);
      assert StepAt(states, steps, k - 1);
      StepIsShadow(states[k - 1], steps[k - 1]);
      var more := Shadow(states[k - 1], steps[k - 1]);
      ReachesOn(states[0].queue, works, states[k - 1].queue, more, states[k].queue);
      works := works + more;
    }
  }

  lemma QueueHoldsInv(states: seq<System>, steps: seq<Step>, k: nat)
    requires Behavior(states, steps) && k < |states|
    ensures Traces.Inv(states[k].queue)
  {
    var queues, works := RunsAreProtocolRuns(states, steps, k);
    Traces.TraceHoldsInv(queues, works, |works|);
  }

  // ---------- what happens to the reviews ----------

  /** The review state knows the item of its row, and only of its own. */
  predicate ItemAgrees(items: seq<ComparisonItem>, i: nat, item: Option<Change>) {
    && (forall k :: 0 <= k < |items| && items[k].current == i ==> item == Some(items[k].change))
    && (item.Some? ==> exists k :: 0 <= k < |items| && items[k].current == i)
  }

  predicate Ended(es: seq<Execution>, i: nat) { i < |es| && es[i].outcome.Terminal() }

  predicate RowAttended(s: System, i: nat) {
    && LogSound(ReviewOf(s, i)) && ItemAgrees(s.queue.db.items, i, ReviewOf(s, i).item)
    && (!Ended(s.queue.db.executions, i) ==> ReviewOf(s, i) == A.START)
  }

  lemma ItemsKept(s: P.System, step: P.Step)
    requires P.Enabled(s, step) && !IsCompletion(s, step)
    ensures P.Apply(s, step).db.items == s.db.items
  {
    if step.Work? { ActionKeepsItems(s, step.token, step.action); }
  }

  lemma ActionKeepsItems(s: P.System, t: Token, action: P.Action)
    requires P.ActionEnabled(s, t, action) && !IsCompletion(s, P.Work(t, action))
    ensures P.Act(s, t, action).db.items == s.db.items
  {
  }

  lemma WorkKeepsRow(s: System, work: P.Step, i: nat)
    requires Enabled(s, Queue(work)) && RowAttended(s, i)
    ensures RowAttended(Apply(s, Queue(work)), i)
  {
    ItemsKept(s.queue, work);
    Evolution.StepEvolves(s.queue, work);
  }

  lemma AttendingKeepsRow(s: System, j: nat, attention: A.Step, i: nat)
    requires Enabled(s, Attends(j, attention)) && RowAttended(s, i)
    ensures RowAttended(Apply(s, Attends(j, attention)), i)
  {
    if i == j { AttendingKeepsLog(ReviewOf(s, i), attention); }
  }

  /** The items after a completion that commits, for its own row and for every other. */
  lemma CompletionKeepsItems(db: Tables, i: nat, outcome: FinalOutcome, seen: Observation, r: Remarks, now: Time,
      j: nat, known: Option<Change>)
    requires i < |db.executions| && db.executions[i].manifest.run < |db.runs|
    requires CompleteAll(db, A.START, i, outcome, seen, r, now).Some?
    requires ItemAgrees(db.items, i, None) && ItemAgrees(db.items, j, known)
    ensures var done := CompleteAll(db, A.START, i, outcome, seen, r, now).value;
      && LogSound(done.review) && ItemAgrees(done.db.items, i, done.review.item)
      && (j != i ==> ItemAgrees(done.db.items, j, known))
      && |done.db.executions| == |db.executions| && done.db.executions[i].outcome == outcome
      && (j != i && j < |db.executions| ==> done.db.executions[j] == db.executions[j])
  {
    ChangedIsApplicable(db, i, outcome, seen, now);
    var after := Complete(db, i, outcome, seen, now).value;
    var item := Appended(db.items, after.items);
    if item.Some? {
      CompletionStartsLog(after, item.value, r);
      AppendedAgrees(db.items, item.value, j, known);
      assert after.items[|db.items|] == item.value;
    } else {
      assert after.items == db.items;
    }
  }

  lemma AppendedAgrees(items: seq<ComparisonItem>, item: ComparisonItem, j: nat, known: Option<Change>)
    requires ItemAgrees(items, item.current, None) && ItemAgrees(items, j, known)
    ensures ItemAgrees(items + [item], item.current, Some(item.change))
    ensures j != item.current ==> ItemAgrees(items + [item], j, known)
  {
    var all := items + [item];
    assert all[|items|] == item;
    if known.Some? {
      var k :| 0 <= k < |items| && items[k].current == j;
      assert all[k] == items[k];
    }
  }

  lemma CompletionKeepsRow(s: System, t: Token, r: Remarks, now: Time, i: nat)
    requires Enabled(s, Completes(t, r, now)) && RowAttended(s, i) && RowAttended(s, s.queue.tasks[t].execution)
    ensures RowAttended(Apply(s, Completes(t, r, now)), i)
  {
    var j, pc := s.queue.tasks[t].execution, s.queue.tasks[t].pc;
    assert !Ended(s.queue.db.executions, j);
    if CompletedAt(s, t, r, now).Some? {
      CompletionKeepsItems(s.queue.db, j, pc.outcome, pc.seen, r, now, i, ReviewOf(s, i).item);
      CompletedRow(s, Apply(s, Completes(t, r, now)), j, CompletedAt(s, t, r, now).value, i);
    }
  }

  lemma CompletedRow(s: System, after: System, j: nat, done: Done, i: nat)
    requires RowAttended(s, i) && after.queue.db == done.db && after.reviews == s.reviews[j := done.review]
    requires j < |done.db.executions| && done.db.executions[j].outcome.Terminal()
    requires LogSound(done.review) && ItemAgrees(done.db.items, j, done.review.item)
    requires i != j ==> ItemAgrees(done.db.items, i, ReviewOf(s, i).item)
    requires |done.db.executions| == |s.queue.db.executions|
    requires i != j && i < |done.db.executions| ==> done.db.executions[i] == s.queue.db.executions[i]
    ensures RowAttended(after, i)
  {
  }

  lemma StepKeepsRow(s: System, step: Step, i: nat)
    requires Enabled(s, step) && forall j: nat :: RowAttended(s, j)
    ensures RowAttended(Apply(s, step), i)
  {
    match step
    case Queue(work) => WorkKeepsRow(s, work, i);
    case Completes(t, r, now) => CompletionKeepsRow(s, t, r, now, i);
    case Attends(j, attention) => AttendingKeepsRow(s, j, attention, i);
  }

  lemma {:induction false} RunsHoldRows(states: seq<System>, steps: seq<Step>, k: nat, i: nat)
    requires Behavior(states, steps) && k < |states|
    ensures RowAttended(states[k], i)
  {
    if k > 0 {
      assert StepAt(states, steps, k - 1);
      var before := states[k - 1];
      forall j: nat ensures RowAttended(before, j) { RunsHoldRows(states, steps, k - 1, j); }
      StepKeepsRow(before, steps[k - 1], i);
    }
  }

  // ---------- the results ----------

  /** In every run, for every row: the exact comparison is in its log iff it has a CHANGED item, and then as the first
      event and once; a CHANGED row is out of attention only if a person was there or a comparator found it EQUIVALENT;
      and before the row has ended nothing is recorded about it. */
  lemma ChangedIsNoticed(states: seq<System>, steps: seq<Step>, k: nat, i: nat)
    requires Behavior(states, steps) && k < |states|
    ensures var db, s := states[k].queue.db, ReviewOf(states[k], i);
      && (Ledger.HasItem(db, i) <==> s.item.Some?)
      && (s.item == Some(Changed) <==> s.events != [] && A.IsExactEvent(s.events[0]))
      && (forall m :: 0 < m < |s.events| ==> !A.IsExactEvent(s.events[m]))
      && (s.item == Some(Changed) && s.review == A.Clear && (forall e :: e in s.events ==> e.actor.None?) ==>
            FoundEquivalent(s.semantics))
      && (!Ended(db.executions, i) ==> s == A.START)
  {
    RunsHoldRows(states, steps, k, i);
    var s := ReviewOf(states[k], i);
    if s.events != [] {
      var last := |s.events| - 1;
      assert s.events[last] in s.events;
      assert s.review == A.Clear && s.events[last].actor.None? ==> Lowered(s.events);
    }
  }

  /** In every run the holder of a claim commits exactly if everything can be stored. What it commits is what the
      protocol's completion does, and the answer is in attention exactly if it is CHANGED and was not found EQUIVALENT;
      otherwise nothing is written and the claim is left to recovery. */
  lemma HolderCommitsInRuns(states: seq<System>, steps: seq<Step>, k: nat, t: Token, r: Remarks, now: Time)
    requires Behavior(states, steps) && k < |states| && Enabled(states[k], Completes(t, r, now))
    ensures CommitsIf(states[k], Apply(states[k], Completes(t, r, now)), t, r, now)
  {
    QueueHoldsInv(states, steps, k);
    RunsHoldRows(states, steps, k, states[k].queue.tasks[t].execution);
    CommitsOrNot(states[k], t, r, now);
  }

  predicate CommitsIf(s: System, after: System, t: Token, r: Remarks, now: Time)
    requires P.FinishEnabled(s.queue, t)
  {
    var i, pc := s.queue.tasks[t].execution, s.queue.tasks[t].pc;
    var change := ChangeOf(NewItem(s.queue.db, i, pc.outcome, pc.seen, now));
    if !Storable(s.queue.db, i, pc.outcome, pc.seen, r, now) then
      after == s.(queue := P.SetPc(s.queue, t, P.Ended)) && !Ended(after.queue.db.executions, i)
    else
      && after.queue == P.FinishStep(s.queue, t, now) && Ended(after.queue.db.executions, i)
      && ReviewOf(after, i).item == change && ReviewOf(after, i).review == ReviewAfter(change, r)
  }

  function ChangeOf(item: Option<ComparisonItem>): Option<Change> {
    if item.Some? then Some(item.value.change) else None
  }

  function ReviewAfter(change: Option<Change>, r: Remarks): A.ReviewState {
    if change == Some(Changed) && r.verdict != A.Equivalent then A.Required else A.Clear
  }

  lemma CommitsOrNot(s: System, t: Token, r: Remarks, now: Time)
    requires Enabled(s, Completes(t, r, now)) && Sound(s.queue.db)
    requires RowAttended(s, s.queue.tasks[t].execution)
    ensures CommitsIf(s, CompleteStep(s, t, r, now), t, r, now)
  {
    var i, pc := s.queue.tasks[t].execution, s.queue.tasks[t].pc;
    HolderDecides(s.queue.db, i, pc.outcome, pc.seen, r, now);
  }

  lemma HolderDecides(db: Tables, i: nat, outcome: FinalOutcome, seen: Observation, r: Remarks, now: Time)
    requires Sound(db) && i < |db.executions| && db.executions[i].outcome == Running
    requires db.executions[i].manifest.run < |db.runs|
    ensures var done, change := CompleteAll(db, A.START, i, outcome, seen, r, now),
                                ChangeOf(NewItem(db, i, outcome, seen, now));
      && (done.Some? <==> Storable(db, i, outcome, seen, r, now))
      && (done.Some? ==>
            && Ended(done.value.db.executions, i) && done.value.review.item == change
            && done.value.review.review == ReviewAfter(change, r))
  {
    TransactionProofs.CompleteCommits(db, i, outcome, seen, now);
    HolderCommitsIff(db, i, outcome, seen, r, now);
    ChangedIsApplicable(db, i, outcome, seen, now);
    var after := Complete(db, i, outcome, seen, now).value;
    var item := Appended(db.items, after.items);
    if item.Some? && Attend(A.START, after, item, r).Some? { CompletionStartsLog(after, item.value, r); }
  }
}
