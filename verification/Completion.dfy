/** The completion of a claim as the one transaction that it is: over the work queue and the review state of the row.
    The exact comparison and the semantic one run inside it, and what raises in them undoes the observation too. */
module Completion {
  import opened Wrappers
  import opened Rows
  import opened Transactions
  import opened TableInvariants
  import opened TransactionProofs
  import opened WorkQueue
  import opened Columns
  import A = Attention
  import Comparison

  /** What the comparator answers, and the texts and times that go into the review events; `storable` says whether the
      database takes everything that is written beside what these tables have. */
  datatype Remarks = Remarks(
    algorithm: string,
    item: string,
    comparedAt: Time,
    verdict: A.Verdict,
    version: string,
    result: string,
    triagedAt: Time,
    storable: bool)

  predicate Usable(e: Execution) {
    e.validity == Valid && e.outcome == Success && e.observation.rawAnswer != ""
  }

  /** `_semantic_applicability_reason` has nothing against the pair; the change state it looks at is the item's. */
  predicate Applicable(db: Tables, item: ComparisonItem) {
    && item.current < |db.executions| && item.baseline < |db.executions|
    && Usable(db.executions[item.baseline]) && Usable(db.executions[item.current])
  }

  /** The item that a transaction appended. */
  function Appended(before: seq<ComparisonItem>, after: seq<ComparisonItem>): Option<ComparisonItem> {
    if |before| < |after| then Some(after[|before|]) else None
  }

  /** The end of the line of semantic results. */
  function LineEnd(s: A.Attention): Option<nat> { if s.semantics == [] then None else Some(|s.semantics| - 1) }

  /** The two comparisons, for a new item; none for an execution that gets none. */
  function Attend(s: A.Attention, db: Tables, item: Option<ComparisonItem>, r: Remarks): Option<A.Attention> {
    if item.None? then Some(s)
    else match A.RecordExact(s, item.value.change, r.algorithm, r.item, r.comparedAt)
      case None => None
      case Some(compared) =>
        A.RecordSemantic(compared, Applicable(db, item.value), LineEnd(compared),
                         r.verdict, r.version, r.result, r.triagedAt)
  }

  /** A new item can be saved with its percentages. */
  predicate ItemFits(es: seq<Execution>, item: Option<ComparisonItem>) {
    item.Some? && item.value.baseline < |es| && item.value.current < |es| ==>
      PairFits(es[item.value.baseline], es[item.value.current])
  }

  datatype Done = Done(db: Tables, review: A.Attention)

  /** `_complete_execution` for the holder of the claim, with all that it calls; `None` when any of it raises. */
  function CompleteAll(db: Tables, s: A.Attention, i: nat, outcome: FinalOutcome, seen: Observation, r: Remarks,
      now: Time): Option<Done>
    requires i < |db.executions| && db.executions[i].manifest.run < |db.runs|
  {
    match Complete(db, i, outcome, seen, now)
    case None => None
    case Some(after) =>
      var item := Appended(db.items, after.items);
      if !r.storable || !RowFits(after.executions[i]) || !ItemFits(after.executions, item) then None
      else match Attend(s, after, item, r)
        case None => None
        case Some(review) => Some(Done(after, review))
  }

  // ---------- when it commits ----------

  /** A new item with a change is always one that the semantic comparison applies to. */
  lemma ChangedIsApplicable(db: Tables, i: nat, outcome: FinalOutcome, seen: Observation, now: Time)
    requires i < |db.executions| && db.executions[i].manifest.run < |db.runs|
    requires Complete(db, i, outcome, seen, now).Some?
    ensures var after := Complete(db, i, outcome, seen, now).value;
      var item := Appended(db.items, after.items);
      item.Some? ==>
        && after.items == db.items + [item.value] && item.value.current == i
        && (item.value.change == Changed ==> Applicable(after, item.value))
  {
  }

  /** The events that comparing the answer asks for fit their column. */
  predicate CausesFit(s: A.Attention, change: Change, r: Remarks) {
    change == Changed && s.review != A.Reviewed ==>
      && |A.ExactCause(r.algorithm, r.item)| <= A.CAUSE_LIMIT
      && (r.verdict == A.Equivalent && (forall e :: e in s.events ==> e.createdAt <= r.comparedAt) ==>
            |A.LowerCause(r.version, r.result)| <= A.CAUSE_LIMIT)
  }

  lemma AppendedIsNewest(events: seq<A.Event>, e: A.Event)
    ensures A.Latest(events + [e]) == |events| <==> forall f :: f in events ==> f.createdAt <= e.createdAt
  {
    var all := events + [e];
    assert all[|events|] == e && all[..|events|] == events;
    if events != [] {
      var k := A.Latest(events);
      assert events[k] in events;
      assert forall f :: f in events ==> exists j :: 0 <= j < |events| && events[j] == f;
    }
  }

  lemma AttendCommitsIff(s: A.Attention, db: Tables, item: ComparisonItem, r: Remarks)
    requires A.Inv(s) && s.item.None? && (item.change == Changed ==> Applicable(db, item))
    ensures Attend(s, db, Some(item), r).Some? <==> CausesFit(s, item.change, r)
  {
    if item.change == Changed && s.review != A.Reviewed {
      var e := A.Event(A.Required, None, A.ExactCause(r.algorithm, r.item), r.comparedAt);
      A.ExactCauseIsExact(r.algorithm, r.item);
      AppendedIsNewest(s.events, e);
      var compared := s.(item := Some(Changed), events := s.events + [e], review := A.Required);
      A.ExactKeepsInv(s, Changed, r.algorithm, r.item, r.comparedAt);
      if |e.cause| <= A.CAUSE_LIMIT {
        RequiredTriageIff(compared.(semantics := compared.semantics
          + [A.Semantic(r.verdict, LineEnd(compared), r.triagedAt)]), r);
        assert A.ExactIsNewest(compared) <==> A.Latest(compared.events) == |s.events|;
      }
    }
  }

  /** Where review is required, only a lowering can fail to fit. */
  lemma RequiredTriageIff(s: A.Attention, r: Remarks)
    requires A.SystemEventsKnown(s.events) && s.events != [] && s.review == A.Required
    ensures A.Triage(s, r.verdict, r.version, r.result, r.triagedAt).Some? <==>
      (r.verdict == A.Equivalent && A.ExactIsNewest(s) ==> |A.LowerCause(r.version, r.result)| <= A.CAUSE_LIMIT)
  {
    A.NewestIsKnown(s);
  }

  /** The causes of the events that a CHANGED answer starts with: the exact one always, and if the answers are
      EQUIVALENT the lowering one too. */
  predicate Fits(r: Remarks) {
    && |A.ExactCause(r.algorithm, r.item)| <= A.CAUSE_LIMIT
    && (r.verdict == A.Equivalent ==> |A.LowerCause(r.version, r.result)| <= A.CAUSE_LIMIT)
  }

  /** Row `i` as its completion would leave it. */
  function Ending(db: Tables, i: nat, outcome: FinalOutcome, seen: Observation, now: Time): seq<Execution>
    requires i < |db.executions|
  {
    db.executions[i := FinalizeExecution(db.executions[i], outcome, seen, now)]
  }

  /** The item that row `i` would get. */
  function NewItem(db: Tables, i: nat, outcome: FinalOutcome, seen: Observation, now: Time): Option<ComparisonItem>
    requires i < |db.executions| && db.executions[i].manifest.run < |db.runs|
  {
    Appended(db.items, Comparison.Record(db.(executions := Ending(db, i, outcome, seen, now)), i))
  }

  /** What a caller can see of a completion before it: the columns take the observation and the time since the claim,
      a new item's percentages are in range, and the causes of a CHANGED one fit. */
  predicate Storable(db: Tables, i: nat, outcome: FinalOutcome, seen: Observation, r: Remarks, now: Time)
    requires i < |db.executions| && db.executions[i].manifest.run < |db.runs|
  {
    var es, item := Ending(db, i, outcome, seen, now), NewItem(db, i, outcome, seen, now);
    && r.storable && ObservationFits(seen) && LatencyFits(db.executions[i], now)
    && (item.Some? && item.value.baseline < |es| ==> PairInRange(es[item.value.baseline], es[i]))
    && (item.Some? && item.value.change == Changed ==> Fits(r))
  }

  /** The holder of a running row that nobody has attended to commits exactly when it can all be stored. */
  lemma HolderCommitsIff(db: Tables, i: nat, outcome: FinalOutcome, seen: Observation, r: Remarks, now: Time)
    requires Sound(db) && i < |db.executions| && db.executions[i].outcome == Running
    requires db.executions[i].manifest.run < |db.runs|
    ensures CompleteAll(db, A.START, i, outcome, seen, r, now).Some? <==> Storable(db, i, outcome, seen, r, now)
  {
    CompleteCommits(db, i, outcome, seen, now);
    ChangedIsApplicable(db, i, outcome, seen, now);
    var after := Complete(db, i, outcome, seen, now).value;
    var item := Appended(db.items, after.items);
    assert RowSound(db.executions[i]);
    RowFitsIff(db.executions[i], outcome, seen, now);
    if item.Some? {
      if item.value.baseline < |after.executions| {
        PairFitsIff(after.executions[item.value.baseline], after.executions[i]);
      }
      AttendCommitsIff(A.START, after, item.value, r);
    }
  }

  const VERSION_WIDTH := 80
  const KEY_WIDTH := 19

  /** With versions that fit their columns and keys of at most nineteen digits, the exact cause always fits; the
      lowering one fits exactly when the version of the comparator and the key of the result leave it room. */
  lemma ColumnsDecide(r: Remarks)
    requires |r.algorithm| <= VERSION_WIDTH && |r.item| <= KEY_WIDTH
    ensures |A.ExactCause(r.algorithm, r.item)| <= A.CAUSE_LIMIT
    ensures |A.LowerCause(r.version, r.result)| <= A.CAUSE_LIMIT <==> |r.version| + |r.result| <= 76
  {
    assert |A.EXACT_PREFIX| == 17 && |A.CHANGED_MARK| == 26;
    assert |"Semantic comparison "| == 20 && |" EQUIVALENT (semantic result "| == 29;
    assert |") resolved exact-change-only review"| == 35;
  }

  /** A comparator with the longest version that its column takes, whose EQUIVALENT verdict undoes the completion. */
  lemma LongVersionRaises(db: Tables, item: ComparisonItem) returns (r: Remarks)
    requires item.change == Changed && Applicable(db, item)
    ensures |r.version| == VERSION_WIDTH && r.verdict == A.Equivalent && r.algorithm == "exact-v1" && r.result == "1"
    ensures Attend(A.START, db, Some(item), r).None?
  {
    r := Remarks("exact-v1", "1", 0, A.Equivalent, seq(VERSION_WIDTH, _ => 'v'), "1", 0, true);
    ColumnsDecide(r);
    AttendCommitsIff(A.START, db, item, r);
  }

  /** A replay of a question that took a millisecond loses its answer, whatever it says, if it takes seventeen minutes.
      */
  lemma SlowReplayRaises(db: Tables, s: A.Attention, i: nat, seen: Observation, r: Remarks, now: Time)
    requires i < |db.executions| && db.executions[i].manifest.run < |db.runs|
    requires db.executions[i].startedAt == Some(now - 1_000_001) && NewItem(db, i, Success, seen, now).Some?
    requires var b := NewItem(db, i, Success, seen, now).value.baseline;
      b < |db.executions| && b != i && db.executions[b].outcome == Success && db.executions[b].latency == Some(1)
    ensures CompleteAll(db, s, i, Success, seen, r, now).None?
  {
    if Complete(db, i, Success, seen, now).Some? {
      ChangedIsApplicable(db, i, Success, seen, now);
      var es, b := Ending(db, i, Success, seen, now), NewItem(db, i, Success, seen, now).value.baseline;
      SlowReplayOverflows(es[b], es[i]);
    }
  }

  // ---------- in place ----------

  /** `_complete_execution` with both comparisons inside it; `tracker` is the review state of row `i`. */
  method CompleteClaim(q: Queue, tracker: A.Tracker, i: nat, worker: string, token: Token, outcome: FinalOutcome,
      seen: Observation, r: Remarks, now: Time) returns (reply: Reply)
    requires q.Linked(i) && A.Linear(tracker.semantics)
    modifies q, tracker
    ensures reply == Refused <==> !old(q.executions[i]).OwnedBy(worker, token)
    ensures reply != Refused ==>
      var done := CompleteAll(old(q.Db()), old(tracker.State()), i, outcome, seen, r, now);
      && (reply == Committed <==> done.Some?)
      && (done.Some? ==> q.Db() == done.value.db && tracker.State() == done.value.review)
    ensures reply != Committed ==> q.Db() == old(q.Db()) && tracker.State() == old(tracker.State())
  {
    var before, review, e := q.Db(), tracker.State(), q.executions[i];
    if e.outcome.Terminal() || e.outcome != Running || e.worker != worker || e.token != Some(token) { return Refused; }
    var ok := WriteAll(q, tracker, i, outcome, seen, r, now);
    if ok { return Committed; }
    q.Restore(before);
    tracker.Restore(review);
    return Raised;
  }

  /** What the transaction writes, up to where it raises. */
  method WriteAll(q: Queue, tracker: A.Tracker, i: nat, outcome: FinalOutcome, seen: Observation, r: Remarks, now: Time)
    returns (ok: bool)
    requires q.Linked(i) && A.Linear(tracker.semantics)
    modifies q, tracker
    ensures var done := CompleteAll(old(q.Db()), old(tracker.State()), i, outcome, seen, r, now);
      (ok <==> done.Some?) && (ok ==> Done(q.Db(), tracker.State()) == done.value)
  {
    var run, known := q.executions[i].manifest.run, |q.items|;
    ok := WriteRow(q, i, outcome, seen, r, now);
    if !ok { return; }
    ok := CompareAnswer(q, tracker, known, r);
    if ok { ok := WriteRun(q, run, now); }
  }

  /** The pause between questions and, if this was the last row, the end of the run. */
  method WriteRun(q: Queue, run: nat, now: Time) returns (ok: bool)
    requires run < |q.runs|
    modifies q`runs
    ensures var ended := FinalizeRunIfComplete(old(q.runs)[run := Dispatched(old(q.runs)[run], now)], q.executions, run,
      now);
      (ok <==> ended.Some?) && (ok ==> q.runs == ended.value)
  {
    q.DelayDispatch(run, now);
    ok := q.FinalizeRun(run, now);
  }

  /** The observation and then the item, if the columns take them. */
  method WriteRow(q: Queue, i: nat, outcome: FinalOutcome, seen: Observation, r: Remarks, now: Time) returns (ok: bool)
    requires q.Linked(i)
    modifies q`executions, q`items
    ensures var db := old(q.Db());
      var es := Ending(db, i, outcome, seen, now);
      && (ok <==> r.storable && RowFits(es[i]) && ItemFits(es, NewItem(db, i, outcome, seen, now)))
      && (ok ==> q.Db() == db.(executions := es, items := Comparison.Record(db.(executions := es), i)))
      && (ok ==> Appended(q.items[..|db.items|], q.items) == NewItem(db, i, outcome, seen, now))
  {
    ghost var before := q.Db();
    var known := |q.items|;
    q.executions := q.executions[i := FinalizeExecution(q.executions[i], outcome, seen, now)];
    if !r.storable || !RowFits(q.executions[i]) { return false; }
    q.items := Comparison.Record(q.Db(), i);
    assert q.items == Comparison.Record(before.(executions := Ending(before, i, outcome, seen, now)), i);
    return |q.items| == known || ItemFits(q.executions, Some(q.items[known]));
  }

  /** The exact comparison of a new item and, right after it, the semantic one. */
  method CompareAnswer(q: Queue, tracker: A.Tracker, known: nat, r: Remarks) returns (ok: bool)
    requires A.Linear(tracker.semantics) && known <= |q.items|
    modifies tracker
    ensures var item := Appended(q.items[..known], q.items);
      var attended := Attend(old(tracker.State()), q.Db(), item, r);
      (ok <==> attended.Some?) && (ok ==> tracker.State() == attended.value)
  {
    if |q.items| == known { return true; }
    var item := q.items[known];
    ok := tracker.RecordExactComparison(item.change, r.algorithm, r.item, r.comparedAt);
    if !ok { return false; }
    ghost var compared := tracker.State();
    ghost var prior;
    ok, prior := tracker.RecordSemanticComparison(Applicable(q.Db(), item), r.verdict, r.version, r.result,
      r.triagedAt);
    A.CurrentIsLast(compared.semantics, prior);
  }
}
