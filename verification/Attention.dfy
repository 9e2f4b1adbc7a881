/** Review attention of one terminal execution: a projection over an append-only event log that the exact comparison,
    semantic results and people all write to. */
module Attention {
  import opened Wrappers
  import opened Rows

  datatype ReviewState = Clear | Required | Reviewed

  /** A review-tracking row; a system event has no actor. */
  datatype Event = Event(state: ReviewState, actor: Option<nat>, cause: string, createdAt: Time)

  datatype Verdict = Equivalent | MaterialChange | Uncertain | ComparatorError

  datatype Semantic = Semantic(verdict: Verdict, supersedes: Option<nat>, createdAt: Time)

  datatype HumanReview = HumanReview(good: bool, actor: nat, supersedes: Option<nat>)

  /** `item` is the change state of the execution's one comparison item, if it has one. */
  datatype Attention = Attention(
    review: ReviewState,
    events: seq<Event>,
    item: Option<Change>,
    semantics: seq<Semantic>,
    reviews: seq<HumanReview>,
    currentReview: Option<nat>)

  const CAUSE_LIMIT := 160
  const EXACT_PREFIX := "Exact comparison "
  const CHANGED_MARK := " CHANGED (comparison item "

  function ExactCause(algorithm: string, item: string): string {
    EXACT_PREFIX + algorithm + CHANGED_MARK + item + ")"
  }

  function VerdictName(v: Verdict): string {
    match v
    case Equivalent => "EQUIVALENT"
    case MaterialChange => "MATERIAL_CHANGE"
    case Uncertain => "UNCERTAIN"
    case ComparatorError => "ERROR"
  }

  function LowerCause(version: string, result: string): string {
    "Semantic comparison " + version + " EQUIVALENT (semantic result " + result + ") resolved exact-change-only review"
  }

  function RaiseCause(version: string, v: Verdict, result: string): string {
    "Semantic comparison " + version + " " + VerdictName(v) + " (semantic result " + result + ") requires review"
  }

  predicate FoundAt(text: string, part: string, k: nat) {
    k + |part| <= |text| && text[k..k + |part|] == part
  }

  predicate Contains(text: string, part: string) {
    exists k :: 0 <= k <= |text| && FoundAt(text, part, k)
  }

  // ---------- the log ----------

  /** The newest event by time, then by primary key. */
  function Latest(events: seq<Event>): (k: nat)
    requires events != []
    ensures k < |events|
    ensures forall j :: 0 <= j < |events| ==>
      events[j].createdAt < events[k].createdAt || (events[j].createdAt == events[k].createdAt && j <= k)
  {
    if |events| == 1 then 0
    else
      var n := |events| - 1;
      var best := Latest(events[..n]);
      if events[n].createdAt >= events[best].createdAt then n else best
  }

  /** `_is_exact_change_only_requirement` */
  predicate ExactChangeOnly(s: Attention) {
    && s.review == Required && s.events != []
    && var latest := s.events[Latest(s.events)];
    && latest.actor.None? && EXACT_PREFIX <= latest.cause && Contains(latest.cause, CHANGED_MARK)
  }

  /** Appends an event and moves the projection with it; a cause wider than its column aborts the transaction. */
  function Track(s: Attention, e: Event): Option<Attention> {
    if |e.cause| > CAUSE_LIMIT then None else Some(s.(events := s.events + [e], review := e.state))
  }

  // ---------- the transactions ----------

  /** The attention part of `record_exact_comparison`, once per execution. */
  function RecordExact(s: Attention, change: Change, algorithm: string, item: string, now: Time): Option<Attention> {
    if s.item.Some? then Some(s)
    else
      var compared := s.(item := Some(change));
      if change != Changed || s.review == Reviewed then Some(compared)
      else Track(compared, Event(Required, None, ExactCause(algorithm, item), now))
  }

  predicate Superseded(rs: seq<Semantic>, k: nat) {
    exists j :: 0 <= j < |rs| && rs[j].supersedes == Some(k)
  }

  /** `_current_semantic_result`: the newest of the results that nothing supersedes. */
  predicate IsCurrentSemantic(rs: seq<Semantic>, c: Option<nat>) {
    if c.None? then forall k :: 0 <= k < |rs| ==> Superseded(rs, k)
    else
      && c.value < |rs| && !Superseded(rs, c.value)
      && forall k :: 0 <= k < |rs| && !Superseded(rs, k) ==>
           rs[k].createdAt < rs[c.value].createdAt || (rs[k].createdAt == rs[c.value].createdAt && k <= c.value)
  }

  /** `_apply_semantic_triage` */
  function Triage(s: Attention, v: Verdict, version: string, result: string, now: Time): Option<Attention> {
    if v == Equivalent then
      if ExactChangeOnly(s) then Track(s, Event(Clear, None, LowerCause(version, result), now)) else Some(s)
    else if s.review == Clear then Track(s, Event(Required, None, RaiseCause(version, v, result), now))
    else Some(s)
  }

  /** `record_semantic_comparison`, for a prior result `c` and a pair that is (not) applicable for other reasons. */
  function RecordSemantic(s: Attention, applicable: bool, c: Option<nat>, v: Verdict, version: string, result: string,
      now: Time): Option<Attention>
  {
    if s.item != Some(Changed) || !applicable then Some(s)
    else Triage(s.(semantics := s.semantics + [Semantic(v, c, now)]), v, version, result, now)
  }

  /** `set_review_state` */
  function SetReview(s: Attention, actor: nat, state: ReviewState, cause: string, now: Time): Option<Attention> {
    if s.review == state then Some(s) else Track(s, Event(state, Some(actor), cause, now))
  }

  const HUMAN_CAUSE := "Human GOOD/BAD review"

  /** `record_human_review` */
  function RecordReview(s: Attention, actor: nat, good: bool, now: Time): Option<Attention> {
    var reviewed := s.(
      reviews := s.reviews + [HumanReview(good, actor, s.currentReview)], currentReview := Some(|s.reviews|));
    if s.review == Reviewed then Some(reviewed)
    else Track(reviewed, Event(Reviewed, Some(actor), HUMAN_CAUSE, now))
  }

  datatype Step =
    | Exact(change: Change, algorithm: string, item: string, now: Time)
    | Compare(applicable: bool, prior: Option<nat>, verdict: Verdict, version: string, result: string, now: Time)
    | Set(actor: nat, state: ReviewState, cause: string, now: Time)
    | Review(actor: nat, good: bool, now: Time)

  predicate Enabled(s: Attention, step: Step) {
    step.Compare? ==> IsCurrentSemantic(s.semantics, step.prior)
  }

  /** A transaction that raises changes nothing. */
  function Apply(s: Attention, step: Step): Attention {
    var next := match step
      case Exact(change, algorithm, item, now) => RecordExact(s, change, algorithm, item, now)
      case Compare(applicable, c, v, version, result, now) => RecordSemantic(s, applicable, c, v, version, result, now)
      case Set(actor, state, cause, now) => SetReview(s, actor, state, cause, now)
      case Review(actor, good, now) => RecordReview(s, actor, good, now);
    if next.Some? then next.value else s
  }

  // ---------- invariants ----------

  predicate IsExactEvent(e: Event) {
    e.actor.None? && e.state == Required && EXACT_PREFIX <= e.cause && Contains(e.cause, CHANGED_MARK)
  }

  predicate IsLowering(e: Event) { e.actor.None? && e.state == Clear }

  /** The projection is the state of the last event appended. */
  predicate Projected(s: Attention) {
    s.review == if s.events == [] then Clear else s.events[|s.events| - 1].state
  }

  /** The results form one line, each superseding the one before it. */
  predicate Linear(rs: seq<Semantic>) {
    forall k :: 0 <= k < |rs| ==> rs[k].supersedes == if k == 0 then None else Some(k - 1)
  }

  predicate ReviewsLinear(s: Attention) {
    && s.currentReview == (if s.reviews == [] then None else Some(|s.reviews| - 1))
    && forall k :: 0 <= k < |s.reviews| ==> s.reviews[k].supersedes == if k == 0 then None else Some(k - 1)
  }

  predicate SystemEventsKnown(events: seq<Event>) {
    forall k :: 0 <= k < |events| && events[k].actor.None? && EXACT_PREFIX <= events[k].cause
                ==> IsExactEvent(events[k])
  }

  predicate OneExact(s: Attention) {
    && (forall j, k :: 0 <= j < k < |s.events| && IsExactEvent(s.events[j]) ==> !IsExactEvent(s.events[k]))
    && (s.item.None? ==> forall k :: 0 <= k < |s.events| ==> !IsExactEvent(s.events[k]))
  }

  predicate Inv(s: Attention) {
    && Projected(s) && Linear(s.semantics) && ReviewsLinear(s) && OneExact(s)
    && SystemEventsKnown(s.events)
  }

  const START := Attention(Clear, [], None, [], [], None)

  lemma ExactCauseIsExact(algorithm: string, item: string)
    ensures EXACT_PREFIX <= ExactCause(algorithm, item) && Contains(ExactCause(algorithm, item), CHANGED_MARK)
  {
    var text, k := ExactCause(algorithm, item), |EXACT_PREFIX + algorithm|;
    assert text == (EXACT_PREFIX + algorithm) + (CHANGED_MARK + (item + ")"));
    assert FoundAt(text, CHANGED_MARK, k);
    assert text == EXACT_PREFIX + (algorithm + (CHANGED_MARK + (item + ")")));
  }

  lemma SemanticCauseIsNotExact(version: string, v: Verdict, result: string)
    ensures !(EXACT_PREFIX <= LowerCause(version, result)) && !(EXACT_PREFIX <= RaiseCause(version, v, result))
  {
    assert LowerCause(version, result)[0] == 'S' && RaiseCause(version, v, result)[0] == 'S' && EXACT_PREFIX[0] == 'E';
  }

  /** Whatever the times say, the unsuperseded result is the last one of the line. */
  lemma CurrentIsLast(rs: seq<Semantic>, c: Option<nat>)
    requires Linear(rs) && IsCurrentSemantic(rs, c)
    ensures c == if rs == [] then None else Some(|rs| - 1)
  {
    if rs != [] {
      var n := |rs| - 1;
      assert !Superseded(rs, n);
      forall k | 0 <= k < n ensures Superseded(rs, k) { assert rs[k + 1].supersedes == Some(k); }
    }
  }

  /** An event that may be logged: only the exact comparison writes its own kind of cause, and only once. */
  predicate Legitimate(s: Attention, e: Event) {
    && (e.actor.None? && EXACT_PREFIX <= e.cause ==> IsExactEvent(e))
    && (IsExactEvent(e) ==> s.item.Some? && forall k :: 0 <= k < |s.events| ==> !IsExactEvent(s.events[k]))
  }

  lemma TrackKeepsInv(s: Attention, e: Event)
    requires Inv(s) && Legitimate(s, e)
    ensures Track(s, e).Some? ==> Inv(Track(s, e).value)
  {
  }

  lemma ExactKeepsInv(s: Attention, change: Change, algorithm: string, item: string, now: Time)
    requires Inv(s)
    ensures RecordExact(s, change, algorithm, item, now).Some? ==>
      Inv(RecordExact(s, change, algorithm, item, now).value)
  {
    ExactCauseIsExact(algorithm, item);
    if s.item.None? {
      TrackKeepsInv(s.(item := Some(change)), Event(Required, None, ExactCause(algorithm, item), now));
    }
  }

  lemma SemanticKeepsInv(s: Attention, applicable: bool, c: Option<nat>, v: Verdict, version: string, result: string,
      now: Time)
    requires Inv(s) && IsCurrentSemantic(s.semantics, c)
    ensures var next := RecordSemantic(s, applicable, c, v, version, result, now); next.Some? ==> Inv(next.value)
  {
    CurrentIsLast(s.semantics, c);
    var compared := s.(semantics := s.semantics + [Semantic(v, c, now)]);
    assert Inv(compared);
    TriageKeepsInv(compared, v, version, result, now);
  }

  lemma TriageKeepsInv(s: Attention, v: Verdict, version: string, result: string, now: Time)
    requires Inv(s)
    ensures var next := Triage(s, v, version, result, now); next.Some? ==> Inv(next.value)
  {
    SemanticCauseIsNotExact(version, v, result);
    TrackKeepsInv(s, Event(Clear, None, LowerCause(version, result), now));
    TrackKeepsInv(s, Event(Required, None, RaiseCause(version, v, result), now));
  }

  lemma ReviewKeepsInv(s: Attention, actor: nat, good: bool, now: Time)
    requires Inv(s)
    ensures RecordReview(s, actor, good, now).Some? ==> Inv(RecordReview(s, actor, good, now).value)
  {
    var reviewed := s.(
      reviews := s.reviews + [HumanReview(good, actor, s.currentReview)], currentReview := Some(|s.reviews|));
    assert Inv(reviewed);
    TrackKeepsInv(reviewed, Event(Reviewed, Some(actor), HUMAN_CAUSE, now));
  }

  lemma StepKeepsInv(s: Attention, step: Step)
    requires Inv(s) && Enabled(s, step)
    ensures Inv(Apply(s, step))
  {
    match step
    case Exact(change, algorithm, item, now) => ExactKeepsInv(s, change, algorithm, item, now);
    case Compare(applicable, c, v, version, result, now) => SemanticKeepsInv(s, applicable, c, v, version, result, now);
    case Set(actor, state, cause, now) => TrackKeepsInv(s, Event(state, Some(actor), cause, now));
    case Review(actor, good, now) => ReviewKeepsInv(s, actor, good, now);
  }

  // ---------- one step ----------

  /** Times do not run backwards along the log. */
  predicate Monotone(events: seq<Event>) {
    forall j, k :: 0 <= j < k < |events| ==> events[j].createdAt <= events[k].createdAt
  }

  lemma LatestIsLast(events: seq<Event>)
    requires events != [] && Monotone(events)
    ensures Latest(events) == |events| - 1
  {
    assert events[Latest(events)].createdAt <= events[|events| - 1].createdAt;
  }

  /** Review is required and the newest event, by time and then by key, is the exact comparison. */
  predicate ExactIsNewest(s: Attention) {
    s.review == Required && s.events != [] && IsExactEvent(s.events[Latest(s.events)])
  }

  predicate ExactIsLast(s: Attention) {
    s.events != [] && IsExactEvent(s.events[|s.events| - 1])
  }

  /** The step is a semantic result that would lower attention if it may. */
  predicate Lowers(s: Attention, step: Step) {
    && step.Compare? && step.verdict == Equivalent && step.applicable && s.item == Some(Changed)
    && |LowerCause(step.version, step.result)| <= CAUSE_LIMIT
  }

  /** If the step would lower attention because the exact comparison is the newest event by time, nothing was logged
      after it either. */
  predicate Timely(s: Attention, step: Step) {
    Lowers(s, step) && ExactIsNewest(s) ==> ExactIsLast(s)
  }

  /** For every log, ordered or not: attention is lowered exactly when such a step finds the exact comparison newest by
      time; with ordered times that is when it is the last event. */
  lemma EquivalentLowersIff(s: Attention, step: Step)
    requires Inv(s) && step.Compare? && step.verdict == Equivalent
    ensures Apply(s, step).review != s.review <==> Lowers(s, step) && ExactIsNewest(s)
    ensures Apply(s, step).review != s.review ==> s.review == Required && Apply(s, step).review == Clear
    ensures Monotone(s.events) ==> (ExactIsNewest(s) <==> ExactIsLast(s))
  {
    if s.events != [] {
      NewestIsKnown(s);
      if Monotone(s.events) { LatestIsLast(s.events); }
    }
  }

  lemma NewestIsKnown(s: Attention)
    requires SystemEventsKnown(s.events) && s.events != []
    ensures ExactChangeOnly(s) <==> ExactIsNewest(s)
  {
    assert s.events[Latest(s.events)] in s.events;
  }

  // ---------- traces ----------

  ghost predicate StepAt(states: seq<Attention>, steps: seq<Step>, k: nat)
    requires k < |steps| && |states| == |steps| + 1
  {
    Enabled(states[k], steps[k]) && states[k + 1] == Apply(states[k], steps[k])
  }

  ghost predicate Behavior(states: seq<Attention>, steps: seq<Step>) {
    && |states| == |steps| + 1 && states[0] == START
    && forall k: nat :: k < |steps| ==> StepAt(states, steps, k)
  }

  lemma {:induction false} BehaviorHoldsInv(states: seq<Attention>, steps: seq<Step>, k: nat)
    requires Behavior(states, steps) && k < |states|
    ensures Inv(states[k])
  {
    if k > 0 {
      BehaviorHoldsInv(states, steps, k - 1);
      assert StepAt(states, steps, k - 1);
      StepKeepsInv(states[k - 1], steps[k - 1]);
    }
  }

  /** Over every mix of human and semantic steps: the projection is the last event, the semantic results are one line,
      the human reviews another whose end is current. */
  lemma ProjectionIsLastEvent(states: seq<Attention>, steps: seq<Step>, k: nat)
    requires Behavior(states, steps) && k < |states|
    ensures states[k].review == if states[k].events == [] then Clear else states[k].events[|states[k].events| - 1].state
    ensures Linear(states[k].semantics)
    ensures states[k].reviews != [] ==> states[k].currentReview == Some(|states[k].reviews| - 1)
  {
    BehaviorHoldsInv(states, steps, k);
  }

  lemma {:induction false} EventsOnlyGrow(states: seq<Attention>, steps: seq<Step>, k: nat, m: nat)
    requires Behavior(states, steps) && k <= m < |states|
    ensures states[k].events <= states[m].events
    decreases m
  {
    if k < m {
      EventsOnlyGrow(states, steps, k, m - 1);
      assert StepAt(states, steps, m - 1);
    }
  }

  /** A reviewed execution stays reviewed, and its log as it is, through every comparison and every further human
      review: only a person setting another state takes it out. */
  lemma {:induction false} OnlyPeopleLeaveReviewed(states: seq<Attention>, steps: seq<Step>, k: nat, m: nat)
    requires Behavior(states, steps) && k <= m < |states| && states[k].review == Reviewed
    requires forall j :: k <= j < m ==> !steps[j].Set?
    ensures states[m].review == Reviewed && states[m].events == states[k].events
    decreases m
  {
    if k < m {
      OnlyPeopleLeaveReviewed(states, steps, k, m - 1);
      assert StepAt(states, steps, m - 1);
    }
  }

  predicate LoweringsFollowExact(events: seq<Event>) {
    forall k :: 0 <= k < |events| && IsLowering(events[k]) ==> k > 0 && IsExactEvent(events[k - 1])
  }

  lemma TrackKeepsLowerings(s: Attention, e: Event)
    requires LoweringsFollowExact(s.events)
    requires IsLowering(e) ==> s.events != [] && IsExactEvent(s.events[|s.events| - 1])
    ensures Track(s, e).Some? ==> LoweringsFollowExact(Track(s, e).value.events)
  {
  }

  lemma TriageKeepsLoweringsIff(s: Attention, v: Verdict, version: string, result: string, now: Time)
    requires LoweringsFollowExact(s.events) && Projected(s) && SystemEventsKnown(s.events)
    ensures var next := Triage(s, v, version, result, now);
      next.Some? ==>
        (LoweringsFollowExact(next.value.events) <==> (v == Equivalent && ExactIsNewest(s) ==> ExactIsLast(s)))
    ensures v == Equivalent && ExactIsNewest(s) ==>
      (Triage(s, v, version, result, now).Some? <==> |LowerCause(version, result)| <= CAUSE_LIMIT)
  {
    if s.events != [] { NewestIsKnown(s); }
    if v == Equivalent && ExactIsNewest(s) {
      LoweringIff(s, Event(Clear, None, LowerCause(version, result), now));
    } else {
      TrackKeepsLowerings(s, Event(Required, None, RaiseCause(version, v, result), now));
    }
  }

  lemma LoweringIff(s: Attention, e: Event)
    requires LoweringsFollowExact(s.events) && IsLowering(e)
    ensures Track(s, e).Some? ==> (LoweringsFollowExact(Track(s, e).value.events) <==> ExactIsLast(s))
  {
    var events, n := s.events + [e], |s.events|;
    assert events[n] == e && (n > 0 ==> events[n - 1] == s.events[n - 1]);
    if ExactIsLast(s) { TrackKeepsLowerings(s, e); }
  }

  /** One step keeps the rule that attention is lowered only directly after the exact comparison if and only if it is
      timely. */
  lemma StepKeepsLoweringsIff(s: Attention, step: Step)
    requires Inv(s) && LoweringsFollowExact(s.events)
    ensures LoweringsFollowExact(Apply(s, step).events) <==> Timely(s, step)
  {
    match step
    case Exact(change, algorithm, item, now) =>
      TrackKeepsLowerings(s.(item := Some(change)), Event(Required, None, ExactCause(algorithm, item), now));
    case Compare(applicable, c, v, version, result, now) =>
      TriageKeepsLoweringsIff(s.(semantics := s.semantics + [Semantic(v, c, now)]), v, version, result, now);
    case Set(_, _, _, _) =>
    case Review(_, _, _) =>
  }

  /** In every trace: the system lowers attention only directly after the exact comparison, and so at most once, if and
      only if every step is timely. */
  lemma LoweringsFollowExactIff(states: seq<Attention>, steps: seq<Step>)
    requires Behavior(states, steps)
    ensures (forall k: nat :: k < |states| ==> LoweringsFollowExact(states[k].events)) <==>
            (forall k: nat :: k < |steps| ==> TimelyAt(states, steps, k))
  {
    if forall k: nat :: k < |states| ==> LoweringsFollowExact(states[k].events) {
      forall k: nat | k < |steps| ensures TimelyAt(states, steps, k) {
        BehaviorHoldsInv(states, steps, k);
        assert StepAt(states, steps, k);
        assert LoweringsFollowExact(states[k].events) && LoweringsFollowExact(states[k + 1].events);
        StepKeepsLoweringsIff(states[k], steps[k]);
      }
    }
    if forall k: nat :: k < |steps| ==> TimelyAt(states, steps, k) {
      forall k: nat | k < |states| ensures LoweringsFollowExact(states[k].events) {
        LoweringsUpTo(states, steps, k);
      }
    }
  }

  predicate TimelyAt(states: seq<Attention>, steps: seq<Step>, k: nat)
    requires k < |steps| && |states| == |steps| + 1
  {
    Timely(states[k], steps[k])
  }

  lemma {:induction false} LoweringsUpTo(states: seq<Attention>, steps: seq<Step>, k: nat)
    requires Behavior(states, steps) && k < |states| && forall j: nat :: j < k ==> TimelyAt(states, steps, j)
    ensures LoweringsFollowExact(states[k].events)
  {
    if k > 0 {
      assert StepAt(states, steps, k - 1) && TimelyAt(states, steps, k - 1);
      LoweringsUpTo(states, steps, k - 1);
      BehaviorHoldsInv(states, steps, k - 1);
      StepKeepsLoweringsAt(states[k - 1], steps[k - 1], states[k]);
    }
  }

  lemma StepKeepsLoweringsAt(s: Attention, step: Step, after: Attention)
    requires Inv(s) && LoweringsFollowExact(s.events) && Timely(s, step) && after == Apply(s, step)
    ensures LoweringsFollowExact(after.events)
  {
    StepKeepsLoweringsIff(s, step);
  }

  /** A log whose times never run backwards had timely steps only. */
  lemma OrderedTimesAreTimely(states: seq<Attention>, steps: seq<Step>, k: nat, j: nat)
    requires Behavior(states, steps) && j < k < |states| && Monotone(states[k].events)
    ensures TimelyAt(states, steps, j)
  {
    EventsOnlyGrow(states, steps, j, k);
    if states[j].events != [] { LatestIsLast(states[j].events); }
  }

  /** As long as the steps were timely, or the times in order, the system has lowered attention at most once. */
  lemma LoweredAtMostOnce(states: seq<Attention>, steps: seq<Step>, k: nat)
    requires Behavior(states, steps) && k < |states|
    requires Monotone(states[k].events) || forall j: nat :: j < k ==> TimelyAt(states, steps, j)
    ensures |set j: nat | j < |states[k].events| && IsLowering(states[k].events[j])| <= 1
  {
    BehaviorHoldsInv(states, steps, k);
    forall j: nat | j < k ensures TimelyAt(states, steps, j) {
      if Monotone(states[k].events) { OrderedTimesAreTimely(states, steps, k, j); }
    }
    LoweringsUpTo(states, steps, k);
    var events := states[k].events;
    var lowerings := set j: nat | j < |events| && IsLowering(events[j]);
    if lowerings != {} {
      var j :| j in lowerings;
      forall i | i in lowerings ensures i == j {
        assert IsExactEvent(events[i - 1]) && IsExactEvent(events[j - 1]);
      }
      assert lowerings == {j};
    }
  }

  /** Steps need not be timely: when the clock steps back, the exact comparison stays the newest event by time, and a
      semantic result lowers attention that a person has raised, a second time. */
  lemma BackwardClockLowersTwice() returns (states: seq<Attention>, steps: seq<Step>)
    ensures Behavior(states, steps)
    ensures var events := states[|steps|].events;
      && |events| == 4 && IsLowering(events[1]) && IsLowering(events[3])
      && events[2].actor.Some? && events[2].state == Required
  {
    var exact, first := Exact(Changed, "v1", "1", 10), Compare(true, None, Equivalent, "v1", "1", 5);
    var human, second := Set(7, Required, "look again", 6), Compare(true, Some(0), Equivalent, "v1", "2", 7);
    var a := RaisedByExact();
    var b := LoweredAfter(a, [], "1", 5);
    var c := RaisedAgain(b, human);
    var d := LoweredAfter(c, c.semantics, "2", 7);
    states, steps := [START, a, b, c, d], [exact, first, human, second];
    FourSteps(a, b, c, d, exact, first, human, second);
  }

  lemma FourSteps(a: Attention, b: Attention, c: Attention, d: Attention, p: Step, q: Step, r: Step, t: Step)
    requires Enabled(START, p) && Enabled(a, q) && Enabled(b, r) && Enabled(c, t)
    requires a == Apply(START, p) && b == Apply(a, q) && c == Apply(b, r) && d == Apply(c, t)
    ensures Behavior([START, a, b, c, d], [p, q, r, t])
  {
    var states, steps := [START, a, b, c, d], [p, q, r, t];
    assert StepAt(states, steps, 0) && StepAt(states, steps, 1) && StepAt(states, steps, 2) && StepAt(states, steps, 3);
  }

  lemma RaisedAgain(b: Attention, human: Step) returns (c: Attention)
    requires human == Set(7, Required, "look again", 6)
    requires b.review == Clear && b.item == Some(Changed) && b.semantics == [Semantic(Equivalent, None, 5)]
    requires |b.events| == 2 && b.events[0].createdAt == 10 && b.events[1].createdAt == 5
    ensures c == Apply(b, human) && c.events == b.events + [Event(Required, Some(7), "look again", 6)]
    ensures c.review == Required && c.item == b.item && c.semantics == b.semantics && Latest(c.events) == 0
    ensures !Superseded(c.semantics, 0)
  {
    c := Apply(b, human);
  }

  lemma RaisedByExact() returns (a: Attention)
    ensures a == Apply(START, Exact(Changed, "v1", "1", 10))
    ensures a.review == Required && a.item == Some(Changed) && a.semantics == []
    ensures |a.events| == 1 && IsExactEvent(a.events[0]) && a.events[0].createdAt == 10
  {
    a := Apply(START, Exact(Changed, "v1", "1", 10));
    ExactCauseIsExact("v1", "1");
  }

  lemma LoweredAfter(s: Attention, before: seq<Semantic>, result: string, now: Time) returns (t: Attention)
    requires s.review == Required && s.item == Some(Changed) && s.semantics == before && |before| <= 1
    requires before != [] ==> before[0].supersedes.None?
    requires s.events != [] && Latest(s.events) == 0 && IsExactEvent(s.events[0]) && |result| == 1
    ensures var c := if before == [] then None else Some(0);
      var step := Compare(true, c, Equivalent, "v1", result, now);
      Enabled(s, step) && t == Apply(s, step) && t.semantics == before + [Semantic(Equivalent, c, now)]
    ensures t.review == Clear && t.item == Some(Changed)
    ensures t.events == s.events + [Event(Clear, None, LowerCause("v1", result), now)]
  {
    var c := if before == [] then None else Some(0);
    t := Apply(s, Compare(true, c, Equivalent, "v1", result, now));
    if before != [] { assert !Superseded(before, 0); }
  }

  // ---------- in place ----------

  /** The execution's attention fields and the logs beside it, as the services update them. */
  class Tracker {
    var review: ReviewState
    var events: seq<Event>
    var item: Option<Change>
    var semantics: seq<Semantic>
    var reviews: seq<HumanReview>
    var currentReview: Option<nat>

    constructor ()
      ensures State() == START
    {
      review, events, item, semantics, reviews, currentReview := Clear, [], None, [], [], None;
    }

    function State(): Attention
      reads this
    {
      Attention(review, events, item, semantics, reviews, currentReview)
    }

    method Restore(s: Attention)
      modifies this
      ensures State() == s
    {
      review, events, item := s.review, s.events, s.item;
      semantics, reviews, currentReview := s.semantics, s.reviews, s.currentReview;
    }

    /** Two passes over the results: which ones are superseded, then the newest of the others. */
    method FindCurrentSemantic() returns (current: Option<nat>)
      ensures IsCurrentSemantic(semantics, current)
    {
      var superseded: set<nat> := {};
      for j := 0 to |semantics|
        invariant forall k: nat :: k in superseded <==> exists i :: 0 <= i < j && semantics[i].supersedes == Some(k)
      {
        if semantics[j].supersedes.Some? { superseded := superseded + {semantics[j].supersedes.value}; }
      }
      assert forall k: nat :: k in superseded <==> Superseded(semantics, k);
      current := None;
      for k := 0 to |semantics|
        invariant current.None? ==> forall i :: 0 <= i < k ==> i in superseded
        invariant current.Some? ==> current.value < k && current.value !in superseded
        invariant current.Some? ==> forall i :: 0 <= i < k && i !in superseded ==>
          semantics[i].createdAt < semantics[current.value].createdAt
          || (semantics[i].createdAt == semantics[current.value].createdAt && i <= current.value)
      {
        if k !in superseded && (current.None? || semantics[k].createdAt >= semantics[current.value].createdAt) {
          current := Some(k);
        }
      }
    }

    /** Create the event, then move the projection; a cause that does not fit raises before either. */
    method TrackEvent(state: ReviewState, actor: Option<nat>, cause: string, now: Time) returns (ok: bool)
      modifies `review, `events
      ensures ok <==> Track(old(State()), Event(state, actor, cause, now)).Some?
      ensures State() == if ok then Track(old(State()), Event(state, actor, cause, now)).value else old(State())
    {
      if |cause| > CAUSE_LIMIT { return false; }
      events := events + [Event(state, actor, cause, now)];
      review := state;
      return true;
    }

    method RecordSemanticComparison(applicable: bool, verdict: Verdict, version: string, result: string, now: Time)
      returns (ok: bool, ghost prior: Option<nat>)
      modifies this
      ensures Enabled(old(State()), Compare(applicable, prior, verdict, version, result, now))
      ensures ok <==> RecordSemantic(old(State()), applicable, prior, verdict, version, result, now).Some?
      ensures State() == Apply(old(State()), Compare(applicable, prior, verdict, version, result, now))
    {
      var current := FindCurrentSemantic();
      prior := current;
      if item != Some(Changed) || !applicable { return true, prior; }
      var before := semantics;
      semantics := semantics + [Semantic(verdict, current, now)];
      ok := true;
      if verdict == Equivalent {
        if ExactChangeOnly(State()) { ok := TrackEvent(Clear, None, LowerCause(version, result), now); }
      } else if review == Clear {
        ok := TrackEvent(Required, None, RaiseCause(version, verdict, result), now);
      }
      if !ok { semantics := before; }
    }

    /** The attention part of `record_exact_comparison`. */
    method RecordExactComparison(change: Change, algorithm: string, pk: string, now: Time) returns (ok: bool)
      modifies this
      ensures ok <==> RecordExact(old(State()), change, algorithm, pk, now).Some?
      ensures State() == Apply(old(State()), Exact(change, algorithm, pk, now))
    {
      if item.Some? { return true; }
      item := Some(change);
      ok := true;
      if change == Changed && review != Reviewed {
        ok := TrackEvent(Required, None, ExactCause(algorithm, pk), now);
        if !ok { item := None; }
      }
    }

    /** `set_review_state`: no event when the state is already the requested one. */
    method SetReviewState(actor: nat, state: ReviewState, cause: string, now: Time) returns (ok: bool)
      modifies this
      ensures State() == Apply(old(State()), Set(actor, state, cause, now))
      ensures old(review) == state ==> State() == old(State())
      ensures ok ==> review == state
    {
      if review == state { return true; }
      ok := TrackEvent(state, Some(actor), cause, now);
    }

    /** `record_human_review` */
    method RecordHumanReview(actor: nat, good: bool, now: Time)
      modifies this
      ensures State() == Apply(old(State()), Review(actor, good, now))
    {
      reviews := reviews + [HumanReview(good, actor, currentReview)];
      currentReview := Some(|reviews| - 1);
      if review != Reviewed {
        var ok := TrackEvent(Reviewed, Some(actor), HUMAN_CAUSE, now);
      }
    }
  }
}
