/** What the columns of an ended row and of its comparison item can hold. The database refuses anything else, and the
    transaction that tries to write it is undone. */
module Columns {
  import opened Wrappers
  import opened Rows
  import opened Transactions
  import opened TableInvariants
  import opened Arithmetic
  import opened CanonicalJson
  import Performance

  /** An integer column has 31 bits and a sign. */
  const INTEGER_LIMIT := 0x8000_0000

  /** A percentage has ten digits, two of them after the point; this is the first one too large, in hundredths. */
  const PERCENT_LIMIT := 10_000_000_000

  const CORRELATION_WIDTH := 160
  const ERROR_CLASS_WIDTH := 80

  /** The first millisecond that a latency cannot count to. */
  predicate NumberFits(n: Option<nat>) { n.Some? ==> n.value < INTEGER_LIMIT }

  /** Neither texts nor JSON may contain the character zero. */
  predicate TextFits(text: string) { '\0' !in text }

  predicate TreeFits(j: Json) {
    match j
    case Str(text) => TextFits(text)
    case Arr(items) => forall k :: 0 <= k < |items| ==> TreeFits(items[k])
    case Obj(fields) => forall k :: 0 <= k < |fields| ==> TextFits(fields[k].key) && TreeFits(fields[k].value)
    case _ => true
  }

  /** All texts in a value, keys among them. */
  function Texts(j: Json): set<string> {
    match j
    case Str(text) => {text}
    case Arr(items) => set k, t | 0 <= k < |items| && t in Texts(items[k]) :: t
    case Obj(fields) =>
      (set k | 0 <= k < |fields| :: fields[k].key)
      + (set k, t | 0 <= k < |fields| && t in Texts(fields[k].value) :: t)
    case _ => {}
  }

  lemma {:induction false} TreeFitsIff(j: Json)
    ensures TreeFits(j) <==> forall t :: t in Texts(j) ==> '\0' !in t
  {
    match j
    case Arr(items) =>
      forall k | 0 <= k < |items| ensures TreeFits(items[k]) <==> forall t :: t in Texts(items[k]) ==> '\0' !in t {
        TreeFitsIff(items[k]);
      }
      assert forall k, t :: 0 <= k < |items| && t in Texts(items[k]) ==> t in Texts(j);
    case Obj(fields) =>
      forall k | 0 <= k < |fields|
        ensures TreeFits(fields[k].value) <==> forall t :: t in Texts(fields[k].value) ==> '\0' !in t
      {
        TreeFitsIff(fields[k].value);
      }
      assert forall k :: 0 <= k < |fields| ==> fields[k].key in Texts(j);
      assert forall k, t :: 0 <= k < |fields| && t in Texts(fields[k].value) ==> t in Texts(j);
    case _ =>
  }

  predicate ReportFits(r: Reported) {
    && TextFits(r.correlation) && |r.correlation| <= CORRELATION_WIDTH
    && NumberFits(r.inputTokens) && NumberFits(r.outputTokens) && NumberFits(r.totalTokens)
  }

  predicate ObservationFits(o: Observation) {
    && TextFits(o.rawAnswer) && TextFits(o.displayAnswer) && ReportFits(o.reported)
    && TextFits(o.errorClass) && |o.errorClass| <= ERROR_CLASS_WIDTH
    && (o.structured.Some? ==> TreeFits(Obj(o.structured.value)))
  }

  /** Every text that an observation stores. */
  function StoredTexts(o: Observation): set<string> {
    {o.rawAnswer, o.displayAnswer, o.errorClass, o.reported.correlation}
    + if o.structured.Some? then Texts(Obj(o.structured.value)) else {}
  }

  /** An observation fits exactly when no text in it has a character zero, the correlation identity has at most 160
      characters and the error class 80, and each token count is below 2,147,483,648. */
  lemma ObservationFitsIff(o: Observation)
    ensures ObservationFits(o) <==>
      && (forall t :: t in StoredTexts(o) ==> '\0' !in t)
      && |o.reported.correlation| <= 160 && |o.errorClass| <= 80
      && forall n :: n in {o.reported.inputTokens, o.reported.outputTokens, o.reported.totalTokens} ==>
           n.None? || n.value < 2_147_483_648
  {
    var r := o.reported;
    if o.structured.Some? { TreeFitsIff(Obj(o.structured.value)); }
    assert forall t :: t in StoredTexts(o) <==>
      || t == o.rawAnswer || t == o.displayAnswer || t == o.errorClass || t == r.correlation
      || (o.structured.Some? && t in Texts(Obj(o.structured.value)));
    assert {o.rawAnswer, o.displayAnswer, o.errorClass, r.correlation} <= StoredTexts(o);
  }

  /** An ended row as it is saved. */
  predicate RowFits(e: Execution) { ObservationFits(e.observation) && NumberFits(e.latency) }

  /** From the start of the claim to `now` there are less than 2^31 milliseconds. */
  predicate LatencyFits(e: Execution, now: Time) { e.startedAt.Some? ==> now - e.startedAt.value < INTEGER_LIMIT }

  lemma RowFitsIff(e: Execution, outcome: FinalOutcome, seen: Observation, now: Time)
    requires RowSound(e) && !e.outcome.Terminal()
    ensures RowFits(FinalizeExecution(e, outcome, seen, now)) <==> ObservationFits(seen) && LatencyFits(e, now)
  {
  }

  // ---------- the comparison item ----------

  predicate PercentFits(baseline: Option<nat>, current: Option<nat>) {
    var p := Performance.PercentDelta(baseline, current);
    p.Some? ==> -PERCENT_LIMIT < p.value < PERCENT_LIMIT
  }

  /** The four percentages of an item; only a pair of successes has any. */
  predicate PairFits(b: Execution, c: Execution) {
    b.outcome == Success && c.outcome == Success ==>
      && PercentFits(b.latency, c.latency)
      && PercentFits(b.observation.reported.inputTokens, c.observation.reported.inputTokens)
      && PercentFits(b.observation.reported.outputTokens, c.observation.reported.outputTokens)
      && PercentFits(b.observation.reported.totalTokens, c.observation.reported.totalTokens)
  }

  /** The growth from a positive number stays below a million times that number, up to rounding. */
  predicate GrowthInRange(baseline: Option<nat>, current: Option<nat>) {
    baseline.Some? && current.Some? && baseline.value > 0 ==>
      20_000 * (current.value - baseline.value) < 19_999_999_999 * baseline.value
  }

  lemma PercentFitsIff(baseline: Option<nat>, current: Option<nat>)
    ensures PercentFits(baseline, current) <==> GrowthInRange(baseline, current)
  {
    if baseline.Some? && current.Some? && baseline.value > 0 {
      var b, n := baseline.value, 10_000 * (current.value - baseline.value);
      if n >= 0 {
        QuotientAtLeast(2 * n + b, 2 * b, PERCENT_LIMIT);
        QuotientAtLeast(2 * n + b, 2 * b, 0);
      } else {
        QuotientAtLeast(-2 * n + b, 2 * b, 0);
        QuotientAtLeast(-2 * n + b, 2 * b, 10_001);
      }
    }
  }

  predicate PairInRange(b: Execution, c: Execution) {
    b.outcome == Success && c.outcome == Success ==>
      && GrowthInRange(b.latency, c.latency)
      && GrowthInRange(b.observation.reported.inputTokens, c.observation.reported.inputTokens)
      && GrowthInRange(b.observation.reported.outputTokens, c.observation.reported.outputTokens)
      && GrowthInRange(b.observation.reported.totalTokens, c.observation.reported.totalTokens)
  }

  lemma PairFitsIff(b: Execution, c: Execution)
    ensures PairFits(b, c) <==> PairInRange(b, c)
  {
    PercentFitsIff(b.latency, c.latency);
    PercentFitsIff(b.observation.reported.inputTokens, c.observation.reported.inputTokens);
    PercentFitsIff(b.observation.reported.outputTokens, c.observation.reported.outputTokens);
    PercentFitsIff(b.observation.reported.totalTokens, c.observation.reported.totalTokens);
  }

  /** A question that took a millisecond and then, as a replay, seventeen minutes. */
  lemma SlowReplayOverflows(b: Execution, c: Execution)
    requires b.outcome == Success && b.latency == Some(1) && c.outcome == Success && c.latency == Some(1_000_001)
    ensures Performance.PercentDelta(b.latency, c.latency) == Some(PERCENT_LIMIT)
    ensures !PairFits(b, c) && (RowFits(c) <==> ObservationFits(c.observation))
  {
    PairFitsIff(b, c);
  }

  // ---------- recovery ----------

  /** Every row that a recovery gives up can be saved. */
  predicate RecoveryFits(es: seq<Execution>, now: Time, skipped: set<nat>) {
    forall i :: 0 <= i < |es| ==> GivenUpFits(es, i, now, skipped)
  }

  predicate GivenUpFits(es: seq<Execution>, i: nat, now: Time, skipped: set<nat>)
    requires i < |es|
  {
    Ambiguous(es, i, now, skipped) ==> RowFits(FinalizeExecution(es[i], Error, AMBIGUOUS, now))
  }

  /** Recovery can write what it has to exactly when it gives up no row that began 2^31 milliseconds ago or earlier. */
  lemma RecoveryFitsIff(es: seq<Execution>, now: Time, skipped: set<nat>)
    requires RowsSound(es)
    ensures RecoveryFits(es, now, skipped) <==>
      forall i :: 0 <= i < |es| && Ambiguous(es, i, now, skipped) ==> LatencyFits(es[i], now)
  {
    assert ObservationFits(AMBIGUOUS);
    forall i | 0 <= i < |es| && Ambiguous(es, i, now, skipped)
      ensures GivenUpFits(es, i, now, skipped) <==> LatencyFits(es[i], now)
    {
      assert RowSound(es[i]);
      RowFitsIff(es[i], Error, AMBIGUOUS, now);
    }
  }

  /** A turn that is blocked before it was ever claimed can always be saved. */
  lemma BlockedTurnFits(e: Execution, a: nat, now: Time)
    requires RowSound(e) && e.outcome == Pending && e.InAttempt(a)
    ensures RowFits(BlockTurn(e, a, now))
  {
    RowFitsIff(e, Error, BLOCKED, now);
    assert ObservationFits(BLOCKED);
  }
}
