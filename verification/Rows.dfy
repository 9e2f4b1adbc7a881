/** The database rows that the durable worker reads and writes, as values, and
    the check constraints the schema puts on them. A table is a sequence of rows;
    the primary key of a row is its index. Rows are never deleted. */
module Rows {
  import opened Wrappers
  import CanonicalJson

  /** Claim tokens are UUIDs: only their equality is ever looked at. */
  type Token = nat

  /** Milliseconds of the PostgreSQL clock. */
  type Time = int

  datatype Outcome = Pending | Running | Success | Error | Timeout {
    predicate Terminal() { Success? || Error? || Timeout? }
  }

  /** An outcome an execution can end with. */
  type FinalOutcome = o: Outcome | o.Terminal() witness Error

  datatype Phase = NoClaim | Claimed | SubmissionStarted | TerminalObserved | LegacyUnknown

  datatype RunState = Queued | InProgress | Completed | CompletedWithErrors | Failed

  datatype SessionState = NoSession | Active | Unusable | Closed

  datatype Validity = Valid | Invalid

  /** One resolved binding of a frozen prompt. */
  datatype Binding = Binding(value: string, display: string)

  /** The exact input an execution submits, frozen at launch. */
  datatype FrozenInput = FrozenInput(
    question: Option<nat>,
    questionVersion: Option<nat>,
    template: string,
    submitted: string,
    bindings: map<string, Binding>)

  /** The place of an execution in a conversation. */
  datatype TurnRef = TurnRef(attempt: nat, ordinal: nat, turn: nat)

  /** What a launch writes into an execution and nothing later changes. */
  datatype Manifest = Manifest(
    run: nat,
    order: nat,
    revision: nat,
    conversation: Option<TurnRef>,
    input: FrozenInput,
    preflightError: string,
    nonComparableReason: string,
    baseline: Option<nat>)

  /** What a target says of its own call beside the answer. */
  datatype Reported = Reported(
    correlation: string,
    inputTokens: Option<nat>,
    outputTokens: Option<nat>,
    totalTokens: Option<nat>)

  const NOTHING_REPORTED := Reported("", None, None, None)

  /** What the target call (or recovery) was seen to do. */
  datatype Observation = Observation(
    rawAnswer: string,
    displayAnswer: string,
    structured: Option<seq<CanonicalJson.Field>>,
    reported: Reported,
    errorClass: string)

  const NOTHING_OBSERVED := Observation("", "", None, NOTHING_REPORTED, "")

  datatype Execution = Execution(
    manifest: Manifest,
    outcome: Outcome,
    phase: Phase,
    worker: string,
    token: Option<Token>,
    claimAttempt: nat,
    claimedAt: Option<Time>,
    heartbeatAt: Option<Time>,
    expiresAt: Option<Time>,
    startedAt: Option<Time>,
    completedAt: Option<Time>,
    latency: Option<nat>,
    observation: Observation,
    validity: Validity)
  {
    /** The claim-state check constraint of the execution table. */
    predicate ClaimState() {
      || (&& outcome == Pending && phase == NoClaim && worker == "" && token.None?
          && claimedAt.None? && expiresAt.None? && heartbeatAt.None?)
      || (&& outcome == Running && phase in {Claimed, SubmissionStarted} && token.Some?
          && claimedAt.Some? && expiresAt.Some? && heartbeatAt.Some? && worker != "")
      || (outcome == Running && phase in {NoClaim, LegacyUnknown} && worker == "" && token.None?)
      || (outcome.Terminal() && phase in {NoClaim, TerminalObserved})
    }

    /** A claim that a worker may still be acting under. */
    predicate Held() { outcome == Running && phase in {Claimed, SubmissionStarted} }

    /** The holder check every claim-guarded statement makes. */
    predicate OwnedBy(w: string, t: Token) {
      outcome == Running && worker == w && token == Some(t)
    }

    predicate ActiveAt(now: Time) { Held() && expiresAt.Some? && expiresAt.value > now }

    /** Everything a terminal row has captured; the validity projection is not part of it. */
    function Evidence(): (Manifest, Outcome, Observation, Option<Time>, Option<nat>) {
      (manifest, outcome, observation, completedAt, latency)
    }

    predicate InAttempt(a: nat) { manifest.conversation.Some? && manifest.conversation.value.attempt == a }
  }

  datatype Run = Run(
    revision: nat,
    actualConcurrency: nat,
    configuredMaxConcurrency: nat,
    delay: nat,
    totalPlanned: nat,
    comparisonBaseline: Option<nat>,
    comparison: Option<nat>,
    state: RunState,
    startedAt: Option<Time>,
    completedAt: Option<Time>,
    nextDispatchAt: Option<Time>)
  {
    predicate Terminal() { state in {Completed, CompletedWithErrors, Failed} }

    /** The concurrency-bounds check constraint of the run table. */
    predicate ConcurrencyBounds() { 1 <= actualConcurrency <= configuredMaxConcurrency }

    predicate DispatchableAt(now: Time) { nextDispatchAt.None? || nextDispatchAt.value <= now }
  }

  /** One target session owned by one conversation run; an empty session identity means none was recorded. */
  datatype Attempt = Attempt(
    run: nat,
    scenarioVersion: nat,
    baselineAttempt: Option<nat>,
    session: string,
    state: SessionState,
    completedAt: Option<Time>)

  /** The immutable dispatch policy of a target revision. */
  datatype Revision = Revision(maxConcurrency: nat, delay: nat)

  /** A scenario turn together with what freezing it yields. */
  datatype Turn = Turn(id: nat, ordinal: nat, input: FrozenInput, preflightError: string)

  datatype Baseline = Baseline(sourceRun: nat, members: set<nat>)

  datatype Change = Unchanged | Changed | NonComparable(reason: string)

  datatype ComparisonItem = ComparisonItem(current: nat, baseline: nat, change: Change)

  datatype Tables = Tables(
    revisions: seq<Revision>,
    scenarios: seq<seq<Turn>>,
    runs: seq<Run>,
    executions: seq<Execution>,
    attempts: seq<Attempt>,
    baselines: seq<Baseline>,
    items: seq<ComparisonItem>)

  predicate SameAttempt(e: Execution, f: Execution) {
    && e.manifest.conversation.Some? && f.manifest.conversation.Some?
    && e.manifest.conversation.value.attempt == f.manifest.conversation.value.attempt
  }

  /** Two executions are turns of the same conversation attempt, the first one earlier. */
  predicate EarlierTurn(e: Execution, f: Execution) {
    && SameAttempt(e, f)
    && e.manifest.conversation.value.ordinal < f.manifest.conversation.value.ordinal
  }

  /** Every execution of run `r` is terminal. */
  predicate RunDone(es: seq<Execution>, r: nat) {
    forall i :: 0 <= i < |es| && es[i].manifest.run == r ==> es[i].outcome.Terminal()
  }

  predicate RunClean(es: seq<Execution>, r: nat) {
    forall i :: 0 <= i < |es| && es[i].manifest.run == r ==> es[i].outcome == Success
  }

  /** Every turn of attempt `a` is terminal. */
  predicate AttemptDone(es: seq<Execution>, a: nat) {
    forall i :: 0 <= i < |es| && es[i].InAttempt(a) ==> es[i].outcome.Terminal()
  }
}
