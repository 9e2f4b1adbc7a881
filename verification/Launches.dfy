/** The launches: each one appends a run with its complete manifest, or raises (`None`). */
module Launches {
  import opened Wrappers
  import opened Rows
  import Comparison

  function FreshExecution(m: Manifest): Execution {
    Execution(m, Pending, NoClaim, "", None, 0, None, None, None, None, None, None, NOTHING_OBSERVED, Valid)
  }

  function FreshExecutions(ms: seq<Manifest>): (es: seq<Execution>)
    ensures |es| == |ms|
    ensures forall k :: 0 <= k < |ms| ==> es[k] == FreshExecution(ms[k])
  {
    seq(|ms|, k requires 0 <= k < |ms| => FreshExecution(ms[k]))
  }

  function FreshRun(v: nat, revision: Revision, actual: nat, planned: nat, baseline: Option<nat>): Run {
    Run(v, actual, revision.maxConcurrency, revision.delay, planned, baseline, baseline, Queued, None, None, None)
  }

  function FreshAttempt(run: nat, scenarioVersion: nat, baselineAttempt: Option<nat>): Attempt {
    Attempt(run, scenarioVersion, baselineAttempt, "", NoSession, None)
  }

  /** The rows of one launch: a run, its conversation attempt if it has one, and its manifest. */
  datatype NewRun = NewRun(run: Run, attempts: seq<Attempt>, manifests: seq<Manifest>)

  /** All rows of a launch are inserted in one transaction. */
  function AppendRun(db: Tables, n: NewRun): Tables {
    db.(runs := db.runs + [n.run], attempts := db.attempts + n.attempts,
        executions := db.executions + FreshExecutions(n.manifests))
  }

  function EffectiveConcurrency(revision: Revision, sequential: bool, workerMax: nat): nat {
    if sequential then 1 else if revision.maxConcurrency <= workerMax then revision.maxConcurrency else workerMax
  }

  datatype Question = Question(input: FrozenInput, preflightError: string)

  function QuestionManifests(run: nat, v: nat, questions: seq<Question>): (ms: seq<Manifest>)
    ensures |ms| == |questions|
    ensures forall k :: 0 <= k < |ms| ==>
      ms[k] == Manifest(run, k + 1, v, None, questions[k].input, questions[k].preflightError, "", None)
  {
    seq(|questions|, k requires 0 <= k < |questions| =>
      Manifest(run, k + 1, v, None, questions[k].input, questions[k].preflightError, "", None))
  }

  /** `launch_run`, given the frozen inputs of the selected questions. */
  function LaunchRun(db: Tables, v: nat, sequential: bool, workerMax: nat, questions: seq<Question>): Option<NewRun> {
    if v >= |db.revisions| || questions == [] then None
    else
      var revision := db.revisions[v];
      Some(NewRun(FreshRun(v, revision, EffectiveConcurrency(revision, sequential, workerMax), |questions|, None),
                  [], QuestionManifests(|db.runs|, v, questions)))
  }

  function TurnManifests(run: nat, v: nat, attempt: nat, turns: seq<Turn>): (ms: seq<Manifest>)
    ensures |ms| == |turns|
    ensures forall k :: 0 <= k < |ms| ==>
      ms[k] == Manifest(run, k + 1, v, Some(TurnRef(attempt, turns[k].ordinal, turns[k].id)),
                        turns[k].input, turns[k].preflightError, "", None)
  {
    seq(|turns|, k requires 0 <= k < |turns| =>
      Manifest(run, k + 1, v, Some(TurnRef(attempt, turns[k].ordinal, turns[k].id)),
               turns[k].input, turns[k].preflightError, "", None))
  }

  /** `launch_conversation_scenario` and `retry_conversation_attempt`: one run, one attempt, all turns. */
  function LaunchConversation(db: Tables, v: nat, scenarioVersion: nat): Option<NewRun> {
    if v >= |db.revisions| || scenarioVersion >= |db.scenarios| || db.scenarios[scenarioVersion] == [] then None
    else
      var turns := db.scenarios[scenarioVersion];
      Some(NewRun(FreshRun(v, db.revisions[v], 1, |turns|, None),
                  [FreshAttempt(|db.runs|, scenarioVersion, None)],
                  TurnManifests(|db.runs|, v, |db.attempts|, turns)))
  }

  /** `retry_execution`: a new one-item run under the source run's frozen policy. */
  function LaunchRetry(db: Tables, i: nat): Option<NewRun> {
    if i >= |db.executions| || db.executions[i].manifest.run >= |db.runs|
       || !db.executions[i].outcome.Terminal() || db.executions[i].manifest.conversation.Some? then None
    else
      var source := db.executions[i].manifest;
      var policy := db.runs[source.run];
      var run := Run(source.revision, 1, policy.configuredMaxConcurrency, policy.delay, 1, None, None, Queued, None,
        None, None);
      Some(NewRun(run, [], [source.(run := |db.runs|, order := 1, nonComparableReason := "", baseline := None)]))
  }

  // ---------- baselines and controlled replays ----------

  /** `create_baseline`: membership is every execution of a terminal run with a usable answer. */
  function PromoteBaseline(db: Tables, r: nat): Option<Tables> {
    if || r >= |db.runs| || !db.runs[r].Terminal()
       || !(exists i :: 0 <= i < |db.executions| && db.executions[i].manifest.run == r
                        && db.executions[i].outcome == Success && db.executions[i].validity == Valid)
    then None
    else
      var members := set i: nat | i < |db.executions| && db.executions[i].manifest.run == r;
      Some(db.(baselines := db.baselines + [Baseline(r, members)]))
  }

  /** The members of a baseline in table order, which is question order within a run. */
  function MembersFrom(es: seq<Execution>, members: set<nat>, k: nat): (ms: seq<nat>)
    requires k <= |es|
    ensures forall m :: m in ms <==> k <= m < |es| && m in members
    ensures InRange(ms, |es|)
    decreases |es| - k
  {
    if k == |es| then []
    else if k in members then [k] + MembersFrom(es, members, k + 1)
    else MembersFrom(es, members, k + 1)
  }

  predicate InRange(ms: seq<nat>, bound: nat) {
    forall k :: 0 <= k < |ms| ==> ms[k] < bound
  }

  function ReplayManifest(source: Execution, i: nat, run: nat, order: nat, v: nat): Manifest {
    var reason := Comparison.PreflightReason(source);
    Manifest(run, order, v, None, source.manifest.input,
             if reason.Some? then "COMPARISON_NON_COMPARABLE" else "",
             if reason.Some? then reason.value else "", Some(i))
  }

  function ReplayManifests(es: seq<Execution>, members: seq<nat>, run: nat, v: nat): (ms: seq<Manifest>)
    requires InRange(members, |es|)
    ensures |ms| == |members|
    ensures forall k :: 0 <= k < |ms| ==> ms[k] == ReplayManifest(es[members[k]], members[k], run, k + 1, v)
  {
    seq(|members|, k requires 0 <= k < |members| => ReplayManifest(es[members[k]], members[k], run, k + 1, v))
  }

  /** `launch_controlled_comparison` for a baseline of single-turn questions. */
  function LaunchControlled(db: Tables, b: nat, v: nat, sequential: bool, workerMax: nat): Option<NewRun> {
    if || b >= |db.baselines| || v >= |db.revisions|
       || exists a :: 0 <= a < |db.attempts| && db.attempts[a].run == db.baselines[b].sourceRun
    then None
    else
      var members := MembersFrom(db.executions, db.baselines[b].members, 0);
      if members == [] then None
      else
        var revision := db.revisions[v];
        Some(NewRun(FreshRun(v, revision, EffectiveConcurrency(revision, sequential, workerMax), |members|, Some(b)),
                    [], ReplayManifests(db.executions, members, |db.runs|, v)))
  }

  /** The members' executions, one per turn in turn order, as the replay looks them up by turn. */
  predicate CoversTurns(db: Tables, a: nat, turns: seq<Turn>, sources: seq<nat>, members: set<nat>) {
    && |sources| == |turns| == |members|
    && (forall m :: m in members ==> m < |db.executions| && db.executions[m].InAttempt(a))
    && (forall k :: 0 <= k < |turns| ==>
          && sources[k] in members && sources[k] < |db.executions|
          && db.executions[sources[k]].manifest.conversation.Some?
          && db.executions[sources[k]].manifest.conversation.value.turn == turns[k].id)
  }

  function ReplayTurnManifest(source: Execution, i: nat, run: nat, order: nat, v: nat, attempt: nat,
      turn: Turn): Manifest {
    Manifest(run, order, v, Some(TurnRef(attempt, turn.ordinal, turn.id)), source.manifest.input,
             source.manifest.preflightError, source.manifest.nonComparableReason, Some(i))
  }

  function ReplayTurnManifests(es: seq<Execution>, sources: seq<nat>, turns: seq<Turn>, run: nat, v: nat, attempt: nat):
    (ms: seq<Manifest>)
    requires InRange(sources, |es|) && |sources| == |turns|
    ensures |ms| == |turns|
    ensures forall k :: 0 <= k < |ms| ==>
      ms[k] == ReplayTurnManifest(es[sources[k]], sources[k], run, k + 1, v, attempt, turns[k])
  {
    seq(|turns|, k requires 0 <= k < |turns| =>
      assert sources[k] < |es|;
      ReplayTurnManifest(es[sources[k]], sources[k], run, k + 1, v, attempt, turns[k]))
  }

  /** `launch_controlled_conversation_comparison`: attempt `a` of the source run, its turns and `sources`, one member
      per turn. */
  function LaunchControlledConversation(db: Tables, b: nat, v: nat, a: nat, sources: seq<nat>): Option<NewRun> {
    if || b >= |db.baselines| || v >= |db.revisions| || a >= |db.attempts|
       || db.attempts[a].run != db.baselines[b].sourceRun
       || db.attempts[a].scenarioVersion >= |db.scenarios|
    then None
    else
      var turns := db.scenarios[db.attempts[a].scenarioVersion];
      if turns == [] || !CoversTurns(db, a, turns, sources, db.baselines[b].members) then None
      else
        Some(NewRun(FreshRun(v, db.revisions[v], 1, |turns|, Some(b)),
                    [FreshAttempt(|db.runs|, db.attempts[a].scenarioVersion, Some(a))],
                    ReplayTurnManifests(db.executions, sources, turns, |db.runs|, v, |db.attempts|)))
  }

  /** A request to launch. */
  datatype Plan =
    | Questions(v: nat, sequential: bool, workerMax: nat, questions: seq<Question>)
    | Conversation(v: nat, scenarioVersion: nat)
    | Retry(execution: nat)
    | Controlled(baseline: nat, v: nat, sequential: bool, workerMax: nat)
    | ControlledConversation(baseline: nat, v: nat, attempt: nat, sources: seq<nat>)

  function Planned(db: Tables, plan: Plan): Option<NewRun> {
    match plan
    case Questions(v, sequential, workerMax, questions) => LaunchRun(db, v, sequential, workerMax, questions)
    case Conversation(v, scenarioVersion) => LaunchConversation(db, v, scenarioVersion)
    case Retry(i) => LaunchRetry(db, i)
    case Controlled(b, v, sequential, workerMax) => LaunchControlled(db, b, v, sequential, workerMax)
    case ControlledConversation(b, v, a, sources) => LaunchControlledConversation(db, b, v, a, sources)
  }

  /** The insert aborts when the concurrency-bounds constraint is violated. */
  function Launched(db: Tables, plan: Plan): Option<Tables> {
    match Planned(db, plan)
    case None => None
    case Some(n) => if n.run.ConcurrencyBounds() then Some(AppendRun(db, n)) else None
  }
}
