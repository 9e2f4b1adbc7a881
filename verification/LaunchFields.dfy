/** What each launch freezes, field by field: where the policy of the new run and the inputs of its rows come from, and
    exactly when a launch is refused. */
module LaunchFields {
  import opened Wrappers
  import opened Rows
  import opened Launches
  import opened TableInvariants
  import opened RowHistory
  import Comparison

  /** Nothing is changed, one run is added, and with it these numbers of rows and attempts. */
  predicate AddsOneRun(db: Tables, after: Tables, rows: nat, attempts: nat) {
    && after == db.(runs := after.runs, executions := after.executions, attempts := after.attempts)
    && |after.runs| == |db.runs| + 1 && after.runs[..|db.runs|] == db.runs
    && |after.executions| == |db.executions| + rows && after.executions[..|db.executions|] == db.executions
    && |after.attempts| == |db.attempts| + attempts && after.attempts[..|db.attempts|] == db.attempts
  }

  /** A run that waits to be claimed, under this policy. */
  predicate NewRunWith(run: Run, v: nat, actual: nat, configured: nat, delay: nat, planned: nat,
      baseline: Option<nat>) {
    && run.revision == v && run.actualConcurrency == actual && run.configuredMaxConcurrency == configured
    && run.delay == delay && run.totalPlanned == planned
    && run.comparisonBaseline == baseline && run.comparison == baseline
    && run.state == Queued && run.startedAt.None? && run.completedAt.None? && run.nextDispatchAt.None?
  }

  /** Row `e` is new and is the `order`-th of run `r`. */
  predicate NewRowOf(e: Execution, r: nat, order: nat, v: nat) {
    IsNew(e) && e.manifest.run == r && e.manifest.order == order && e.manifest.revision == v
  }

  // ---------- retries ----------

  /** A retry is one new row under the policy of its source's run, one claim at a time: it submits the same frozen input
      to the same revision, and is as unfit to be sent as its source was. */
  lemma RetryCarries(db: Tables, i: nat)
    requires Launched(db, Retry(i)).Some?
    ensures i < |db.executions| && db.executions[i].manifest.run < |db.runs|
    ensures var after, source := Launched(db, Retry(i)).value, db.executions[i].manifest;
      && AddsOneRun(db, after, 1, 0)
      && var row, policy := after.executions[|db.executions|], db.runs[source.run];
      && NewRunWith(after.runs[|db.runs|], source.revision, 1, policy.configuredMaxConcurrency, policy.delay, 1, None)
      && NewRowOf(row, |db.runs|, 1, source.revision)
      && row.manifest.input == source.input && row.manifest.preflightError == source.preflightError
      && row.manifest.conversation.None? && row.manifest.baseline.None? && row.manifest.nonComparableReason == ""
  {
  }

  /** Any ended single question can be retried, and nothing else. */
  lemma RetryRefusedIff(db: Tables, i: nat)
    requires Sound(db)
    ensures Launched(db, Retry(i)).None? <==>
      || i >= |db.executions| || db.executions[i].manifest.conversation.Some?
      || db.executions[i].outcome == Pending || db.executions[i].outcome == Running
  {
    if i < |db.executions| {
      assert RowLinked(db, db.executions[i]);
      assert RunLinked(db, db.runs[db.executions[i].manifest.run]);
    }
  }

  // ---------- new runs ----------

  /** As many claims at a time as the revision and the workers allow, or one when asked to go one by one. */
  function Allowed(maxConcurrency: nat, sequential: bool, workerMax: nat): nat {
    if sequential then 1 else if workerMax < maxConcurrency then workerMax else maxConcurrency
  }

  lemma QuestionsFreeze(db: Tables, v: nat, sequential: bool, workerMax: nat, questions: seq<Question>)
    ensures Launched(db, Questions(v, sequential, workerMax, questions)).None? <==>
      v >= |db.revisions| || questions == [] || db.revisions[v].maxConcurrency == 0 || (!sequential && workerMax == 0)
    ensures Launched(db, Questions(v, sequential, workerMax, questions)).Some? ==>
      var after, revision := Launched(db, Questions(v, sequential, workerMax, questions)).value, db.revisions[v];
      && AddsOneRun(db, after, |questions|, 0)
      && NewRunWith(after.runs[|db.runs|], v, Allowed(revision.maxConcurrency, sequential, workerMax),
                    revision.maxConcurrency, revision.delay, |questions|, None)
      && forall k :: 0 <= k < |questions| ==>
        QuestionRow(after.executions[|db.executions| + k], |db.runs|, k, v, questions[k])
  {
  }

  predicate QuestionRow(e: Execution, r: nat, k: nat, v: nat, question: Question) {
    && NewRowOf(e, r, k + 1, v)
    && e.manifest.input == question.input && e.manifest.preflightError == question.preflightError
    && e.manifest.conversation.None? && e.manifest.baseline.None? && e.manifest.nonComparableReason == ""
  }

  /** A fresh attempt without a session, for the conversation run `r`. */
  predicate NewAttempt(a: Attempt, r: nat, scenario: nat, baseline: Option<nat>) {
    && a.run == r && a.scenarioVersion == scenario && a.baselineAttempt == baseline
    && a.session == "" && a.state == NoSession && a.completedAt.None?
  }

  lemma ConversationFreezes(db: Tables, v: nat, scenario: nat)
    ensures Launched(db, Conversation(v, scenario)).None? <==>
      || v >= |db.revisions| || scenario >= |db.scenarios| || db.scenarios[scenario] == []
      || db.revisions[v].maxConcurrency == 0
    ensures Launched(db, Conversation(v, scenario)).Some? ==>
      var after, turns := Launched(db, Conversation(v, scenario)).value, db.scenarios[scenario];
      && AddsOneRun(db, after, |turns|, 1)
      && NewRunWith(after.runs[|db.runs|], v, 1, db.revisions[v].maxConcurrency, db.revisions[v].delay, |turns|, None)
      && NewAttempt(after.attempts[|db.attempts|], |db.runs|, scenario, None)
      && forall k :: 0 <= k < |turns| ==>
           TurnRow(after.executions[|db.executions| + k], |db.runs|, k, v, |db.attempts|, turns[k])
  {
  }

  predicate TurnRow(e: Execution, r: nat, k: nat, v: nat, attempt: nat, turn: Turn) {
    && NewRowOf(e, r, k + 1, v) && e.manifest.conversation == Some(TurnRef(attempt, turn.ordinal, turn.id))
    && e.manifest.input == turn.input && e.manifest.preflightError == turn.preflightError
    && e.manifest.baseline.None? && e.manifest.nonComparableReason == ""
  }

  // ---------- replays ----------

  /** A baseline observation that a replay can be compared with. */
  predicate Replayable(e: Execution) {
    && e.validity == Valid && e.manifest.preflightError == "" && e.manifest.input.submitted != ""
    && e.outcome == Success && e.observation.rawAnswer != ""
  }

  /** Why it cannot, the first that applies. */
  predicate ReasonFor(e: Execution, reason: string) {
    if e.validity != Valid then reason == "BASELINE_EXECUTION_INVALID"
    else if e.manifest.preflightError != "" then reason == "FROZEN_BINDING_UNAVAILABLE"
    else if e.manifest.input.submitted == "" then reason == "CONCRETE_QUESTION_MISSING"
    else if e.outcome != Success || e.observation.rawAnswer == "" then reason == "BASELINE_NO_USABLE_ANSWER"
    else reason == ""
  }

  /** The replay of member `m`: its input, and no call when there is nothing to compare with. */
  predicate ReplayRow(db: Tables, e: Execution, r: nat, k: nat, v: nat, m: nat)
    requires m < |db.executions|
  {
    var source := db.executions[m];
    && NewRowOf(e, r, k + 1, v) && e.manifest.conversation.None? && e.manifest.baseline == Some(m)
    && e.manifest.input == source.manifest.input && ReasonFor(source, e.manifest.nonComparableReason)
    && e.manifest.preflightError == (if Replayable(source) then "" else "COMPARISON_NON_COMPARABLE")
  }

  /** The members of the baseline, each once, in the order of their rows. */
  ghost predicate InOrder(members: set<nat>, listed: seq<nat>, bound: nat) {
    && (forall j, k :: 0 <= j < k < |listed| ==> listed[j] < listed[k])
    && forall m: nat :: m in listed <==> m in members && m < bound
  }

  predicate AscendingFrom(ms: seq<nat>, k: nat) {
    && (forall j :: 0 <= j < |ms| ==> k <= ms[j])
    && (forall i, j :: 0 <= i < j < |ms| ==> ms[i] < ms[j])
  }

  lemma {:induction false} MembersInOrder(es: seq<Execution>, members: set<nat>, k: nat)
    requires k <= |es|
    ensures AscendingFrom(MembersFrom(es, members, k), k)
    decreases |es| - k
  {
    if k < |es| {
      MembersInOrder(es, members, k + 1);
      OneMoreInOrder(MembersFrom(es, members, k + 1), k);
    }
  }

  lemma OneMoreInOrder(rest: seq<nat>, k: nat)
    requires AscendingFrom(rest, k + 1)
    ensures AscendingFrom([k] + rest, k) && AscendingFrom(rest, k)
  {
    var ms := [k] + rest;
    assert forall j :: 1 <= j < |ms| ==> ms[j] == rest[j - 1];
  }

  lemma ReplayManifestIsRow(db: Tables, m: nat, r: nat, k: nat, v: nat)
    requires m < |db.executions|
    ensures ReplayRow(db, FreshExecution(ReplayManifest(db.executions[m], m, r, k + 1, v)), r, k, v, m)
  {
  }

  lemma ReplaysFreeze(db: Tables, b: nat, v: nat, sequential: bool, workerMax: nat) returns (listed: seq<nat>)
    requires Launched(db, Controlled(b, v, sequential, workerMax)).Some?
    ensures b < |db.baselines| && v < |db.revisions|
    ensures var after, revision := Launched(db, Controlled(b, v, sequential, workerMax)).value, db.revisions[v];
      && InOrder(db.baselines[b].members, listed, |db.executions|)
      && AddsOneRun(db, after, |listed|, 0)
      && NewRunWith(after.runs[|db.runs|], v, Allowed(revision.maxConcurrency, sequential, workerMax),
                    revision.maxConcurrency, revision.delay, |listed|, Some(b))
      && ReplayRows(db, after.executions, listed, v)
  {
    listed := MembersFrom(db.executions, db.baselines[b].members, 0);
    MembersInOrder(db.executions, db.baselines[b].members, 0);
    ReplayRowsAre(db, listed, v);
  }

  predicate ReplayRows(db: Tables, es: seq<Execution>, listed: seq<nat>, v: nat) {
    && |es| == |db.executions| + |listed|
    && forall k :: 0 <= k < |listed| ==>
         listed[k] < |db.executions| && ReplayRow(db, es[|db.executions| + k], |db.runs|, k, v, listed[k])
  }

  lemma ReplayRowsAre(db: Tables, listed: seq<nat>, v: nat)
    requires InRange(listed, |db.executions|)
    ensures ReplayRows(db, db.executions
      + FreshExecutions(ReplayManifests(db.executions, listed, |db.runs|, v)), listed,
                       v)
  {
    forall k | 0 <= k < |listed|
      ensures ReplayRow(db, FreshExecution(ReplayManifest(db.executions[listed[k]], listed[k], |db.runs|, k + 1, v)),
                        |db.runs|, k, v, listed[k])
    {
      ReplayManifestIsRow(db, listed[k], |db.runs|, k, v);
    }
  }

  lemma ReplaysRefusedIff(db: Tables, b: nat, v: nat, sequential: bool, workerMax: nat)
    ensures Launched(db, Controlled(b, v, sequential, workerMax)).None? <==>
      || b >= |db.baselines| || v >= |db.revisions|
      || (exists a :: 0 <= a < |db.attempts| && db.attempts[a].run == db.baselines[b].sourceRun)
      || (forall m: nat :: m < |db.executions| ==> m !in db.baselines[b].members)
      || db.revisions[v].maxConcurrency == 0 || (!sequential && workerMax == 0)
  {
    if b < |db.baselines| {
      var ms := MembersFrom(db.executions, db.baselines[b].members, 0);
      if ms != [] { assert ms[0] in ms; }
    }
  }

  /** The replay of a turn keeps what its source was frozen with, its unfitness to be sent included. */
  predicate ReplayTurnRow(db: Tables, e: Execution, r: nat, k: nat, v: nat, attempt: nat, turn: Turn, m: nat)
    requires m < |db.executions|
  {
    var source := db.executions[m].manifest;
    && NewRowOf(e, r, k + 1, v) && e.manifest.conversation == Some(TurnRef(attempt, turn.ordinal, turn.id))
    && e.manifest.baseline == Some(m) && e.manifest.input == source.input
    && e.manifest.preflightError == source.preflightError
    && e.manifest.nonComparableReason == source.nonComparableReason
  }

  lemma ReplayTurnsFreeze(db: Tables, b: nat, v: nat, a: nat, sources: seq<nat>)
    requires Launched(db, ControlledConversation(b, v, a, sources)).Some?
    ensures b < |db.baselines| && v < |db.revisions| && a < |db.attempts|
    ensures db.attempts[a].scenarioVersion < |db.scenarios| && db.attempts[a].run == db.baselines[b].sourceRun
    ensures var after := Launched(db, ControlledConversation(b, v, a, sources)).value;
      var turns, revision := db.scenarios[db.attempts[a].scenarioVersion], db.revisions[v];
      && |sources| == |turns| && AddsOneRun(db, after, |turns|, 1)
      && NewRunWith(after.runs[|db.runs|], v, 1, revision.maxConcurrency, revision.delay, |turns|, Some(b))
      && NewAttempt(after.attempts[|db.attempts|], |db.runs|, db.attempts[a].scenarioVersion, Some(a))
      && forall k :: 0 <= k < |turns| ==>
           && sources[k] < |db.executions| && sources[k] in db.baselines[b].members
           && ReplayTurnRow(db, after.executions[|db.executions| + k], |db.runs|, k, v, |db.attempts|, turns[k],
             sources[k])
  {
  }

  /** The members are turns of the attempt, one for each turn of its scenario version, and `sources` lists them. */
  predicate OneMemberPerTurn(db: Tables, a: nat, members: set<nat>, turns: seq<Turn>, sources: seq<nat>) {
    && |members| == |turns| && |sources| == |turns|
    && (forall m :: m in members ==> m < |db.executions| && IsTurnOf(db.executions[m], a))
    && (forall k :: 0 <= k < |turns| ==>
          && sources[k] in members && sources[k] < |db.executions|
          && IsTurn(db.executions[sources[k]], turns[k].id))
  }

  predicate IsTurnOf(e: Execution, a: nat) {
    e.manifest.conversation.Some? && e.manifest.conversation.value.attempt == a
  }

  predicate IsTurn(e: Execution, turn: nat) {
    e.manifest.conversation.Some? && e.manifest.conversation.value.turn == turn
  }

  lemma ReplayTurnsRefusedIff(db: Tables, b: nat, v: nat, a: nat, sources: seq<nat>)
    ensures Launched(db, ControlledConversation(b, v, a, sources)).Some? <==>
      && b < |db.baselines| && v < |db.revisions| && a < |db.attempts| && db.revisions[v].maxConcurrency > 0
      && db.attempts[a].run == db.baselines[b].sourceRun && db.attempts[a].scenarioVersion < |db.scenarios|
      && var turns := db.scenarios[db.attempts[a].scenarioVersion];
      && turns != [] && OneMemberPerTurn(db, a, db.baselines[b].members, turns, sources)
  {
    if b < |db.baselines| && a < |db.attempts| && db.attempts[a].scenarioVersion < |db.scenarios| {
      var turns := db.scenarios[db.attempts[a].scenarioVersion];
      assert CoversTurns(db, a, turns, sources, db.baselines[b].members)
        <==> OneMemberPerTurn(db, a, db.baselines[b].members, turns, sources);
    }
  }

  // ---------- baselines ----------

  /** A run is promoted whole, if it ended with at least one valid success. */
  lemma BaselineIsWholeRun(db: Tables, r: nat)
    ensures PromoteBaseline(db, r).Some? <==>
      && r < |db.runs| && db.runs[r].state in {Completed, CompletedWithErrors, Failed}
      && exists i :: 0 <= i < |db.executions| && UsableMember(db.executions[i], r)
    ensures PromoteBaseline(db, r).Some? ==>
      var after := PromoteBaseline(db, r).value;
      && after == db.(baselines := after.baselines) && |after.baselines| == |db.baselines| + 1
      && after.baselines[..|db.baselines|] == db.baselines && after.baselines[|db.baselines|].sourceRun == r
      && forall i: nat :: i in after.baselines[|db.baselines|].members <==>
           i < |db.executions| && db.executions[i].manifest.run == r
  {
  }

  predicate UsableMember(e: Execution, r: nat) { e.manifest.run == r && e.outcome == Success && e.validity == Valid }
}
