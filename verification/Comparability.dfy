/** When an answer change is told at all: exactly which pairs are compared, and which reason is given for the others. */
module Comparability {
  import opened Wrappers
  import opened Rows
  import opened Comparison
  import opened LaunchFields
  import OperatorAnswers

  /** The replay belongs to a run that compares with this baseline, and the other row is one of its members. */
  predicate Member(db: Tables, c: Execution, b: nat)
    requires c.manifest.run < |db.runs|
  {
    var run := db.runs[c.manifest.run];
    && run.comparison.Some? && run.comparisonBaseline == run.comparison && run.comparison.value < |db.baselines|
    && b in db.baselines[run.comparison.value].members
  }

  /** Both are the same turn of the same scenario version, in an attempt that replays that of the other. */
  predicate SameTurn(db: Tables, b: Execution, c: Execution) {
    && b.manifest.conversation.Some? && c.manifest.conversation.Some?
    && var p, q := b.manifest.conversation.value, c.manifest.conversation.value;
    && p.turn == q.turn && p.attempt < |db.attempts| && q.attempt < |db.attempts|
    && db.attempts[p.attempt].scenarioVersion == db.attempts[q.attempt].scenarioVersion
    && db.attempts[q.attempt].baselineAttempt == Some(p.attempt)
  }

  predicate SameVersion(b: Execution, c: Execution) {
    && b.manifest.conversation.None? && c.manifest.conversation.None?
    && b.manifest.input.question == c.manifest.input.question
    && b.manifest.input.questionVersion == c.manifest.input.questionVersion
  }

  /** The same concrete question with the same values bound to the same names; how a value is displayed does not matter.
      */
  predicate SameInput(b: Execution, c: Execution) {
    && b.manifest.input.submitted == c.manifest.input.submitted
    && b.manifest.input.bindings.Keys == c.manifest.input.bindings.Keys
    && forall n :: n in b.manifest.input.bindings ==>
         b.manifest.input.bindings[n].value == c.manifest.input.bindings[n].value
  }

  predicate Answered(c: Execution) { c.validity == Valid && c.outcome == Success && c.observation.rawAnswer != "" }

  predicate Comparable(db: Tables, c: Execution, b: nat)
    requires c.manifest.run < |db.runs| && b < |db.executions|
  {
    var base := db.executions[b];
    && Member(db, c, b) && c.manifest.nonComparableReason == "" && Replayable(base) && Answered(c)
    && (SameTurn(db, base, c) || SameVersion(base, c)) && SameInput(base, c)
  }

  lemma SameBindingsIff(b: Execution, c: Execution)
    ensures InputMismatch(b, c).None? <==> SameInput(b, c)
  {
    var v, w := BindingValues(b), BindingValues(c);
    assert v.Keys == b.manifest.input.bindings.Keys && w.Keys == c.manifest.input.bindings.Keys;
    if SameInput(b, c) { assert v == w; }
    if v == w {
      forall n | n in b.manifest.input.bindings
        ensures n in c.manifest.input.bindings
        ensures b.manifest.input.bindings[n].value == c.manifest.input.bindings[n].value
      {
        assert n in v && v[n] == w[n];
      }
      assert b.manifest.input.bindings.Keys == c.manifest.input.bindings.Keys;
    }
  }

  /** A pair is told changed or unchanged exactly when it is comparable, and unchanged exactly when the exact answers
      are equal too. */
  lemma ClassifyIff(db: Tables, i: nat, b: nat)
    requires i < |db.executions| && b < |db.executions| && db.executions[i].manifest.run < |db.runs|
    ensures Classify(db, i, b).NonComparable? <==> !Comparable(db, db.executions[i], b)
    ensures Classify(db, i, b) == Unchanged <==>
      Comparable(db, db.executions[i], b) && SameExactAnswer(db.executions[b], db.executions[i])
  {
    SameBindingsIff(db.executions[b], db.executions[i]);
  }

  predicate HasItemOf(items: seq<ComparisonItem>, i: nat) {
    exists k :: 0 <= k < |items| && items[k].current == i
  }

  /** An ended replay in a run that compares gets one item, the first time, for the row that it replays; nothing else
      does, and no item is ever taken away. */
  lemma ItemIsRecordedIff(db: Tables, i: nat)
    requires i < |db.executions| && db.executions[i].manifest.run < |db.runs|
    ensures var c, after := db.executions[i], Record(db, i);
      if c.outcome in {Success, Error, Timeout} && c.manifest.baseline.Some?
         && c.manifest.baseline.value < |db.executions| && db.runs[c.manifest.run].comparison.Some?
         && !HasItemOf(db.items, i)
      then
        && |after| == |db.items| + 1 && after[..|db.items|] == db.items
        && after[|db.items|].current == i && after[|db.items|].baseline == c.manifest.baseline.value
        && after[|db.items|].change == Classify(db, i, c.manifest.baseline.value)
      else after == db.items
  {
  }

  predicate SameExactAnswer(b: Execution, c: Execution) {
    OperatorAnswers.ExactAnswer(b.observation.displayAnswer, b.observation.rawAnswer, b.observation.structured)
    == OperatorAnswers.ExactAnswer(c.observation.displayAnswer, c.observation.rawAnswer, c.observation.structured)
  }

  /** The reason for an incomparable pair is that of the first of these that fails. */
  lemma ReasonIsFirstFailure(db: Tables, i: nat, b: nat)
    requires i < |db.executions| && b < |db.executions| && db.executions[i].manifest.run < |db.runs|
    requires Classify(db, i, b).NonComparable?
    ensures var c, base, reason := db.executions[i], db.executions[b], Classify(db, i, b).reason;
      if !Member(db, c, b) then reason == "BASELINE_MEMBERSHIP_MISMATCH"
      else if c.manifest.nonComparableReason != "" then reason == c.manifest.nonComparableReason
      else if !Replayable(base) then ReasonFor(base, reason)
      else if c.validity != Valid then reason == "CURRENT_EXECUTION_INVALID"
      else if !Answered(c) then reason == "CURRENT_NO_USABLE_ANSWER"
      else if !SameTurn(db, base, c) && !SameVersion(base, c) then PlaceReason(db, base, c, reason)
      else if base.manifest.input.submitted != c.manifest.input.submitted then reason == "CONCRETE_QUESTION_MISMATCH"
      else reason == "FROZEN_BINDING_MISMATCH"
  {
    SameBindingsIff(db.executions[b], db.executions[i]);
  }

  /** Why two rows do not stand for the same question, the first reason that applies. */
  predicate PlaceReason(db: Tables, b: Execution, c: Execution, reason: string) {
    if b.manifest.conversation.None? && c.manifest.conversation.None? then
      if b.manifest.input.question != c.manifest.input.question then reason == "QUESTION_IDENTITY_MISMATCH"
      else reason == "QUESTION_VERSION_MISMATCH"
    else if b.manifest.conversation.None? || c.manifest.conversation.None? then reason == "CONVERSATION_TURN_MISMATCH"
    else
      var p, q := b.manifest.conversation.value, c.manifest.conversation.value;
      if p.turn != q.turn then reason == "CONVERSATION_TURN_MISMATCH"
      else if p.attempt >= |db.attempts| || q.attempt >= |db.attempts|
              || db.attempts[p.attempt].scenarioVersion != db.attempts[q.attempt].scenarioVersion
      then reason == "SCENARIO_VERSION_MISMATCH"
      else reason == "BASELINE_CONVERSATION_ATTEMPT_MISMATCH"
  }
}
