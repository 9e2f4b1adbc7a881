/** Exact comparison of a controlled replay with its baseline observation. */
module Comparison {
  import opened Wrappers
  import opened Rows
  import OperatorAnswers

  /** Why a baseline observation cannot be replayed or compared. */
  function PreflightReason(source: Execution): Option<string> {
    if source.validity == Invalid then Some("BASELINE_EXECUTION_INVALID")
    else if source.manifest.preflightError != "" then Some("FROZEN_BINDING_UNAVAILABLE")
    else if source.manifest.input.submitted == "" then Some("CONCRETE_QUESTION_MISSING")
    else if source.outcome != Success || source.observation.rawAnswer == "" then Some("BASELINE_NO_USABLE_ANSWER")
    else None
  }

  /** The comparisons that `_comparison_non_comparable_reason` makes between two conversation turns. */
  function TurnMismatch(db: Tables, b: Execution, c: Execution): Option<string> {
    if b.manifest.conversation.None? || c.manifest.conversation.None? then Some("CONVERSATION_TURN_MISMATCH")
    else if b.manifest.conversation.value.turn != c.manifest.conversation.value.turn then
      Some("CONVERSATION_TURN_MISMATCH")
    else
      var ba, ca := b.manifest.conversation.value.attempt, c.manifest.conversation.value.attempt;
      if ba >= |db.attempts| || ca >= |db.attempts|
         || db.attempts[ba].scenarioVersion != db.attempts[ca].scenarioVersion then Some("SCENARIO_VERSION_MISMATCH")
      else if db.attempts[ca].baselineAttempt != Some(ba) then Some("BASELINE_CONVERSATION_ATTEMPT_MISMATCH")
      else InputMismatch(b, c)
  }

  function QuestionMismatch(b: Execution, c: Execution): Option<string> {
    if b.manifest.input.question != c.manifest.input.question then Some("QUESTION_IDENTITY_MISMATCH")
    else if b.manifest.input.questionVersion != c.manifest.input.questionVersion then Some("QUESTION_VERSION_MISMATCH")
    else InputMismatch(b, c)
  }

  function BindingValues(e: Execution): map<string, string> {
    map name | name in e.manifest.input.bindings :: e.manifest.input.bindings[name].value
  }

  function InputMismatch(b: Execution, c: Execution): Option<string> {
    if b.manifest.input.submitted != c.manifest.input.submitted then Some("CONCRETE_QUESTION_MISMATCH")
    else if BindingValues(b) != BindingValues(c) then Some("FROZEN_BINDING_MISMATCH")
    else None
  }

  function NonComparableReason(db: Tables, b: Execution, c: Execution): Option<string> {
    if c.manifest.nonComparableReason != "" then Some(c.manifest.nonComparableReason)
    else if PreflightReason(b).Some? then PreflightReason(b)
    else if c.validity == Invalid then Some("CURRENT_EXECUTION_INVALID")
    else if c.outcome != Success || c.observation.rawAnswer == "" then Some("CURRENT_NO_USABLE_ANSWER")
    else if b.manifest.conversation.Some? || c.manifest.conversation.Some? then TurnMismatch(db, b, c)
    else QuestionMismatch(b, c)
  }

  function ExactAnswer(e: Execution): string {
    OperatorAnswers.ExactAnswer(e.observation.displayAnswer, e.observation.rawAnswer, e.observation.structured)
  }

  /** The run is compared against the baseline it was launched for, and `b` is one of its members. */
  predicate MembershipAgrees(db: Tables, run: Run, b: nat) {
    && run.comparison.Some? && run.comparison.value < |db.baselines|
    && run.comparisonBaseline == run.comparison
    && b in db.baselines[run.comparison.value].members
  }

  function Classify(db: Tables, i: nat, b: nat): Change
    requires i < |db.executions| && b < |db.executions| && db.executions[i].manifest.run < |db.runs|
  {
    var c, base := db.executions[i], db.executions[b];
    if !MembershipAgrees(db, db.runs[c.manifest.run], b) then NonComparable("BASELINE_MEMBERSHIP_MISMATCH")
    else if NonComparableReason(db, base, c).Some? then NonComparable(NonComparableReason(db, base, c).value)
    else if ExactAnswer(base) == ExactAnswer(c) then Unchanged
    else Changed
  }

  /** `record_exact_comparison` for execution `i`: the items after it. */
  function Record(db: Tables, i: nat): seq<ComparisonItem>
    requires i < |db.executions| && db.executions[i].manifest.run < |db.runs|
  {
    var c := db.executions[i];
    if !c.outcome.Terminal() || c.manifest.baseline.None? || db.runs[c.manifest.run].comparison.None? then db.items
    else if exists k :: 0 <= k < |db.items| && db.items[k].current == i then db.items
    else if c.manifest.baseline.value >= |db.executions| then db.items
    else db.items + [ComparisonItem(i, c.manifest.baseline.value, Classify(db, i, c.manifest.baseline.value))]
  }
}
