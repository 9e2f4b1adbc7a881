/** What each step of reviewing and comparing writes, field by field, and what a whole history of them leaves: every
    human review, every comparison and every event, in their order, with what was said. */
module ReviewHistory {
  import opened Wrappers
  import opened Rows
  import opened Attention

  // ---------- the causes ----------

  /** The verdict as it is stored. */
  predicate IsStoredAs(v: Verdict, named: string) {
    && (v == Equivalent ==> named == "EQUIVALENT") && (v == MaterialChange ==> named == "MATERIAL_CHANGE")
    && (v == Uncertain ==> named == "UNCERTAIN") && (v == ComparatorError ==> named == "ERROR")
  }

  lemma StoredName(v: Verdict, named: string)
    requires IsStoredAs(v, named)
    ensures VerdictName(v) == named
  {
  }

  lemma CauseParts(version: string, v: Verdict, result: string)
    ensures "Semantic comparison " + version + (" " + VerdictName(v)) <= RaiseCause(version, v, result)
  {
    var rest := " (semantic result " + result + ") requires review";
    assert RaiseCause(version, v, result) == "Semantic comparison " + version + (" " + VerdictName(v)) + rest;
  }

  /** The cause of a raised requirement names the comparator and then its verdict. */
  lemma CauseNamesVerdict(version: string, v: Verdict, named: string, result: string)
    requires IsStoredAs(v, named)
    ensures "Semantic comparison " + version + (" " + named) <= RaiseCause(version, v, result)
  {
    StoredName(v, named);
    CauseParts(version, v, result);
  }

  /** A cause that mentions something has it somewhere in the middle of it. */
  lemma ContainsIff(text: string, part: string)
    ensures Contains(text, part) <==> exists head: string, tail: string :: head + part + tail == text
  {
    if Contains(text, part) {
      var k :| 0 <= k <= |text| && FoundAt(text, part, k);
      assert text[..k] + part + text[k + |part|..] == text;
    }
    if head: string, tail: string :| head + part + tail == text {
      assert FoundAt(text, part, |head|);
    }
  }

  // ---------- one step ----------

  /** The event is logged and the state is that of the event, or the cause does not fit and nothing is written at all.
      */
  predicate LoggedOrNothing(before: Attention, otherwise: Attention, after: Attention, e: Event) {
    if |e.cause| > 160 then after == before
    else after == otherwise.(events := otherwise.events + [e], review := e.state)
  }

  /** A human review is appended with what was judged and by whom, becomes the current one, and makes the execution
      reviewed, with an event unless it was reviewed already. */
  lemma ReviewWrites(s: Attention, actor: nat, good: bool, now: Time)
    ensures var t := Apply(s, Review(actor, good, now));
      && t.reviews == s.reviews + [HumanReview(good, actor, s.currentReview)] && t.currentReview == Some(|s.reviews|)
      && t.review == Reviewed && t.item == s.item && t.semantics == s.semantics
      && t.events ==
           if s.review == Reviewed then s.events
           else s.events + [Event(Reviewed, Some(actor), "Human GOOD/BAD review", now)]
  {
  }

  /** A person sets another state with an event of theirs; the same state is left alone. */
  lemma SettingWrites(s: Attention, actor: nat, state: ReviewState, cause: string, now: Time)
    ensures var t := Apply(s, Set(actor, state, cause, now));
      if state == s.review then t == s else LoggedOrNothing(s, s, t, Event(state, Some(actor), cause, now))
  {
  }

  /** The one comparison item of an execution is kept; a CHANGED one requires review of what nobody has reviewed. */
  lemma ExactWrites(s: Attention, change: Change, algorithm: string, item: string, now: Time)
    ensures var t, compared := Apply(s, Exact(change, algorithm, item, now)), s.(item := Some(change));
      if s.item.Some? then t == s
      else if change == Changed && s.review != Reviewed then
        LoggedOrNothing(s, compared, t, Event(Required, None, ExactCause(algorithm, item), now))
      else t == compared
  {
  }

  /** A semantic result is appended for a CHANGED pair it applies to. One that is not EQUIVALENT requires review of what
      is clear; nothing but the lowering of an exact change follows an EQUIVALENT one. */
  lemma ComparisonWrites(s: Attention, c: Option<nat>, v: Verdict, applicable: bool, version: string, result: string,
      now: Time)
    ensures var t, compared := Apply(s, Compare(applicable, c, v, version, result, now)),
                               s.(semantics := s.semantics + [Semantic(v, c, now)]);
      if !applicable || s.item != Some(Changed) then t == s
      else if v != Equivalent && s.review == Clear then
        LoggedOrNothing(s, compared, t, Event(Required, None, RaiseCause(version, v, result), now))
      else if v == Equivalent && ExactChangeOnly(s) then
        LoggedOrNothing(s, compared, t, Event(Clear, None, LowerCause(version, result), now))
      else t == compared
  {
    assert ExactChangeOnly(s.(semantics := s.semantics + [Semantic(v, c, now)])) <==> ExactChangeOnly(s);
  }

  // ---------- over whole traces ----------

  /** What people judged, in order. */
  function Judged(steps: seq<Step>): seq<(nat, bool)> {
    if steps == [] then []
    else
      var n := |steps| - 1;
      Judged(steps[..n]) + if steps[n].Review? then [(steps[n].actor, steps[n].good)] else []
  }

  predicate ReviewsAre(rs: seq<HumanReview>, judged: seq<(nat, bool)>) {
    |rs| == |judged| && forall k :: 0 <= k < |rs| ==> (rs[k].actor, rs[k].good) == judged[k]
  }

  lemma ReviewKept(s: Attention, step: Step)
    requires !step.Review?
    ensures Apply(s, step).reviews == s.reviews && Apply(s, step).currentReview == s.currentReview
  {
  }

  /** In every trace the human reviews are all that people judged, in order and unaltered, and the last one is current.
      */
  lemma {:induction false} ReviewsAreJudgments(states: seq<Attention>, steps: seq<Step>, k: nat)
    requires Behavior(states, steps) && k < |states|
    ensures ReviewsAre(states[k].reviews, Judged(steps[..k]))
    ensures states[k].currentReview == if states[k].reviews == [] then None else Some(|states[k].reviews| - 1)
  {
    if k > 0 {
      var n := k - 1;
      ReviewsAreJudgments(states, steps, n);
      assert StepAt(states, steps, n) && steps[..k][..n] == steps[..n];
      if steps[n].Review? {
        ReviewWrites(states[n], steps[n].actor, steps[n].good, steps[n].now);
      } else {
        ReviewKept(states[n], steps[n]);
      }
    }
  }
}
