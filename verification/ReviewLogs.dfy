/** What the review log of one row looks like once its completion and everybody after it have written to it. */
module ReviewLogs {
  import opened Wrappers
  import opened Rows
  import opened Attention
  import Completion

  /** The exact comparison is the first event of a row with a CHANGED item, and no other event of any row. */
  predicate ExactFirst(s: Attention) {
    && (s.item == Some(Changed) ==> s.events != [])
    && forall k :: 0 <= k < |s.events| ==> (IsExactEvent(s.events[k]) <==> k == 0 && s.item == Some(Changed))
  }

  predicate FoundEquivalent(rs: seq<Semantic>) {
    exists k :: 0 <= k < |rs| && rs[k].verdict == Equivalent
  }

  predicate Lowered(events: seq<Event>) {
    exists k :: 0 <= k < |events| && IsLowering(events[k])
  }

  /** The system lowers attention on an EQUIVALENT result alone. */
  predicate LogSound(s: Attention) {
    && Inv(s) && ExactFirst(s) && (Lowered(s.events) ==> FoundEquivalent(s.semantics))
    && (s.item.None? ==> s.semantics == [])
  }

  /** At most one event was added; a lowering only if an EQUIVALENT result was found. */
  predicate OneMoreEvent(before: seq<Event>, after: seq<Event>, rs: seq<Semantic>) {
    && before <= after && |after| <= |before| + 1
    && (|after| > |before| ==>
          !IsExactEvent(after[|before|]) && (IsLowering(after[|before|]) ==> FoundEquivalent(rs)))
  }

  predicate Grown(s: Attention, t: Attention) {
    && t.item == s.item && OneMoreEvent(s.events, t.events, t.semantics) && s.semantics <= t.semantics
    && (s.item.None? ==> t.semantics == s.semantics)
  }

  lemma GrownKeepsLog(s: Attention, t: Attention)
    requires LogSound(s) && Inv(t) && Grown(s, t)
    ensures LogSound(t)
  {
    if FoundEquivalent(s.semantics) {
      var k :| 0 <= k < |s.semantics| && s.semantics[k].verdict == Equivalent;
      assert t.semantics[k].verdict == Equivalent;
    }
    if Lowered(t.events) {
      var k :| 0 <= k < |t.events| && IsLowering(t.events[k]);
      if k < |s.events| { assert s.events[k] == t.events[k]; }
    }
  }

  lemma TriageGrows(s: Attention, r: Semantic, version: string, result: string, now: Time)
    requires s.semantics != [] && s.semantics[|s.semantics| - 1] == r
    requires Triage(s, r.verdict, version, result, now).Some?
    ensures var t := Triage(s, r.verdict, version, result, now).value;
      t.item == s.item && t.semantics == s.semantics && OneMoreEvent(s.events, t.events, t.semantics)
  {
    SemanticCauseIsNotExact(version, r.verdict, result);
    assert r.verdict == Equivalent ==> FoundEquivalent(s.semantics);
    var e := if r.verdict == Equivalent then Event(Clear, None, LowerCause(version, result), now)
             else Event(Required, None, RaiseCause(version, r.verdict, result), now);
    assert !IsExactEvent(e) && (IsLowering(e) ==> FoundEquivalent(s.semantics));
  }

  lemma AttendingKeepsLog(s: Attention, step: Step)
    requires LogSound(s) && Enabled(s, step) && !step.Exact?
    ensures LogSound(Apply(s, step)) && Apply(s, step).item == s.item
  {
    StepKeepsInv(s, step);
    var t := Apply(s, step);
    match step
    case Compare(applicable, c, v, version, result, now) =>
      var r := Semantic(v, c, now);
      var compared := s.(semantics := s.semantics + [r]);
      if t != s { TriageGrows(compared, r, version, result, now); }
      GrownKeepsLog(s, t);
    case Set(actor, state, cause, now) =>
      assert !IsExactEvent(Event(state, Some(actor), cause, now));
      GrownKeepsLog(s, t);
    case Review(actor, good, now) =>
      assert !IsExactEvent(Event(Reviewed, Some(actor), HUMAN_CAUSE, now));
      GrownKeepsLog(s, t);
  }

  /** The comparisons of a completion leave a sound log: attention is required for a CHANGED answer unless it was found
      EQUIVALENT, and for no other. */
  lemma CompletionStartsLog(db: Tables, item: ComparisonItem, r: Completion.Remarks)
    requires Completion.Attend(START, db, Some(item), r).Some?
    requires item.change == Changed ==> Completion.Applicable(db, item)
    ensures var t := Completion.Attend(START, db, Some(item), r).value;
      && LogSound(t) && t.item == Some(item.change)
      && t.review == (if item.change == Changed && r.verdict != Equivalent then Required else Clear)
      && (item.change != Changed ==> t.events == [])
  {
    ExactKeepsInv(START, item.change, r.algorithm, r.item, r.comparedAt);
    ExactCauseIsExact(r.algorithm, r.item);
    if item.change == Changed {
      var compared := RecordExact(START, item.change, r.algorithm, r.item, r.comparedAt).value;
      var result := Semantic(r.verdict, None, r.triagedAt);
      assert LogSound(compared);
      NewestIsKnown(compared);
      AttendingKeepsLog(compared, Compare(true, None, r.verdict, r.version, r.result, r.triagedAt));
    }
  }
}
