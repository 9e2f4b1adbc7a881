/** The answer that exact comparison compares: normalized text, or the canonical text of a structured answer. */
module OperatorAnswers {
  import opened Wrappers
  import opened CanonicalJson
  import AnswerText
  import JsonPrinter

  /** `exact_operator_answer`; `structured` holds the fields of a stored structured answer. */
  function ExactAnswer(display: string, raw: string, structured: Option<seq<Field>>): string {
    match structured
    case None => AnswerText.Normalize(Shown(display, raw))
    case Some(fields) => JsonPrinter.CanonicalText(NormalizeTree(Obj(fields)))
  }

  /** `semantic_operator_answer`: complete and not normalized. */
  function SemanticAnswer(display: string, raw: string, structured: Option<seq<Field>>): string {
    match structured
    case None => Shown(display, raw)
    case Some(fields) => JsonPrinter.CanonicalText(Obj(fields))
  }

  function Shown(display: string, raw: string): string { if display != "" then display else raw }

  /** The text of a plain answer is what is displayed of it, or the raw answer when nothing is. */
  predicate IsTextOf(text: string, display: string, raw: string) {
    (display != "" ==> text == display) && (display == "" ==> text == raw)
  }

  /** Two plain answers are exactly equal when the lines of their texts are, trailing blanks aside; for a meaning they
      are their texts. */
  lemma PlainAnswersAgreeIff(display: string, raw: string, text: string, otherDisplay: string, otherRaw: string,
      other: string)
    requires IsTextOf(text, display, raw) && IsTextOf(other, otherDisplay, otherRaw)
    ensures ExactAnswer(display, raw, None) == ExactAnswer(otherDisplay, otherRaw, None) <==>
      AnswerText.TrimmedLines(text) == AnswerText.TrimmedLines(other)
    ensures SemanticAnswer(display, raw, None) == text
  {
    AnswerText.SameTextIffSameLines(text, other);
  }

  /** Two values that say the same: equal but for the order of keys, and for the line ends of every string in them and
      the blanks in front of those, however deep. Keys are compared exactly. */
  predicate SameAnswer(a: Json, b: Json)
    decreases a
  {
    match a
    case Null => b.Null?
    case Bool(truth) => b.Bool? && b.truth == truth
    case Num(number) => b.Num? && b.number == number
    case Str(text) => b.Str? && AnswerText.TrimmedLines(b.text) == AnswerText.TrimmedLines(text)
    case Arr(items) =>
      b.Arr? && |b.items| == |items| && forall k :: 0 <= k < |items| ==> SameAnswer(items[k], b.items[k])
    case Obj(fields) =>
      b.Obj? && |b.fields| == |fields| && forall k :: 0 <= k < |fields| ==> SaidIn(fields[k], b.fields)
  }

  predicate SaidIn(f: Field, others: seq<Field>)
    decreases f, 1
  {
    exists m :: 0 <= m < |others| && Says(others[m], f)
  }

  /** The other field has the same key and says the same. */
  predicate Says(other: Field, f: Field)
    decreases f, 0
  {
    other.key == f.key && SameAnswer(f.value, other.value)
  }

  lemma {:induction false} NormalizedTreesAgree(a: Json, b: Json)
    ensures SameTree(NormalizeTree(a), NormalizeTree(b)) <==> SameAnswer(a, b)
    decreases a
  {
    match a
    case Str(text) => if b.Str? { AnswerText.SameTextIffSameLines(text, b.text); }
    case Arr(items) =>
      if b.Arr? && |b.items| == |items| {
        forall k | 0 <= k < |items| ensures ItemsAgree(items[k], b.items[k]) {
          NormalizedTreesAgree(items[k], b.items[k]);
        }
        NormalizedItemsAgree(items, b.items);
      }
    case Obj(fields) =>
      if b.Obj? && |b.fields| == |fields| {
        forall k, m | 0 <= k < |fields| && 0 <= m < |b.fields| ensures ItemsAgree(fields[k].value, b.fields[m].value) {
          NormalizedTreesAgree(fields[k].value, b.fields[m].value);
        }
        NormalizedFieldsAgree(fields, b.fields);
      }
    case _ =>
  }

  predicate ItemsAgree(a: Json, b: Json) { SameTree(NormalizeTree(a), NormalizeTree(b)) <==> SameAnswer(a, b) }

  lemma NormalizedItemsAgree(items: seq<Json>, others: seq<Json>)
    requires |others| == |items| && forall k :: 0 <= k < |items| ==> ItemsAgree(items[k], others[k])
    ensures SameTree(NormalizeTree(Arr(items)), NormalizeTree(Arr(others))) <==> SameAnswer(Arr(items), Arr(others))
  {
    var a, b := NormalizeTree(Arr(items)), NormalizeTree(Arr(others));
    forall k | 0 <= k < |items| ensures SameTree(a.items[k], b.items[k]) <==> SameAnswer(items[k], others[k]) {
      assert ItemsAgree(items[k], others[k]);
    }
    assert (forall k :: 0 <= k < |items| ==> SameTree(a.items[k], b.items[k])) <==>
           (forall k :: 0 <= k < |items| ==> SameAnswer(items[k], others[k]));
  }

  lemma NormalizedFieldsAgree(fields: seq<Field>, others: seq<Field>)
    requires |others| == |fields|
    requires forall k, m :: 0 <= k < |fields| && 0 <= m < |others| ==> ItemsAgree(fields[k].value, others[m].value)
    ensures SameTree(NormalizeTree(Obj(fields)), NormalizeTree(Obj(others))) <==> SameAnswer(Obj(fields), Obj(others))
  {
    var a, b := NormalizeTree(Obj(fields)), NormalizeTree(Obj(others));
    forall k, m | 0 <= k < |fields| && 0 <= m < |others|
      ensures FieldsMatch(a.fields[k], b.fields[m]) <==> Says(others[m], fields[k])
    {
      assert ItemsAgree(fields[k].value, others[m].value);
    }
    if SameTree(a, b) {
      forall k | 0 <= k < |fields| ensures SaidIn(fields[k], others) {
        SameTreesAreMatched(a.fields, b.fields, k);
        var m :| 0 <= m < |b.fields| && FieldsMatch(a.fields[k], b.fields[m]);
        assert Says(others[m], fields[k]);
      }
    }
    if SameAnswer(Obj(fields), Obj(others)) {
      forall k | 0 <= k < |a.fields| ensures HasMatch(a.fields[k], b.fields) {
        assert SaidIn(fields[k], others);
        var m :| 0 <= m < |others| && Says(others[m], fields[k]);
        assert FieldsMatch(a.fields[k], b.fields[m]);
      }
      MatchedTreesAreSame(a.fields, b.fields);
    }
  }

  lemma SameTreesAreMatched(fields: seq<Field>, others: seq<Field>, k: nat)
    requires SameTree(Obj(fields), Obj(others)) && k < |fields|
    ensures HasMatch(fields[k], others)
  {
    var m :| 0 <= m < |others| && others[m].key == fields[k].key && SameTree(fields[k].value, others[m].value);
    assert FieldsMatch(fields[k], others[m]);
  }

  predicate FieldsMatch(f: Field, g: Field) { g.key == f.key && SameTree(f.value, g.value) }

  predicate HasMatch(f: Field, gs: seq<Field>) { exists m :: 0 <= m < |gs| && FieldsMatch(f, gs[m]) }

  lemma MatchedTreesAreSame(fields: seq<Field>, others: seq<Field>)
    requires |fields| == |others| && forall k :: 0 <= k < |fields| ==> HasMatch(fields[k], others)
    ensures SameTree(Obj(fields), Obj(others))
  {
    if !SameTree(Obj(fields), Obj(others)) { var k := Unmatched(fields, others); }
  }

  lemma Unmatched(fields: seq<Field>, others: seq<Field>) returns (k: nat)
    requires |fields| == |others| && !SameTree(Obj(fields), Obj(others))
    ensures k < |fields| && !HasMatch(fields[k], others)
  {
    k :| k < |fields| && forall m :: 0 <= m < |others| ==> !FieldsMatch(fields[k], others[m]);
  }

  /** Two structured answers are exactly equal when they say the same in this sense; what was shown or captured raw
      beside them does not matter. */
  lemma StructuredAnswersAgreeIff(display: string, raw: string, fields: seq<Field>,
      otherDisplay: string, otherRaw: string, others: seq<Field>)
    requires WellFormed(Obj(fields)) && WellFormed(Obj(others))
    ensures ExactAnswer(display, raw, Some(fields)) == ExactAnswer(otherDisplay, otherRaw, Some(others)) <==>
      SameAnswer(Obj(fields), Obj(others))
    ensures SemanticAnswer(display, raw, Some(fields)) == SemanticAnswer(otherDisplay, otherRaw, Some(others)) <==>
      SameTree(Obj(fields), Obj(others))
  {
    NormalizeTreeIsIdempotent(Obj(fields));
    NormalizeTreeIsIdempotent(Obj(others));
    NormalizedTreesAgree(Obj(fields), Obj(others));
    JsonPrinter.CanonicalTextIsFaithful(NormalizeTree(Obj(fields)), NormalizeTree(Obj(others)));
    JsonPrinter.CanonicalTextIsFaithful(Obj(fields), Obj(others));
  }

  /** The canonical text of a structured answer is one line without trailing blanks, so it is its own normal form. */
  lemma TextIsItsOwnLine(fields: seq<Field>)
    ensures var text := JsonPrinter.CanonicalText(Obj(fields));
      AnswerText.Lines(text) == [text] && AnswerText.TrimmedLines(text) == [text]
  {
    var text, sorted := JsonPrinter.CanonicalText(Obj(fields)), Canonical(Obj(fields)).fields;
    assert text == "{" + JsonPrinter.PrintFields(sorted, "");
    JsonPrinter.PrintIsOneLine(Canonical(Obj(fields)), "");
    JsonPrinter.FieldsEnd(sorted, "");
    AnswerText.LinesAfterLine(text, "");
    assert AnswerText.RStrip(text) == text;
  }

  /** A plain answer compares equal to a structured one exactly when it consists of one line, trailing blanks aside, and
      that line is the canonical text of the structured answer. */
  lemma MixedAnswersAgreeIff(display: string, raw: string, plain: string, otherDisplay: string, otherRaw: string,
      fields: seq<Field>)
    requires IsTextOf(plain, display, raw)
    ensures ExactAnswer(display, raw, None) == ExactAnswer(otherDisplay, otherRaw, Some(fields)) <==>
      AnswerText.TrimmedLines(plain) == [JsonPrinter.CanonicalText(NormalizeTree(Obj(fields)))]
  {
    var tree := NormalizeTree(Obj(fields));
    var text := JsonPrinter.CanonicalText(tree);
    TextIsItsOwnLine(tree.fields);
    AnswerText.NormalizeIsOneScan(plain);
    AnswerText.TrimmedLinesAreLines(plain);
    AnswerText.LinesOfJoin(AnswerText.TrimmedLines(plain));
  }

  /** So no structured answer is told apart from every plain one: its own canonical text is the one it equals. */
  lemma EveryStructuredAnswerHasAPlainTwin(fields: seq<Field>, display: string, raw: string)
    ensures ExactAnswer(JsonPrinter.CanonicalText(NormalizeTree(Obj(fields))), "", None)
            == ExactAnswer(display, raw, Some(fields))
  {
    var tree := NormalizeTree(Obj(fields));
    TextIsItsOwnLine(tree.fields);
    var text := JsonPrinter.CanonicalText(tree);
    MixedAnswersAgreeIff(text, "", text, display, raw, fields);
    assert JsonPrinter.CanonicalText(tree) == "{" + JsonPrinter.PrintFields(Canonical(tree).fields, "");
  }

  /** The five fields an adapter stores. */
  function Stored(answerType: Json, text: string, kind: Json, payload: Json): seq<Field> {
    [Field("schema_version", Str("opss-structured-answer-v1")), Field("answer_type", answerType),
     Field("text", Str(text)), Field("response_kind", kind), Field("response_payload", payload)]
  }

  /** A plain answer and a structured one with the stored fields that compare equal though only one is structured. */
  lemma PlainCanEqualStructured() returns (plain: string)
    ensures ExactAnswer(plain, "", None)
            == ExactAnswer("yes", "", Some(Stored(Str("text"), "yes", Str("summary"), Null)))
  {
    var fields := Stored(Str("text"), "yes", Str("summary"), Null);
    plain := JsonPrinter.CanonicalText(NormalizeTree(Obj(fields)));
    EveryStructuredAnswerHasAPlainTwin(fields, "yes", "");
  }
}
