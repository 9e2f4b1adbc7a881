/** Freezing the bindings of a prompt template: a loop of text replacements, one binding after the other. */
module Freezing {
  import opened PythonText
  import opened Wrappers

  /** A binding definition in name order; `value` is the rendered fixed value. */
  datatype Definition = Definition(name: string, required: bool, value: Option<string>)

  datatype Frozen = Frozen(name: string, display: string)

  datatype Problem = NoValue(name: string) | NoPlaceholder(name: string)

  datatype Freeze = Freeze(question: string, bindings: seq<Frozen>, problems: seq<Problem>)

  function Marker(name: string): string { "{{" + name + "}}" }

  // ---------- the loop ----------

  /** One definition of the loop. */
  function FreezeOne(f: Freeze, d: Definition): Freeze {
    if d.value.None? then if d.required then f.(problems := f.problems + [NoValue(d.name)]) else f
    else if !Occurs(f.question, Marker(d.name)) then f.(problems := f.problems + [NoPlaceholder(d.name)])
    else f.(question := Replace(f.question, Marker(d.name), d.value.value),
            bindings := f.bindings + [Frozen(d.name, d.value.value)])
  }

  function FreezeAll(f: Freeze, ds: seq<Definition>): Freeze
    decreases |ds|
  {
    if ds == [] then f else FreezeAll(FreezeOne(f, ds[0]), ds[1..])
  }

  function Frozen0(template: string): Freeze { Freeze(template, [], []) }

  lemma {:induction false} FreezeAppend(f: Freeze, ds: seq<Definition>, d: Definition)
    ensures FreezeAll(f, ds + [d]) == FreezeOne(FreezeAll(f, ds), d)
    decreases |ds|
  {
    if ds == [] {
      assert FreezeAll(FreezeOne(f, d), []) == FreezeOne(f, d);
      assert (ds + [d])[1..] == [];
    } else {
      assert (ds + [d])[1..] == ds[1..] + [d];
      FreezeAppend(FreezeOne(f, ds[0]), ds[1..], d);
    }
  }

  /** `_freeze_bindings`, and `_freeze_conversation_turn` where every binding has a value. */
  method FreezeBindings(template: string, definitions: seq<Definition>)
    returns (question: string, bindings: seq<Frozen>, problems: seq<Problem>)
    ensures Freeze(question, bindings, problems) == FreezeAll(Frozen0(template), definitions)
  {
    question, bindings, problems := template, [], [];
    for i := 0 to |definitions|
      invariant Freeze(question, bindings, problems) == FreezeAll(Frozen0(template), definitions[..i])
    {
      var d := definitions[i];
      FreezeAppend(Frozen0(template), definitions[..i], d);
      assert definitions[..i + 1] == definitions[..i] + [d];
      if d.value.None? {
        if d.required { problems := problems + [NoValue(d.name)]; }
        continue;
      }
      var marker := "{{" + d.name + "}}";
      if !Occurs(question, marker) {
        problems := problems + [NoPlaceholder(d.name)];
        continue;
      }
      question := Replace(question, marker, d.value.value);
      bindings := bindings + [Frozen(d.name, d.value.value)];
    }
    assert definitions[..|definitions|] == definitions;
  }

  // ---------- the stored bindings explain the question ----------

  function Refold(text: string, bindings: seq<Frozen>): string
    decreases |bindings|
  {
    if bindings == [] then text
    else Refold(Replace(text, Marker(bindings[0].name), bindings[0].display), bindings[1..])
  }

  lemma {:induction false} RefoldAppend(text: string, bindings: seq<Frozen>, b: Frozen)
    ensures Refold(text, bindings + [b]) == Replace(Refold(text, bindings), Marker(b.name), b.display)
    decreases |bindings|
  {
    if bindings == [] {
      assert Refold(Replace(text, Marker(b.name), b.display), []) == Replace(text, Marker(b.name), b.display);
      assert (bindings + [b])[1..] == [];
    } else {
      assert (bindings + [b])[1..] == bindings[1..] + [b];
      RefoldAppend(Replace(text, Marker(bindings[0].name), bindings[0].display), bindings[1..], b);
    }
  }

  /** For every template and every value, braces or not: replaying the stored bindings over the template gives exactly
      the question that was submitted. */
  lemma {:induction false} StoredBindingsReproduce(template: string, ds: seq<Definition>)
    ensures var f := FreezeAll(Frozen0(template), ds);
      Refold(template, f.bindings) == f.question && |f.bindings| + |f.problems| <= |ds|
    decreases |ds|
  {
    if ds != [] {
      var n := |ds| - 1;
      assert ds == ds[..n] + [ds[n]];
      StoredBindingsReproduce(template, ds[..n]);
      FreezeAppend(Frozen0(template), ds[..n], ds[n]);
      var f, d := FreezeAll(Frozen0(template), ds[..n]), ds[n];
      if d.value.Some? && Occurs(f.question, Marker(d.name)) {
        RefoldAppend(template, f.bindings, Frozen(d.name, d.value.value));
      }
    }
  }

  // ---------- templates ----------

  /** A piece of a template, or of a question on its way from one: literal text, a hole, or a value that filled it. */
  datatype Segment = Literal(text: string) | Hole(name: string) | Filled(value: string)

  predicate BraceFree(text: string) { '{' !in text && '}' !in text }

  /** No literal text opens a brace; names have no braces; filled pieces hold values of `vs`. */
  predicate Pieces(segments: seq<Segment>, vs: set<string>) {
    forall k :: 0 <= k < |segments| ==> PieceOk(segments[k], vs)
  }

  predicate PieceOk(segment: Segment, vs: set<string>) {
    match segment
    case Literal(text) => '{' !in text
    case Hole(name) => BraceFree(name)
    case Filled(value) => value in vs
  }

  predicate Template(segments: seq<Segment>) { Pieces(segments, {}) }

  function Text(segment: Segment): string {
    match segment
    case Literal(text) => text
    case Hole(name) => Marker(name)
    case Filled(value) => value
  }

  function Render(segments: seq<Segment>): string {
    if segments == [] then "" else Text(segments[0]) + Render(segments[1..])
  }

  function Fill(segment: Segment, values: map<string, string>): Segment {
    if segment.Hole? && segment.name in values then Filled(values[segment.name]) else segment
  }

  /** All holes that have a value, filled at the same time. */
  function Substitute(segments: seq<Segment>, values: map<string, string>): (filled: seq<Segment>)
    ensures |filled| == |segments|
    ensures forall k :: 0 <= k < |segments| ==> filled[k] == Fill(segments[k], values)
  {
    seq(|segments|, k requires 0 <= k < |segments| => Fill(segments[k], values))
  }

  // ---------- values that cannot open a marker ----------

  /** One of the two texts is the beginning of the other. */
  predicate Meets(a: string, b: string) { a <= b || b <= a }

  predicate MeetsAt(v: string, k: nat, n: string)
    requires k <= |v|
  {
    Meets(v[k..], Marker(n))
  }

  /** From no two characters on does the value look like the marker of `n`, as far as it goes. */
  predicate Apart(v: string, n: string) {
    forall k: nat :: k + 2 <= |v| ==> !MeetsAt(v, k, n)
  }

  /** A brace that ends the value does not make a marker of `n` with the value after it. */
  predicate PairApart(v: string, w: string, n: string) {
    v != "" && v[|v| - 1] == '{' && w != "" ==> !Meets("{" + w, Marker(n))
  }

  /** No values of `vs`, next to each other or to literal text, can bring up a marker of `n`. */
  predicate SafeFor(vs: set<string>, n: string) {
    forall v :: v in vs ==> Apart(v, n) && forall w :: w in vs ==> PairApart(v, w, n)
  }

  // ---------- passing over text ----------

  predicate StartsAt(text: string, rest: string, part: string, k: nat)
    requires k <= |text|
  {
    part <= text[k..] + rest
  }

  /** Text in which the part starts nowhere is passed over. */
  lemma {:induction false} PassOver(text: string, rest: string, part: string, put: string)
    requires part != "" && forall k: nat :: k < |text| ==> !StartsAt(text, rest, part, k)
    ensures Replace(text + rest, part, put) == text + Replace(rest, part, put)
    ensures Occurs(text + rest, part) <==> Occurs(rest, part)
    decreases |text|
  {
    if text == "" {
      assert text + rest == rest;
      assert text + Replace(rest, part, put) == Replace(rest, part, put);
    } else {
      var c, tail := text[0], text[1..];
      assert text + rest == [c] + (tail + rest) && text[0..] == text;
      assert !StartsAt(text, rest, part, 0);
      PassOne(c, tail + rest, part, put);
      forall k: nat | k < |tail| ensures !StartsAt(tail, rest, part, k) {
        assert tail[k..] == text[k + 1..] && !StartsAt(text, rest, part, k + 1);
      }
      PassOver(tail, rest, part, put);
      assert [c] + (tail + Replace(rest, part, put)) == text + Replace(rest, part, put);
    }
  }

  lemma PassOne(c: char, rest: string, part: string, put: string)
    requires part != "" && !(part <= [c] + rest)
    ensures Replace([c] + rest, part, put) == [c] + Replace(rest, part, put)
    ensures Occurs([c] + rest, part) <==> Occurs(rest, part)
  {
    var text := [c] + rest;
    assert text[0] == c && text[1..] == rest;
  }

  lemma StartsWithBrace(text: string, rest: string, n: string, k: nat)
    requires k < |text| && StartsAt(text, rest, Marker(n), k)
    ensures text[k] == '{'
  {
    assert (text[k..] + rest)[0] == Marker(n)[0];
  }

  /** A marker matches the text of a hole only if the names are the same. */
  lemma MarkersDiffer(n: string, m: string, rest: string)
    requires BraceFree(n) && BraceFree(m) && Marker(n) <= Marker(m) + rest
    ensures n == m
  {
    var text := Marker(m) + rest;
    assert forall k :: 0 <= k < |Marker(n)| ==> Marker(n)[k] == text[k];
    assert forall k :: 0 <= k < |n| ==> Marker(n)[2 + k] == n[k];
    assert forall k :: 0 <= k < |m| ==> text[2 + k] == m[k];
    assert Marker(n)[2 + |n|] == '}' == text[2 + |n|] && text[2 + |m|] == '}';
    if |n| < |m| { assert false; }
    if |m| < |n| { assert false; }
    forall k | 0 <= k < |n| ensures n[k] == m[k] {}
  }

  /** Behind its first brace the text of a hole looks like no marker. */
  lemma InsideHole(m: string, rest: string, n: string, k: nat)
    requires BraceFree(m) && 0 < k < |Marker(m)|
    ensures !StartsAt(Marker(m), rest, Marker(n), k)
  {
    var text := Marker(m);
    assert forall j :: 2 <= j < |text| ==> text[j] != '{' by {
      assert forall j :: 2 <= j < |text| ==> text[j] == (m + "}}")[j - 2];
    }
    if k >= 2 {
      if StartsAt(text, rest, Marker(n), k) { StartsWithBrace(text, rest, n, k); }
    } else {
      assert (text[1..] + rest)[1] == text[2] && Marker(n)[1] == '{';
    }
  }

  lemma PassOverHole(m: string, rest: string, n: string, put: string)
    requires BraceFree(n) && BraceFree(m) && n != m
    ensures Replace(Marker(m) + rest, Marker(n), put) == Marker(m) + Replace(rest, Marker(n), put)
    ensures Occurs(Marker(m) + rest, Marker(n)) <==> Occurs(rest, Marker(n))
  {
    forall k: nat | k < |Marker(m)| ensures !StartsAt(Marker(m), rest, Marker(n), k) {
      if k > 0 {
        InsideHole(m, rest, n, k);
      } else {
        assert Marker(m)[0..] == Marker(m);
        if StartsAt(Marker(m), rest, Marker(n), 0) { MarkersDiffer(n, m, rest); }
      }
    }
    PassOver(Marker(m), rest, Marker(n), put);
  }

  lemma PassOverLiteral(text: string, rest: string, n: string, put: string)
    requires '{' !in text
    ensures Replace(text + rest, Marker(n), put) == text + Replace(rest, Marker(n), put)
    ensures Occurs(text + rest, Marker(n)) <==> Occurs(rest, Marker(n))
  {
    forall k: nat | k < |text| ensures !StartsAt(text, rest, Marker(n), k) {
      if StartsAt(text, rest, Marker(n), k) { StartsWithBrace(text, rest, n, k); }
    }
    PassOver(text, rest, Marker(n), put);
  }

  lemma PrefixMeets(part: string, a: string, b: string)
    requires part <= a + b
    ensures Meets(a, part)
  {
    if |part| <= |a| {
      assert part == (a + b)[..|part|] == a[..|part|];
    } else {
      assert a == (a + b)[..|a|] == part[..|a|];
    }
  }

  /** What follows a value that ends in a brace does not complete a marker. */
  lemma {:induction false} NoMarkerAfterBrace(rest: seq<Segment>, vs: set<string>, v: string, n: string)
    requires Pieces(rest, vs) && SafeFor(vs, n) && v in vs && v != "" && v[|v| - 1] == '{' && BraceFree(n)
    ensures !(Marker(n) <= "{" + Render(rest))
  {
    if rest != [] {
      var text, tail := Text(rest[0]), Render(rest[1..]);
      assert PieceOk(rest[0], vs);
      if text == "" {
        assert Render(rest) == tail;
        NoMarkerAfterBrace(rest[1..], vs, v, n);
      } else if rest[0].Filled? {
        assert PairApart(v, text, n);
        assert "{" + (text + tail) == ("{" + text) + tail;
        if Marker(n) <= "{" + Render(rest) { PrefixMeets(Marker(n), "{" + text, tail); }
      } else {
        BraceThen(text, tail, n);
      }
    }
  }

  lemma BraceThen(text: string, tail: string, n: string)
    requires text != "" && BraceFree(n)
    requires text[0] == '{' ==> |text| > 1 && text[1] == '{'
    ensures !(Marker(n) <= "{" + (text + tail))
  {
    var whole, marker := "{" + (text + tail), Marker(n);
    assert whole[1] == text[0] && (|text| > 1 ==> whole[2] == text[1]);
    assert marker[1] == '{' && marker[2] == (n + "}}")[0];
  }

  lemma PassOverFilled(v: string, rest: seq<Segment>, vs: set<string>, n: string, put: string)
    requires v in vs && SafeFor(vs, n) && Pieces(rest, vs) && BraceFree(n)
    ensures Replace(v + Render(rest), Marker(n), put) == v + Replace(Render(rest), Marker(n), put)
    ensures Occurs(v + Render(rest), Marker(n)) <==> Occurs(Render(rest), Marker(n))
  {
    assert Apart(v, n);
    forall k: nat | k < |v| ensures !StartsAt(v, Render(rest), Marker(n), k) {
      if k + 2 <= |v| {
        assert !MeetsAt(v, k, n);
        if StartsAt(v, Render(rest), Marker(n), k) { PrefixMeets(Marker(n), v[k..], Render(rest)); }
      } else {
        if v[k] == '{' {
          assert v[k..] == "{";
          NoMarkerAfterBrace(rest, vs, v, n);
        } else if StartsAt(v, Render(rest), Marker(n), k) {
          StartsWithBrace(v, Render(rest), n, k);
        }
      }
    }
    PassOver(v, Render(rest), Marker(n), put);
  }

  lemma ReplaceAtHole(rest: string, n: string, put: string)
    ensures Replace(Marker(n) + rest, Marker(n), put) == put + Replace(rest, Marker(n), put)
    ensures Occurs(Marker(n) + rest, Marker(n))
  {
    assert (Marker(n) + rest)[|Marker(n)|..] == rest;
  }

  /** One textual replacement is one substitution, and the marker is found exactly where there is a hole. */
  lemma {:induction false} ReplaceIsSubstitution(segments: seq<Segment>, vs: set<string>, n: string, put: string)
    requires Pieces(segments, vs) && SafeFor(vs, n) && BraceFree(n)
    ensures Replace(Render(segments), Marker(n), put) == Render(Substitute(segments, map[n := put]))
    ensures Occurs(Render(segments), Marker(n)) <==> Hole(n) in segments
  {
    if segments == [] {
      assert Substitute(segments, map[n := put]) == [];
    } else {
      var head, rest := segments[0], Render(segments[1..]);
      assert PieceOk(head, vs);
      ReplaceIsSubstitution(segments[1..], vs, n, put);
      assert Substitute(segments, map[n := put])[1..] == Substitute(segments[1..], map[n := put]);
      assert Hole(n) in segments <==> head == Hole(n) || Hole(n) in segments[1..];
      match head
      case Literal(text) => PassOverLiteral(text, rest, n, put);
      case Filled(value) => PassOverFilled(value, segments[1..], vs, n, put);
      case Hole(name) =>
        if name == n {
          ReplaceAtHole(rest, n, put);
        } else {
          PassOverHole(name, rest, n, put);
        }
    }
  }

  // ---------- the loop is a simultaneous substitution ----------

  /** Names have no braces and are distinct, as the catalog keeps them. */
  predicate Named(ds: seq<Definition>) {
    && (forall k :: 0 <= k < |ds| ==> BraceFree(ds[k].name))
    && (forall j, k :: 0 <= j < k < |ds| ==> ds[j].name != ds[k].name)
  }

  function Values(ds: seq<Definition>): (values: map<string, string>)
    ensures forall n :: n in values ==> exists k :: 0 <= k < |ds| && ds[k].name == n && ds[k].value == Some(values[n])
    ensures forall k :: 0 <= k < |ds| && ds[k].value.Some? ==> ds[k].name in values
  {
    if ds == [] then map[]
    else
      var n := |ds| - 1;
      var values := Values(ds[..n]);
      if ds[n].value.Some? then values[ds[n].name := ds[n].value.value] else values
  }

  function ValueSet(ds: seq<Definition>): set<string> {
    set k | 0 <= k < |ds| && ds[k].value.Some? :: ds[k].value.value
  }

  predicate SafeAt(ds: seq<Definition>, j: nat)
    requires j < |ds|
  {
    ds[j].value.Some? ==> SafeFor(ValueSet(ds[..j]), ds[j].name)
  }

  /** No earlier value can bring up the marker of a later binding. */
  predicate Safe(ds: seq<Definition>) {
    forall j :: 0 <= j < |ds| ==> SafeAt(ds, j)
  }

  function Placed(segments: seq<Segment>, ds: seq<Definition>): seq<Frozen> {
    if ds == [] then []
    else
      var n := |ds| - 1;
      var before := Placed(segments, ds[..n]);
      if ds[n].value.Some? && Hole(ds[n].name) in segments then before + [Frozen(ds[n].name, ds[n].value.value)]
        else before
  }

  function Missing(segments: seq<Segment>, ds: seq<Definition>): seq<Problem> {
    if ds == [] then []
    else
      var d, before := ds[|ds| - 1], Missing(segments, ds[..|ds| - 1]);
      if d.value.None? && d.required then before + [NoValue(d.name)]
      else if d.value.Some? && Hole(d.name) !in segments then before + [NoPlaceholder(d.name)]
      else before
  }

  /** What freezing means, with no order of replacements in it: all holes filled at once, a binding for each filled
      hole, a problem for each required binding without a value and each value without a hole. */
  function Meant(segments: seq<Segment>, ds: seq<Definition>): Freeze {
    Freeze(Render(Substitute(segments, Values(ds))), Placed(segments, ds), Missing(segments, ds))
  }

  /** Filling one more hole after the others is filling them all at once: values bring no new holes. */
  lemma SubstituteOneMore(segments: seq<Segment>, values: map<string, string>, n: string, put: string)
    requires n !in values
    ensures Substitute(Substitute(segments, values), map[n := put]) == Substitute(segments, values[n := put])
    ensures Hole(n) in Substitute(segments, values) <==> Hole(n) in segments
    ensures Hole(n) !in segments ==> Substitute(segments, values[n := put]) == Substitute(segments, values)
  {
    var filled := Substitute(segments, values);
    forall k | 0 <= k < |segments|
      ensures Substitute(filled, map[n := put])[k] == Substitute(segments, values[n := put])[k]
      ensures filled[k] == Hole(n) <==> segments[k] == Hole(n)
    {
    }
  }

  lemma PiecesAfter(segments: seq<Segment>, ds: seq<Definition>)
    requires Template(segments)
    ensures Pieces(Substitute(segments, Values(ds)), ValueSet(ds))
  {
    forall k | 0 <= k < |segments| ensures PieceOk(Substitute(segments, Values(ds))[k], ValueSet(ds)) {
      assert PieceOk(segments[k], {});
    }
  }

  lemma SafePrefix(ds: seq<Definition>, n: nat)
    requires n <= |ds| && forall j :: 0 <= j < n ==> SafeAt(ds, j)
    ensures Safe(ds[..n])
  {
    forall j | 0 <= j < n ensures SafeAt(ds[..n], j) {
      assert SafeAt(ds, j) && ds[..n][..j] == ds[..j];
    }
  }

  lemma {:induction false} LoopIsMeant(segments: seq<Segment>, ds: seq<Definition>)
    requires Template(segments) && Named(ds) && Safe(ds)
    ensures FreezeAll(Frozen0(Render(segments)), ds) == Meant(segments, ds)
    decreases |ds|
  {
    if ds == [] {
      assert Substitute(segments, map[]) == segments;
    } else {
      var n := |ds| - 1;
      var d, before := ds[n], ds[..n];
      assert ds == before + [d] && SafeAt(ds, n);
      SafePrefix(ds, n);
      LoopIsMeant(segments, before);
      FreezeAppend(Frozen0(Render(segments)), before, d);
      if d.value.Some? { LoopBody(segments, before, d); }
    }
  }

  /** One more binding with a value. */
  lemma OneMoreBinding(segments: seq<Segment>, before: seq<Definition>, d: Definition)
    requires Named(before + [d]) && d.value.Some?
    ensures BraceFree(d.name) && d.name !in Values(before)
    ensures Values(before + [d]) == Values(before)[d.name := d.value.value]
    ensures var hole := Hole(d.name) in segments;
      && Placed(segments, before + [d])
         == (if hole then Placed(segments, before) + [Frozen(d.name, d.value.value)] else Placed(segments, before))
      && Missing(segments, before + [d])
         == (if hole then Missing(segments, before) else Missing(segments, before) + [NoPlaceholder(d.name)])
  {
    var ds, n := before + [d], |before|;
    assert ds[..n] == before && ds[n] == d && BraceFree(ds[n].name);
    assert forall k :: 0 <= k < n ==> ds[k] == before[k] && ds[k].name != ds[n].name;
  }

  lemma LoopBody(segments: seq<Segment>, before: seq<Definition>, d: Definition)
    requires Template(segments) && Named(before + [d]) && d.value.Some? && SafeFor(ValueSet(before), d.name)
    ensures FreezeOne(Meant(segments, before), d) == Meant(segments, before + [d])
  {
    var filled := Substitute(segments, Values(before));
    OneMoreBinding(segments, before, d);
    PiecesAfter(segments, before);
    ReplaceIsSubstitution(filled, ValueSet(before), d.name, d.value.value);
    SubstituteOneMore(segments, Values(before), d.name, d.value.value);
  }

  // ---------- exactly when ----------

  ghost predicate MeansWhatItSays(ds: seq<Definition>) {
    forall segments :: Template(segments) ==> FreezesAsMeant(segments, ds)
  }

  predicate FreezesAsMeant(segments: seq<Segment>, ds: seq<Definition>) {
    FreezeAll(Frozen0(Render(segments)), ds) == Meant(segments, ds)
  }

  /** For every list of bindings in their order: over every template the replacements one after the other give the
      question, the stored bindings and the problems of one simultaneous substitution if and only if no earlier value,
      alone or with the next one, can bring up the marker of a later binding. */
  lemma FreezingMeansSubstitutionIff(ds: seq<Definition>)
    requires Named(ds)
    ensures MeansWhatItSays(ds) <==> Safe(ds)
  {
    if Safe(ds) {
      forall segments | Template(segments) ensures FreezesAsMeant(segments, ds) { LoopIsMeant(segments, ds); }
    } else {
      var segments := BreakingTemplate(ds);
      assert Template(segments) && !FreezesAsMeant(segments, ds);
    }
  }

  lemma {:induction false} FirstUnsafe(ds: seq<Definition>, n: nat) returns (j: nat)
    requires n <= |ds| && exists k :: 0 <= k < n && !SafeAt(ds, k)
    ensures j < n && !SafeAt(ds, j) && forall i :: 0 <= i < j ==> SafeAt(ds, i)
  {
    if exists k :: 0 <= k < n - 1 && !SafeAt(ds, k) {
      j := FirstUnsafe(ds, n - 1);
    } else {
      j := n - 1;
    }
  }

  /** What completes the beginning of a marker: literal text without an opening brace. */
  function Completion(t: string, n: string): string {
    if |t| < |Marker(n)| then Marker(n)[|t|..] else ""
  }

  lemma CompletionCompletes(t: string, n: string)
    requires BraceFree(n) && |t| >= 2 && Meets(t, Marker(n))
    ensures '{' !in Completion(t, n) && Marker(n) <= t + Completion(t, n)
  {
    var marker := Marker(n);
    assert forall k :: 2 <= k < |marker| ==> marker[k] == (n + "}}")[k - 2];
    if |t| < |marker| {
      assert t == marker[..|t|] && t + marker[|t|..] == marker;
      assert forall k :: 0 <= k < |marker[|t|..]| ==> marker[|t|..][k] == marker[|t| + k];
    } else {
      assert marker == t[..|marker|];
    }
  }

  lemma {:induction false} OccursAt(text: string, part: string, k: nat)
    requires k <= |text| && part <= text[k..]
    ensures Occurs(text, part)
  {
    if k == 0 {
      assert text[0..] == text;
    } else {
      assert text[1..][k - 1..] == text[k..];
      OccursAt(text[1..], part, k - 1);
    }
  }

  lemma ValueOf(ds: seq<Definition>, k: nat)
    requires Named(ds) && k < |ds| && ds[k].value.Some?
    ensures ds[k].name in Values(ds) && Values(ds)[ds[k].name] == ds[k].value.value
  {
    var m :| 0 <= m < |ds| && ds[m].name == ds[k].name && ds[m].value == Some(Values(ds)[ds[k].name]);
  }

  /** Text that has the beginning of a part somewhere contains the part once it is completed. */
  lemma OccursAcross(text: string, end: string, part: string, k: nat)
    requires k <= |text| && part <= text[k..] + end
    ensures Occurs(text + end, part)
  {
    assert (text + end)[k..] == text[k..] + end;
    OccursAt(text + end, part, k);
  }

  lemma OneValueBringsUp(values: map<string, string>, m: string, n: string, k: nat) returns (segments: seq<Segment>)
    requires m in values && BraceFree(m) && BraceFree(n) && m != n
    requires k + 2 <= |values[m]| && MeetsAt(values[m], k, n)
    ensures Template(segments) && Hole(n) !in segments
    ensures Occurs(Render(Substitute(segments, values)), Marker(n))
  {
    var v := values[m];
    var end := Completion(v[k..], n);
    CompletionCompletes(v[k..], n);
    OccursAcross(v, end, Marker(n), k);
    segments := [Hole(m), Literal(end)];
    TwoPieces(segments[0], segments[1], values);
  }

  lemma TwoValuesBringUp(values: map<string, string>, m: string, l: string, n: string) returns (segments: seq<Segment>)
    requires m in values && BraceFree(m) && l in values && BraceFree(l) && BraceFree(n) && m != n && l != n
    requires !PairApart(values[m], values[l], n)
    ensures Template(segments) && Hole(n) !in segments
    ensures Occurs(Render(Substitute(segments, values)), Marker(n))
  {
    var v, w := values[m], values[l];
    var end, k := Completion("{" + w, n), |v| - 1;
    assert (v + w)[k..] == "{" + w;
    CompletionCompletes("{" + w, n);
    OccursAcross(v + w, end, Marker(n), k);
    segments := [Hole(m), Hole(l), Literal(end)];
    ThreePieces(segments[0], segments[1], segments[2], values);
  }

  /** A template of earlier holes and literal text in whose filling the marker of `n` is found. */
  lemma MarkerBroughtUp(ds: seq<Definition>, n: string) returns (segments: seq<Segment>)
    requires Named(ds) && BraceFree(n) && (forall k :: 0 <= k < |ds| ==> ds[k].name != n)
    requires !SafeFor(ValueSet(ds), n)
    ensures Template(segments) && Hole(n) !in segments
    ensures Occurs(Render(Substitute(segments, Values(ds))), Marker(n))
  {
    var v :| v in ValueSet(ds) && !(Apart(v, n) && forall w :: w in ValueSet(ds) ==> PairApart(v, w, n));
    var a :| 0 <= a < |ds| && ds[a].value == Some(v);
    ValueOf(ds, a);
    if !Apart(v, n) {
      var k: nat :| k + 2 <= |v| && MeetsAt(v, k, n);
      segments := OneValueBringsUp(Values(ds), ds[a].name, n, k);
    } else {
      var w :| w in ValueSet(ds) && !PairApart(v, w, n);
      var c :| 0 <= c < |ds| && ds[c].value == Some(w);
      ValueOf(ds, c);
      segments := TwoValuesBringUp(Values(ds), ds[a].name, ds[c].name, n);
    }
  }

  lemma TwoPieces(a: Segment, b: Segment, values: map<string, string>)
    ensures Render(Substitute([a, b], values)) == Text(Fill(a, values)) + Text(Fill(b, values))
  {
    var filled := Substitute([a, b], values);
    assert filled == [Fill(a, values), Fill(b, values)] && filled[1..] == [Fill(b, values)];
    assert Render(filled[1..]) == Text(Fill(b, values)) + Render([]);
  }

  lemma ThreePieces(a: Segment, b: Segment, c: Segment, values: map<string, string>)
    ensures Render(Substitute([a, b, c], values))
      == Text(Fill(a, values)) + Text(Fill(b, values)) + Text(Fill(c, values))
  {
    var filled := Substitute([a, b, c], values);
    assert filled == [Fill(a, values)] + Substitute([b, c], values);
    assert filled[1..] == Substitute([b, c], values);
    TwoPieces(b, c, values);
  }

  lemma {:induction false} BindingsOnlyGrow(f: Freeze, ds: seq<Definition>)
    ensures f.bindings <= FreezeAll(f, ds).bindings
    decreases |ds|
  {
    if ds != [] { BindingsOnlyGrow(FreezeOne(f, ds[0]), ds[1..]); }
  }

  lemma {:induction false} FreezeSplit(f: Freeze, ds: seq<Definition>, j: nat)
    requires j <= |ds|
    ensures FreezeAll(f, ds) == FreezeAll(FreezeAll(f, ds[..j]), ds[j..])
    decreases j
  {
    if j == 0 {
      assert ds[0..] == ds;
    } else {
      assert ds[1..][..j - 1] == ds[..j][1..] && ds[1..][j - 1..] == ds[j..];
      FreezeSplit(FreezeOne(f, ds[0]), ds[1..], j - 1);
    }
  }

  lemma {:induction false} PlacedHaveHoles(segments: seq<Segment>, ds: seq<Definition>)
    ensures forall b :: b in Placed(segments, ds) ==> Hole(b.name) in segments
  {
    if ds != [] { PlacedHaveHoles(segments, ds[..|ds| - 1]); }
  }

  lemma BreakingTemplate(ds: seq<Definition>) returns (segments: seq<Segment>)
    requires Named(ds) && !Safe(ds)
    ensures Template(segments) && !FreezesAsMeant(segments, ds)
  {
    var j := FirstUnsafe(ds, |ds|);
    var before, d := ds[..j], ds[j];
    segments := MarkerBroughtUp(before, d.name);
    SafePrefix(ds, j);
    LoopIsMeant(segments, before);
    var f := FreezeAll(Frozen0(Render(segments)), before);
    FreezeSplit(Frozen0(Render(segments)), ds, j);
    assert ds[j..][0] == d;
    var next := FreezeOne(f, d);
    assert next.bindings[|f.bindings|] == Frozen(d.name, d.value.value);
    BindingsOnlyGrow(next, ds[j..][1..]);
    var bindings := FreezeAll(Frozen0(Render(segments)), ds).bindings;
    assert next.bindings <= bindings && bindings[|f.bindings|] == Frozen(d.name, d.value.value);
    PlacedHaveHoles(segments, ds);
    assert Frozen(d.name, d.value.value) in bindings;
  }

  // ---------- in every order ----------

  /** No value can bring up any bound marker, so every order of the bindings is safe. */
  predicate SafeValues(values: map<string, string>) {
    forall n :: n in values ==> SafeFor(values.Values, n)
  }

  lemma SafeValuesAreSafe(ds: seq<Definition>)
    requires Named(ds) && SafeValues(Values(ds))
    ensures Safe(ds) && ValueSet(ds) <= Values(ds).Values
  {
    forall k | 0 <= k < |ds| && ds[k].value.Some? ensures ds[k].value.value in Values(ds).Values { ValueOf(ds, k); }
    forall j | 0 <= j < |ds| ensures SafeAt(ds, j) {
      assert ValueSet(ds[..j]) <= ValueSet(ds);
    }
  }

  /** Values without an opening brace are safe in every order, whatever their closing braces. */
  lemma NoOpeningBraceIsSafe(values: map<string, string>)
    requires forall n :: n in values ==> '{' !in values[n]
    ensures SafeValues(values)
  {
    forall n, v | n in values && v in values.Values
      ensures Apart(v, n) && forall w :: w in values.Values ==> PairApart(v, w, n)
    {
      forall k: nat | k + 2 <= |v| ensures !MeetsAt(v, k, n) {
        assert v[k] == v[k..][0] && Marker(n)[0] == '{';
      }
    }
  }

  /** Over every template, with values that cannot bring up a bound marker: the submitted question is the simultaneous
      substitution, it does not depend on the order of the bindings, and no bound marker is left in it. */
  lemma FreezingIsSimultaneous(segments: seq<Segment>, ds: seq<Definition>, es: seq<Definition>, n: string)
    requires Template(segments) && Named(ds) && Named(es) && Values(ds) == Values(es) && SafeValues(Values(ds))
    ensures var question := FreezeAll(Frozen0(Render(segments)), ds).question;
      && question == Render(Substitute(segments, Values(ds)))
      && question == FreezeAll(Frozen0(Render(segments)), es).question
      && (n in Values(ds) ==> !Occurs(question, Marker(n)))
  {
    SafeValuesAreSafe(ds);
    SafeValuesAreSafe(es);
    LoopIsMeant(segments, ds);
    LoopIsMeant(segments, es);
    if n in Values(ds) { NoneLeft(segments, ds, n); }
  }

  lemma NoneLeft(segments: seq<Segment>, ds: seq<Definition>, n: string)
    requires Template(segments) && Named(ds) && SafeValues(Values(ds)) && n in Values(ds)
    ensures !Occurs(Render(Substitute(segments, Values(ds))), Marker(n))
  {
    var k :| 0 <= k < |ds| && ds[k].name == n && ds[k].value == Some(Values(ds)[n]);
    SafeValuesAreSafe(ds);
    PiecesAfter(segments, ds);
    assert SafeFor(ValueSet(ds), n);
    ReplaceIsSubstitution(Substitute(segments, Values(ds)), ValueSet(ds), n, "");
    assert Hole(n) !in Substitute(segments, Values(ds));
  }

  /** Exactly the required bindings without a value and the values without a hole are reported. */
  lemma ProblemsAreExact(segments: seq<Segment>, ds: seq<Definition>, p: Problem)
    requires Template(segments) && Named(ds) && Safe(ds)
    ensures p in FreezeAll(Frozen0(Render(segments)), ds).problems <==>
      exists k :: 0 <= k < |ds| && ds[k].name == p.name && HasProblem(segments, ds[k], p)
  {
    LoopIsMeant(segments, ds);
    MissingIsExact(segments, ds, p);
  }

  predicate HasProblem(segments: seq<Segment>, d: Definition, p: Problem) {
    if p.NoValue? then d.value.None? && d.required else d.value.Some? && Hole(d.name) !in segments
  }

  lemma {:induction false} MissingIsExact(segments: seq<Segment>, ds: seq<Definition>, p: Problem)
    ensures p in Missing(segments, ds) <==>
      exists k :: 0 <= k < |ds| && ds[k].name == p.name && HasProblem(segments, ds[k], p)
  {
    if ds != [] {
      var n := |ds| - 1;
      MissingIsExact(segments, ds[..n], p);
      assert forall k :: 0 <= k < n ==> ds[..n][k] == ds[k];
    }
  }

  const A := Definition("a", true, Some(Marker("b")))
  const B := Definition("b", true, Some("x"))

  /** The condition on values is needed: a value that looks like a later marker is replaced in turn, so another order of
      the same bindings submits another question. */
  lemma BracesMakeOrderMatter()
    ensures FreezeAll(Frozen0(Marker("a") + Marker("b")), [A, B]).question == "x" + "x"
    ensures FreezeAll(Frozen0(Marker("a") + Marker("b")), [B, A]).question == Marker("b") + "x"
  {
    var text := Marker("a") + Marker("b");
    TwoHoles("a", "b");
    TwoHoles("b", "b");
    HoleThenX("a");
    BothFound(text, A, B, Marker("b") + Marker("b"), "x" + "x");
    BothFound(text, B, A, Marker("a") + "x", Marker("b") + "x");
  }

  lemma BothFound(text: string, d: Definition, e: Definition, between: string, question: string)
    requires d.value.Some? && Occurs(text, Marker(d.name)) && Replace(text, Marker(d.name), d.value.value) == between
    requires e.value.Some? && Occurs(between, Marker(e.name))
      && Replace(between, Marker(e.name), e.value.value) == question
    ensures FreezeAll(Frozen0(text), [d, e]).question == question
  {
    FreezeAppend(Frozen0(text), [d], e);
    assert [d] + [e] == [d, e];
    assert FreezeAll(Frozen0(text), [d]) == FreezeAll(FreezeOne(Frozen0(text), d), []);
  }

  lemma TwoHoles(m: string, n: string)
    requires BraceFree(m) && BraceFree(n)
    ensures var text := Marker(m) + Marker(n);
      && Occurs(text, Marker(m)) && Occurs(text, Marker(n))
      && (m != n ==> Replace(text, Marker(m), Marker(n)) == Marker(n) + Marker(n))
      && (m != n ==> Replace(text, Marker(n), "x") == Marker(m) + "x")
      && (m == n ==> Replace(text, Marker(n), "x") == "x" + "x")
  {
    assert Marker(n) + "" == Marker(n);
    ReplaceAtHole(Marker(n), m, Marker(n));
    ReplaceAtHole(Marker(n), m, "x");
    ReplaceAtHole("", n, "x");
    if m != n {
      PassOverHole(n, "", m, Marker(n));
      PassOverHole(m, Marker(n), n, "x");
    }
  }

  lemma HoleThenX(m: string)
    ensures Occurs(Marker(m) + "x", Marker(m)) && Replace(Marker(m) + "x", Marker(m), Marker("b")) == Marker("b") + "x"
  {
    ReplaceAtHole("x", m, Marker("b"));
    assert Replace("x", Marker(m), Marker("b")) == "x" + Replace("", Marker(m), Marker("b"));
  }
}
