/** Freezing over any template whatever, with braces anywhere in it: what the loop of replacements means there, and
    exactly which bindings it means it for. */
module AnyTemplate {
  import opened PythonText
  import opened Wrappers
  import opened Freezing

  /** A marker of a bound name begins the text. */
  ghost predicate Begins(text: string, values: map<string, string>) {
    exists n :: n in values && Marker(n) <= text
  }

  /** All markers of bound names filled in one scan from the left; what is filled in is not looked at again. */
  ghost function Filling(text: string, values: map<string, string>): string
    decreases |text|
  {
    if text == "" then ""
    else if Begins(text, values) then
      var n :| n in values && Marker(n) <= text;
      values[n] + Filling(text[|Marker(n)|..], values)
    else [text[0]] + Filling(text[1..], values)
  }

  predicate PlainNames(values: map<string, string>) { forall n :: n in values ==> BraceFree(n) }

  /** No two markers begin at the same place. */
  lemma OneMarker(text: string, n: string, m: string)
    requires BraceFree(n) && BraceFree(m) && Marker(n) <= text && Marker(m) <= text
    ensures n == m
  {
    assert text == Marker(m) + text[|Marker(m)|..];
    MarkersDiffer(n, m, text[|Marker(m)|..]);
  }

  lemma FillsMarker(values: map<string, string>, m: string, rest: string)
    requires PlainNames(values) && m in values
    ensures Filling(Marker(m) + rest, values) == values[m] + Filling(rest, values)
  {
    var text := Marker(m) + rest;
    assert Marker(m) <= text && text[|Marker(m)|..] == rest;
    var n :| n in values && Marker(n) <= text
      && Filling(text, values) == values[n] + Filling(text[|Marker(n)|..], values);
    OneMarker(text, n, m);
  }

  /** Text in which no bound marker begins is kept. */
  lemma {:induction false} KeepsText(text: string, rest: string, values: map<string, string>)
    requires forall k: nat :: k < |text| ==> !Begins(text[k..] + rest, values)
    ensures Filling(text + rest, values) == text + Filling(rest, values)
    decreases |text|
  {
    if text == "" {
      assert text + rest == rest;
    } else {
      var tail := text[1..];
      assert !Begins(text[0..] + rest, values) && text[0..] == text;
      assert (text + rest)[1..] == tail + rest && (text + rest)[0] == text[0];
      forall k: nat | k < |tail| ensures !Begins(tail[k..] + rest, values) {
        assert tail[k..] == text[k + 1..] && !Begins(text[k + 1..] + rest, values);
      }
      KeepsText(tail, rest, values);
      assert [text[0]] + (tail + Filling(rest, values)) == text + Filling(rest, values);
    }
  }

  lemma KeepsMarker(values: map<string, string>, m: string, rest: string)
    requires PlainNames(values) && BraceFree(m) && m !in values
    ensures Filling(Marker(m) + rest, values) == Marker(m) + Filling(rest, values)
  {
    var text := Marker(m);
    forall k: nat | k < |text| ensures !Begins(text[k..] + rest, values) {
      forall n | n in values ensures !(Marker(n) <= text[k..] + rest) {
        if Marker(n) <= text[k..] + rest {
          if k == 0 {
            assert text[0..] == text;
            MarkersDiffer(n, m, rest);
          } else {
            InsideHole(m, rest, n, k);
            assert StartsAt(text, rest, Marker(n), k);
          }
        }
      }
    }
    KeepsText(text, rest, values);
  }

  // ---------- values that touch no marker ----------

  /** Wherever the value stands, no marker of `n` reaches into it: not one that begins in it, and not one that begins
      before it. */
  predicate Untouched(v: string, n: string) {
    && (forall k: nat :: k < |v| ==> !MeetsAt(v, k, n))
    && (forall k: nat :: 0 < k < |Marker(n)| ==> !InsideMeets(v, n, k))
  }

  /** The value agrees with the marker from position `k` of the marker on, as far as both go. */
  predicate InsideMeets(v: string, n: string, k: nat)
    requires k <= |Marker(n)|
  {
    Meets(v, Marker(n)[k..])
  }

  predicate AllUntouched(values: map<string, string>, n: string) {
    forall m :: m in values ==> Untouched(values[m], n)
  }

  lemma PassOverValue(v: string, rest: string, n: string, put: string)
    requires Untouched(v, n)
    ensures Replace(v + rest, Marker(n), put) == v + Replace(rest, Marker(n), put)
    ensures Occurs(v + rest, Marker(n)) <==> Occurs(rest, Marker(n))
  {
    forall k: nat | k < |v| ensures !StartsAt(v, rest, Marker(n), k) {
      assert !MeetsAt(v, k, n);
      if StartsAt(v, rest, Marker(n), k) { PrefixMeets(Marker(n), v[k..], rest); }
    }
    PassOver(v, rest, Marker(n), put);
  }

  lemma TextCases(text: string, values: map<string, string>) returns (m: string)
    requires Begins(text, values)
    ensures m in values && Marker(m) <= text && text == Marker(m) + text[|Marker(m)|..]
  {
    m :| m in values && Marker(m) <= text;
  }

  /** The end of a marker that is found at the beginning of a filled text was there before filling. */
  lemma {:induction false} EndWasThere(text: string, values: map<string, string>, n: string, k: nat)
    requires PlainNames(values) && AllUntouched(values, n) && 0 < k <= |Marker(n)|
    requires Marker(n)[k..] <= Filling(text, values)
    ensures Marker(n)[k..] <= text
    decreases |text|
  {
    var end := Marker(n)[k..];
    if end != "" {
      if Begins(text, values) {
        var m := TextCases(text, values);
        FillsMarker(values, m, text[|Marker(m)|..]);
        PrefixMeets(end, values[m], Filling(text[|Marker(m)|..], values));
        assert InsideMeets(values[m], n, k);
      } else {
        var c, tail := text[0], text[1..];
        assert text == [c] + tail && Filling(text, values) == [c] + Filling(tail, values);
        assert end == [end[0]] + Marker(n)[k + 1..];
        assert ([c] + Filling(tail, values))[1..] == Filling(tail, values);
        assert Marker(n)[k + 1..] <= Filling(tail, values);
        EndWasThere(tail, values, n, k + 1);
      }
    }
  }

  /** Filling does not make a character the beginning of a marker. */
  lemma NoneBeginsAnew(c: char, tail: string, values: map<string, string>, n: string)
    requires PlainNames(values) && AllUntouched(values, n) && !(Marker(n) <= [c] + tail)
    ensures !(Marker(n) <= [c] + Filling(tail, values))
  {
    if Marker(n) <= [c] + Filling(tail, values) {
      assert Marker(n) == [c] + Marker(n)[1..];
      assert ([c] + Filling(tail, values))[1..] == Filling(tail, values);
      assert Marker(n)[1..] <= Filling(tail, values);
      EndWasThere(tail, values, n, 1);
    }
  }

  /** One replacement after a filling is the filling with one more value, over any text. */
  lemma {:induction false} ReplaceIsFilling(text: string, values: map<string, string>, n: string, put: string)
    requires PlainNames(values) && AllUntouched(values, n) && BraceFree(n) && n !in values
    ensures Replace(Filling(text, values), Marker(n), put) == Filling(text, values[n := put])
    ensures Occurs(Filling(text, values), Marker(n)) <==> Occurs(text, Marker(n))
    decreases |text|
  {
    var more := values[n := put];
    if text == "" {
    } else if Begins(text, values) {
      var m := TextCases(text, values);
      var rest := text[|Marker(m)|..];
      ReplaceIsFilling(rest, values, n, put);
      FillsMarker(values, m, rest);
      FillsMarker(more, m, rest);
      PassOverValue(values[m], Filling(rest, values), n, put);
      PassOverHole(m, rest, n, put);
    } else if Marker(n) <= text {
      var rest := text[|Marker(n)|..];
      assert text == Marker(n) + rest;
      ReplaceIsFilling(rest, values, n, put);
      KeepsMarker(values, n, rest);
      FillsMarker(more, n, rest);
      ReplaceAtHole(Filling(rest, values), n, put);
      ReplaceAtHole(rest, n, put);
    } else {
      var c, tail := text[0], text[1..];
      assert text == [c] + tail && !Begins(text, more);
      ReplaceIsFilling(tail, values, n, put);
      NoneBeginsAnew(c, tail, values, n);
      PassOne(c, Filling(tail, values), Marker(n), put);
      PassOne(c, tail, Marker(n), put);
    }
  }

  // ---------- the loop over any text ----------

  function PlacedIn(text: string, ds: seq<Definition>): seq<Frozen> {
    if ds == [] then []
    else
      var d, before := ds[|ds| - 1], PlacedIn(text, ds[..|ds| - 1]);
      if d.value.Some? && Occurs(text, Marker(d.name)) then before + [Frozen(d.name, d.value.value)] else before
  }

  function MissingIn(text: string, ds: seq<Definition>): seq<Problem> {
    if ds == [] then []
    else
      var d, before := ds[|ds| - 1], MissingIn(text, ds[..|ds| - 1]);
      if d.value.None? && d.required then before + [NoValue(d.name)]
      else if d.value.Some? && !Occurs(text, Marker(d.name)) then before + [NoPlaceholder(d.name)]
      else before
  }

  /** What freezing means over any template, with no order of replacements in it. */
  ghost function MeantIn(text: string, ds: seq<Definition>): Freeze {
    Freeze(Filling(text, Values(ds)), PlacedIn(text, ds), MissingIn(text, ds))
  }

  predicate UntouchedAt(ds: seq<Definition>, j: nat)
    requires j < |ds|
  {
    ds[j].value.Some? ==> AllUntouched(Values(ds[..j]), ds[j].name)
  }

  /** No marker of a later binding reaches into an earlier value, wherever that stands. */
  predicate UntouchedValues(ds: seq<Definition>) {
    forall j :: 0 <= j < |ds| ==> UntouchedAt(ds, j)
  }

  lemma UntouchedPrefix(ds: seq<Definition>, n: nat)
    requires n <= |ds| && forall j :: 0 <= j < n ==> UntouchedAt(ds, j)
    ensures UntouchedValues(ds[..n])
  {
    forall j | 0 <= j < n ensures UntouchedAt(ds[..n], j) {
      assert UntouchedAt(ds, j) && ds[..n][..j] == ds[..j];
    }
  }

  lemma NamesArePlain(ds: seq<Definition>)
    requires Named(ds)
    ensures PlainNames(Values(ds))
  {
  }

  lemma {:induction false} NothingToFill(text: string)
    ensures Filling(text, map[]) == text
    decreases |text|
  {
    if text != "" { NothingToFill(text[1..]); }
  }

  lemma {:induction false} LoopIsMeantIn(text: string, ds: seq<Definition>)
    requires Named(ds) && UntouchedValues(ds)
    ensures FreezeAll(Frozen0(text), ds) == MeantIn(text, ds)
    decreases |ds|
  {
    if ds == [] {
      NothingToFill(text);
    } else {
      var n := |ds| - 1;
      var d, before := ds[n], ds[..n];
      assert ds == before + [d] && UntouchedAt(ds, n);
      UntouchedPrefix(ds, n);
      LoopIsMeantIn(text, before);
      FreezeAppend(Frozen0(text), before, d);
      if d.value.Some? { OneMoreFilled(text, before, d); }
    }
  }

  lemma OneMoreValue(before: seq<Definition>, d: Definition)
    requires Named(before + [d]) && d.value.Some?
    ensures Named(before) && BraceFree(d.name) && d.name !in Values(before)
    ensures Values(before + [d]) == Values(before)[d.name := d.value.value]
  {
    var ds, n := before + [d], |before|;
    assert ds[..n] == before && ds[n] == d && BraceFree(ds[n].name);
    assert forall k :: 0 <= k < n ==> ds[k] == before[k] && ds[k].name != ds[n].name;
  }

  lemma {:induction false} ReplaceAbsent(text: string, part: string, put: string)
    requires part != "" && !Occurs(text, part)
    ensures Replace(text, part, put) == text
  {
    if text != "" { ReplaceAbsent(text[1..], part, put); }
  }

  lemma OneMoreFilled(text: string, before: seq<Definition>, d: Definition)
    requires Named(before + [d]) && d.value.Some? && AllUntouched(Values(before), d.name)
    ensures FreezeOne(MeantIn(text, before), d) == MeantIn(text, before + [d])
  {
    var ds, n, filled := before + [d], |before|, Filling(text, Values(before));
    assert ds[..n] == before && ds[n] == d;
    OneMoreValue(before, d);
    NamesArePlain(before);
    ReplaceIsFilling(text, Values(before), d.name, d.value.value);
    if !Occurs(filled, Marker(d.name)) { ReplaceAbsent(filled, Marker(d.name), d.value.value); }
  }

  // ---------- exactly when ----------

  lemma MarkerShape(n: string)
    requires BraceFree(n)
    ensures Marker(n)[0] == '{' && Marker(n)[1] == '{'
    ensures forall k :: 2 <= k < |Marker(n)| ==> Marker(n)[k] != '{' && Marker(n)[k] == (n + "}}")[k - 2]
    ensures Marker(n)[|n| + 2] == '}' && Marker(n)[|n| + 3] == '}' && |Marker(n)| == |n| + 4
  {
    assert forall k :: 2 <= k < |Marker(n)| ==> Marker(n)[k] == (n + "}}")[k - 2];
  }

  /** The beginning of one marker, torn off by another one, is not completed to a third. */
  lemma TornMarker(n: string, k: nat, l: string, rest: string)
    requires BraceFree(n) && BraceFree(l) && 3 <= k < |Marker(n)| && rest != "" && rest[0] == '{'
    ensures !(Marker(l) <= Marker(n)[..k] + rest)
  {
    MarkerShape(n);
    MarkerShape(l);
    var text := Marker(n)[..k] + rest;
    assert text[k] == '{' && forall i :: 2 <= i < k ==> text[i] == (n + "}}")[i - 2];
    Differ(Marker(l), text, if k <= |l| + 3 then k else |l| + 2);
  }

  lemma Differ(part: string, text: string, i: nat)
    requires i < |part| && i < |text| && part[i] != text[i]
    ensures !(part <= text)
  {
  }

  /** In front of a marker, no marker begins in the beginning of another. */
  lemma NoneBeginsBefore(n: string, k: nat, p: nat, l: string, m: string, rest: string)
    requires BraceFree(n) && BraceFree(l) && p < k < |Marker(n)|
    ensures !(Marker(l) <= Marker(n)[..k][p..] + (Marker(m) + rest))
  {
    MarkerShape(n);
    MarkerShape(l);
    var a, tail := Marker(n)[..k], Marker(m) + rest;
    var text := a[p..] + tail;
    assert tail[0] == '{' && tail[1] == '{';
    if p == 0 && k >= 3 {
      assert a[0..] == a;
      TornMarker(n, k, l, tail);
    } else if k < 3 {
      assert text[2] == tail[2 - (k - p)];
      Differ(Marker(l), text, 2);
    } else if p == 1 {
      assert text[1] == a[2] == Marker(n)[2];
      Differ(Marker(l), text, 1);
    } else {
      assert text[0] == a[p] == Marker(n)[p];
      Differ(Marker(l), text, 0);
    }
  }

  lemma NoneBeginsBehind(n: string, c: nat, p: nat, l: string)
    requires BraceFree(n) && BraceFree(l) && 0 < c <= |Marker(n)| && p < |Marker(n)| - c
    ensures !(Marker(l) <= Marker(n)[c..][p..])
  {
    MarkerShape(n);
    MarkerShape(l);
    var text := Marker(n)[c..][p..];
    Differ(Marker(l), text, if c + p == 1 then 1 else 0);
  }

  lemma {:induction false} ShortHasNone(text: string, part: string)
    requires |text| < |part|
    ensures !Occurs(text, part)
  {
    if text != "" { ShortHasNone(text[1..], part); }
  }

  /** The beginning of a marker, a place for a value, and the end of a marker: filling fills the place alone. */
  lemma TornText(values: map<string, string>, n: string, k: nat, m: string, c: nat)
    requires PlainNames(values) && BraceFree(n) && n !in values && m in values
    requires k < |Marker(n)| && 0 < c <= |Marker(n)|
    ensures var a, b := Marker(n)[..k], Marker(n)[c..];
      && Filling(a + (Marker(m) + b), values) == a + (values[m] + b)
      && !Occurs(a + (Marker(m) + b), Marker(n))
  {
    var a, b := Marker(n)[..k], Marker(n)[c..];
    forall p: nat | p < |a| ensures !Begins(a[p..] + (Marker(m) + b), values)
      ensures !StartsAt(a, Marker(m) + b, Marker(n), p)
    {
      NoneBeginsBefore(n, k, p, n, m, b);
      forall l | l in values ensures !(Marker(l) <= a[p..] + (Marker(m) + b)) { NoneBeginsBefore(n, k, p, l, m, b); }
    }
    forall p: nat | p < |b| ensures !Begins(b[p..] + "", values) {
      assert b[p..] + "" == b[p..];
      forall l | l in values ensures !(Marker(l) <= b[p..]) { NoneBeginsBehind(n, c, p, l); }
    }
    KeepsText(a, Marker(m) + b, values);
    FillsMarker(values, m, b);
    KeepsText(b, "", values);
    assert b + "" == b && b + Filling("", values) == b;
    PassOver(a, Marker(m) + b, Marker(n), "");
    PassOverHole(m, b, n, "");
    ShortHasNone(b, Marker(n));
  }

  /** A value that a marker can reach into is completed to one by some text. */
  lemma MarkerBroughtUpIn(values: map<string, string>, m: string, n: string) returns (text: string)
    requires PlainNames(values) && BraceFree(n) && n !in values && m in values && !Untouched(values[m], n)
    ensures !Occurs(text, Marker(n)) && Occurs(Filling(text, values), Marker(n))
  {
    if k: nat :| k < |values[m]| && MeetsAt(values[m], k, n) {
      text := BeginningCompleted(values, m, n, k);
    } else {
      var k: nat :| 0 < k < |Marker(n)| && InsideMeets(values[m], n, k);
      text := InsideCompleted(values, m, n, k);
    }
  }

  lemma BeginningCompleted(values: map<string, string>, m: string, n: string, k: nat) returns (text: string)
    requires PlainNames(values) && BraceFree(n) && n !in values && m in values
    requires k < |values[m]| && MeetsAt(values[m], k, n)
    ensures !Occurs(text, Marker(n)) && Occurs(Filling(text, values), Marker(n))
  {
    var v, marker := values[m], Marker(n);
    var c := if |v| - k < |marker| then |v| - k else |marker|;
    TornText(values, n, 0, m, c);
    text := marker[..0] + (Marker(m) + marker[c..]);
    assert marker[..0] + (v + marker[c..]) == v + marker[c..];
    MeetingCompletes(v[k..], marker);
    OccursAcross(v, marker[c..], marker, k);
  }

  lemma InsideCompleted(values: map<string, string>, m: string, n: string, k: nat) returns (text: string)
    requires PlainNames(values) && BraceFree(n) && n !in values && m in values
    requires 0 < k < |Marker(n)| && InsideMeets(values[m], n, k)
    ensures !Occurs(text, Marker(n)) && Occurs(Filling(text, values), Marker(n))
  {
    var v, marker := values[m], Marker(n);
    var c := if k + |v| < |marker| then k + |v| else |marker|;
    TornText(values, n, k, m, c);
    text := marker[..k] + (Marker(m) + marker[c..]);
    MeetingCompletes(v, marker[k..]);
    RestOfRest(marker, k, c);
    BeginsThere(marker[..k], marker[k..], v + marker[c..]);
  }

  lemma RestOfRest(text: string, k: nat, c: nat)
    requires k <= c <= |text|
    ensures text[k..][c - k..] == text[c..] && text[..k] + text[k..] == text
  {
  }

  /** Of two texts that agree as far as both go, the one and the rest of the other begin with the other. */
  lemma MeetingCompletes(a: string, b: string)
    requires Meets(a, b)
    ensures var c := if |a| < |b| then |a| else |b|; b <= a + b[c..]
  {
    if |a| < |b| {
      assert a == b[..|a|] && b[..|a|] + b[|a|..] == b;
    } else {
      assert b == a[..|b|] && a + b[|b|..] == a;
    }
  }

  lemma BeginsThere(a: string, b: string, text: string)
    requires b <= text
    ensures Occurs(a + text, a + b)
  {
    assert (a + text)[..|a + b|] == a + text[..|b|] == a + b;
  }

  ghost predicate MeansItAnywhere(ds: seq<Definition>) {
    forall text :: FreezeAll(Frozen0(text), ds) == MeantIn(text, ds)
  }

  /** For every list of bindings in their order: over every template, braces in it or not, the replacements one after
      the other give the question, the stored bindings and the problems of one simultaneous filling if and only if no
      marker of a later binding can reach into an earlier value. */
  lemma FreezingMeansFillingIff(ds: seq<Definition>)
    requires Named(ds)
    ensures MeansItAnywhere(ds) <==> UntouchedValues(ds)
  {
    if UntouchedValues(ds) {
      forall text ensures FreezeAll(Frozen0(text), ds) == MeantIn(text, ds) { LoopIsMeantIn(text, ds); }
    } else {
      var text := BreakingText(ds);
      assert FreezeAll(Frozen0(text), ds) != MeantIn(text, ds);
    }
  }

  lemma {:induction false} FirstTouched(ds: seq<Definition>, n: nat) returns (j: nat)
    requires n <= |ds| && exists k :: 0 <= k < n && !UntouchedAt(ds, k)
    ensures j < n && !UntouchedAt(ds, j) && forall i :: 0 <= i < j ==> UntouchedAt(ds, i)
  {
    if exists k :: 0 <= k < n - 1 && !UntouchedAt(ds, k) {
      j := FirstTouched(ds, n - 1);
    } else {
      j := n - 1;
    }
  }

  lemma {:induction false} PlacedHaveMarkers(text: string, ds: seq<Definition>)
    ensures forall b :: b in PlacedIn(text, ds) ==> Occurs(text, Marker(b.name))
  {
    if ds != [] { PlacedHaveMarkers(text, ds[..|ds| - 1]); }
  }

  lemma BreakingText(ds: seq<Definition>) returns (text: string)
    requires Named(ds) && !UntouchedValues(ds)
    ensures FreezeAll(Frozen0(text), ds) != MeantIn(text, ds)
  {
    var j := FirstTouched(ds, |ds|);
    UntouchedPrefix(ds, j);
    text := FoundUnmeant(ds, j);
    FoundIsBound(text, ds, j);
    PlacedHaveMarkers(text, ds);
  }

  lemma FoundUnmeant(ds: seq<Definition>, j: nat) returns (text: string)
    requires Named(ds) && j < |ds| && !UntouchedAt(ds, j) && UntouchedValues(ds[..j])
    ensures ds[j].value.Some? && !Occurs(text, Marker(ds[j].name))
    ensures Occurs(FreezeAll(Frozen0(text), ds[..j]).question, Marker(ds[j].name))
  {
    var before, values := ds[..j], Values(ds[..j]);
    NamedPrefix(ds, j);
    OneMoreValue(before, ds[j]);
    NamesArePlain(before);
    var m :| m in values && !Untouched(values[m], ds[j].name);
    text := MarkerBroughtUpIn(values, m, ds[j].name);
    LoopIsMeantIn(text, before);
  }

  lemma NamedPrefix(ds: seq<Definition>, j: nat)
    requires Named(ds) && j < |ds|
    ensures Named(ds[..j]) && Named(ds[..j] + [ds[j]])
  {
    var upTo := ds[..j] + [ds[j]];
    assert forall k :: 0 <= k <= j ==> upTo[k] == ds[k];
  }

  /** Where the loop finds a marker it stores the binding. */
  lemma FoundIsBound(text: string, ds: seq<Definition>, j: nat)
    requires j < |ds| && ds[j].value.Some? && Occurs(FreezeAll(Frozen0(text), ds[..j]).question, Marker(ds[j].name))
    ensures Frozen(ds[j].name, ds[j].value.value) in FreezeAll(Frozen0(text), ds).bindings
  {
    var f, d, rest := FreezeAll(Frozen0(text), ds[..j]), ds[j], ds[j..];
    var next := FreezeOne(f, d);
    FreezeSplit(Frozen0(text), ds, j);
    assert rest[0] == d && next.bindings[|f.bindings|] == Frozen(d.name, d.value.value);
    BindingsOnlyGrow(next, rest[1..]);
    var bindings := FreezeAll(Frozen0(text), ds).bindings;
    assert next.bindings <= bindings && bindings[|f.bindings|] == Frozen(d.name, d.value.value);
  }

  // ---------- what follows ----------

  /** A value without braces is reached into exactly when it is part of the name, as the empty one always is. */
  lemma PlainValueIsUntouchedIff(v: string, n: string)
    requires BraceFree(v) && BraceFree(n)
    ensures Untouched(v, n) <==> !Occurs(n, v)
  {
    MarkerShape(n);
    forall k: nat | k < |v| ensures !MeetsAt(v, k, n) {
      assert v[k..][0] != '{' && v[k..] != "";
    }
    forall k: nat | 0 < k < |Marker(n)| && InsideMeets(v, n, k) ensures Occurs(n, v) { PartOfName(v, n, k); }
    if Occurs(n, v) {
      var i := OccursIndex(n, v);
      assert Marker(n)[2 + i..] == n[i..] + "}}";
      assert v <= Marker(n)[2 + i..];
      assert InsideMeets(v, n, 2 + i);
    }
  }

  lemma PartOfName(v: string, n: string, k: nat)
    requires BraceFree(v) && BraceFree(n) && 0 < k < |Marker(n)| && InsideMeets(v, n, k)
    ensures Occurs(n, v)
  {
    MarkerShape(n);
    var marker := Marker(n);
    assert marker[k..][|marker| - k - 1] == '}';
    assert '}' in marker[k..] && v <= marker[k..] && v == marker[k..][..|v|];
    if v != "" {
      NoBraceReached(v, n, k);
      assert marker[2..2 + |n|] == n;
      assert n[k - 2..][..|v|] == marker[k..][..|v|];
      OccursAt(n, v, k - 2);
    }
  }

  lemma BraceReached(v: string, n: string, k: nat)
    requires BraceFree(n) && k <= |Marker(n)| && v <= Marker(n)[k..] && k <= |n| + 2 < k + |v|
    ensures '}' in v
  {
    MarkerShape(n);
    assert v[|n| + 2 - k] == Marker(n)[|n| + 2];
  }

  /** A part of a marker without braces is a part of its name. */
  lemma NoBraceReached(v: string, n: string, k: nat)
    requires BraceFree(v) && BraceFree(n) && v != "" && k < |Marker(n)| && v <= Marker(n)[k..]
    ensures 2 <= k && k + |v| <= 2 + |n|
  {
    MarkerShape(n);
    assert v[0] == Marker(n)[k] && v[0] != '{' && v[0] != '}';
    if k <= |n| + 2 < k + |v| { BraceReached(v, n, k); }
  }

  lemma {:induction false} OccursIndex(text: string, part: string) returns (k: nat)
    requires Occurs(text, part)
    ensures k <= |text| && part <= text[k..]
  {
    if part <= text {
      k := 0;
    } else {
      var i := OccursIndex(text[1..], part);
      k := i + 1;
      assert text[1..][i..] == text[k..];
    }
  }

  lemma {:induction false} NoMarkerLeft(text: string, values: map<string, string>, n: string)
    requires PlainNames(values) && AllUntouched(values, n) && n in values
    ensures !Occurs(Filling(text, values), Marker(n))
    decreases |text|
  {
    if text == "" {
    } else if Begins(text, values) {
      var m := TextCases(text, values);
      var rest := text[|Marker(m)|..];
      NoMarkerLeft(rest, values, n);
      FillsMarker(values, m, rest);
      PassOverValue(values[m], Filling(rest, values), n, "");
    } else {
      var c, tail := text[0], text[1..];
      assert text == [c] + tail;
      NoMarkerLeft(tail, values, n);
      NoneBeginsAnew(c, tail, values, n);
      PassOne(c, Filling(tail, values), Marker(n), "");
    }
  }

  /** No marker reaches into any value, so every order of the bindings is good. */
  ghost predicate UntouchedInAnyOrder(values: map<string, string>) {
    forall n :: n in values ==> AllUntouched(values, n)
  }

  lemma AnyOrderIsUntouched(ds: seq<Definition>)
    requires Named(ds) && UntouchedInAnyOrder(Values(ds))
    ensures UntouchedValues(ds)
  {
    forall j | 0 <= j < |ds| && ds[j].value.Some? ensures AllUntouched(Values(ds[..j]), ds[j].name) {
      ValueOf(ds, j);
      forall m | m in Values(ds[..j]) ensures Untouched(Values(ds[..j])[m], ds[j].name) { EarlierValue(ds, j, m); }
    }
  }

  lemma EarlierValue(ds: seq<Definition>, j: nat, m: string)
    requires Named(ds) && j < |ds| && m in Values(ds[..j])
    ensures m in Values(ds) && Values(ds)[m] == Values(ds[..j])[m]
  {
    var k :| 0 <= k < j && ds[..j][k].name == m && ds[..j][k].value == Some(Values(ds[..j])[m]);
    assert ds[..j][k] == ds[k];
    ValueOf(ds, k);
  }

  /** Then, over every template, the question is the simultaneous filling, the order of the bindings does not matter,
      and no bound marker is left. */
  lemma AnyOrderFillsAnyTemplate(text: string, ds: seq<Definition>, es: seq<Definition>, n: string)
    requires Named(ds) && Named(es) && Values(ds) == Values(es) && UntouchedInAnyOrder(Values(ds))
    ensures var question := FreezeAll(Frozen0(text), ds).question;
      && question == Filling(text, Values(ds)) && question == FreezeAll(Frozen0(text), es).question
      && (n in Values(ds) ==> !Occurs(question, Marker(n)))
  {
    AnyOrderIsUntouched(ds);
    AnyOrderIsUntouched(es);
    LoopIsMeantIn(text, ds);
    LoopIsMeantIn(text, es);
    NamesArePlain(ds);
    if n in Values(ds) { NoMarkerLeft(text, Values(ds), n); }
  }

  predicate HasProblemIn(text: string, d: Definition, p: Problem) {
    if p.NoValue? then d.value.None? && d.required else d.value.Some? && !Occurs(text, Marker(d.name))
  }

  /** And over every template exactly the required bindings without a value, and the values whose marker is not in the
      template, are reported. */
  lemma ProblemsAreExactIn(text: string, ds: seq<Definition>, p: Problem)
    requires Named(ds) && UntouchedValues(ds)
    ensures p in FreezeAll(Frozen0(text), ds).problems <==>
      exists k :: 0 <= k < |ds| && ds[k].name == p.name && HasProblemIn(text, ds[k], p)
  {
    LoopIsMeantIn(text, ds);
    MissingInIsExact(text, ds, p);
  }

  lemma {:induction false} MissingInIsExact(text: string, ds: seq<Definition>, p: Problem)
    ensures p in MissingIn(text, ds) <==>
      exists k :: 0 <= k < |ds| && ds[k].name == p.name && HasProblemIn(text, ds[k], p)
  {
    if ds != [] {
      var n := |ds| - 1;
      MissingInIsExact(text, ds[..n], p);
      assert forall k :: 0 <= k < n ==> ds[..n][k] == ds[k];
    }
  }
}
