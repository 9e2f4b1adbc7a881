/** Structured answers, their normalization, and the canonical text they are compared by: keys in code-point order, no
    spaces, and strings escaped as section 7 of RFC 8259 asks, other characters left as they are. */
module CanonicalJson {
  import opened Sets
  import AnswerText

  /** A JSON value; the fields of an object are in the order they arrived in. */
  datatype Json =
    | Null
    | Bool(truth: bool)
    | Num(number: int)
    | Str(text: string)
    | Arr(items: seq<Json>)
    | Obj(fields: seq<Field>)

  datatype Field = Field(key: string, value: Json)

  /** The keys of every object are distinct. */
  predicate WellFormed(j: Json) {
    match j
    case Arr(items) => forall k :: 0 <= k < |items| ==> WellFormed(items[k])
    case Obj(fields) =>
      && DistinctKeys(fields)
      && forall k :: 0 <= k < |fields| ==> WellFormed(fields[k].value)
    case _ => true
  }

  predicate DistinctKeys(fields: seq<Field>) {
    forall j, k :: 0 <= j < k < |fields| ==> fields[j].key != fields[k].key
  }

  /** Equal values, the order of keys aside. */
  predicate SameTree(a: Json, b: Json)
    decreases a
  {
    match a
    case Arr(items) =>
      b.Arr? && |b.items| == |items| && forall k :: 0 <= k < |items| ==> SameTree(items[k], b.items[k])
    case Obj(fields) =>
      && b.Obj? && |b.fields| == |fields|
      && forall k :: 0 <= k < |fields| ==>
           exists m ::
             0 <= m < |b.fields| && b.fields[m].key == fields[k].key && SameTree(fields[k].value, b.fields[m].value)
    case _ => a == b
  }

  // ---------- normalization ----------

  /** `_normalize_structured_value`: every string value, no key. */
  function NormalizeTree(j: Json): Json {
    match j
    case Str(text) => Str(AnswerText.Normalize(text))
    case Arr(items) => Arr(seq(|items|, k requires 0 <= k < |items| => NormalizeTree(items[k])))
    case Obj(fields) =>
      Obj(seq(|fields|, k requires 0 <= k < |fields| => Field(fields[k].key, NormalizeTree(fields[k].value))))
    case _ => j
  }

  lemma {:induction false} NormalizeTreeIsIdempotent(j: Json)
    ensures NormalizeTree(NormalizeTree(j)) == NormalizeTree(j)
    ensures WellFormed(j) ==> WellFormed(NormalizeTree(j))
  {
    match j
    case Str(text) => AnswerText.NormalizeIsIdempotent(text);
    case Arr(items) =>
      var n := NormalizeTree(j);
      forall k | 0 <= k < |items|
        ensures NormalizeTree(n.items[k]) == n.items[k]
        ensures WellFormed(items[k]) ==> WellFormed(n.items[k])
      {
        NormalizeTreeIsIdempotent(items[k]);
      }
      assert NormalizeTree(n).items == n.items;
    case Obj(fields) =>
      var n := NormalizeTree(j);
      forall k | 0 <= k < |fields|
        ensures NormalizeTree(n.fields[k].value) == n.fields[k].value
        ensures WellFormed(fields[k].value) ==> WellFormed(n.fields[k].value)
      {
        NormalizeTreeIsIdempotent(fields[k].value);
      }
      assert NormalizeTree(n).fields == n.fields;
    case _ =>
  }

  // ---------- sorting by key ----------

  /** Code-point order of strings. */
  predicate Before(a: string, b: string) {
    if b == "" then false
    else if a == "" then true
    else a[0] < b[0] || (a[0] == b[0] && Before(a[1..], b[1..]))
  }

  /** A string comes before another when it is a proper beginning of it, or has the smaller character at the first place
      where they differ. */
  lemma {:induction false} BeforeIsLexicographic(a: string, b: string)
    ensures Before(a, b) <==> exists k :: 0 <= k <= |a| && SmallerFrom(a, b, k)
  {
    if b == "" {
    } else if a == "" {
      assert SmallerFrom(a, b, 0);
    } else {
      BeforeIsLexicographic(a[1..], b[1..]);
      if a[0] == b[0] {
        forall k | 1 <= k <= |a| ensures SmallerFrom(a, b, k) <==> SmallerFrom(a[1..], b[1..], k - 1) {
          if k <= |b| { assert a[..k][1..] == a[1..][..k - 1] && b[..k][1..] == b[1..][..k - 1]; }
        }
        if exists j :: 0 <= j <= |a[1..]| && SmallerFrom(a[1..], b[1..], j) {
          var j :| 0 <= j <= |a[1..]| && SmallerFrom(a[1..], b[1..], j);
          assert SmallerFrom(a, b, j + 1);
        }
      } else if a[0] < b[0] {
        assert SmallerFrom(a, b, 0);
      }
    }
  }

  predicate SmallerFrom(a: string, b: string, k: nat)
    requires k <= |a|
  {
    k < |b| && a[..k] == b[..k] && (k == |a| || a[k] < b[k])
  }

  lemma {:induction false} BeforeIsTotal(a: string, b: string)
    ensures Before(a, b) || Before(b, a) || a == b
    ensures !(Before(a, b) && Before(b, a))
    ensures Before(a, b) ==> a != b
  {
    if a != "" && b != "" {
      BeforeIsTotal(a[1..], b[1..]);
      if a[0] == b[0] && a[1..] == b[1..] { assert a == [a[0]] + a[1..] == b; }
    }
  }

  lemma {:induction false} BeforeIsTransitive(a: string, b: string, c: string)
    requires Before(a, b) && Before(b, c)
    ensures Before(a, c)
  {
    if a != "" && a[0] == b[0] && b[0] == c[0] { BeforeIsTransitive(a[1..], b[1..], c[1..]); }
  }

  predicate Sorted(fields: seq<Field>) {
    forall j, k :: 0 <= j < k < |fields| ==> Before(fields[j].key, fields[k].key)
  }

  function Insert(f: Field, fields: seq<Field>): seq<Field> {
    if fields == [] || Before(f.key, fields[0].key) then [f] + fields else [fields[0]] + Insert(f, fields[1..])
  }

  function SortFields(fields: seq<Field>): seq<Field> {
    if fields == [] then [] else Insert(fields[0], SortFields(fields[1..]))
  }

  ghost predicate SameFields(fields: seq<Field>, others: seq<Field>) {
    && |fields| == |others|
    && forall f :: f in fields <==> f in others
  }

  lemma {:induction false} InsertKeepsSorted(f: Field, fields: seq<Field>)
    requires Sorted(fields) && forall k :: 0 <= k < |fields| ==> fields[k].key != f.key
    ensures Sorted(Insert(f, fields)) && SameFields(Insert(f, fields), [f] + fields)
  {
    if fields == [] {
    } else if Before(f.key, fields[0].key) {
      forall k | 0 < k < |fields| ensures Before(f.key, fields[k].key) {
        BeforeIsTransitive(f.key, fields[0].key, fields[k].key);
      }
    } else {
      BeforeIsTotal(f.key, fields[0].key);
      InsertKeepsSorted(f, fields[1..]);
      var rest := Insert(f, fields[1..]);
      assert fields == [fields[0]] + fields[1..];
      forall k | 0 <= k < |rest| ensures Before(fields[0].key, rest[k].key) {
        assert rest[k] in [f] + fields[1..];
      }
    }
  }

  lemma {:induction false} SortFieldsSorts(fields: seq<Field>)
    requires DistinctKeys(fields)
    ensures Sorted(SortFields(fields)) && SameFields(SortFields(fields), fields)
  {
    if fields != [] {
      var rest := SortFields(fields[1..]);
      SortFieldsSorts(fields[1..]);
      forall k | 0 <= k < |rest| ensures rest[k].key != fields[0].key {
        assert rest[k] in fields[1..];
      }
      InsertKeepsSorted(fields[0], rest);
      assert fields == [fields[0]] + fields[1..];
    }
  }

  /** Sorting forgets the order and nothing else. */
  lemma {:induction false} SortedIsUnique(fields: seq<Field>, others: seq<Field>)
    requires Sorted(fields) && Sorted(others) && SameFields(fields, others)
    ensures fields == others
  {
    if fields != [] {
      var f, g := fields[0], others[0];
      assert f in others && g in fields;
      HeadIsLeast(fields, g);
      HeadIsLeast(others, f);
      BeforeIsTotal(f.key, g.key);
      forall h ensures h in fields[1..] <==> h in others[1..] {
        TailMember(fields, h);
        TailMember(others, h);
      }
      SortedIsUnique(fields[1..], others[1..]);
    }
  }

  lemma HeadIsLeast(fields: seq<Field>, f: Field)
    requires Sorted(fields) && f in fields
    ensures f == fields[0] || Before(fields[0].key, f.key)
  {
    var k :| 0 <= k < |fields| && fields[k] == f;
  }

  lemma TailMember(fields: seq<Field>, f: Field)
    requires Sorted(fields) && fields != []
    ensures f in fields[1..] <==> f in fields && f != fields[0]
  {
    forall k | 1 <= k < |fields| ensures fields[k] != fields[0] {
      BeforeIsTotal(fields[0].key, fields[k].key);
    }
  }

  // ---------- the canonical tree ----------

  /** The tree with the keys of every object in order. */
  function Canonical(j: Json): Json {
    match j
    case Arr(items) => Arr(seq(|items|, k requires 0 <= k < |items| => Canonical(items[k])))
    case Obj(fields) => Obj(SortFields(CanonicalFields(fields)))
    case _ => j
  }

  function CanonicalFields(fields: seq<Field>): (cs: seq<Field>)
    ensures |cs| == |fields|
    ensures forall k :: 0 <= k < |fields| ==> cs[k] == Field(fields[k].key, Canonical(fields[k].value))
  {
    seq(|fields|, k requires 0 <= k < |fields| => Field(fields[k].key, Canonical(fields[k].value)))
  }

  /** Two trees are the same up to key order exactly when their canonical trees are equal. */
  lemma {:induction false} CanonicalDecidesSameTree(a: Json, b: Json)
    requires WellFormed(a) && WellFormed(b)
    ensures SameTree(a, b) <==> Canonical(a) == Canonical(b)
    decreases a
  {
    match a
    case Arr(items) =>
      if b.Arr? && |b.items| == |items| {
        forall k | 0 <= k < |items|
          ensures SameTree(items[k], b.items[k]) <==> Canonical(a).items[k] == Canonical(b).items[k]
        {
          CanonicalDecidesSameTree(items[k], b.items[k]);
        }
        if SameTree(a, b) { assert Canonical(a).items == Canonical(b).items; }
      }
    case Obj(fields) =>
      if b.Obj? {
        forall k, m | 0 <= k < |fields| && 0 <= m < |b.fields|
          ensures SameTree(fields[k].value, b.fields[m].value) <==>
            Canonical(fields[k].value) == Canonical(b.fields[m].value)
        {
          CanonicalDecidesSameTree(fields[k].value, b.fields[m].value);
        }
        SameObjects(fields, b.fields);
      }
    case _ =>
  }

  lemma SameObjects(fields: seq<Field>, others: seq<Field>)
    requires WellFormed(Obj(fields)) && WellFormed(Obj(others))
    requires forall k, m :: 0 <= k < |fields| && 0 <= m < |others| ==>
      (SameTree(fields[k].value, others[m].value) <==> Canonical(fields[k].value) == Canonical(others[m].value))
    ensures SameTree(Obj(fields), Obj(others)) <==> Canonical(Obj(fields)) == Canonical(Obj(others))
  {
    var cs, ds := CanonicalFields(fields), CanonicalFields(others);
    SortFieldsSorts(cs);
    SortFieldsSorts(ds);
    if SameTree(Obj(fields), Obj(others)) {
      forall k | 0 <= k < |cs| ensures cs[k] in ds {
        var m :| 0 <= m < |others| && others[m].key == fields[k].key && SameTree(fields[k].value, others[m].value);
        assert ds[m] == cs[k];
      }
      SameSizeSameFields(cs, ds);
      SortedIsUnique(SortFields(cs), SortFields(ds));
    }
    if SortFields(cs) == SortFields(ds) {
      forall k | 0 <= k < |fields|
        ensures exists m ::
          0 <= m < |others| && others[m].key == fields[k].key && SameTree(fields[k].value, others[m].value)
      {
        assert cs[k] in ds;
        var m :| 0 <= m < |ds| && ds[m] == cs[k];
        assert others[m].key == fields[k].key && SameTree(fields[k].value, others[m].value);
      }
    }
  }

  function FieldSet(fields: seq<Field>): set<Field> { set f | f in fields }

  lemma {:induction false} FieldSetSize(fields: seq<Field>)
    requires DistinctKeys(fields)
    ensures |FieldSet(fields)| == |fields|
  {
    if fields != [] {
      FieldSetSize(fields[1..]);
      assert fields == [fields[0]] + fields[1..];
      assert fields[0] !in FieldSet(fields[1..]);
      assert FieldSet(fields) == {fields[0]} + FieldSet(fields[1..]);
    }
  }

  lemma SameSizeSameFields(fields: seq<Field>, others: seq<Field>)
    requires DistinctKeys(fields) && DistinctKeys(others) && |fields| == |others|
    requires forall k :: 0 <= k < |fields| ==> fields[k] in others
    ensures SameFields(fields, others)
  {
    FieldSetSize(fields);
    FieldSetSize(others);
    var a, b := FieldSet(fields), FieldSet(others);
    assert a <= b;
    if exists f :: f in b && f !in a {
      var f :| f in b && f !in a;
      assert a <= b - {f};
      SubsetSize(a, b - {f});
    }
    assert forall f :: f in others ==> f in b;
  }
}
