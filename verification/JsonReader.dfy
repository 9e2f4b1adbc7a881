/** A reader of compact JSON after the grammar of RFC 8259, sections 2 to 7, for the values that occur here: the printer
    is measured by what a reader gets back from its text. */
module JsonReader {
  import opened Wrappers
  import opened CanonicalJson
  import opened JsonPrinter

  datatype Read<+T> = Read(value: T, rest: string)

  /** The characters up to the closing quote. */
  function ReadChars(text: string): (r: Option<Read<string>>)
    ensures r.Some? ==> |r.value.rest| < |text|
    decreases |text|
  {
    if text == "" then None
    else if text[0] == '\"' then Some(Read("", text[1..]))
    else
      var (c, n) := Decoded(text);
      if n > |text| then None
      else match ReadChars(text[n..])
        case None => None
        case Some(more) => Some(Read([c] + more.value, more.rest))
  }

  /** The longest run of digits. */
  function ReadDigits(text: string): (r: Read<string>)
    ensures |r.rest| + |r.value| == |text|
    decreases |text|
  {
    if text == "" || !IsDigit(text[0]) then Read("", text)
    else var more := ReadDigits(text[1..]); Read([text[0]] + more.value, more.rest)
  }

  function ReadUnsigned(text: string): (r: Option<Read<nat>>)
    ensures r.Some? ==> |r.value.rest| < |text|
  {
    var digits := ReadDigits(text);
    if digits.value == "" then None else Some(Read(Value(digits.value), digits.rest))
  }

  function ReadNumber(text: string): (r: Option<Read<Json>>)
    ensures r.Some? ==> |r.value.rest| < |text|
  {
    if text != "" && text[0] == '-' then
      match ReadUnsigned(text[1..]) case None => None case Some(n) => Some(Read(Num(0 - n.value), n.rest))
    else
      match ReadUnsigned(text) case None => None case Some(n) => Some(Read(Num(n.value), n.rest))
  }

  function ReadValue(text: string): (r: Option<Read<Json>>)
    ensures r.Some? ==> |r.value.rest| < |text|
    decreases |text|, 1
  {
    if text == "" then None
    else if "null" <= text then Some(Read(Null, text[4..]))
    else if "true" <= text then Some(Read(Bool(true), text[4..]))
    else if "false" <= text then Some(Read(Bool(false), text[5..]))
    else if text[0] == '\"' then
      match ReadChars(text[1..]) case None => None case Some(s) => Some(Read(Str(s.value), s.rest))
    else if text[0] == '[' then
      match ReadItems(text[1..]) case None => None case Some(s) => Some(Read(Arr(s.value), s.rest))
    else if text[0] == '{' then
      match ReadFields(text[1..]) case None => None case Some(s) => Some(Read(Obj(s.value), s.rest))
    else ReadNumber(text)
  }

  /** The items after an opening bracket. */
  function ReadItems(text: string): (r: Option<Read<seq<Json>>>)
    ensures r.Some? ==> |r.value.rest| < |text|
    decreases |text|, 3
  {
    if text != "" && text[0] == ']' then Some(Read([], text[1..])) else ReadMoreItems(text)
  }

  function ReadMoreItems(text: string): (r: Option<Read<seq<Json>>>)
    ensures r.Some? ==> |r.value.rest| < |text|
    decreases |text|, 2
  {
    match ReadValue(text)
    case None => None
    case Some(item) =>
      if item.rest == "" then None
      else if item.rest[0] == ']' then Some(Read([item.value], item.rest[1..]))
      else if item.rest[0] != ',' then None
      else match ReadMoreItems(item.rest[1..])
        case None => None
        case Some(more) => Some(Read([item.value] + more.value, more.rest))
  }

  /** The fields after an opening brace. */
  function ReadFields(text: string): (r: Option<Read<seq<Field>>>)
    ensures r.Some? ==> |r.value.rest| < |text|
    decreases |text|, 3
  {
    if text != "" && text[0] == '}' then Some(Read([], text[1..])) else ReadMoreFields(text)
  }

  function ReadMoreFields(text: string): (r: Option<Read<seq<Field>>>)
    ensures r.Some? ==> |r.value.rest| < |text|
    decreases |text|, 2
  {
    match ReadField(text)
    case None => None
    case Some(field) =>
      if field.rest == "" then None
      else if field.rest[0] == '}' then Some(Read([field.value], field.rest[1..]))
      else if field.rest[0] != ',' then None
      else match ReadMoreFields(field.rest[1..])
        case None => None
        case Some(more) => Some(Read([field.value] + more.value, more.rest))
  }

  /** A quoted key, a colon, and a value. */
  function ReadField(text: string): (r: Option<Read<Field>>)
    ensures r.Some? ==> |r.value.rest| < |text|
    decreases |text|, 1
  {
    if text == "" || text[0] != '\"' then None
    else match ReadChars(text[1..])
      case None => None
      case Some(key) =>
        if key.rest == "" || key.rest[0] != ':' then None
        else match ReadValue(key.rest[1..])
          case None => None
          case Some(v) => Some(Read(Field(key.value, v.value), v.rest))
  }

  // ---------- what is printed is read back ----------

  lemma {:induction false} CharsReadBack(text: string, rest: string)
    ensures ReadChars(PrintChars(text, rest)) == Some(Read(text, rest))
  {
    if text == "" {
      assert PrintChars(text, rest)[1..] == rest;
    } else {
      EscapeDecodes(text[0], PrintChars(text[1..], rest));
      CharsReadBack(text[1..], rest);
      assert [text[0]] + text[1..] == text;
    }
  }

  lemma {:induction false} DigitsReadBack(digits: string, rest: string)
    requires (forall k :: 0 <= k < |digits| ==> IsDigit(digits[k])) && (rest == "" || !IsDigit(rest[0]))
    ensures ReadDigits(digits + rest) == Read(digits, rest)
  {
    if digits == "" {
      assert digits + rest == rest;
    } else {
      assert (digits + rest)[1..] == digits[1..] + rest;
      DigitsReadBack(digits[1..], rest);
      assert [digits[0]] + digits[1..] == digits;
    }
  }

  lemma UnsignedReadsBack(n: nat, rest: string)
    requires Delimited(rest)
    ensures ReadUnsigned(Digits(n) + rest) == Some(Read(n, rest)) && Digits(n)[0] != '-'
  {
    DigitsRoundTrip(n);
    assert IsDigit(Digits(n)[0]);
    DigitsReadBack(Digits(n), rest);
  }

  lemma NegativeIsRead(text: string, n: nat, rest: string)
    requires ReadUnsigned(text) == Some(Read(n, rest))
    ensures ReadNumber("-" + text) == Some(Read(Num(0 - n), rest))
  {
    assert ("-" + text)[1..] == text;
  }

  lemma NumberReadsBack(n: int, rest: string)
    requires Delimited(rest)
    ensures ReadNumber(Decimal(n) + rest) == Some(Read(Num(n), rest))
  {
    var m := Magnitude(n);
    UnsignedReadsBack(m, rest);
    if n < 0 {
      NegativeIsRead(Digits(m) + rest, m, rest);
      assert Decimal(n) + rest == "-" + (Digits(m) + rest);
    } else {
      PositiveIsRead(Digits(m), m, rest);
    }
  }

  lemma PositiveIsRead(digits: string, n: nat, rest: string)
    requires digits != "" && digits[0] != '-' && ReadUnsigned(digits + rest) == Some(Read(n, rest))
    ensures ReadNumber(digits + rest) == Some(Read(Num(n), rest))
  {
    assert (digits + rest)[0] == digits[0];
  }

  /** Every value is read back from its text, whatever follows it. */
  lemma {:induction false} ValueReadsBack(j: Json, rest: string)
    requires Delimited(rest)
    ensures ReadValue(Print(j, rest)) == Some(Read(j, rest))
    decreases j, 0
  {
    var text := Print(j, rest);
    PrintHead(j, rest);
    match j
    case Null => assert text[4..] == rest;
    case Bool(truth) => assert text[if truth then 4 else 5..] == rest;
    case Num(n) => NumberReadsBack(n, rest);
    case Str(chars) =>
      assert text[1..] == PrintChars(chars, rest);
      CharsReadBack(chars, rest);
    case Arr(items) =>
      assert text[1..] == PrintItems(items, rest);
      ItemsReadBack(items, rest);
    case Obj(fields) =>
      assert text[1..] == PrintFields(fields, rest);
      FieldsReadBack(fields, rest);
  }

  /** An item is read, and then the end of the list or the others. */
  lemma ItemsStep(text: string, items: seq<Json>, after: string, tail: string, rest: string)
    requires items != [] && ReadValue(text) == Some(Read(items[0], after))
    requires |items| == 1 ==> after == "]" + rest
    requires |items| > 1 ==> after == "," + tail && ReadMoreItems(tail) == Some(Read(items[1..], rest))
    ensures ReadMoreItems(text) == Some(Read(items, rest))
  {
    assert items == [items[0]] + items[1..];
    if |items| == 1 {
      assert after[1..] == rest && items == [items[0]];
    } else {
      assert after[1..] == tail;
    }
  }

  lemma ItemComesFirst(item: Json, after: string)
    ensures ReadItems(Print(item, after)) == ReadMoreItems(Print(item, after))
  {
    PrintHead(item, after);
  }

  lemma {:induction false} ItemsReadBack(items: seq<Json>, rest: string)
    requires Delimited(rest)
    ensures ReadItems(PrintItems(items, rest)) == Some(Read(items, rest))
    ensures items != [] ==> ReadMoreItems(PrintItems(items, rest)) == Some(Read(items, rest))
    decreases items, 1
  {
    if items == [] {
      assert ("]" + rest)[1..] == rest;
    } else {
      var after, tail := ItemsAfter(items, rest), PrintItems(items[1..], rest);
      ValueReadsBack(items[0], after);
      if |items| > 1 { ItemsReadBack(items[1..], rest); }
      PrintedItems(items, rest);
      ItemsStep(Print(items[0], after), items, after, tail, rest);
      ItemComesFirst(items[0], after);
    }
  }

  lemma PrintedItems(items: seq<Json>, rest: string)
    requires items != []
    ensures PrintItems(items, rest) == Print(items[0], ItemsAfter(items, rest))
  {
  }

  lemma FieldReadsBack(f: Field, after: string)
    requires ReadValue(Print(f.value, after)) == Some(Read(f.value, after))
    ensures ReadField("\"" + PrintChars(f.key, ":" + Print(f.value, after))) == Some(Read(f, after))
  {
    var text, colon := "\"" + PrintChars(f.key, ":" + Print(f.value, after)), ":" + Print(f.value, after);
    assert text[1..] == PrintChars(f.key, colon) && colon[1..] == Print(f.value, after);
    CharsReadBack(f.key, colon);
  }

  /** A field is read, and then the end of the object or the others. */
  lemma FieldsStep(text: string, fields: seq<Field>, after: string, tail: string, rest: string)
    requires fields != [] && ReadField(text) == Some(Read(fields[0], after))
    requires |fields| == 1 ==> after == "}" + rest
    requires |fields| > 1 ==> after == "," + tail && ReadMoreFields(tail) == Some(Read(fields[1..], rest))
    ensures ReadMoreFields(text) == Some(Read(fields, rest))
  {
    assert fields == [fields[0]] + fields[1..];
    if |fields| == 1 {
      assert after[1..] == rest && fields == [fields[0]];
    } else {
      assert after[1..] == tail;
    }
  }

  lemma FieldComesFirst(text: string)
    requires text != "" && text[0] == '\"'
    ensures ReadFields(text) == ReadMoreFields(text)
  {
  }

  function FieldText(f: Field, after: string): string { "\"" + PrintChars(f.key, ":" + Print(f.value, after)) }

  lemma PrintedFields(fields: seq<Field>, rest: string)
    requires fields != []
    ensures PrintFields(fields, rest) == FieldText(fields[0], FieldsAfter(fields, rest))
  {
  }

  lemma {:induction false} FieldsReadBack(fields: seq<Field>, rest: string)
    requires Delimited(rest)
    ensures ReadFields(PrintFields(fields, rest)) == Some(Read(fields, rest))
    ensures fields != [] ==> ReadMoreFields(PrintFields(fields, rest)) == Some(Read(fields, rest))
    decreases fields, 1
  {
    if fields == [] {
      assert ("}" + rest)[1..] == rest;
    } else {
      var after, tail := FieldsAfter(fields, rest), PrintFields(fields[1..], rest);
      ValueReadsBack(fields[0].value, after);
      FieldReadsBack(fields[0], after);
      if |fields| > 1 { FieldsReadBack(fields[1..], rest); }
      PrintedFields(fields, rest);
      FieldsStep(FieldText(fields[0], after), fields, after, tail, rest);
      FieldComesFirst(FieldText(fields[0], after));
    }
  }

  /** A reader gets the whole canonical value back from its canonical text, and nothing is left over. */
  lemma CanonicalTextReadsBack(j: Json)
    ensures ReadValue(CanonicalText(j)) == Some(Read(Canonical(j), ""))
  {
    ValueReadsBack(Canonical(j), "");
  }
}
