/** The compact JSON text of a value, and the proof that it determines the value. */
module JsonPrinter {
  import opened CanonicalJson
  import AnswerText

  // ---------- strings ----------

  const HEX := "0123456789abcdef"

  /** `json.dumps(..., ensure_ascii=False)` escapes quotes, backslashes and control characters below U+0020 only. */
  function Escape(c: char): (e: string)
    ensures e != ""
  {
    if c == '\"' then "\\\""
    else if c == '\\' then "\\\\"
    else if c == '\n' then "\\n"
    else if c == '\r' then "\\r"
    else if c == '\t' then "\\t"
    else if c as int == 8 then "\\b"
    else if c as int == 12 then "\\f"
    else if c as int < 32 then "\\u00" + [HEX[c as int / 16], HEX[c as int % 16]]
    else [c]
  }

  /** The characters of a string, then the closing quote, then what follows. */
  function PrintChars(text: string, rest: string): string {
    if text == "" then "\"" + rest else Escape(text[0]) + PrintChars(text[1..], rest)
  }

  // ---------- numbers ----------

  function Digit(n: nat): char
    requires n < 10
  {
    HEX[n]
  }

  function Digits(n: nat): (d: string)
    ensures d != ""
  {
    if n < 10 then [Digit(n)] else Digits(n / 10) + [Digit(n % 10)]
  }

  function Decimal(n: int): string { if n < 0 then "-" + Digits(-n) else Digits(n) }

  // ---------- values ----------

  /** The text of a value, followed by `rest`. */
  function Print(j: Json, rest: string): string
    decreases j, 0
  {
    match j
    case Null => "null" + rest
    case Bool(truth) => (if truth then "true" else "false") + rest
    case Num(n) => Decimal(n) + rest
    case Str(text) => "\"" + PrintChars(text, rest)
    case Arr(items) => "[" + PrintItems(items, rest)
    case Obj(fields) => "{" + PrintFields(fields, rest)
  }

  function PrintItems(items: seq<Json>, rest: string): string
    decreases items, 1
  {
    if items == [] then "]" + rest
    else if |items| == 1 then Print(items[0], "]" + rest)
    else Print(items[0], "," + PrintItems(items[1..], rest))
  }

  function PrintFields(fields: seq<Field>, rest: string): string
    decreases fields, 1
  {
    if fields == [] then "}" + rest
    else "\"" + PrintChars(fields[0].key,
      ":" + Print(fields[0].value, if |fields| == 1 then "}" + rest else "," + PrintFields(fields[1..], rest)))
  }

  /** `_canonical_json` */
  function CanonicalText(j: Json): string { Print(Canonical(j), "") }

  // ---------- a printed string determines its characters ----------

  function HexValue(c: char): nat {
    if '0' <= c <= '9' then c as int - '0' as int
    else if 'a' <= c <= 'f' then c as int - 'a' as int + 10
    else 0
  }

  /** The first character of an escaped text, and how long its escape is. */
  function Decoded(text: string): (char, nat)
    requires text != ""
  {
    if text[0] != '\\' || |text| == 1 then (text[0], 1)
    else if text[1] == 'n' then ('\n', 2)
    else if text[1] == 'r' then ('\r', 2)
    else if text[1] == 't' then ('\t', 2)
    else if text[1] == 'b' then (8 as char, 2)
    else if text[1] == 'f' then (12 as char, 2)
    else if text[1] == 'u' && |text| >= 6 then ((HexValue(text[4]) * 16 + HexValue(text[5])) as char, 6)
    else (text[1], 2)
  }

  lemma HexRoundTrip(n: nat)
    requires n < 16
    ensures HexValue(HEX[n]) == n
  {
  }

  lemma ControlDecodes(c: char, rest: string)
    requires c as int < 32 && Escape(c) == "\\u00" + [HEX[c as int / 16], HEX[c as int % 16]]
    ensures Decoded(Escape(c) + rest) == (c, 6) && |Escape(c)| == 6
  {
    var text := Escape(c) + rest;
    HexRoundTrip(c as int / 16);
    HexRoundTrip(c as int % 16);
    assert text[0] == '\\' && text[1] == 'u' && text[4] == HEX[c as int / 16] && text[5] == HEX[c as int % 16];
  }

  lemma EscapeDecodes(c: char, rest: string)
    ensures var text := Escape(c) + rest;
      && Decoded(text) == (c, |Escape(c)|) && text[0] != '\"' && text[|Escape(c)|..] == rest
  {
    if c as int < 32 && c !in {'\n', '\r', '\t'} && c as int !in {8, 12} { ControlDecodes(c, rest); }
  }

  lemma {:induction false} CharsDetermine(s: string, t: string, x: string, y: string)
    requires PrintChars(s, x) == PrintChars(t, y)
    ensures s == t && x == y
  {
    if s != "" { EscapeDecodes(s[0], PrintChars(s[1..], x)); }
    if t != "" { EscapeDecodes(t[0], PrintChars(t[1..], y)); }
    if s == "" && t == "" {
      assert PrintChars(s, x)[1..] == x && PrintChars(t, y)[1..] == y;
    } else {
      assert s != "" && t != "";
      CharsDetermine(s[1..], t[1..], x, y);
      assert s == [s[0]] + s[1..] && t == [t[0]] + t[1..];
    }
  }

  // ---------- a printed number determines its value ----------

  predicate IsDigit(c: char) { '0' <= c <= '9' }

  function Value(digits: string): nat {
    if digits == "" then 0 else Value(digits[..|digits| - 1]) * 10 + HexValue(digits[|digits| - 1])
  }

  lemma {:induction false} DigitsRoundTrip(n: nat)
    ensures Value(Digits(n)) == n
    ensures forall k :: 0 <= k < |Digits(n)| ==> IsDigit(Digits(n)[k])
  {
    HexRoundTrip(n % 10);
    if n < 10 {
      assert Digits(n)[..0] == "";
    } else {
      DigitsRoundTrip(n / 10);
      assert Digits(n)[..|Digits(n)| - 1] == Digits(n / 10);
    }
  }

  /** What may follow a value. */
  predicate Delimited(rest: string) { rest == "" || rest[0] in {',', ']', '}'} }

  lemma DigitsDetermine(a: nat, b: nat, x: string, y: string)
    requires Digits(a) + x == Digits(b) + y && Delimited(x) && Delimited(y)
    ensures a == b && x == y
  {
    DigitsRoundTrip(a);
    DigitsRoundTrip(b);
    var d, e, text := Digits(a), Digits(b), Digits(a) + x;
    assert text == e + y;
    assert forall k :: 0 <= k < |d| ==> text[k] == d[k];
    assert forall k :: 0 <= k < |e| ==> text[k] == e[k];
    assert x != "" ==> text[|d|] == x[0];
    assert y != "" ==> text[|e|] == y[0];
    if |d| < |e| { assert false; }
    if |e| < |d| { assert false; }
    assert d == text[..|d|] && e == text[..|e|] && x == text[|d|..] && y == text[|e|..];
  }

  lemma SameHead(p: string, q: string, x: string, y: string)
    requires p != "" && q != "" && p + x == q + y
    ensures p[0] == q[0] && p[1..] + x == q[1..] + y
  {
    assert (p + x)[0] == p[0] && (p + x)[1..] == p[1..] + x;
    assert (q + y)[0] == q[0] && (q + y)[1..] == q[1..] + y;
  }

  function Signed(negative: bool, digits: string): string { if negative then "-" + digits else digits }

  lemma SignedDetermine(m: bool, n: bool, d: string, e: string, x: string, y: string)
    requires d != "" && IsDigit(d[0]) && e != "" && IsDigit(e[0])
    requires Signed(m, d) + x == Signed(n, e) + y
    ensures m == n && d + x == e + y
  {
    SameHead(Signed(m, d), Signed(n, e), x, y);
  }

  function Magnitude(n: int): nat { if n < 0 then -n else n }

  lemma DecimalIsSigned(n: int)
    ensures Decimal(n) == Signed(n < 0, Digits(Magnitude(n)))
    ensures IsDigit(Digits(Magnitude(n))[0])
  {
    DigitsRoundTrip(Magnitude(n));
  }

  lemma DecimalDetermines(a: int, b: int, x: string, y: string)
    requires Decimal(a) + x == Decimal(b) + y && Delimited(x) && Delimited(y)
    ensures a == b && x == y
  {
    DecimalIsSigned(a);
    DecimalIsSigned(b);
    var m, n := Magnitude(a), Magnitude(b);
    SignedDetermine(a < 0, b < 0, Digits(m), Digits(n), x, y);
    DigitsDetermine(m, n, x, y);
  }

  // ---------- the text determines the value ----------

  predicate StartsLike(j: Json, c: char) {
    match j
    case Null => c == 'n'
    case Bool(truth) => c == if truth then 't' else 'f'
    case Num(n) => c == '-' || IsDigit(c)
    case Str(_) => c == '\"'
    case Arr(_) => c == '['
    case Obj(_) => c == '{'
  }

  lemma PrintHead(j: Json, rest: string)
    ensures Print(j, rest) != "" && StartsLike(j, Print(j, rest)[0])
  {
    if j.Num? {
      DecimalIsSigned(j.number);
      assert (Decimal(j.number) + rest)[0] == Decimal(j.number)[0];
    }
  }

  lemma DropEqual(head: string, x: string, y: string)
    requires head + x == head + y
    ensures x == y
  {
    assert (head + x)[|head|..] == x && (head + y)[|head|..] == y;
  }

  /** Printing is injective, whatever follows, as long as it starts with a delimiter. */
  lemma {:induction false} PrintDetermines(a: Json, b: Json, x: string, y: string)
    requires Print(a, x) == Print(b, y) && Delimited(x) && Delimited(y)
    ensures a == b && x == y
    decreases a, 0
  {
    PrintHead(a, x);
    PrintHead(b, y);
    match a
    case Null => DropEqual("null", x, y);
    case Bool(truth) => DropEqual(if truth then "true" else "false", x, y);
    case Num(n) => DecimalDetermines(n, b.number, x, y);
    case Str(text) =>
      DropEqual("\"", PrintChars(text, x), PrintChars(b.text, y));
      CharsDetermine(text, b.text, x, y);
    case Arr(items) =>
      DropEqual("[", PrintItems(items, x), PrintItems(b.items, y));
      ItemsDetermine(items, b.items, x, y);
    case Obj(fields) =>
      DropEqual("{", PrintFields(fields, x), PrintFields(b.fields, y));
      FieldsDetermine(fields, b.fields, x, y);
  }

  function ItemsAfter(items: seq<Json>, rest: string): string
    requires items != []
  {
    if |items| == 1 then "]" + rest else "," + PrintItems(items[1..], rest)
  }

  lemma {:induction false} ItemsDetermine(items: seq<Json>, others: seq<Json>, x: string, y: string)
    requires PrintItems(items, x) == PrintItems(others, y)
    ensures items == others && x == y
    decreases items, 1
  {
    if items != [] { PrintHead(items[0], ItemsAfter(items, x)); }
    if others != [] { PrintHead(others[0], ItemsAfter(others, y)); }
    if items == [] || others == [] {
      DropEqual("]", x, y);
    } else {
      PrintDetermines(items[0], others[0], ItemsAfter(items, x), ItemsAfter(others, y));
      ItemsGoOn(items, others, x, y);
      if |items| > 1 { ItemsDetermine(items[1..], others[1..], x, y); }
      assert items == [items[0]] + items[1..] && others == [others[0]] + others[1..];
    }
  }

  /** Two texts after an item are equal only if both end the list there or both go on. */
  lemma ItemsGoOn(items: seq<Json>, others: seq<Json>, x: string, y: string)
    requires items != [] && others != [] && ItemsAfter(items, x) == ItemsAfter(others, y)
    ensures |items| == 1 <==> |others| == 1
    ensures |items| == 1 ==> x == y
    ensures |items| > 1 ==> PrintItems(items[1..], x) == PrintItems(others[1..], y)
  {
    assert ItemsAfter(items, x)[0] == if |items| == 1 then ']' else ',';
    assert ItemsAfter(others, y)[0] == if |others| == 1 then ']' else ',';
    if |items| == 1 {
      DropEqual("]", x, y);
    } else {
      DropEqual(",", PrintItems(items[1..], x), PrintItems(others[1..], y));
    }
  }

  function FieldsAfter(fields: seq<Field>, rest: string): string
    requires fields != []
  {
    if |fields| == 1 then "}" + rest else "," + PrintFields(fields[1..], rest)
  }

  lemma {:induction false} FieldsDetermine(fields: seq<Field>, others: seq<Field>, x: string, y: string)
    requires PrintFields(fields, x) == PrintFields(others, y)
    ensures fields == others && x == y
    decreases fields, 1
  {
    if fields == [] || others == [] {
      assert fields == [] && others == [] by {
        assert PrintFields(fields, x)[0] == if fields == [] then '}' else '\"';
        assert PrintFields(others, y)[0] == if others == [] then '}' else '\"';
      }
      DropEqual("}", x, y);
    } else {
      var f, g := fields[0], others[0];
      var v, w := Print(f.value, FieldsAfter(fields, x)), Print(g.value, FieldsAfter(others, y));
      DropEqual("\"", PrintChars(f.key, ":" + v), PrintChars(g.key, ":" + w));
      CharsDetermine(f.key, g.key, ":" + v, ":" + w);
      DropEqual(":", v, w);
      PrintDetermines(f.value, g.value, FieldsAfter(fields, x), FieldsAfter(others, y));
      assert FieldsAfter(fields, x)[0] == if |fields| == 1 then '}' else ',';
      assert FieldsAfter(others, y)[0] == if |others| == 1 then '}' else ',';
      if |fields| == 1 {
        DropEqual("}", x, y);
      } else {
        DropEqual(",", PrintFields(fields[1..], x), PrintFields(others[1..], y));
        FieldsDetermine(fields[1..], others[1..], x, y);
      }
      assert fields == [fields[0]] + fields[1..] && others == [others[0]] + others[1..];
    }
  }

  /** The canonical texts of two values agree exactly when the values agree up to the order of keys. */
  lemma CanonicalTextIsFaithful(a: Json, b: Json)
    requires WellFormed(a) && WellFormed(b)
    ensures CanonicalText(a) == CanonicalText(b) <==> SameTree(a, b)
  {
    CanonicalDecidesSameTree(a, b);
    if CanonicalText(a) == CanonicalText(b) { PrintDetermines(Canonical(a), Canonical(b), "", ""); }
  }

  // ---------- the text is one line ----------

  lemma EscapeIsOneLine(c: char)
    ensures AnswerText.OneLine(Escape(c))
  {
  }

  lemma {:induction false} CharsAreOneLine(text: string, rest: string)
    requires AnswerText.OneLine(rest)
    ensures AnswerText.OneLine(PrintChars(text, rest))
  {
    if text != "" {
      EscapeIsOneLine(text[0]);
      CharsAreOneLine(text[1..], rest);
    }
  }

  lemma {:induction false} DigitsAreOneLine(n: nat)
    ensures AnswerText.OneLine(Digits(n))
  {
    if n >= 10 { DigitsAreOneLine(n / 10); }
  }

  lemma DecimalIsOneLine(n: int)
    ensures AnswerText.OneLine(Decimal(n))
  {
    DigitsAreOneLine(if n < 0 then -n else n);
  }

  /** Line ends occur only escaped, so the text of a value never breaks a line. */
  lemma {:induction false} PrintIsOneLine(j: Json, rest: string)
    requires AnswerText.OneLine(rest)
    ensures AnswerText.OneLine(Print(j, rest))
    decreases j, 0
  {
    match j
    case Num(n) => DecimalIsOneLine(n);
    case Str(text) => CharsAreOneLine(text, rest);
    case Arr(items) => ItemsAreOneLine(items, rest);
    case Obj(fields) => FieldsAreOneLine(fields, rest);
    case _ =>
  }

  lemma {:induction false} ItemsAreOneLine(items: seq<Json>, rest: string)
    requires AnswerText.OneLine(rest)
    ensures AnswerText.OneLine(PrintItems(items, rest))
    decreases items, 1
  {
    if items != [] {
      if |items| > 1 { ItemsAreOneLine(items[1..], rest); }
      PrintIsOneLine(items[0], ItemsAfter(items, rest));
    }
  }

  lemma {:induction false} FieldsAreOneLine(fields: seq<Field>, rest: string)
    requires AnswerText.OneLine(rest)
    ensures AnswerText.OneLine(PrintFields(fields, rest))
    decreases fields, 1
  {
    if fields != [] {
      if |fields| > 1 { FieldsAreOneLine(fields[1..], rest); }
      PrintIsOneLine(fields[0].value, FieldsAfter(fields, rest));
      CharsAreOneLine(fields[0].key, ":" + Print(fields[0].value, FieldsAfter(fields, rest)));
    }
  }

  // ---------- the text ends with its last token ----------

  predicate EndsLike(text: string, rest: string) {
    rest != "" && |text| >= |rest| && text[|text| - 1] == rest[|rest| - 1]
  }

  lemma {:induction false} CharsEnd(text: string, rest: string)
    requires rest != ""
    ensures EndsLike(PrintChars(text, rest), rest)
  {
    if text != "" { CharsEnd(text[1..], rest); }
  }

  lemma {:induction false} PrintEnds(j: Json, rest: string)
    requires rest != ""
    ensures EndsLike(Print(j, rest), rest)
    decreases j, 0
  {
    match j
    case Str(text) => CharsEnd(text, rest);
    case Arr(items) => ItemsEnd(items, rest);
    case Obj(fields) => FieldsEnd(fields, rest);
    case _ =>
  }

  lemma {:induction false} ItemsEnd(items: seq<Json>, rest: string)
    requires rest != ""
    ensures EndsLike(PrintItems(items, rest), rest)
    decreases items, 1
  {
    if items != [] {
      var tail := ItemsAfter(items, rest);
      if |items| > 1 {
        ItemsEnd(items[1..], rest);
        OneBefore(",", PrintItems(items[1..], rest), rest);
      } else {
        OneBefore("]", rest, rest);
      }
      PrintEnds(items[0], tail);
      EndsOn(Print(items[0], tail), tail, rest);
    }
  }

  lemma EndsOn(text: string, tail: string, rest: string)
    requires EndsLike(text, tail) && EndsLike(tail, rest)
    ensures EndsLike(text, rest)
  {
  }

  lemma OneBefore(c: string, text: string, rest: string)
    requires |c| == 1 && EndsLike(text, rest)
    ensures EndsLike(c + text, rest)
  {
  }

  lemma FieldEnds(f: Field, rest: string)
    requires rest != "" && EndsLike(Print(f.value, rest), rest)
    ensures EndsLike("\"" + PrintChars(f.key, ":" + Print(f.value, rest)), rest)
  {
    CharsEnd(f.key, ":" + Print(f.value, rest));
  }

  /** The text of an object ends with its brace. */
  lemma {:induction false} FieldsEnd(fields: seq<Field>, rest: string)
    ensures EndsLike(PrintFields(fields, rest), "}" + rest)
    decreases fields, 1
  {
    if fields != [] {
      var tail := FieldsAfter(fields, rest);
      if |fields| > 1 { FieldsEnd(fields[1..], rest); }
      assert EndsLike(tail, "}" + rest);
      PrintEnds(fields[0].value, tail);
      FieldEnds(fields[0], tail);
    }
  }
}
