/** The shallow text normalization of exact comparison: line ends and trailing blanks. */
module AnswerText {
  import opened PythonText

  predicate Blank(c: char) { c == ' ' || c == '\t' }

  predicate AllBlank(text: string) { forall k :: 0 <= k < |text| ==> Blank(text[k]) }

  /** `line.rstrip(" \t")` */
  function RStrip(line: string): string {
    if line != "" && Blank(line[|line| - 1]) then RStrip(line[..|line| - 1]) else line
  }

  /** What is left ends in no space and no tab, and nothing else was taken away. */
  lemma {:induction false} RStripTakesBlanks(line: string)
    ensures var kept := RStrip(line);
      && kept <= line && (kept != "" ==> kept[|kept| - 1] != ' ' && kept[|kept| - 1] != '\t')
      && forall k :: |kept| <= k < |line| ==> line[k] == ' ' || line[k] == '\t'
    decreases |line|
  {
    if line != "" { RStripTakesBlanks(line[..|line| - 1]); }
  }

  function RStripAll(lines: seq<string>): (stripped: seq<string>)
    ensures |stripped| == |lines|
    ensures forall k :: 0 <= k < |lines| ==> stripped[k] == RStrip(lines[k])
  {
    seq(|lines|, k requires 0 <= k < |lines| => RStrip(lines[k]))
  }

  function UnifyLineEnds(text: string): string { Replace(Replace(text, "\r\n", "\n"), "\r", "\n") }

  /** `_normalize_text` */
  function Normalize(text: string): string {
    Join(RStripAll(Split(UnifyLineEnds(text), '\n')), '\n')
  }

  // ---------- lines, read in one pass ----------

  /** How many characters the line end at the head of the text takes; zero if there is none. */
  function LineEnd(text: string): (n: nat)
    ensures n <= |text| && (n > 0 <==> text != "" && text[0] in {'\r', '\n'})
  {
    if text == "" || text[0] !in {'\r', '\n'} then 0
    else if text[0] == '\r' && |text| > 1 && text[1] == '\n' then 2 else 1
  }

  /** The lines of a text in which CRLF, CR and LF all end a line. */
  function Lines(text: string): (lines: seq<string>)
    ensures |lines| > 0
    ensures forall k :: 0 <= k < |lines| ==> '\n' !in lines[k] && '\r' !in lines[k]
  {
    if text == "" then [""]
    else if LineEnd(text) > 0 then [""] + Lines(text[LineEnd(text)..])
    else var rest := Lines(text[1..]); [[text[0]] + rest[0]] + rest[1..]
  }

  function TrimmedLines(text: string): seq<string> { RStripAll(Lines(text)) }

  /** A scanner that looks at every character once and holds blanks back until something follows them on their line. */
  function Scan(text: string, held: string): string {
    if text == "" then ""
    else if LineEnd(text) > 0 then "\n" + Scan(text[LineEnd(text)..], "")
    else if Blank(text[0]) then Scan(text[1..], held + [text[0]])
    else held + [text[0]] + Scan(text[1..], "")
  }

  // ---------- the replacements unify the line ends ----------

  lemma UnifyStep(text: string)
    requires text != ""
    ensures UnifyLineEnds(text) ==
      if LineEnd(text) > 0 then "\n" + UnifyLineEnds(text[LineEnd(text)..]) else [text[0]] + UnifyLineEnds(text[1..])
  {
    var inner := Replace(text, "\r\n", "\n");
    if "\r\n" <= text {
      assert text[0] == '\r' && text[1] == '\n';
      ReplaceHead('\n', Replace(text[2..], "\r\n", "\n"));
    } else {
      assert inner == [text[0]] + Replace(text[1..], "\r\n", "\n");
      ReplaceHead(text[0], Replace(text[1..], "\r\n", "\n"));
    }
  }

  lemma ReplaceHead(c: char, rest: string)
    ensures Replace([c] + rest, "\r", "\n") == [if c == '\r' then '\n' else c] + Replace(rest, "\r", "\n")
  {
    var text := [c] + rest;
    assert text[1..] == rest && text[..1] == [c];
    if c == '\r' { assert text[..1] == "\r"; }
  }

  lemma SplitHead(c: char, rest: string)
    ensures Split([c] + rest, '\n') ==
      if c == '\n' then [""] + Split(rest, '\n') else [[c] + Split(rest, '\n')[0]] + Split(rest, '\n')[1..]
  {
    assert ([c] + rest)[1..] == rest;
  }

  lemma {:induction false} SplitFindsLines(text: string)
    ensures Split(UnifyLineEnds(text), '\n') == Lines(text)
    decreases |text|
  {
    if text != "" {
      UnifyStep(text);
      if LineEnd(text) > 0 {
        SplitHead('\n', UnifyLineEnds(text[LineEnd(text)..]));
        SplitFindsLines(text[LineEnd(text)..]);
      } else {
        SplitHead(text[0], UnifyLineEnds(text[1..]));
        SplitFindsLines(text[1..]);
      }
    }
  }

  // ---------- the scanner ----------

  lemma {:induction false} StripBlanks(text: string)
    requires AllBlank(text)
    ensures RStrip(text) == ""
    decreases |text|
  {
    if text != "" { StripBlanks(text[..|text| - 1]); }
  }

  /** Blanks before something that is not blank stay. */
  lemma {:induction false} StripAfter(head: string, tail: string)
    requires head != "" && !Blank(head[|head| - 1])
    ensures RStrip(head + tail) == head + RStrip(tail)
    decreases |tail|
  {
    if tail == "" {
      assert head + tail == head;
    } else {
      var whole := head + tail;
      assert whole[|whole| - 1] == tail[|tail| - 1];
      if Blank(tail[|tail| - 1]) {
        assert whole[..|whole| - 1] == head + tail[..|tail| - 1];
        StripAfter(head, tail[..|tail| - 1]);
      }
    }
  }

  function Prefixed(held: string, lines: seq<string>): seq<string>
    requires |lines| > 0
  {
    [held + lines[0]] + lines[1..]
  }

  lemma JoinCons(line: string, rest: seq<string>)
    requires |rest| > 0
    ensures Join([line] + rest, '\n') == line + "\n" + Join(rest, '\n')
  {
    assert ([line] + rest)[1..] == rest;
  }

  lemma JoinPrefixed(held: string, lines: seq<string>)
    requires |lines| > 0
    ensures Join(Prefixed(held, lines), '\n') == held + Join(lines, '\n')
  {
    var line, rest := lines[0], lines[1..];
    assert Prefixed(held, lines) == [held + line] + rest && lines == [line] + rest;
    if rest != [] {
      JoinCons(line, rest);
      JoinCons(held + line, rest);
      Associate(held, line, "\n", Join(rest, '\n'));
    }
  }

  lemma Associate(a: string, b: string, c: string, d: string)
    ensures (a + b) + c + d == a + (b + c + d)
  {
  }

  lemma PrefixedByNothing(lines: seq<string>)
    requires |lines| > 0
    ensures Prefixed("", lines) == lines
  {
    assert "" + lines[0] == lines[0];
  }

  lemma PrefixedTwice(held: string, c: char, rest: seq<string>)
    requires |rest| > 0
    ensures Prefixed(held, Prefixed([c], rest)) == Prefixed(held + [c], rest)
  {
    assert held + ([c] + rest[0]) == (held + [c]) + rest[0];
  }

  lemma StripPrefixed(held: string, c: char, rest: seq<string>)
    requires |rest| > 0 && !Blank(c)
    ensures RStripAll(Prefixed(held + [c], rest)) == Prefixed(held + [c], RStripAll(rest))
  {
    StripAfter(held + [c], rest[0]);
  }

  lemma StripEnded(held: string, rest: seq<string>)
    requires |rest| > 0 && AllBlank(held)
    ensures Join(RStripAll(Prefixed(held, [""] + rest)), '\n') == "\n" + Join(RStripAll(rest), '\n')
  {
    StripBlanks(held);
    assert held + "" == held;
    assert RStripAll(Prefixed(held, [""] + rest)) == [""] + RStripAll(rest);
    JoinCons("", RStripAll(rest));
    assert "" + "\n" == "\n";
  }

  lemma {:induction false} ScanTrims(text: string, held: string)
    requires AllBlank(held)
    ensures Scan(text, held) == Join(RStripAll(Prefixed(held, Lines(text))), '\n')
    decreases |text|
  {
    if text == "" {
      StripBlanks(held);
      assert held + "" == held;
      assert Prefixed(held, Lines(text)) == [held];
    } else if LineEnd(text) > 0 {
      var rest := Lines(text[LineEnd(text)..]);
      ScanTrims(text[LineEnd(text)..], "");
      PrefixedByNothing(rest);
      StripEnded(held, rest);
    } else {
      var c, rest := text[0], Lines(text[1..]);
      assert Lines(text) == Prefixed([c], rest);
      PrefixedTwice(held, c, rest);
      if Blank(c) {
        ScanTrims(text[1..], held + [c]);
      } else {
        ScanTrims(text[1..], "");
        PrefixedByNothing(rest);
        StripPrefixed(held, c, rest);
        JoinPrefixed(held + [c], RStripAll(rest));
      }
    }
  }

  /** The replacements, the split, the stripping and the join are one scan of the text. */
  lemma NormalizeIsOneScan(text: string)
    ensures Normalize(text) == Scan(text, "") == Join(TrimmedLines(text), '\n')
  {
    SplitFindsLines(text);
    ScanTrims(text, "");
    PrefixedByNothing(Lines(text));
  }

  // ---------- what it forgets, exactly ----------

  predicate OneLine(line: string) { '\n' !in line && '\r' !in line }

  lemma {:induction false} StripShortens(line: string)
    ensures RStrip(line) <= line && RStrip(RStrip(line)) == RStrip(line)
    decreases |line|
  {
    if line != "" && Blank(line[|line| - 1]) { StripShortens(line[..|line| - 1]); }
  }

  lemma TrimmedLinesAreLines(text: string)
    ensures TrimmedLines(text) != [] && forall k :: 0 <= k < |TrimmedLines(text)| ==> OneLine(TrimmedLines(text)[k])
    ensures RStripAll(TrimmedLines(text)) == TrimmedLines(text)
  {
    forall k | 0 <= k < |TrimmedLines(text)|
      ensures OneLine(TrimmedLines(text)[k]) && RStrip(TrimmedLines(text)[k]) == TrimmedLines(text)[k]
    {
      StripShortens(Lines(text)[k]);
    }
  }

  lemma {:induction false} LinesAfterLine(line: string, rest: string)
    requires OneLine(line)
    ensures Lines(line + "\n" + rest) == [line] + Lines(rest)
    ensures Lines(line) == [line]
    decreases |line|
  {
    var text := line + "\n" + rest;
    if line == "" {
      assert text == "\n" + rest && LineEnd(text) == 1 && text[1..] == rest;
    } else {
      assert text[0] == line[0] && text[1..] == line[1..] + "\n" + rest;
      LinesAfterLine(line[1..], rest);
      assert [line[0]] + line[1..] == line;
    }
  }

  lemma {:induction false} LinesOfJoin(lines: seq<string>)
    requires lines != [] && forall k :: 0 <= k < |lines| ==> OneLine(lines[k])
    ensures Lines(Join(lines, '\n')) == lines
  {
    if |lines| == 1 {
      LinesAfterLine(lines[0], "");
    } else {
      LinesOfJoin(lines[1..]);
      LinesAfterLine(lines[0], Join(lines[1..], '\n'));
      assert Join(lines, '\n') == lines[0] + "\n" + Join(lines[1..], '\n');
    }
  }

  /** Normalizing again changes nothing. */
  lemma NormalizeIsIdempotent(text: string)
    ensures Normalize(Normalize(text)) == Normalize(text)
    ensures TrimmedLines(Normalize(text)) == TrimmedLines(text)
  {
    NormalizeIsOneScan(text);
    TrimmedLinesAreLines(text);
    LinesOfJoin(TrimmedLines(text));
    NormalizeIsOneScan(Normalize(text));
  }

  /** Two texts count as the same exactly when their lines agree up to trailing blanks. */
  lemma SameTextIffSameLines(a: string, b: string)
    ensures Normalize(a) == Normalize(b) <==> TrimmedLines(a) == TrimmedLines(b)
  {
    NormalizeIsIdempotent(a);
    NormalizeIsIdempotent(b);
    NormalizeIsOneScan(a);
    NormalizeIsOneScan(b);
  }
}
