/** The string operations of Python that the services lean on. */
module PythonText {
  /** `part in text` */
  predicate Occurs(text: string, part: string) {
    part <= text || (text != "" && Occurs(text[1..], part))
  }

  /** `text.replace(part, put)`: leftmost first, without overlaps, and not inside what was put in. */
  function Replace(text: string, part: string, put: string): string
    requires part != ""
  {
    if part <= text then put + Replace(text[|part|..], part, put)
    else if text == "" then ""
    else [text[0]] + Replace(text[1..], part, put)
  }

  /** `text.split(end)` for a one-character separator. */
  function Split(text: string, end: char): (lines: seq<string>)
    ensures |lines| > 0
  {
    if text == "" then [""]
    else
      var rest := Split(text[1..], end);
      if text[0] == end then [""] + rest else [[text[0]] + rest[0]] + rest[1..]
  }

  /** `end.join(lines)` */
  function Join(lines: seq<string>, end: char): string {
    if |lines| == 0 then ""
    else if |lines| == 1 then lines[0]
    else lines[0] + [end] + Join(lines[1..], end)
  }
}
