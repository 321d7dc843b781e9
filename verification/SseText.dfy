/** Line splitting shared by both incremental SSE parsers, and the dispatch rules of
    section 9.2.6 "Interpreting an event stream" of the WHATWG HTML standard. */
module SseText {
  datatype Ending = LF | CR | CRLF
  datatype Line = Line(text: string, ending: Ending)
  datatype SplitText = SplitText(lines: seq<Line>, rest: string)

  datatype Limits = Limits(maxLine: nat, maxFrame: nat)
  datatype Error = LineTooLarge | FrameTooLarge | IncompleteFrame | Closed
  datatype Outcome = Frames(frames: seq<string>) | Failed(error: Error)

  /** What a parser keeps between two lines. */
  datatype Pending = Pending(dataLines: seq<string>, frameBytes: nat)
  datatype Progress = Continue(pending: Pending, frames: seq<string>) | Stop(error: Error)

  const NOTHING := Pending([], 0)

  function CharBytes(c: char): nat {
    if c < '\U{80}' then 1 else if c < '\U{800}' then 2 else if c < '\U{10000}' then 3 else 4
  }

  /** Length of the UTF-8 encoding. */
  function ByteLength(s: string): nat {
    if s == "" then 0 else CharBytes(s[0]) + ByteLength(s[1..])
  }

  lemma {:induction false} ByteLengthAppend(a: string, b: string)
    ensures ByteLength(a + b) == ByteLength(a) + ByteLength(b)
  {
    if a == "" {
      assert a + b == b;
    } else {
      ByteLengthAppend(a[1..], b);
      assert (a + b)[1..] == a[1..] + b;
    }
  }

  /** `indexOf`: the first position of c, or -1. */
  function IndexOf(s: string, c: char): (i: int)
    ensures -1 <= i < |s|
    ensures i >= 0 ==> s[i] == c
    ensures forall k | 0 <= k < (if i < 0 then |s| else i) :: s[k] != c
  {
    if s == "" then -1
    else if s[0] == c then 0
    else var i := IndexOf(s[1..], c); if i < 0 then -1 else i + 1
  }

  function Width(e: Ending): nat {
    if e == CRLF then 2 else 1
  }

  function Prepend(c: char, s: SplitText): SplitText {
    if s.lines == [] then SplitText([], [c] + s.rest)
    else SplitText([s.lines[0].(text := [c] + s.lines[0].text)] + s.lines[1..], s.rest)
  }

  /** One pass over the text: all complete lines and the unfinished remainder. A CR absorbs
      a LF that follows it; while the stream is not `final`, a CR that is the last character
      may still become a CRLF and stays in the remainder. */
  function Split(s: string, final: bool): SplitText
    decreases |s|
  {
    if s == "" || (s == "\r" && !final) then SplitText([], s)
    else if s[0] == '\n' then After(LF, Split(s[1..], final))
    else if s[0] == '\r' && |s| > 1 && s[1] == '\n' then After(CRLF, Split(s[2..], final))
    else if s[0] == '\r' then After(CR, Split(s[1..], final))
    else Prepend(s[0], Split(s[1..], final))
  }

  function After(e: Ending, s: SplitText): SplitText {
    SplitText([Line("", e)] + s.lines, s.rest)
  }

  predicate CutsCrlf(a: string, b: string) {
    a != "" && b != "" && a[|a| - 1] == '\r' && b[0] == '\n'
  }

  function Append(s: SplitText, t: SplitText): SplitText {
    SplitText(s.lines + t.lines, t.rest)
  }

  lemma {:induction false} AppendAfter(e: Ending, s: SplitText, t: SplitText)
    ensures After(e, Append(s, t)) == Append(After(e, s), t)
  {
    assert [Line("", e)] + (s.lines + t.lines) == [Line("", e)] + s.lines + t.lines;
  }

  lemma {:induction false} AppendPrepend(c: char, s: SplitText, t: SplitText)
    requires s.lines != []
    ensures Prepend(c, Append(s, t)) == Append(Prepend(c, s), t)
  {
    assert (s.lines + t.lines)[1..] == s.lines[1..] + t.lines;
  }

  lemma {:induction false} AppendNothing(rest: string, t: SplitText)
    ensures Append(SplitText([], rest), t) == t
  {
  }

  lemma {:induction false} SplitPlain(s: string, final: bool)
    requires s != "" && s[0] != '\n' && s[0] != '\r'
    ensures Split(s, final) == Prepend(s[0], Split(s[1..], final))
  {
  }

  lemma {:induction false} SplitBreak(s: string, final: bool, e: Ending)
    requires s != "" && (s[0] == '\n' || s[0] == '\r') && (s != "\r" || final)
    requires e == EndingAt(s, 0)
    ensures Split(s, final) == After(e, Split(s[Width(e)..], final))
  {
  }

  /** Splitting may be resumed: lines found so far stay, and only the remainder is looked
      at again. With eager CRs this needs a boundary that does not cut a CRLF. */
  lemma {:induction false} SplitResumes(a: string, b: string, early: bool, final: bool)
    requires early ==> final && !CutsCrlf(a, b)
    ensures Split(a + b, final) == Append(Split(a, early), Split(Split(a, early).rest + b, final))
    decreases |a|
  {
    if a == "" || (a == "\r" && !early) {
      assert a == "" ==> a + b == b;
      AppendNothing(a, Split(a + b, final));
    } else if a[0] == '\n' || a[0] == '\r' {
      ResumeAfterBreak(a, b, early, final);
    } else {
      ResumeInLine(a, b, early, final);
    }
  }

  lemma {:induction false} ResumeAfterBreak(a: string, b: string, early: bool, final: bool)
    requires early ==> final && !CutsCrlf(a, b)
    requires a != "" && (a[0] == '\n' || a[0] == '\r') && (a != "\r" || early)
    ensures Split(a + b, final) == Append(Split(a, early), Split(Split(a, early).rest + b, final))
    decreases |a|, 0
  {
    var e := EndingAt(a, 0);
    var tail := a[Width(e)..];
    assert EndingAt(a + b, 0) == e && (a + b)[Width(e)..] == tail + b;
    assert !CutsCrlf(tail, b) || !early;
    SplitBreak(a, early, e);
    SplitBreak(a + b, final, e);
    SplitResumes(tail, b, early, final);
    AppendAfter(e, Split(tail, early), Split(Split(tail, early).rest + b, final));
  }

  lemma {:induction false} ResumeInLine(a: string, b: string, early: bool, final: bool)
    requires early ==> final && !CutsCrlf(a, b)
    requires a != "" && a[0] != '\n' && a[0] != '\r'
    ensures Split(a + b, final) == Append(Split(a, early), Split(Split(a, early).rest + b, final))
    decreases |a|, 0
  {
    var tail := a[1..];
    assert (a + b)[1..] == tail + b;
    SplitPlain(a, early);
    SplitPlain(a + b, final);
    SplitResumes(tail, b, early, final);
    var s := Split(tail, early);
    var t := Split(s.rest + b, final);
    if s.lines != [] {
      AppendPrepend(a[0], s, t);
    } else {
      var rest := [a[0]] + s.rest;
      assert (rest + b)[1..] == s.rest + b;
      SplitPlain(rest + b, final);
      AppendNothing(s.rest, t);
      AppendNothing(rest, Prepend(a[0], t));
    }
  }

  /** Position of the first line terminator, or the length of the text. */
  function LineEnd(s: string): (i: nat)
    ensures i <= |s|
    ensures i < |s| ==> s[i] == '\n' || s[i] == '\r'
    ensures forall k | 0 <= k < i :: s[k] != '\n' && s[k] != '\r'
  {
    var newline, carriage := IndexOf(s, '\n'), IndexOf(s, '\r');
    if newline < 0 && carriage < 0 then |s|
    else if newline < 0 || 0 <= carriage < newline then carriage
    else newline
  }

  /** The terminator at position i. */
  function EndingAt(s: string, i: nat): Ending
    requires i < |s|
  {
    if s[i] == '\n' then LF else if i + 1 < |s| && s[i + 1] == '\n' then CRLF else CR
  }

  /** Cutting off the first line, as both parsers do. */
  lemma {:induction false} SplitAt(s: string, i: nat, final: bool)
    requires i <= |s| && forall k | 0 <= k < i :: s[k] != '\n' && s[k] != '\r'
    requires i < |s| ==> s[i] == '\n' || s[i] == '\r'
    ensures i == |s| || (i + 1 == |s| && s[i] == '\r' && !final) ==> Split(s, final) == SplitText([], s)
    ensures i < |s| && (i + 1 < |s| || s[i] == '\n' || final) ==>
              var e := EndingAt(s, i);
              Split(s, final) == Append(SplitText([Line(s[..i], e)], ""), Split(s[i + Width(e)..], final))
    decreases i
  {
    if i > 0 {
      SplitAt(s[1..], i - 1, final);
      assert s == [s[0]] + s[1..];
      if i < |s| {
        var e := EndingAt(s, i);
        assert EndingAt(s[1..], i - 1) == e;
        assert s[1..][i - 1 + Width(e)..] == s[i + Width(e)..];
        assert [s[0]] + s[1..][..i - 1] == s[..i];
      }
    }
  }

  // ---- Lines written out ----

  predicate NoBreaks(s: string) {
    forall k | 0 <= k < |s| :: s[k] != '\n' && s[k] != '\r'
  }

  function Terminator(e: Ending): string {
    match e case LF => "\n" case CR => "\r" case CRLF => "\r\n"
  }

  function TextOf(lines: seq<Line>): string {
    if lines == [] then "" else lines[0].text + Terminator(lines[0].ending) + TextOf(lines[1..])
  }

  /** No line holds a break, and none that ends in a CR stands before an empty line's LF. */
  predicate Writable(lines: seq<Line>) {
    lines == [] ||
    (NoBreaks(lines[0].text) && Writable(lines[1..]) &&
     (lines[0].ending == CR && |lines| > 1 ==> lines[1] != Line("", LF)))
  }

  lemma {:induction false} LineFirst(line: string, e: Ending, more: string)
    requires NoBreaks(line) && (e == CR && more != "" ==> more[0] != '\n')
    ensures Split(line + Terminator(e) + more, true) == Append(SplitText([Line(line, e)], ""), Split(more, true))
  {
    var s, n := line + Terminator(e) + more, |line|;
    assert forall k | 0 <= k < n :: s[k] == line[k];
    assert s[n] == Terminator(e)[0] && s[..n] == line && s[n + Width(e)..] == more;
    assert EndingAt(s, n) == e;
    SplitAt(s, n, true);
  }

  lemma {:induction false} StartsWithLf(lines: seq<Line>)
    requires Writable(lines) && TextOf(lines) != "" && TextOf(lines)[0] == '\n'
    ensures lines != [] && lines[0] == Line("", LF)
  {
    var line := lines[0];
    assert TextOf(lines)[0] == (line.text + Terminator(line.ending))[0];
  }

  /** Lines that are written out are read back. */
  lemma {:induction false} SplitTextOf(lines: seq<Line>)
    requires Writable(lines)
    ensures Split(TextOf(lines), true) == SplitText(lines, "")
  {
    if lines != [] {
      SplitTextOf(lines[1..]);
      var more := TextOf(lines[1..]);
      if more != "" && more[0] == '\n' {
        StartsWithLf(lines[1..]);
      }
      LineFirst(lines[0].text, lines[0].ending, more);
      assert [lines[0]] + lines[1..] == lines;
    }
  }

  function Join(parts: seq<string>, separator: string): string {
    if parts == [] then ""
    else if |parts| == 1 then parts[0]
    else Join(parts[..|parts| - 1], separator) + separator + parts[|parts| - 1]
  }

  function Concat(chunks: seq<string>): string {
    if chunks == [] then "" else chunks[0] + Concat(chunks[1..])
  }

  function StripSpace(value: string): string {
    if " " <= value then value[1..] else value
  }

  // ---- The standard's own algorithm: a data buffer to which each data field appends
  // ---- its value and one LF, dispatched by an empty line after dropping the last LF.

  datatype Buffer = Buffer(data: string, dispatched: seq<string>)

  /** The field name and value of a line that is neither empty nor a comment. */
  function FieldName(line: string): string {
    var colon := IndexOf(line, ':');
    if colon < 0 then line else line[..colon]
  }

  function FieldValue(line: string): string {
    var colon := IndexOf(line, ':');
    if colon < 0 then "" else StripSpace(line[colon + 1..])
  }

  function StandardLine(b: Buffer, line: string): Buffer {
    if line == "" then
      if b.data == "" then b else Buffer("", b.dispatched + [b.data[..|b.data| - 1]])
    else if ":" <= line then b
    else if FieldName(line) == "data" then b.(data := b.data + FieldValue(line) + "\n")
    else b
  }

  function Standard(lines: seq<Line>): Buffer {
    if lines == [] then Buffer("", [])
    else StandardLine(Standard(lines[..|lines| - 1]), lines[|lines| - 1].text)
  }

  /** The payloads the standard dispatches for a whole stream. */
  function StandardPayloads(text: string): seq<string> {
    Standard(Split(text, true).lines).dispatched
  }

  /** The data buffer that corresponds to a list of data values. */
  function BufferOf(dataLines: seq<string>): string {
    if dataLines == [] then "" else Join(dataLines, "\n") + "\n"
  }

  lemma {:induction false} BufferOfPush(dataLines: seq<string>, value: string)
    ensures BufferOf(dataLines + [value]) == BufferOf(dataLines) + value + "\n"
  {
    assert (dataLines + [value])[..|dataLines|] == dataLines;
  }
}
