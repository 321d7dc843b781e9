/** The one-pass parse of a complete stream that both incremental parsers must agree with,
    and what agreement means for every way of cutting the stream into chunks. */
module SseReference {
  import opened SseText

  /** The two parsers treat a line slightly differently. */
  datatype Dialect = Bridge | Server

  function Dispatch(p: Pending): seq<string> {
    if p.dataLines == [] then [] else [Join(p.dataLines, "\n")]
  }

  function BridgeLine(limits: Limits, p: Pending, line: Line): Progress {
    if ByteLength(line.text) > limits.maxLine then Stop(LineTooLarge)
    else if line.text == "" then
      if p.dataLines != [] && p.frameBytes > limits.maxFrame then Stop(FrameTooLarge)
      else Continue(NOTHING, Dispatch(p))
    else if ":" <= line.text || !("data:" <= line.text) then Continue(p, [])
    else
      var value := StripSpace(line.text[5..]);
      var bytes := p.frameBytes + ByteLength(value);
      if bytes > limits.maxFrame then Stop(FrameTooLarge)
      else Continue(Pending(p.dataLines + [value], bytes), [])
  }

  function ServerLine(limits: Limits, p: Pending, line: Line): Progress {
    var bytes := p.frameBytes + ByteLength(line.text) + Width(line.ending);
    if ByteLength(line.text) > limits.maxLine then Stop(LineTooLarge)
    else if bytes > limits.maxFrame then Stop(FrameTooLarge)
    else if line.text == "" then Continue(NOTHING, Dispatch(p))
    else if ":" <= line.text then Continue(Pending(p.dataLines, bytes), [])
    else if FieldName(line.text) == "data" then
      Continue(Pending(p.dataLines + [FieldValue(line.text)], bytes), [])
    else Continue(Pending(p.dataLines, bytes), [])
  }

  function Consume(d: Dialect, limits: Limits, p: Pending, line: Line): Progress {
    if d == Bridge then BridgeLine(limits, p, line) else ServerLine(limits, p, line)
  }

  function ConsumeAll(d: Dialect, limits: Limits, lines: seq<Line>): Progress {
    if lines == [] then Continue(NOTHING, [])
    else
      match ConsumeAll(d, limits, lines[..|lines| - 1])
      case Stop(e) => Stop(e)
      case Continue(p, frames) =>
        match Consume(d, limits, p, lines[|lines| - 1])
        case Stop(e) => Stop(e)
        case Continue(q, more) => Continue(q, frames + more)
  }

  /** The state after consuming lines and looking at the unfinished rest. */
  function Settle(d: Dialect, limits: Limits, s: SplitText): Progress {
    match ConsumeAll(d, limits, s.lines)
    case Stop(e) => Stop(e)
    case Continue(p, frames) =>
      if ByteLength(s.rest) > limits.maxLine then Stop(LineTooLarge) else Continue(p, frames)
  }

  predicate Incomplete(d: Dialect, p: Pending, rest: string) {
    rest != "" || p.dataLines != [] || (d == Server && p.frameBytes > 0)
  }

  /** The result for a stream whose lines have all been found. */
  function Finish(d: Dialect, limits: Limits, s: SplitText): Outcome {
    match Settle(d, limits, s)
    case Stop(e) => Failed(e)
    case Continue(p, frames) => if Incomplete(d, p, s.rest) then Failed(IncompleteFrame) else Frames(frames)
  }

  /** The one-pass parse of a complete stream. */
  function Parse(d: Dialect, limits: Limits, text: string): Outcome {
    Finish(d, limits, Split(text, true))
  }

  const START := SplitText([], "")

  /** One more chunk; only the bridge waits for the character after a CR. */
  function Push(d: Dialect, seen: SplitText, chunk: string): SplitText {
    Append(seen, Split(seen.rest + chunk, d == Server))
  }

  /** Feeding chunks one by one and finishing: the first failure ends the stream. */
  function RunChunks(d: Dialect, limits: Limits, seen: SplitText, chunks: seq<string>): Outcome
    decreases |chunks|
  {
    if chunks == [] then Finish(d, limits, Append(seen, Split(seen.rest, true)))
    else
      var next := Push(d, seen, chunks[0]);
      match Settle(d, limits, next)
      case Stop(e) => Failed(e)
      case Continue(_, _) => RunChunks(d, limits, next, chunks[1..])
  }

  lemma {:induction false} ConsumeAllStops(d: Dialect, limits: Limits, a: seq<Line>, b: seq<Line>)
    requires ConsumeAll(d, limits, a).Stop?
    ensures ConsumeAll(d, limits, a + b) == ConsumeAll(d, limits, a)
  {
    if b == [] {
      assert a + b == a;
    } else {
      ConsumeAllStops(d, limits, a, b[..|b| - 1]);
      assert (a + b)[..|a + b| - 1] == a + b[..|b| - 1];
    }
  }

  lemma {:induction false} ConsumeAllPush(d: Dialect, limits: Limits, lines: seq<Line>, line: Line)
    requires ConsumeAll(d, limits, lines).Continue?
    ensures var before := ConsumeAll(d, limits, lines);
            var step := Consume(d, limits, before.pending, line);
            ConsumeAll(d, limits, lines + [line]) ==
              if step.Stop? then step else Continue(step.pending, before.frames + step.frames)
  {
    assert (lines + [line])[..|lines|] == lines;
  }

  lemma {:induction false} LineThenRest(before: seq<Line>, line: Line, tail: SplitText, whole: SplitText)
    requires whole == SplitText(before + ([line] + tail.lines), tail.rest)
    ensures Append(SplitText(before + [line], ""), tail) == whole
    ensures whole.lines == before + [line] + tail.lines
  {
    assert before + ([line] + tail.lines) == before + [line] + tail.lines;
  }

  // ---- Chunk independence ----

  /** A line that fills the limit exactly and ends in a CR: the bridge counts the CR that
      it still waits on, so such a line is too large only when a chunk ends right there. */
  predicate FillsLimitBeforeCr(limits: Limits, line: Line) {
    line.ending != LF && ByteLength(line.text) == limits.maxLine
  }

  predicate ChunkSafe(limits: Limits, text: string) {
    var lines := Split(text, true).lines;
    forall k | 0 <= k < |lines| :: !FillsLimitBeforeCr(limits, lines[k])
  }

  /** No chunk starts with a LF right after a CR. */
  predicate KeepsCrlf(consumed: string, chunks: seq<string>)
    decreases |chunks|
  {
    chunks == [] || (!CutsCrlf(consumed, chunks[0]) && KeepsCrlf(consumed + chunks[0], chunks[1..]))
  }

  lemma {:induction false} LongHead(limits: Limits, head: string, b: string)
    requires forall k | 0 <= k < |head| :: head[k] != '\n' && head[k] != '\r'
    ensures var s := Split(head + b, true);
            if s.lines == [] then ByteLength(s.rest) >= ByteLength(head)
            else ByteLength(s.lines[0].text) >= ByteLength(head)
  {
    var s := head + b;
    var i := LineEnd(s);
    assert forall k | 0 <= k < |head| :: s[k] == head[k];
    assert i >= |head|;
    SplitAt(s, i, true);
    assert s[..i] == head + s[|head|..i];
    ByteLengthAppend(head, s[|head|..i]);
    assert i == |s| ==> s[..i] == s;
  }

  predicate OpenRest(r: string, final: bool) {
    var n := if !final && r != "" && r[|r| - 1] == '\r' then |r| - 1 else |r|;
    forall k | 0 <= k < n :: r[k] != '\n' && r[k] != '\r'
  }

  /** The text that remains unfinished has no terminator, except an undecided CR. */
  lemma {:induction false} RestIsOpen(text: string, final: bool)
    ensures OpenRest(Split(text, final).rest, final)
    decreases |text|
  {
    if text == "" || (text == "\r" && !final) {
    } else if text[0] == '\n' || text[0] == '\r' {
      SplitBreak(text, final, EndingAt(text, 0));
      RestIsOpen(text[Width(EndingAt(text, 0))..], final);
    } else {
      RestIsOpen(text[1..], final);
      SplitPlain(text, final);
      var t := Split(text[1..], final);
      if t.lines == [] {
        OpenBehind(text[0], t.rest, final);
      }
    }
  }

  lemma {:induction false} OpenBehind(c: char, rest: string, final: bool)
    requires OpenRest(rest, final) && c != '\n' && c != '\r'
    ensures OpenRest([c] + rest, final)
  {
    var r := [c] + rest;
    assert forall k | 0 <= k < |rest| :: r[k + 1] == rest[k];
    assert forall k | 1 <= k < |r| :: r[k] == rest[k - 1];
  }

  /** A failure while pushing is the failure of the whole stream. */
  lemma {:induction false} PushFailureIsFinal(d: Dialect, limits: Limits, a: string, b: string)
    requires Settle(d, limits, Split(a, d == Server)).Stop?
    requires d == Server ==> !CutsCrlf(a, b)
    requires d == Bridge ==> ChunkSafe(limits, a + b)
    ensures Parse(d, limits, a + b) == Failed(Settle(d, limits, Split(a, d == Server)).error)
  {
    SplitResumes(a, b, d == Server, true);
    var s := Split(a, d == Server);
    var t := Split(s.rest + b, true);
    if ConsumeAll(d, limits, s.lines).Stop? {
      ConsumeAllStops(d, limits, s.lines, t.lines);
    } else {
      OpenRestTooLarge(d, limits, a, b);
    }
  }

  /** An unfinished rest that is already too large starts a line that is too large. */
  lemma {:induction false} OpenRestIsLong(limits: Limits, rest: string, b: string, waits: bool)
    requires ByteLength(rest) > limits.maxLine
    requires var n := if waits then |rest| - 1 else |rest|;
             forall k | 0 <= k < n :: rest[k] != '\n' && rest[k] != '\r'
    requires waits ==> EndsWithCr(rest)
    requires waits ==> Split(rest + b, true).lines != [] ==>
               !FillsLimitBeforeCr(limits, Split(rest + b, true).lines[0])
    ensures var t := Split(rest + b, true);
            if t.lines == [] then ByteLength(t.rest) > limits.maxLine
            else ByteLength(t.lines[0].text) > limits.maxLine
  {
    if waits {
      var head := rest[..|rest| - 1];
      assert rest == head + "\r";
      ByteLengthAppend(head, "\r");
      assert ByteLength("\r") == 1;
      SplitAt(rest + b, |head|, true);
      assert (rest + b)[..|head|] == head;
    } else {
      LongHead(limits, rest, b);
    }
  }

  lemma {:induction false} OpenRestTooLarge(d: Dialect, limits: Limits, a: string, b: string)
    requires Settle(d, limits, Split(a, d == Server)).Stop?
    requires ConsumeAll(d, limits, Split(a, d == Server).lines).Continue?
    requires d == Bridge ==> ChunkSafe(limits, a + b)
    requires Split(a + b, true) ==
      Append(Split(a, d == Server), Split(Split(a, d == Server).rest + b, true))
    ensures Parse(d, limits, a + b) == Failed(LineTooLarge)
  {
    var s := Split(a, d == Server);
    var t := Split(s.rest + b, true);
    RestIsOpen(a, d == Server);
    if t.lines != [] {
      assert Split(a + b, true).lines[|s.lines|] == t.lines[0];
    }
    OpenRestIsLong(limits, s.rest, b, d == Bridge && EndsWithCr(s.rest));
    LongLineStops(d, limits, s.lines, t);
  }

  lemma {:induction false} LongLineStops(d: Dialect, limits: Limits, before: seq<Line>, t: SplitText)
    requires ConsumeAll(d, limits, before).Continue?
    requires if t.lines == [] then ByteLength(t.rest) > limits.maxLine
             else ByteLength(t.lines[0].text) > limits.maxLine
    ensures Settle(d, limits, SplitText(before + t.lines, t.rest)) == Stop(LineTooLarge)
  {
    if t.lines != [] {
      ConsumeAllPush(d, limits, before, t.lines[0]);
      ConsumeAllStops(d, limits, before + [t.lines[0]], t.lines[1..]);
      assert before + [t.lines[0]] + t.lines[1..] == before + t.lines;
    } else {
      assert before + t.lines == before;
    }
  }

  predicate EndsWithCr(s: string) {
    s != "" && s[|s| - 1] == '\r'
  }

  /** Every way of cutting a stream gives the result of the one-pass parse. */
  lemma {:induction false} ChunkIndependence(d: Dialect, limits: Limits, consumed: string, chunks: seq<string>)
    requires d == Server ==> KeepsCrlf(consumed, chunks)
    requires d == Bridge ==> ChunkSafe(limits, consumed + Concat(chunks))
    ensures RunChunks(d, limits, Split(consumed, d == Server), chunks) ==
              Parse(d, limits, consumed + Concat(chunks))
    decreases |chunks|
  {
    if chunks == [] {
      assert consumed + Concat(chunks) == consumed == consumed + "";
      SplitResumes(consumed, "", d == Server, true);
      assert Split(consumed, d == Server).rest + "" == Split(consumed, d == Server).rest;
    } else {
      var text := consumed + chunks[0];
      assert consumed + Concat(chunks) == text + Concat(chunks[1..]);
      SplitResumes(consumed, chunks[0], d == Server, d == Server);
      if Settle(d, limits, Split(text, d == Server)).Stop? {
        if d == Server {
          KeepsCrlfConcat(text, chunks[1..]);
        }
        PushFailureIsFinal(d, limits, text, Concat(chunks[1..]));
      } else {
        ChunkIndependence(d, limits, text, chunks[1..]);
      }
    }
  }

  lemma {:induction false} KeepsCrlfConcat(consumed: string, chunks: seq<string>)
    requires KeepsCrlf(consumed, chunks)
    ensures !CutsCrlf(consumed, Concat(chunks))
    decreases |chunks|
  {
    if chunks != [] {
      KeepsCrlfConcat(consumed + chunks[0], chunks[1..]);
      if chunks[0] == "" {
        assert consumed + chunks[0] == consumed;
        assert Concat(chunks) == Concat(chunks[1..]);
      }
    }
  }

  /** p is the text up to the end of line k, its own CR included but a following LF not. */
  predicate CutsAtCr(text: string, k: nat, p: string) {
    var lines := Split(text, true).lines;
    && k < |lines| && lines[k].ending != LF
    && p <= text && p != ""
    && Split(p, false) == SplitText(lines[..k], lines[k].text + "\r")
  }

  lemma {:induction false} CutAtCr(text: string, k: nat) returns (p: string)
    requires k < |Split(text, true).lines| && Split(text, true).lines[k].ending != LF
    ensures CutsAtCr(text, k, p)
    decreases |text|
  {
    if text[0] == '\n' || text[0] == '\r' {
      var e := EndingAt(text, 0);
      SplitBreak(text, true, e);
      if k == 0 {
        p := "\r";
      } else {
        var q := CutAtCr(text[Width(e)..], k - 1);
        p := text[..Width(e)] + q;
        CutAfterBreak(text, k, q, p);
      }
    } else {
      SplitPlain(text, true);
      var q := CutAtCr(text[1..], k);
      p := [text[0]] + q;
      CutInLine(text, k, q, p);
    }
  }

  lemma {:induction false} CutInLine(text: string, k: nat, q: string, p: string)
    requires text != "" && text[0] != '\n' && text[0] != '\r'
    requires CutsAtCr(text[1..], k, q) && p == [text[0]] + q
    ensures CutsAtCr(text, k, p)
  {
    SplitPlain(text, true);
    SplitPlain(p, false);
    assert p[1..] == q;
  }

  lemma {:induction false} CutAfterBreak(text: string, k: nat, q: string, p: string)
    requires text != "" && (text[0] == '\n' || text[0] == '\r') && k > 0
    requires var n := Width(EndingAt(text, 0)); n <= |text| && CutsAtCr(text[n..], k - 1, q) && p == text[..n] + q
    ensures CutsAtCr(text, k, p)
  {
    var e := EndingAt(text, 0);
    SplitBreak(text, true, e);
    assert p[Width(e)..] == q && EndingAt(p, 0) == e;
    SplitBreak(p, false, e);
    TakeBehind(Line("", e), Split(text[Width(e)..], true).lines, k);
  }

  lemma {:induction false} TakeBehind(line: Line, lines: seq<Line>, k: nat)
    requires 0 < k <= |lines|
    ensures ([line] + lines)[..k] == [line] + lines[..k - 1] && ([line] + lines)[k] == lines[k - 1]
  {
  }

  lemma {:induction false} ConsumeAllPrefix(d: Dialect, limits: Limits, a: seq<Line>, b: seq<Line>)
    requires ConsumeAll(d, limits, a + b).Continue?
    ensures ConsumeAll(d, limits, a).Continue?
  {
    if ConsumeAll(d, limits, a).Stop? {
      ConsumeAllStops(d, limits, a, b);
    }
  }

  lemma {:induction false} SafeIndependence(limits: Limits, text: string, chunks: seq<string>)
    requires ChunkSafe(limits, text) && Concat(chunks) == text
    ensures RunChunks(Bridge, limits, START, chunks) == Parse(Bridge, limits, text)
  {
    assert "" + Concat(chunks) == text;
    ChunkIndependence(Bridge, limits, "", chunks);
  }

  lemma {:induction false} AcceptedUpTo(limits: Limits, text: string, k: nat)
    requires Parse(Bridge, limits, text).Frames? && k < |Split(text, true).lines|
    ensures ConsumeAll(Bridge, limits, Split(text, true).lines[..k]).Continue?
  {
    var lines := Split(text, true).lines;
    assert lines[..k] + lines[k..] == lines;
    ConsumeAllPrefix(Bridge, limits, lines[..k], lines[k..]);
  }

  /** The cut right behind the CR makes the first chunk fail. */
  lemma {:induction false} CutFails(limits: Limits, text: string, k: nat) returns (chunks: seq<string>)
    requires Parse(Bridge, limits, text).Frames? && k < |Split(text, true).lines|
    requires FillsLimitBeforeCr(limits, Split(text, true).lines[k])
    ensures Concat(chunks) == text && RunChunks(Bridge, limits, START, chunks) == Failed(LineTooLarge)
  {
    var p := CutAtCr(text, k);
    AcceptedUpTo(limits, text, k);
    PushTooLong(limits, text, k, p);
    assert p <= text && p + text[|p|..] == text;
    chunks := [p, text[|p|..]];
    TwoChunks(p, text[|p|..]);
    FirstChunkStops(limits, p, text[|p|..]);
  }

  lemma {:induction false} PushTooLong(limits: Limits, text: string, k: nat, p: string)
    requires CutsAtCr(text, k, p) && FillsLimitBeforeCr(limits, Split(text, true).lines[k])
    requires ConsumeAll(Bridge, limits, Split(text, true).lines[..k]).Continue?
    ensures Settle(Bridge, limits, Push(Bridge, START, p)) == Stop(LineTooLarge)
  {
    var lines := Split(text, true).lines;
    ByteLengthAppend(lines[k].text, "\r");
    assert ByteLength("\r") == 1;
    assert "" + p == p && [] + lines[..k] == lines[..k];
  }

  lemma {:induction false} TwoChunks(p: string, rest: string)
    ensures Concat([p, rest]) == p + rest
  {
    assert [p, rest][1..] == [rest] && [rest][1..] == [];
    assert Concat([rest]) == rest + "" && rest + "" == rest;
  }

  lemma {:induction false} FirstChunkStops(limits: Limits, p: string, rest: string)
    requires Settle(Bridge, limits, Push(Bridge, START, p)) == Stop(LineTooLarge)
    ensures RunChunks(Bridge, limits, START, [p, rest]) == Failed(LineTooLarge)
  {
  }

  /** On streams the one-pass parse accepts, the bridge is chunk-independent exactly when no
      CR-terminated line fills the line limit to the last byte. */
  lemma {:induction false} BridgeChunkIndependentIff(limits: Limits, text: string)
    requires Parse(Bridge, limits, text).Frames?
    ensures ChunkSafe(limits, text) <==>
            forall chunks: seq<string> | Concat(chunks) == text ::
              RunChunks(Bridge, limits, START, chunks) == Parse(Bridge, limits, text)
  {
    if ChunkSafe(limits, text) {
      forall chunks: seq<string> | Concat(chunks) == text
        ensures RunChunks(Bridge, limits, START, chunks) == Parse(Bridge, limits, text)
      {
        SafeIndependence(limits, text, chunks);
      }
    } else {
      var lines := Split(text, true).lines;
      var k :| 0 <= k < |lines| && FillsLimitBeforeCr(limits, lines[k]);
      var chunks := CutFails(limits, text, k);
    }
  }

  /** A cut can make the bridge refuse a line as too long, and nothing else: what one pass
      refuses, no cut makes acceptable. */
  lemma {:induction false} BridgeCutReads(limits: Limits, consumed: string, chunks: seq<string>)
    ensures var r := RunChunks(Bridge, limits, Split(consumed, false), chunks);
            r == Parse(Bridge, limits, consumed + Concat(chunks)) || r == Failed(LineTooLarge)
    decreases |chunks|
  {
    if chunks == [] {
      assert consumed + Concat(chunks) == consumed == consumed + "";
      SplitResumes(consumed, "", false, true);
      assert Split(consumed, false).rest + "" == Split(consumed, false).rest;
    } else {
      var text := consumed + chunks[0];
      assert consumed + Concat(chunks) == text + Concat(chunks[1..]);
      SplitResumes(consumed, chunks[0], false, false);
      if Settle(Bridge, limits, Split(text, false)).Stop? {
        StopIsFinal(limits, text, Concat(chunks[1..]));
      } else {
        BridgeCutReads(limits, text, chunks[1..]);
      }
    }
  }

  lemma {:induction false} StopIsFinal(limits: Limits, a: string, b: string)
    requires Settle(Bridge, limits, Split(a, false)).Stop?
    ensures var e := Settle(Bridge, limits, Split(a, false)).error;
            e == LineTooLarge || Parse(Bridge, limits, a + b) == Failed(e)
  {
    SplitResumes(a, b, false, true);
    var s := Split(a, false);
    if ConsumeAll(Bridge, limits, s.lines).Stop? {
      ConsumeAllStops(Bridge, limits, s.lines, Split(s.rest + b, true).lines);
    }
  }

  lemma {:induction false} BareDataLine(limits: Limits, e: Ending)
    requires limits.maxLine >= 4 && limits.maxFrame >= 6
    ensures ConsumeAll(Server, limits, [Line("data", e)]) == Continue(Pending([""], 4 + Width(e)), [])
  {
    assert Consume(Server, limits, NOTHING, Line("data", e)) == Continue(Pending([""], 4 + Width(e)), []);
    ConsumeAllPush(Server, limits, [], Line("data", e));
    assert [] + [Line("data", e)] == [Line("data", e)];
  }

  lemma {:induction false} SplitOneLine(value: string, e: Ending, s: string)
    requires NoBreaks(value) && s == value + Terminator(e)
    ensures Split(s, true) == SplitText([Line(value, e)], "")
  {
    var n := |value|;
    assert forall k | 0 <= k < n :: s[k] == value[k];
    assert s[n] == Terminator(e)[0];
    assert EndingAt(s, n) == e && s[..n] == value && s[n + Width(e)..] == "";
    SplitAt(s, n, true);
  }

  /** Cutting inside a CRLF matters to the server parser: here a stream that ends inside a
      frame is accepted, with the frame, because the LF counts as an empty line. */
  lemma {:induction false} ServerCutCrlf(limits: Limits)
    requires limits.maxLine >= 4 && limits.maxFrame >= 6
    ensures Parse(Server, limits, "data\r\n") == Failed(IncompleteFrame)
    ensures RunChunks(Server, limits, START, ["data\r", "\n"]) == Frames([""])
  {
    BareDataLine(limits, CRLF);
    SplitOneLine("data", CRLF, "data\r\n");
    CutInTwo(limits);
  }

  lemma {:induction false} CutInTwo(limits: Limits)
    requires limits.maxLine >= 4 && limits.maxFrame >= 6
    ensures RunChunks(Server, limits, START, ["data\r", "\n"]) == Frames([""])
  {
    var cut, end := Line("data", CR), Line("", LF);
    var first, second := SplitText([cut], ""), SplitText([cut] + [end], "");
    SplitOneLine("data", CR, "data\r");
    SplitOneLine("", LF, "\n");
    PushOpen(START, "data\r", first);
    PushOpen(first, "\n", second);
    ReadTwo(limits, cut, end);
    RunTwo(limits, "data\r", "\n", first, second);
  }

  lemma {:induction false} PushOpen(seen: SplitText, chunk: string, now: SplitText)
    requires seen.rest == "" && now == Append(seen, Split(chunk, true))
    ensures Push(Server, seen, chunk) == now
  {
    assert "" + chunk == chunk;
  }

  lemma {:induction false} ReadTwo(limits: Limits, cut: Line, end: Line)
    requires limits.maxLine >= 4 && limits.maxFrame >= 6 && cut == Line("data", CR) && end == Line("", LF)
    ensures ConsumeAll(Server, limits, [cut]).Continue?
    ensures ConsumeAll(Server, limits, [cut] + [end]) == Continue(NOTHING, [""])
  {
    BareDataLine(limits, CR);
    assert Consume(Server, limits, Pending([""], 5), end) == Continue(NOTHING, [""]);
    ConsumeAllPush(Server, limits, [cut], end);
  }

  lemma {:induction false} RunTwo(limits: Limits, x: string, y: string, first: SplitText, second: SplitText)
    requires Push(Server, START, x) == first && Push(Server, first, y) == second && second.rest == ""
    requires Settle(Server, limits, first).Continue? && Settle(Server, limits, second).Continue?
    ensures RunChunks(Server, limits, START, [x, y]) == Finish(Server, limits, second)
  {
    assert [x, y][1..] == [y] && [y][1..] == [];
    assert Append(second, Split("", true)) == second;
    assert RunChunks(Server, limits, second, []) == Finish(Server, limits, second);
    assert RunChunks(Server, limits, first, [y]) == RunChunks(Server, limits, second, []);
  }

  lemma {:induction false} Comment(n: nat) returns (line: string)
    requires n >= 1
    ensures |line| == n && ":" <= line && ByteLength(line) == n
    ensures forall k | 0 <= k < n :: line[k] != '\n' && line[k] != '\r'
  {
    if n == 1 {
      line := ":";
    } else {
      var shorter := Comment(n - 1);
      line := shorter + "-";
      ByteLengthAppend(shorter, "-");
      assert ByteLength("-") == 1;
    }
  }

  /** In one pass the CR ends the comment; pushed as a chunk it may still be followed by a LF. */
  lemma {:induction false} CommentBeforeCr(limits: Limits, line: string)
    requires NoBreaks(line) && ":" <= line && ByteLength(line) == limits.maxLine
    ensures Parse(Bridge, limits, line + "\r") == Frames([])
    ensures RunChunks(Bridge, limits, START, [line + "\r"]) == Failed(LineTooLarge)
  {
    CommentParses(limits, line);
    var text := line + "\r";
    assert "" + text == text && text[..|line|] == line;
    SplitAt(text, |line|, false);
    ByteLengthAppend(line, "\r");
    assert ByteLength("\r") == 1;
    assert Push(Bridge, START, text) == SplitText([], text);
  }

  lemma {:induction false} CommentParses(limits: Limits, line: string)
    requires NoBreaks(line) && ":" <= line && ByteLength(line) == limits.maxLine
    ensures Parse(Bridge, limits, line + "\r") == Frames([])
  {
    var lines := [Line(line, CR)];
    SplitOneLine(line, CR, line + "\r");
    ConsumeAllPush(Bridge, limits, [], Line(line, CR));
    assert [] + lines == lines;
  }

  /** A stream that the bridge accepts in one pass and refuses in one chunk: a comment that
      fills the limit, and a CR. */
  lemma {:induction false} FullLineRefused(limits: Limits) returns (text: string)
    requires limits.maxLine >= 1
    ensures Parse(Bridge, limits, text) == Frames([])
    ensures Concat([text]) == text && RunChunks(Bridge, limits, START, [text]) == Failed(LineTooLarge)
  {
    var line := Comment(limits.maxLine);
    text := line + "\r";
    CommentBeforeCr(limits, line);
    assert Concat([text]) == text + "" && text + "" == text;
  }
}
