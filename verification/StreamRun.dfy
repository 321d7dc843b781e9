/** One streaming request: connect, read the upstream stream, close. */
module StreamRun {
  import Nudge
  import SseText
  import SseReference
  import SseBridge
  import opened Forwarder
  import opened Stream
  import opened Closing

  // ---- A payload is split into lines once more before it is decoded ----

  /** Lines, cut at every LF or CRLF. */
  function Lines(s: string): (lines: seq<string>)
    ensures lines != []
    decreases |s|
  {
    var i := SseText.IndexOf(s, '\n');
    if i == -1 then [s]
    else [if i > 0 && s[i - 1] == '\r' then s[..i - 1] else s[..i]] + Lines(s[i + 1..])
  }

  function DataValues(lines: seq<string>): seq<string> {
    if lines == [] then []
    else
      (if "data:" <= lines[0] then [SseText.StripSpace(lines[0][5..])] else []) + DataValues(lines[1..])
  }

  /** What is left of a payload that is read as the text of a data field. */
  function Reframe(payload: string): string {
    SseText.Join(DataValues(Lines("data: " + payload)), "\n")
  }

  lemma {:induction false} JoinedLength(value: string, values: seq<string>)
    ensures |SseText.Join([value] + values, "\n")| ==
        |value| + (if values == [] then 0 else 1 + |SseText.Join(values, "\n")|)
  {
    if values == [] {
      assert [value] + values == [value];
    } else {
      JoinedLength(value, values[..|values| - 1]);
      assert ([value] + values)[..|values|] == [value] + values[..|values| - 1];
    }
  }

  predicate Shrunk(values: seq<string>, size: nat) {
    values == [] || |SseText.Join(values, "\n")| + 5 <= size
  }

  lemma {:induction false} FirstValue(line: string, lines: seq<string>, size: nat)
    requires Shrunk(DataValues(lines), size)
    ensures Shrunk(DataValues([line] + lines), |line| + 1 + size)
    ensures lines == [] ==> Shrunk(DataValues([line] + lines), |line|)
  {
    assert ([line] + lines)[1..] == lines;
    if "data:" <= line {
      var value := SseText.StripSpace(line[5..]);
      JoinedLength(value, DataValues(lines));
    } else {
      assert [] + DataValues(lines) == DataValues(lines);
    }
  }

  lemma {:induction false} ValuesShrink(s: string)
    ensures Shrunk(DataValues(Lines(s)), |s|)
    decreases |s|
  {
    var i := SseText.IndexOf(s, '\n');
    if i == -1 {
      FirstValue(s, [], 0);
      assert [s] + [] == [s];
    } else {
      ValuesShrink(s[i + 1..]);
      FirstValue(Lines(s)[0], Lines(s[i + 1..]), |s| - i - 1);
    }
  }

  lemma {:induction false} FirstBreak(s: string, i: nat)
    requires i < |s| && s[i] == '\n' && forall k | 0 <= k < i :: s[k] != '\n'
    ensures SseText.IndexOf(s, '\n') == i
  {
  }

  lemma {:induction false} OneLine(payload: string)
    requires '\n' !in payload
    ensures Reframe(payload) == payload
  {
    var s := "data: " + payload;
    assert SseText.IndexOf(s, '\n') == -1;
    assert s[5..] == " " + payload && (" " + payload)[1..] == payload;
    FirstIs(s, payload);
  }

  lemma {:induction false} FirstIs(line: string, value: string)
    requires "data:" <= line && SseText.StripSpace(line[5..]) == value
    ensures SseText.Join(DataValues([line]), "\n") == value
  {
    assert DataValues([line]) == [value] + DataValues([]);
  }

  /** A payload survives unless it spans several lines; then its further lines are lost or cut. */
  lemma {:induction false} ReframeIff(payload: string)
    ensures Reframe(payload) == payload <==> '\n' !in payload
  {
    if '\n' !in payload {
      OneLine(payload);
    } else {
      var i := SseText.IndexOf(payload, '\n');
      var s := "data: " + payload;
      assert s[i + 6] == '\n';
      FirstBreak(s, i + 6);
      FirstLine(payload, i);
    }
  }

  lemma {:induction false} FirstLine(payload: string, i: nat)
    requires i < |payload| && SseText.IndexOf("data: " + payload, '\n') == i + 6
    ensures |Reframe(payload)| < |payload|
  {
    var s := "data: " + payload;
    var rest := s[i + 7..];
    ValuesShrink(rest);
    var line := FirstLineIs(s, i + 6);
    ValuesOf(line, Lines(rest));
    JoinedLength(line[6..], DataValues(Lines(rest)));
  }

  lemma {:induction false} FirstLineIs(s: string, n: nat) returns (line: string)
    requires 6 <= n < |s| && SseText.IndexOf(s, '\n') == n && "data: " <= s
    ensures Lines(s) == [line] + Lines(s[n + 1..])
    ensures |line| <= n && "data: " <= line
  {
    line := if s[n - 1] == '\r' then s[..n - 1] else s[..n];
    assert s[..6] == "data: ";
    assert n == 6 ==> s[5] == ' ';
    assert line[..6] == s[..6];
  }

  lemma {:induction false} ValuesOf(line: string, lines: seq<string>)
    requires "data: " <= line
    ensures DataValues([line] + lines) == [line[6..]] + DataValues(lines)
  {
    assert line[..6] == "data: ";
    assert line[5] == ' ' && line[..5] == "data:";
    assert ([line] + lines)[1..] == lines && line[5..][1..] == line[6..];
  }

  function DataLine(value: string): SseText.Line {
    SseText.Line("data: " + value, SseText.LF)
  }

  /** A frame of two data lines. */
  function TwoLines(a: string, b: string): seq<SseText.Line> {
    [DataLine(a)] + [DataLine(b)] + [SseText.Line("", SseText.LF)]
  }

  /** A value that a data line can carry within the limits. */
  predicate Carried(limits: SseText.Limits, value: string) {
    SseText.NoBreaks(value) && value != "" && value[0] != ' ' && SseText.ByteLength(value) + 6 <= limits.maxLine
  }

  lemma {:induction false} LineIsWhole(limits: SseText.Limits, value: string)
    requires Carried(limits, value)
    ensures SseText.NoBreaks(DataLine(value).text)
  {
    var line := "data: " + value;
    assert forall k | 6 <= k < |line| :: line[k] == value[k - 6];
  }

  lemma {:induction false} TwoLinesText(limits: SseText.Limits, a: string, b: string)
    requires Carried(limits, a) && Carried(limits, b)
    ensures SseText.Split(SseText.TextOf(TwoLines(a, b)), true) == SseText.SplitText(TwoLines(a, b), "")
  {
    var lines := TwoLines(a, b);
    LineIsWhole(limits, a);
    LineIsWhole(limits, b);
    assert lines[1..] == [DataLine(b), lines[2]] && lines[1..][1..] == [lines[2]] && lines[1..][1..][1..] == [];
    assert SseText.Writable(lines[1..][1..]);
    assert SseText.Writable(lines[1..]);
    SseText.SplitTextOf(lines);
  }

  lemma {:induction false} DataLineRead(limits: SseText.Limits, p: SseText.Pending, value: string, e: SseText.Ending)
    requires value != "" && value[0] != ' ' && SseText.ByteLength(value) + 6 <= limits.maxLine
    requires p.frameBytes + SseText.ByteLength(value) <= limits.maxFrame
    ensures SseReference.BridgeLine(limits, p, SseText.Line("data: " + value, e)) ==
              SseText.Continue(SseText.Pending(p.dataLines + [value], p.frameBytes + SseText.ByteLength(value)), [])
  {
    var line := "data: " + value;
    SseText.ByteLengthAppend("data: ", value);
    assert SseText.ByteLength("data: ") == 6;
    assert line[..5] == "data:" && line[5..] == " " + value && (" " + value)[1..] == value && line[0] == 'd';
  }

  lemma {:induction false} DataLineConsumed(limits: SseText.Limits, lines: seq<SseText.Line>, p: SseText.Pending,
      value: string)
    requires SseReference.ConsumeAll(SseReference.Bridge, limits, lines) == SseText.Continue(p, [])
    requires Carried(limits, value) && p.frameBytes + SseText.ByteLength(value) <= limits.maxFrame
    ensures SseReference.ConsumeAll(SseReference.Bridge, limits, lines + [DataLine(value)]) ==
              SseText.Continue(SseText.Pending(p.dataLines + [value], p.frameBytes + SseText.ByteLength(value)), [])
  {
    DataLineRead(limits, p, value, SseText.LF);
    SseReference.ConsumeAllPush(SseReference.Bridge, limits, lines, DataLine(value));
  }

  lemma {:induction false} EmptyLineRead(limits: SseText.Limits, a: string, b: string, bytes: nat, e: SseText.Ending)
    requires bytes <= limits.maxFrame
    ensures SseReference.BridgeLine(limits, SseText.Pending([a] + [b], bytes), SseText.Line("", e)) ==
              SseText.Continue(SseText.NOTHING, [a + "\n" + b])
  {
    var values := [a] + [b];
    assert values[..1] == [a] && values[1] == b && SseText.Join([a], "\n") == a;
    assert SseText.ByteLength("") == 0;
  }

  lemma {:induction false} TwoLinesFrame(limits: SseText.Limits, a: string, b: string)
    requires Carried(limits, a) && Carried(limits, b)
    requires SseText.ByteLength(a) + SseText.ByteLength(b) <= limits.maxFrame
    ensures SseReference.Parse(SseReference.Bridge, limits, SseText.TextOf(TwoLines(a, b)))
            == SseText.Frames([a + "\n" + b])
  {
    var bytes := SseText.ByteLength(a) + SseText.ByteLength(b);
    var first := [DataLine(a)];
    TwoLinesText(limits, a, b);
    assert [] + first == first && [] + [a] == [a];
    DataLineConsumed(limits, [], SseText.NOTHING, a);
    DataLineConsumed(limits, first, SseText.Pending([a], SseText.ByteLength(a)), b);
    DispatchedAtEnd(limits, first + [DataLine(b)], a, b, bytes);
  }

  lemma {:induction false} DispatchedAtEnd(limits: SseText.Limits, lines: seq<SseText.Line>, a: string, b: string,
      bytes: nat)
    requires bytes <= limits.maxFrame
    requires SseReference.ConsumeAll(SseReference.Bridge, limits, lines) ==
               SseText.Continue(SseText.Pending([a] + [b], bytes), [])
    ensures SseReference.ConsumeAll(SseReference.Bridge, limits, lines + [SseText.Line("", SseText.LF)]) ==
              SseText.Continue(SseText.NOTHING, [a + "\n" + b])
  {
    EmptyLineRead(limits, a, b, bytes, SseText.LF);
    SseReference.ConsumeAllPush(SseReference.Bridge, limits, lines, SseText.Line("", SseText.LF));
  }

  /** Of two lines the second is lost, unless it looks like a data field itself. */
  lemma {:induction false} SecondLineDropped(a: string, b: string)
    requires SseText.NoBreaks(a) && SseText.NoBreaks(b) && !("data:" <= b)
    ensures Reframe(a + "\n" + b) == a
  {
    var s, line := "data: " + (a + "\n" + b), "data: " + a;
    var n := |line|;
    assert s[n] == '\n' && s[..n] == line && s[n + 1..] == b;
    assert forall k | 0 <= k < n :: s[k] == line[k];
    assert forall k | 6 <= k < n :: line[k] == a[k - 6];
    FirstBreak(s, n);
    assert s[n - 1] != '\r';
    assert SseText.IndexOf(b, '\n') == -1;
    assert Lines(s) == [line] + Lines(b);
    LostBehind(line, b, a);
  }

  lemma {:induction false} LostBehind(line: string, b: string, a: string)
    requires line == "data: " + a && !("data:" <= b) && Lines(b) == [b]
    ensures SseText.Join(DataValues([line] + Lines(b)), "\n") == a
  {
    assert ([line] + [b])[1..] == [b] && [b][1..] == [];
    assert line[..5] == "data:" && line[5..] == " " + a && (" " + a)[1..] == a;
    assert DataValues([b]) == [] + DataValues([]) == [];
    assert DataValues([line] + [b]) == [a] + [] == [a];
  }

  /** Streams that the parser reads as one frame, whose second line the decoder never sees. */
  lemma {:induction false} SecondLineLost(limits: SseText.Limits, a: string, b: string)
    requires Carried(limits, a) && Carried(limits, b) && !("data:" <= b)
    requires SseText.ByteLength(a) + SseText.ByteLength(b) <= limits.maxFrame
    ensures SseReference.Parse(SseReference.Bridge, limits, SseText.TextOf(TwoLines(a, b)))
            == SseText.Frames([a + "\n" + b])
    ensures Reframe(a + "\n" + b) == a
  {
    TwoLinesFrame(limits, a, b);
    SecondLineDropped(a, b);
  }

  // ---- Reading the stream ----

  function Decoder(decode: string -> Payload): string -> Payload {
    payload => decode(Reframe(payload))
  }

  /** What the whole stream says: Bad also for a parser error, a broken connection or a
      missing end marker. */
  function StreamDigest(limits: SseText.Limits, decode: string -> Payload, chunks: seq<string>, breaks: bool): Digest {
    match SseReference.RunChunks(SseReference.Bridge, limits, SseReference.START, chunks)
    case Failed(_) => Bad
    case Frames(frames) =>
      var d := DigestAll(decode, frames);
      if breaks || d.Bad? || !d.done then Bad else d
  }

  /** The frames that the parser hands out, as far as the stream can be read. */
  function Handed(limits: SseText.Limits, seen: SseText.SplitText, chunks: seq<string>, breaks: bool): seq<string>
    requires SseReference.ConsumeAll(SseReference.Bridge, limits, seen.lines).Continue?
    decreases |chunks|
  {
    var before := SseReference.ConsumeAll(SseReference.Bridge, limits, seen.lines).frames;
    if chunks != [] then
      var next := SseReference.Push(SseReference.Bridge, seen, chunks[0]);
      if SseReference.Settle(SseReference.Bridge, limits, next).Stop? then before
      else Handed(limits, next, chunks[1..], breaks)
    else if breaks then before
    else
      match SseReference.RunChunks(SseReference.Bridge, limits, seen, [])
      case Failed(_) => before
      case Frames(frames) => frames
  }

  /** The frames up to the first bad one. */
  function GoodPart(decode: string -> Payload, frames: seq<string>): seq<string> {
    if DigestAll(decode, frames).Good? then frames
    else if frames == [] then [] else GoodPart(decode, frames[..|frames| - 1])
  }

  lemma {:induction false} GoodPartStays(decode: string -> Payload, frames: seq<string>, more: seq<string>)
    requires DigestAll(decode, frames).Bad?
    ensures DigestAll(decode, frames + more).Bad? && GoodPart(decode, frames + more) == GoodPart(decode, frames)
  {
    BadStays(decode, frames, more);
    if more == [] {
      assert frames + more == frames;
    } else {
      GoodPartStays(decode, frames, more[..|more| - 1]);
      assert (frames + more)[..|frames + more| - 1] == frames + more[..|more| - 1];
    }
  }

  lemma {:induction false} FirstBad(decode: string -> Payload, good: seq<string>, frame: string, more: seq<string>,
      all: seq<string>)
    requires DigestAll(decode, good).Good? && BadNext(decode, good, frame)
    requires good + ([frame] + more) == all
    ensures DigestAll(decode, all).Bad? && GoodPart(decode, all) == good
  {
    GoodPartStays(decode, good + [frame], more);
    assert good + [frame] + more == all;
    assert (good + [frame])[..|good|] == good;
  }

  lemma {:induction false} ConsumeAllGrows(d: SseReference.Dialect, limits: SseText.Limits, a: seq<SseText.Line>,
      b: seq<SseText.Line>)
    requires SseReference.ConsumeAll(d, limits, a + b).Continue?
    ensures SseReference.ConsumeAll(d, limits, a).Continue?
    ensures SseReference.ConsumeAll(d, limits, a).frames <= SseReference.ConsumeAll(d, limits, a + b).frames
  {
    if b == [] {
      assert a + b == a;
    } else {
      assert (a + b)[..|a + b| - 1] == a + b[..|b| - 1];
      ConsumeAllGrows(d, limits, a, b[..|b| - 1]);
    }
  }

  /** Frames once handed out are the first frames of the whole stream. */
  lemma {:induction false} HandedGrows(limits: SseText.Limits, seen: SseText.SplitText, chunks: seq<string>,
      breaks: bool)
    requires SseReference.ConsumeAll(SseReference.Bridge, limits, seen.lines).Continue?
    ensures SseReference.ConsumeAll(SseReference.Bridge, limits, seen.lines).frames
            <= Handed(limits, seen, chunks, breaks)
    ensures var r := SseReference.RunChunks(SseReference.Bridge, limits, seen, chunks);
            r.Frames? && !breaks ==> r.frames == Handed(limits, seen, chunks, breaks)
    decreases |chunks|
  {
    if chunks == [] {
      if SseReference.RunChunks(SseReference.Bridge, limits, seen, []).Frames? {
        EndGrows(limits, seen);
      }
    } else {
      var next := SseReference.Push(SseReference.Bridge, seen, chunks[0]);
      if SseReference.Settle(SseReference.Bridge, limits, next).Continue? {
        ConsumeAllGrows(SseReference.Bridge, limits, seen.lines, SseText.Split(seen.rest + chunks[0], false).lines);
        HandedGrows(limits, next, chunks[1..], breaks);
      }
    }
  }

  lemma {:induction false} EndGrows(limits: SseText.Limits, seen: SseText.SplitText)
    requires SseReference.RunChunks(SseReference.Bridge, limits, seen, []).Frames?
    ensures SseReference.ConsumeAll(SseReference.Bridge, limits, seen.lines).Continue?
    ensures SseReference.ConsumeAll(SseReference.Bridge, limits, seen.lines).frames
            <= SseReference.RunChunks(SseReference.Bridge, limits, seen, []).frames
  {
    ConsumeAllGrows(SseReference.Bridge, limits, seen.lines, SseText.Split(seen.rest, true).lines);
  }

  predicate BadNext(decode: string -> Payload, good: seq<string>, frame: string) {
    DigestAll(decode, good + [frame]).Bad?
  }

  method HandleOne(acc: Accumulator, client: Client, decode: string -> Payload, frame: string,
      ghost handled: seq<string>)
    returns (ok: bool, ghost now: seq<string>)
    requires Waiting(acc, client) && acc.Holds(DigestAll(decode, handled))
    modifies acc, acc.forwarder, client
    ensures Waiting(acc, client) && acc.Holds(DigestAll(decode, now))
    ensures now == if ok then handled + [frame] else handled
    ensures !ok ==> BadNext(decode, handled, frame)
  {
    DigestNext(decode, handled, frame);
    ok := acc.HandleFrame(client, decode(frame), DigestAll(decode, handled));
    now := if ok then handled + [frame] else handled;
  }

  lemma {:induction false} Shift(handled: seq<string>, frames: seq<string>, k: nat, total: seq<string>)
    requires k < |frames| && handled + frames[k..] == total
    ensures handled + [frames[k]] + frames[k + 1..] == total
    ensures handled + ([frames[k]] + frames[k + 1..]) == total
  {
    assert [frames[k]] + frames[k + 1..] == frames[k..];
    assert handled + [frames[k]] + frames[k + 1..] == handled + ([frames[k]] + frames[k + 1..]);
  }

  /** Frames one by one; the first bad one ends the stream. */
  method HandleFrames(acc: Accumulator, client: Client, decode: string -> Payload, frames: seq<string>,
      ghost before: seq<string>)
    returns (ok: bool, ghost handled: seq<string>, ghost bad: string, ghost rest: seq<string>)
    requires Waiting(acc, client) && acc.Holds(DigestAll(decode, before))
    modifies acc, acc.forwarder, client
    ensures Waiting(acc, client) && acc.Holds(DigestAll(decode, handled))
    ensures ok ==> handled == before + frames
    ensures !ok ==> BadNext(decode, handled, bad) && handled + ([bad] + rest) == before + frames
  {
    ghost var total := before + frames;
    handled, bad, rest := before, "", [];
    for k := 0 to |frames|
      invariant Waiting(acc, client) && acc.Holds(DigestAll(decode, handled))
      invariant handled + frames[k..] == total
    {
      Shift(handled, frames, k, total);
      bad, rest := frames[k], frames[k + 1..];
      ok, handled := HandleOne(acc, client, decode, frames[k], handled);
      if !ok {
        return;
      }
    }
    ok := true;
  }

  method HandleGood(acc: Accumulator, client: Client, decode: string -> Payload, frames: seq<string>,
      ghost before: seq<string>)
    returns (ok: bool, ghost handled: seq<string>)
    requires Waiting(acc, client) && acc.Holds(DigestAll(decode, before))
    modifies acc, acc.forwarder, client
    ensures Waiting(acc, client) && acc.Holds(DigestAll(decode, handled))
    ensures ok == DigestAll(decode, before + frames).Good?
    ensures handled == GoodPart(decode, before + frames)
  {
    ghost var bad, rest;
    ok, handled, bad, rest := HandleFrames(acc, client, decode, frames, before);
    if !ok {
      FirstBad(decode, handled, bad, rest, before + frames);
    }
  }

  /** A bad frame settles the fate of the whole stream. */
  lemma {:induction false} BadFrames(limits: SseText.Limits, decode: string -> Payload, seen: SseText.SplitText,
      chunks: seq<string>, breaks: bool, first: seq<string>, part: seq<string>)
    requires SseReference.ConsumeAll(SseReference.Bridge, limits, seen.lines).Continue?
    requires first == SseReference.ConsumeAll(SseReference.Bridge, limits, seen.lines).frames 
    requires DigestAll(decode, first).Bad? && part == GoodPart(decode, first)
    ensures part == GoodPart(decode, Handed(limits, seen, chunks, breaks))
    ensures DigestAll(decode, Handed(limits, seen, chunks, breaks)).Bad?
  {
    var all := Handed(limits, seen, chunks, breaks);
    HandedGrows(limits, seen, chunks, breaks);
    GoodPartStays(decode, first, all[|first|..]);
    assert first + all[|first|..] == all;
  }

  /** What reading a stream from the parser's state on must come to. */
  ghost predicate ReadTo(limits: SseText.Limits, decode: string -> Payload, seen: SseText.SplitText,
      chunks: seq<string>, breaks: bool, acc: Accumulator, client: Client, ok: bool, handled: seq<string>)
    requires SseReference.ConsumeAll(SseReference.Bridge, limits, seen.lines).Continue?
    reads acc, acc.forwarder, client
  {
    && Waiting(acc, client) && acc.Holds(DigestAll(decode, handled))
    && handled == GoodPart(decode, Handed(limits, seen, chunks, breaks))
    && var r := SseReference.RunChunks(SseReference.Bridge, limits, seen, chunks);
       ok <==> !breaks && r.Frames? && DigestAll(decode, r.frames).Good? && DigestAll(decode, r.frames).done
  }

  method EndStream(parser: SseBridge.SseStreamParser, decode: string -> Payload, acc: Accumulator, client: Client,
      breaks: bool)
    returns (ok: bool, ghost handled: seq<string>)
    requires parser.Valid() && !parser.finished
    requires Waiting(acc, client) && acc.Holds(DigestAll(decode, parser.delivered))
    modifies parser, acc, acc.forwarder, client
    ensures ReadTo(parser.limits, decode, old(parser.seen), [], breaks, acc, client, ok, handled)
  {
    handled := parser.delivered;
    if breaks {
      ok := false;
      return;
    }
    var r := parser.Finish();
    if r.Failed? {
      ok := false;
      return;
    }
    ok, handled := HandleGood(acc, client, decode, r.frames, handled);
    ok := ok && acc.sawDone;
  }

  /** With the chunks that are left the run ends as the whole stream does. */
  ghost predicate SameRun(limits: SseText.Limits, seen: SseText.SplitText, rest: seq<string>, chunks: seq<string>,
      breaks: bool) {
    && SseReference.ConsumeAll(SseReference.Bridge, limits, seen.lines).Continue?
    && Handed(limits, seen, rest, breaks) == Handed(limits, SseReference.START, chunks, breaks)
    && SseReference.RunChunks(SseReference.Bridge, limits, seen, rest)
       == SseReference.RunChunks(SseReference.Bridge, limits, SseReference.START, chunks)
  }

  lemma {:induction false} SameRunPush(limits: SseText.Limits, seen: SseText.SplitText, rest: seq<string>,
      chunks: seq<string>, breaks: bool)
    requires rest != [] && SameRun(limits, seen, rest, chunks, breaks)
    ensures var next := SseReference.Push(SseReference.Bridge, seen, rest[0]);
            match SseReference.Settle(SseReference.Bridge, limits, next)
            case Continue(_, _) => SameRun(limits, next, rest[1..], chunks, breaks)
            case Stop(e) =>
              && Handed(limits, SseReference.START, chunks, breaks)
                 == SseReference.ConsumeAll(SseReference.Bridge, limits, seen.lines).frames
              && SseReference.RunChunks(SseReference.Bridge, limits, SseReference.START, chunks) == SseText.Failed(e)
  {
  }

  method ReadStream(limits: SseText.Limits, decode: string -> Payload, acc: Accumulator, client: Client,
      chunks: seq<string>, breaks: bool)
    returns (ok: bool, ghost handled: seq<string>)
    requires Waiting(acc, client) && acc.Holds(NO_FRAMES)
    modifies acc, acc.forwarder, client
    ensures ReadTo(limits, decode, SseReference.START, chunks, breaks, acc, client, ok, handled)
  {
    var parser := new SseBridge.SseStreamParser(limits);
    handled := [];
    ghost var rest := chunks;
    for i := 0 to |chunks|
      invariant fresh(parser) && parser.Valid() && !parser.finished && parser.limits == limits
      invariant Waiting(acc, client) && handled == parser.delivered && acc.Holds(DigestAll(decode, handled))
      invariant rest == chunks[i..] && SameRun(limits, parser.seen, rest, chunks, breaks)
    {
      SameRunPush(limits, parser.seen, rest, chunks, breaks);
      var r := parser.Push(chunks[i]);
      rest := rest[1..];
      if r.Failed? {
        ok := false;
        return;
      }
      ok, handled := HandleGood(acc, client, decode, r.frames, handled);
      if !ok {
        HandedGrows(limits, parser.seen, rest, breaks);
        BadFrames(limits, decode, parser.seen, rest, breaks, parser.delivered, handled);
        return;
      }
    }
    ok, handled := EndStream(parser, decode, acc, client, breaks);
  }

  /** The frames of a stream that are taken in before it ends or fails. */
  function HandledFrames(limits: SseText.Limits, decode: string -> Payload, chunks: seq<string>,
      breaks: bool): seq<string> {
    GoodPart(decode, Handed(limits, SseReference.START, chunks, breaks))
  }

  method ReadAll(limits: SseText.Limits, decode: string -> Payload, acc: Accumulator, client: Client,
      chunks: seq<string>, breaks: bool)
    returns (ok: bool)
    requires Waiting(acc, client) && acc.Holds(NO_FRAMES)
    modifies acc, acc.forwarder, client
    ensures Waiting(acc, client)
    ensures acc.Holds(DigestAll(decode, HandledFrames(limits, decode, chunks, breaks)))
    ensures ok <==> StreamDigest(limits, decode, chunks, breaks).Good?
    ensures ok ==> acc.Holds(StreamDigest(limits, decode, chunks, breaks))
  {
    ghost var handled;
    ok, handled := ReadStream(limits, decode, acc, client, chunks, breaks);
    HandedGrows(limits, SseReference.START, chunks, breaks);
  }

  // ---- The whole request ----

  datatype Upstream = Unreachable | HttpError | NotEventStream | Streaming(chunks: seq<string>, breaks: bool)

  function FailureOf(upstream: Upstream): FailureKind {
    match upstream
    case Unreachable => UpstreamError
    case HttpError => UpstreamHttp
    case NotEventStream => BadUpstream
    case Streaming(_, _) => StreamError
  }

  function UpstreamDigest(limits: SseText.Limits, decode: string -> Payload, upstream: Upstream): Digest {
    match upstream
    case Streaming(chunks, breaks) => StreamDigest(limits, Decoder(decode), chunks, breaks)
    case _ => Bad
  }

  lemma {:induction false} StillOpen(syn: Synthetic, chunks: seq<string>)
    ensures !AddAll(syn, IDLE, chunks).finished
  {
    if chunks != [] {
      StillOpen(syn, chunks[..|chunks| - 1]);
    }
  }

  /** A run that fails before closing: text and reasoning read so far, then the error. */
  function CutOffEnding(syn: Synthetic, d: Digest, kind: FailureKind): Ending
    requires d.Good?
  {
    Ending(AddAll(syn, IDLE, d.reasonings).deltas, false, d.text, false, [], ResponseFailed(kind))
  }

  method FailStream(acc: Accumulator, client: Client, ghost d: Digest)
    requires Waiting(acc, client) && acc.Holds(d)
    modifies acc, client
    ensures client.events == Rendered(CutOffEnding(acc.forwarder.syn, d, StreamError))
  {
    StillOpen(acc.forwarder.syn, d.reasonings);
    WriteMessage(acc, client, false);
    client.Write(ResponseFailed(StreamError));
  }

  /** Before any frame there is nothing to show but the failure. */
  method FailConnect(client: Client, syn: Synthetic, kind: FailureKind)
    requires client.events == [Created]
    modifies client
    ensures client.events == Rendered(CutOffEnding(syn, NO_FRAMES, kind))
  {
    client.Write(ResponseFailed(kind));
  }

  function ReadDigest(limits: SseText.Limits, decode: string -> Payload, upstream: Upstream): Digest {
    match upstream
    case Streaming(chunks, breaks) => DigestAll(Decoder(decode), HandledFrames(limits, Decoder(decode), chunks, breaks))
    case _ => NO_FRAMES
  }

  /** How the run of a connected client ends. A stream that is not read to a proper end fails
      with what the frames before the failure have shown. */
  ghost predicate EndsAs(limits: SseText.Limits, syn: Synthetic, freshId: nat -> string, decode: string -> Payload,
      env: Environment, upstream: Upstream, e: Ending)
  {
    var d := UpstreamDigest(limits, decode, upstream);
    var read := ReadDigest(limits, decode, upstream);
    if d.Good? then e == Concluded(syn, freshId, env, d)
    else read.Good? && e == CutOffEnding(syn, read, FailureOf(upstream))
  }

  /** `connected` says whether the client is still there when the stream fails; if not,
      nothing more is written. */
  method StreamChatToResponses(limits: SseText.Limits, syn: Synthetic, freshId: nat -> string,
      decode: string -> Payload, env: Environment, upstream: Upstream, connected: bool, client: Client)
    returns (ghost e: Ending)
    requires client.events == []
    modifies client
    ensures EndsAs(limits, syn, freshId, decode, env, upstream, e)
    ensures client.events ==
              if connected || UpstreamDigest(limits, decode, upstream).Good? || !upstream.Streaming? then Rendered(e)
              else [Created] + ItemEvents(0, e.deltas, false)
  {
    client.Write(Created);
    match upstream {
      case Streaming(chunks, breaks) =>
        e := RunStream(limits, syn, freshId, decode, env, chunks, breaks, connected, client);
      case Unreachable =>
        FailConnect(client, syn, UpstreamError);
        e := CutOffEnding(syn, NO_FRAMES, UpstreamError);
      case HttpError =>
        FailConnect(client, syn, UpstreamHttp);
        e := CutOffEnding(syn, NO_FRAMES, UpstreamHttp);
      case NotEventStream =>
        FailConnect(client, syn, BadUpstream);
        e := CutOffEnding(syn, NO_FRAMES, BadUpstream);
    }
  }

  method RunStream(limits: SseText.Limits, syn: Synthetic, freshId: nat -> string, decode: string -> Payload,
      env: Environment, chunks: seq<string>, breaks: bool, connected: bool, client: Client)
    returns (ghost e: Ending)
    requires client.events == [Created]
    modifies client
    ensures EndsAs(limits, syn, freshId, decode, env, Streaming(chunks, breaks), e)
    ensures client.events ==
              if connected || StreamDigest(limits, Decoder(decode), chunks, breaks).Good? then Rendered(e)
              else [Created] + ItemEvents(0, e.deltas, false)
  {
    var forwarder := new ReasoningForwarder(syn);
    var acc := new Accumulator(forwarder, freshId);
    assert acc.Holds(NO_FRAMES);
    var ok := ReadAll(limits, Decoder(decode), acc, client, chunks, breaks);
    if ok {
      ghost var d := StreamDigest(limits, Decoder(decode), chunks, breaks);
      e := Concluded(syn, freshId, env, d);
      Close(acc, client, env, d);
      return;
    }
    ghost var read := ReadDigest(limits, decode, Streaming(chunks, breaks));
    e := CutOffEnding(syn, read, StreamError);
    if !connected {
      StillOpen(syn, read.reasonings);
      return;
    }
    FailStream(acc, client, read);
  }

  // ---- What every run keeps ----

  lemma {:induction false} EndsWellFormed(limits: SseText.Limits, syn: Synthetic, freshId: nat -> string,
      decode: string -> Payload, env: Environment, upstream: Upstream, e: Ending)
    requires EndsAs(limits, syn, freshId, decode, env, upstream, e)
    ensures WellFormed(e)
  {
    var d := UpstreamDigest(limits, decode, upstream);
    if d.Good? {
      ConcludeWellFormed(syn, freshId, env, AfterRecovery(syn, freshId, env, Received(syn, freshId, d)));
    }
  }

  /** A completed run has read its stream without a parser error, a bad frame or a break, up
      to the one end marker, and shows what was received or a confirmed replacement. */
  lemma {:induction false} CompletedRun(limits: SseText.Limits, cfg: Nudge.Config, syn: Synthetic,
      freshId: nat -> string, decode: string -> Payload, env: Environment, upstream: Upstream, e: Ending)
    requires EndsAs(limits, syn, freshId, decode, env, upstream, e) && e.terminal.ResponseCompleted?
    requires env.nudge.Some? ==> Nudge.Justified(cfg, env.nudge.value)
    ensures upstream.Streaming? && !upstream.breaks
    ensures var frames := SseReference.RunChunks(SseReference.Bridge, limits, SseReference.START, upstream.chunks);
            frames.Frames? &&
            var d := DigestAll(Decoder(decode), frames.frames);
            d.Good? && d.done && GoodEnding(freshId, env, d, e)
  {
    CompletedIsGood(cfg, syn, freshId, env, UpstreamDigest(limits, decode, upstream));
  }

  /** How the upstream cuts its stream into chunks does not change how a run ends. */
  lemma {:induction false} ChunksDoNotMatter(limits: SseText.Limits, decode: string -> Payload, chunks: seq<string>,
      breaks: bool)
    requires SseReference.ChunkSafe(limits, SseText.Concat(chunks))
    ensures StreamDigest(limits, decode, chunks, breaks) ==
        StreamDigest(limits, decode, [SseText.Concat(chunks)], breaks)
  {
    var text := SseText.Concat(chunks);
    assert "" + text == text;
    SseReference.ChunkIndependence(SseReference.Bridge, limits, "", chunks);
    assert SseText.Concat([text]) == text;
    SseReference.ChunkIndependence(SseReference.Bridge, limits, "", [text]);
  }
}
