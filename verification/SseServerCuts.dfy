/** Exactly which streams the server parser reads in the same way however they are cut. */
module SseServerCuts {
  import opened SseText
  import opened SseReference

  predicate DataLine(line: Line) {
    line.text != "" && !(":" <= line.text) && FieldName(line.text) == "data"
  }

  /** A data field stands behind the last empty line. */
  predicate DataBefore(lines: seq<Line>) {
    lines != [] && lines[|lines| - 1].text != "" &&
    (DataLine(lines[|lines| - 1]) || DataBefore(lines[..|lines| - 1]))
  }

  /** A data field stands before the first empty line. */
  predicate DataAfter(lines: seq<Line>) {
    lines != [] && lines[0].text != "" && (DataLine(lines[0]) || DataAfter(lines[1..]))
  }

  /** The CRLF of line i stands between two data fields of one frame. */
  predicate InsideFrame(lines: seq<Line>, i: nat)
    requires i < |lines|
  {
    lines[i].ending == CRLF && DataBefore(lines[..i + 1]) && DataAfter(lines[i + 1..])
  }

  predicate ServerChunkSafe(text: string) {
    var lines := Split(text, true).lines;
    forall i | 0 <= i < |lines| :: !InsideFrame(lines, i)
  }

  // ---- What the parser has seen after some chunks ----

  function PushAll(seen: SplitText, chunks: seq<string>): SplitText
    decreases |chunks|
  {
    if chunks == [] then seen else PushAll(SseReference.Push(Server, seen, chunks[0]), chunks[1..])
  }

  lemma {:induction false} RestOpen(text: string)
    ensures NoBreaks(Split(text, true).rest)
    decreases |text|
  {
    if text == "" {
    } else if text[0] == '\n' || text[0] == '\r' {
      SplitBreak(text, true, EndingAt(text, 0));
      RestOpen(text[Width(EndingAt(text, 0))..]);
    } else {
      SplitPlain(text, true);
      RestOpen(text[1..]);
    }
  }

  lemma {:induction false} PushKeepsOpen(seen: SplitText, chunk: string)
    ensures NoBreaks(SseReference.Push(Server, seen, chunk).rest)
  {
    RestOpen(seen.rest + chunk);
  }

  lemma {:induction false} SplitOpen(rest: string)
    requires NoBreaks(rest)
    ensures Split(rest, true) == SplitText([], rest)
  {
    SplitAt(rest, |rest|, true);
  }

  /** Lines that are consumed are within the limit, the first of them too. */
  lemma {:induction false} FirstFits(limits: Limits, lines: seq<Line>, more: seq<Line>)
    requires ConsumeAll(Server, limits, lines + more).Continue?
    ensures ConsumeAll(Server, limits, lines).Continue?
    ensures more != [] ==> ByteLength(more[0].text) <= limits.maxLine
  {
    ConsumeAllPrefix(Server, limits, lines, more);
    if more != [] {
      assert lines + more == lines + [more[0]] + more[1..];
      ConsumeAllPrefix(Server, limits, lines + [more[0]], more[1..]);
      ConsumeAllPush(Server, limits, lines, more[0]);
    }
  }

  /** A chunk that settles leaves nothing behind that could not have settled before. */
  lemma {:induction false} SettledBefore(limits: Limits, seen: SplitText, chunk: string)
    requires NoBreaks(seen.rest) && Settle(Server, limits, SseReference.Push(Server, seen, chunk)).Continue?
    ensures Settle(Server, limits, seen).Continue?
  {
    FirstFits(limits, seen.lines, Split(seen.rest + chunk, true).lines);
    LongHead(limits, seen.rest, chunk);
  }

  lemma {:induction false} AllSettledBefore(limits: Limits, seen: SplitText, chunks: seq<string>)
    requires NoBreaks(seen.rest) && Settle(Server, limits, PushAll(seen, chunks)).Continue?
    ensures Settle(Server, limits, seen).Continue?
    decreases |chunks|
  {
    if chunks != [] {
      PushKeepsOpen(seen, chunks[0]);
      AllSettledBefore(limits, SseReference.Push(Server, seen, chunks[0]), chunks[1..]);
      SettledBefore(limits, seen, chunks[0]);
    }
  }

  /** A run that is not stopped on the way ends with the lines that all its chunks make up. */
  lemma {:induction false} RunEnds(limits: Limits, seen: SplitText, chunks: seq<string>)
    requires NoBreaks(seen.rest)
    ensures var run := RunChunks(Server, limits, seen, chunks);
            var end := SseReference.Finish(Server, limits, PushAll(seen, chunks));
            run.Frames? || end.Frames? ==> run == end
    decreases |chunks|
  {
    if chunks == [] {
      SplitOpen(seen.rest);
      assert Append(seen, Split(seen.rest, true)) == seen by { assert seen.lines + [] == seen.lines; }
    } else {
      var next := SseReference.Push(Server, seen, chunks[0]);
      PushKeepsOpen(seen, chunks[0]);
      RunEnds(limits, next, chunks[1..]);
      if SseReference.Finish(Server, limits, PushAll(seen, chunks)).Frames? {
        AllSettledBefore(limits, next, chunks[1..]);
      }
    }
  }

  // ---- A split CRLF becomes a CR and an empty line ----

  /** The lines a, with some lines of b that end in CRLF broken in two. */
  predicate Broken(a: seq<Line>, b: seq<Line>)
    decreases |b|
  {
    if b == [] then a == []
    else if a == [] then false
    else
      var n, m := |a| - 1, |b| - 1;
      (a[n] == b[m] && Broken(a[..n], b[..m])) ||
      (n > 0 && b[m].ending == CRLF && a[n] == Line("", LF) && a[n - 1] == Line(b[m].text, CR) &&
          Broken(a[..n - 1], b[..m]))
  }

  lemma {:induction false} BrokenAppend(a: seq<Line>, b: seq<Line>, more: seq<Line>)
    requires Broken(a, b)
    ensures Broken(a + more, b + more)
  {
    if more == [] {
      assert a + more == a && b + more == b;
    } else {
      BrokenAppend(a, b, more[..|more| - 1]);
      assert (a + more)[..|a + more| - 1] == a + more[..|more| - 1];
      assert (b + more)[..|b + more| - 1] == b + more[..|more| - 1];
    }
  }

  lemma {:induction false} BrokenLast(a: seq<Line>, b: seq<Line>, text: string)
    requires Broken(a, b + [Line(text, CR)])
    ensures Broken(a + [Line("", LF)], b + [Line(text, CRLF)])
  {
    var whole, cut := b + [Line(text, CRLF)], a + [Line("", LF)];
    assert (b + [Line(text, CR)])[..|b|] == b;
    assert whole[..|b|] == b && cut[..|a| - 1] == a[..|a| - 1];
  }

  /** A LF behind a final CR turns the last line's ending into CRLF. */
  lemma {:induction false} LfJoins(s: string)
    requires EndsWithCr(s)
    ensures Joins(s)
    decreases |s|
  {
    if s == "\r" {
      LfJoinsCr();
    } else if s[0] == '\n' || s[0] == '\r' {
      LfJoins(s[Width(EndingAt(s, 0))..]);
      LfJoinsBreak(s, EndingAt(s, 0));
    } else {
      LfJoins(s[1..]);
      LfJoinsPlain(s);
    }
  }

  predicate Joins(s: string) {
    JoinedTo(Split(s, true), Split(s + "\n", true))
  }

  /** The same lines, but the last ends in CR in x and in CRLF in y. */
  predicate JoinedTo(x: SplitText, y: SplitText) {
    var n := |x.lines| - 1;
    && x.lines != [] && x.rest == "" && x.lines[n].ending == CR
    && y == SplitText(x.lines[..n] + [Line(x.lines[n].text, CRLF)], "")
  }

  lemma {:induction false} DropBefore(s: string, n: nat)
    requires n <= |s|
    ensures (s + "\n")[n..] == s[n..] + "\n"
  {
  }

  lemma {:induction false} LfJoinsCr()
    ensures Joins("\r")
  {
    SplitOneLine("", CR, "\r");
    SplitOneLine("", CRLF, "\r\n");
    assert "\r" + "\n" == "\r\n";
  }

  lemma {:induction false} LfJoinsBreak(s: string, e: Ending)
    requires EndsWithCr(s) && s != "\r" && (s[0] == '\n' || s[0] == '\r') && e == EndingAt(s, 0)
    requires Joins(s[Width(e)..])
    ensures Joins(s)
  {
    var t, tail := s + "\n", s[Width(e)..];
    DropBefore(s, Width(e));
    assert EndingAt(t, 0) == e;
    SplitBreak(s, true, e);
    SplitBreak(t, true, e);
    JoinedBehind(e, Split(tail, true), Split(tail + "\n", true));
  }

  lemma {:induction false} JoinedBehind(e: Ending, x: SplitText, y: SplitText)
    requires JoinedTo(x, y)
    ensures JoinedTo(After(e, x), After(e, y))
  {
  }

  lemma {:induction false} LfJoinsPlain(s: string)
    requires EndsWithCr(s) && s[0] != '\n' && s[0] != '\r' && Joins(s[1..])
    ensures Joins(s)
  {
    var t := s + "\n";
    DropBefore(s, 1);
    SplitPlain(s, true);
    SplitPlain(t, true);
    JoinedInLine(s[0], Split(s[1..], true), Split(s[1..] + "\n", true));
  }

  lemma {:induction false} JoinedInLine(c: char, x: SplitText, y: SplitText)
    requires JoinedTo(x, y)
    ensures JoinedTo(Prepend(c, x), Prepend(c, y))
  {
  }

  /** How the parser's lines relate to those of the text pushed so far. */
  predicate Follows(seen: SplitText, text: string) {
    Broken(seen.lines, Split(text, true).lines) && seen.rest == Split(text, true).rest
  }

  lemma {:induction false} PushFollows(seen: SplitText, text: string, chunk: string)
    requires Follows(seen, text)
    ensures Follows(SseReference.Push(Server, seen, chunk), text + chunk)
  {
    if CutsCrlf(text, chunk) {
      CutFollows(seen, text, chunk[1..]);
      assert chunk == "\n" + chunk[1..];
    } else {
      SplitResumes(text, chunk, true, true);
      BrokenAppend(seen.lines, Split(text, true).lines, Split(seen.rest + chunk, true).lines);
    }
  }

  lemma {:induction false} BrokenThen(a: seq<Line>, b: seq<Line>, last: Line, tail: seq<Line>)
    requires last.ending == CR && Broken(a, b + [last])
    ensures Broken(a + ([Line("", LF)] + tail), b + [Line(last.text, CRLF)] + tail)
  {
    BrokenLast(a, b, last.text);
    BrokenAppend(a + [Line("", LF)], b + [Line(last.text, CRLF)], tail);
    assert a + ([Line("", LF)] + tail) == a + [Line("", LF)] + tail;
  }

  lemma {:induction false} CutFollows(seen: SplitText, text: string, more: string)
    requires Follows(seen, text) && EndsWithCr(text)
    ensures Follows(SseReference.Push(Server, seen, "\n" + more), text + ("\n" + more))
  {
    var lines := Split(text, true).lines;
    LfJoins(text);
    LfThenMore(text, more);
    var n := |lines| - 1;
    assert lines == lines[..n] + [lines[n]];
    BrokenThen(seen.lines, lines[..n], lines[n], Split(more, true).lines);
  }

  lemma {:induction false} LfThenMore(text: string, more: string)
    requires EndsWithCr(text)
    ensures Split(text + ("\n" + more), true) == Append(Split(text + "\n", true), Split(more, true))
    ensures Split("" + ("\n" + more), true) == After(LF, Split(more, true))
  {
    LfJoins(text);
    assert text + ("\n" + more) == (text + "\n") + more && "" + more == more;
    assert "" + ("\n" + more) == "\n" + more && ("\n" + more)[1..] == more;
    SplitResumes(text + "\n", more, true, true);
    SplitBreak("\n" + more, true, LF);
  }

  lemma {:induction false} ConcatNext(text: string, chunks: seq<string>)
    requires chunks != []
    ensures text + chunks[0] + Concat(chunks[1..]) == text + Concat(chunks)
  {
  }

  lemma {:induction false} AllFollows(seen: SplitText, text: string, chunks: seq<string>)
    requires Follows(seen, text)
    ensures Follows(PushAll(seen, chunks), text + Concat(chunks))
    decreases |chunks|
  {
    if chunks == [] {
      assert text + "" == text;
    } else {
      PushFollows(seen, text, chunks[0]);
      AllFollows(SseReference.Push(Server, seen, chunks[0]), text + chunks[0], chunks[1..]);
      ConcatNext(text, chunks);
    }
  }

  // ---- What an extra empty line does to an accepted stream ----

  lemma {:induction false} DataBeforePush(lines: seq<Line>, line: Line)
    ensures DataBefore(lines + [line]) <==> line.text != "" && (DataLine(line) || DataBefore(lines))
  {
    assert (lines + [line])[..|lines|] == lines;
  }

  /** Data is pending exactly behind a data field of the open frame. */
  lemma {:induction false} PendingIs(limits: Limits, lines: seq<Line>)
    requires ConsumeAll(Server, limits, lines).Continue?
    ensures ConsumeAll(Server, limits, lines).pending.dataLines != [] <==> DataBefore(lines)
  {
    if lines != [] {
      PendingIs(limits, lines[..|lines| - 1]);
    }
  }

  /** The parser with a broken line behind it is in step, or has dispatched the open frame
      ahead of time. */
  datatype Step = InStep | Ahead

  predicate Related(s: Step, p: Pending, f: seq<string>, q: Pending, g: seq<string>) {
    && q.frameBytes <= p.frameBytes
    && match s
       case InStep => q.dataLines == p.dataLines && g == f
       case Ahead => p.dataLines != [] && q.dataLines == [] && g == f + Dispatch(p)
  }

  function Onward(s: Step, line: Line): Step {
    if s == Ahead && line.text != "" then Ahead else InStep
  }

  /** A line that both see. */
  lemma {:induction false} SameLine(limits: Limits, s: Step, p: Pending, f: seq<string>, q: Pending, g: seq<string>,
      line: Line)
    requires Related(s, p, f, q, g) && ServerLine(limits, p, line).Continue?
    requires s == Ahead ==> !DataLine(line)
    ensures var c, d := ServerLine(limits, p, line), ServerLine(limits, q, line);
            d.Continue? && Related(Onward(s, line), c.pending, f + c.frames, d.pending, g + d.frames)
  {
    assert f + [] == f && g + [] == g;
  }

  function BrokenStep(s: Step, p: Pending, line: Line): Step {
    if line.text != "" && (DataLine(line) || p.dataLines != []) then Ahead else InStep
  }

  /** A line that ends in CRLF for one and in a CR before an empty line for the other. */
  lemma {:induction false} BrokenLine(limits: Limits, s: Step, p: Pending, f: seq<string>, q: Pending,
      g: seq<string>, text: string)
    requires Related(s, p, f, q, g) && ServerLine(limits, p, Line(text, CRLF)).Continue?
    requires s == Ahead ==> !DataLine(Line(text, CRLF))
    ensures var c, d := ServerLine(limits, p, Line(text, CRLF)), ServerLine(limits, q, Line(text, CR));
            d.Continue? &&
            var e := ServerLine(limits, d.pending, Line("", LF));
            e.Continue? &&
            Related(BrokenStep(s, p, Line(text, CRLF)), c.pending, f + c.frames, e.pending, g + d.frames + e.frames)
  {
    assert ByteLength("") == 0;
    assert f + [] == f && g + [] == g && g + [] + [] == g;
  }

  /** Some line of b was broken behind data, and no empty line has come since. */
  predicate AheadAt(b: seq<Line>, i: nat) {
    && i < |b| && b[i].ending == CRLF && DataBefore(b[..i + 1])
    && forall k | i < k < |b| :: b[k].text != ""
  }

  lemma {:induction false} DataAfterAt(lines: seq<Line>, k: nat)
    requires k < |lines| && DataLine(lines[k]) && forall j | 0 <= j < k :: lines[j].text != ""
    ensures DataAfter(lines)
    decreases k
  {
    if k > 0 {
      DataAfterAt(lines[1..], k - 1);
    }
  }

  lemma {:induction false} DataAfterGrows(lines: seq<Line>, more: seq<Line>)
    requires DataAfter(lines)
    ensures DataAfter(lines + more)
  {
    assert (lines + more)[1..] == lines[1..] + more;
    if !DataLine(lines[0]) {
      DataAfterGrows(lines[1..], more);
    }
  }

  ghost predicate SafeLines(b: seq<Line>) {
    forall i | 0 <= i < |b| :: !InsideFrame(b, i)
  }

  lemma {:induction false} SafePrefix(b: seq<Line>, line: Line)
    requires SafeLines(b + [line])
    ensures SafeLines(b)
  {
    var all := b + [line];
    forall i | 0 <= i < |b|
      ensures !InsideFrame(b, i)
    {
      assert !InsideFrame(all, i) && all[..i + 1] == b[..i + 1] && all[i + 1..] == b[i + 1..] + [line];
      if DataAfter(b[i + 1..]) {
        DataAfterGrows(b[i + 1..], [line]);
      }
    }
  }

  /** Ahead of time, a data field stands in the same frame. */
  lemma {:induction false} DataInside(b: seq<Line>, i: nat, line: Line)
    requires AheadAt(b, i) && DataLine(line)
    ensures InsideFrame(b + [line], i)
  {
    var all := b + [line];
    assert all[..i + 1] == b[..i + 1];
    DataAfterAt(all[i + 1..], |b| - i - 1);
  }

  lemma {:induction false} NoDataAhead(b: seq<Line>, i: nat, line: Line)
    requires AheadAt(b, i) && SafeLines(b + [line])
    ensures !DataLine(line)
  {
    if DataLine(line) {
      DataInside(b, i, line);
    }
  }

  ghost predicate Known(s: Step, b: seq<Line>) {
    s == Ahead ==> exists i :: AheadAt(b, i)
  }

  lemma {:induction false} KnownOnward(s: Step, b: seq<Line>, line: Line)
    requires Known(s, b)
    ensures Known(Onward(s, line), b + [line])
  {
    if Onward(s, line) == Ahead {
      var i :| AheadAt(b, i);
      assert (b + [line])[..i + 1] == b[..i + 1];
      assert AheadAt(b + [line], i);
    }
  }

  lemma {:induction false} KnownBroken(b: seq<Line>, line: Line)
    requires line.ending == CRLF && DataBefore(b + [line])
    ensures Known(Ahead, b + [line])
  {
    assert (b + [line])[..|b| + 1] == b + [line];
    assert AheadAt(b + [line], |b|);
  }

  ghost predicate ReadAlike(limits: Limits, s: Step, a: seq<Line>, b: seq<Line>) {
    var c, d := ConsumeAll(Server, limits, b), ConsumeAll(Server, limits, a);
    c.Continue? && d.Continue? && Known(s, b) && Related(s, c.pending, c.frames, d.pending, d.frames)
  }

  lemma {:induction false} ReadsSame(limits: Limits, s: Step, a: seq<Line>, b: seq<Line>, line: Line) returns (t: Step)
    requires ReadAlike(limits, s, a, b) && SafeLines(b + [line]) && ConsumeAll(Server, limits, b + [line]).Continue?
    ensures ReadAlike(limits, t, a + [line], b + [line])
  {
    var c, d := ConsumeAll(Server, limits, b), ConsumeAll(Server, limits, a);
    t := Onward(s, line);
    ConsumeAllPush(Server, limits, a, line);
    ConsumeAllPush(Server, limits, b, line);
    if s == Ahead {
      var i :| AheadAt(b, i);
      NoDataAhead(b, i, line);
    }
    SameLine(limits, s, c.pending, c.frames, d.pending, d.frames, line);
    KnownOnward(s, b, line);
  }

  lemma {:induction false} ReadsBroken(limits: Limits, s: Step, a: seq<Line>, b: seq<Line>, line: Line)
    returns (t: Step)
    requires ReadAlike(limits, s, a, b) && SafeLines(b + [line]) && ConsumeAll(Server, limits, b + [line]).Continue?
    requires line.ending == CRLF
    ensures ReadAlike(limits, t, a + [Line(line.text, CR)] + [Line("", LF)], b + [line])
  {
    var c, d := ConsumeAll(Server, limits, b), ConsumeAll(Server, limits, a);
    t := BrokenStep(s, c.pending, line);
    ConsumeAllPush(Server, limits, a, Line(line.text, CR));
    ConsumeAllPush(Server, limits, a + [Line(line.text, CR)], Line("", LF));
    ConsumeAllPush(Server, limits, b, line);
    if s == Ahead {
      var i :| AheadAt(b, i);
      NoDataAhead(b, i, line);
    }
    assert line == Line(line.text, CRLF);
    BrokenLine(limits, s, c.pending, c.frames, d.pending, d.frames, line.text);
    PendingIs(limits, b);
    DataBeforePush(b, line);
    if t == Ahead {
      KnownBroken(b, line);
    }
  }

  lemma {:induction false} BrokenCases(a: seq<Line>, b: seq<Line>, line: Line) returns (rest: seq<Line>, cut: bool)
    requires Broken(a, b + [line])
    ensures Broken(rest, b)
    ensures !cut ==> a == rest + [line]
    ensures cut ==> line.ending == CRLF && a == rest + [Line(line.text, CR)] + [Line("", LF)]
  {
    var n := |a| - 1;
    assert (b + [line])[..|b|] == b;
    cut := !(a[n] == line && Broken(a[..n], b));
    rest := if cut then a[..n - 1] else a[..n];
  }

  /** Without a data field behind it in its frame, a broken line makes no difference. */
  lemma {:induction false} BrokenReads(limits: Limits, a: seq<Line>, b: seq<Line>) returns (s: Step)
    requires Broken(a, b) && SafeLines(b) && ConsumeAll(Server, limits, b).Continue?
    ensures ReadAlike(limits, s, a, b)
    decreases |b|
  {
    if b == [] {
      return InStep;
    }
    var before, line := b[..|b| - 1], b[|b| - 1];
    assert b == before + [line];
    SafePrefix(before, line);
    ConsumeAllPrefix(Server, limits, before, [line]);
    var rest, cut := BrokenCases(a, before, line);
    s := BrokenReads(limits, rest, before);
    if cut {
      s := ReadsBroken(limits, s, rest, before, line);
    } else {
      s := ReadsSame(limits, s, rest, before, line);
    }
  }

  // ---- A CRLF inside a frame makes two frames of one ----

  function ConsumeFrom(limits: Limits, p: Pending, f: seq<string>, lines: seq<Line>): Progress
    decreases |lines|
  {
    if lines == [] then Continue(p, f)
    else
      match ServerLine(limits, p, lines[0])
      case Stop(e) => Stop(e)
      case Continue(q, more) => ConsumeFrom(limits, q, f + more, lines[1..])
  }

  lemma {:induction false} ConsumeResumes(limits: Limits, lines: seq<Line>, tail: seq<Line>)
    requires ConsumeAll(Server, limits, lines).Continue?
    ensures var c := ConsumeAll(Server, limits, lines);
            ConsumeAll(Server, limits, lines + tail) == ConsumeFrom(limits, c.pending, c.frames, tail)
    decreases |tail|
  {
    if tail == [] {
      assert lines + tail == lines;
    } else {
      ConsumeAllPush(Server, limits, lines, tail[0]);
      assert lines + [tail[0]] + tail[1..] == lines + tail;
      if ConsumeAll(Server, limits, lines + [tail[0]]).Continue? {
        ConsumeResumes(limits, lines + [tail[0]], tail[1..]);
      } else {
        ConsumeAllStops(Server, limits, lines + [tail[0]], tail[1..]);
      }
    }
  }

  /** One frame more than the other: its open frame was dispatched (0), has begun anew (1), or
      both have ended (2). */
  predicate OneMore(stage: nat, p: Pending, f: seq<string>, q: Pending, g: seq<string>) {
    && |g| == |f| + 1
    && (stage == 0 ==> p.dataLines != [] && q.dataLines == [])
    && (stage == 1 ==> p.dataLines != [] && q.dataLines != [])
    && (stage >= 2 ==> (p.dataLines != [] <==> q.dataLines != []))
  }

  lemma {:induction false} StaysSplit(limits: Limits, stage: nat, p: Pending, f: seq<string>, q: Pending,
      g: seq<string>, tail: seq<Line>)
    requires OneMore(stage, p, f, q, g) && (stage == 0 ==> DataAfter(tail))
    requires ConsumeFrom(limits, p, f, tail).Continue? && ConsumeFrom(limits, q, g, tail).Continue?
    requires ConsumeFrom(limits, p, f, tail).pending.dataLines == []
    ensures |ConsumeFrom(limits, q, g, tail).frames| == |ConsumeFrom(limits, p, f, tail).frames| + 1
    decreases |tail|
  {
    if tail != [] {
      var line := tail[0];
      var c, d := ServerLine(limits, p, line), ServerLine(limits, q, line);
      var next := if line.text == "" then 2 else if stage == 0 && DataLine(line) then 1 else stage;
      assert OneMore(next, c.pending, f + c.frames, d.pending, g + d.frames);
      StaysSplit(limits, next, c.pending, f + c.frames, d.pending, g + d.frames, tail[1..]);
    }
  }

  /** The frame is dispatched at the broken line and once more at its end. */
  lemma {:induction false} OneFrameMore(limits: Limits, before: seq<Line>, line: Line, tail: seq<Line>)
    requires line.ending == CRLF && DataBefore(before + [line]) && DataAfter(tail)
    requires var c := ConsumeAll(Server, limits, before + [line] + tail); c.Continue? && c.pending.dataLines == []
    requires ConsumeAll(Server, limits, before + [Line(line.text, CR), Line("", LF)] + tail).Continue?
    ensures |ConsumeAll(Server, limits, before + [Line(line.text, CR), Line("", LF)] + tail).frames|
            == |ConsumeAll(Server, limits, before + [line] + tail).frames| + 1
  {
    var a, b := before + [Line(line.text, CR), Line("", LF)], before + [line];
    ConsumeAllPrefix(Server, limits, a, tail);
    ConsumeAllPrefix(Server, limits, b, tail);
    ConsumeResumes(limits, a, tail);
    ConsumeResumes(limits, b, tail);
    BrokenBehind(limits, before, line);
    var c, d := ConsumeAll(Server, limits, b), ConsumeAll(Server, limits, a);
    StaysSplit(limits, 0, c.pending, c.frames, d.pending, d.frames, tail);
  }

  lemma {:induction false} BrokenBehind(limits: Limits, before: seq<Line>, line: Line)
    requires line.ending == CRLF && DataBefore(before + [line])
    requires ConsumeAll(Server, limits, before + [line]).Continue?
    requires ConsumeAll(Server, limits, before + [Line(line.text, CR), Line("", LF)]).Continue?
    ensures var c := ConsumeAll(Server, limits, before + [line]);
            var d := ConsumeAll(Server, limits, before + [Line(line.text, CR), Line("", LF)]);
            OneMore(0, c.pending, c.frames, d.pending, d.frames)
  {
    var cr, lf := Line(line.text, CR), Line("", LF);
    assert before + [cr, lf] == before + [cr] + [lf];
    ConsumeAllPrefix(Server, limits, before + [cr], [lf]);
    ConsumeAllPrefix(Server, limits, before, [line]);
    ConsumeAllPush(Server, limits, before, line);
    ConsumeAllPush(Server, limits, before, cr);
    ConsumeAllPush(Server, limits, before + [cr], lf);
    PendingIs(limits, before + [line]);
    DataBeforePush(before, line);
  }

  // ---- The exact condition ----

  lemma {:induction false} SafeIndependence(limits: Limits, text: string, chunks: seq<string>)
    requires Parse(Server, limits, text).Frames? && ServerChunkSafe(text) && Concat(chunks) == text
    ensures RunChunks(Server, limits, START, chunks) == Parse(Server, limits, text)
  {
    assert "" + text == text;
    AllFollows(START, "", chunks);
    var a, b := PushAll(START, chunks).lines, Split(text, true).lines;
    var s := BrokenReads(limits, a, b);
    RunEnds(limits, START, chunks);
  }

  /** The text behind the CR of line k, which its LF begins. */
  lemma {:induction false} CutAtCrlf(text: string, k: nat, p: string)
    requires CutsAtCr(text, k, p) && Split(text, true).lines[k].ending == CRLF
    ensures var lines := Split(text, true).lines;
            var rest := text[|p|..];
            && rest != "" && rest[0] == '\n'
            && lines[k + 1..] == Split(rest[1..], true).lines && Split(text, true).rest == Split(rest[1..], true).rest
            && Split(p, true) == SplitText(lines[..k] + [Line(lines[k].text, CR)], "")
  {
    var lines, rest := Split(text, true).lines, text[|p|..];
    OpenAtCr(text, k, p);
    assert text == p + rest && p + "" == p;
    CutResumes(lines[..k], lines[k].text, p, rest);
    CutResumes(lines[..k], lines[k].text, p, "");
    assert lines[k] == Split(text, true).lines[k];
  }

  lemma {:induction false} OpenAtCr(text: string, k: nat, p: string)
    requires CutsAtCr(text, k, p)
    ensures NoBreaks(Split(text, true).lines[k].text)
  {
    var value := Split(text, true).lines[k].text;
    RestIsOpen(p, false);
    assert forall j | 0 <= j < |value| :: (value + "\r")[j] == value[j];
  }

  /** The text goes on behind an undecided CR. */
  lemma {:induction false} CutResumes(before: seq<Line>, value: string, p: string, rest: string)
    requires Split(p, false) == SplitText(before, value + "\r") && NoBreaks(value)
    ensures var e := if rest != "" && rest[0] == '\n' then CRLF else CR;
            var tail := Split(if e == CRLF then rest[1..] else rest, true);
            Split(p + rest, true) == SplitText(before + [Line(value, e)] + tail.lines, tail.rest)
  {
    var open := value + "\r";
    SplitResumes(p, rest, false, true);
    assert open[..|value|] == value;
    OpenEnds(open, rest, |value|);
  }

  lemma {:induction false} OpenEnds(open: string, rest: string, n: nat)
    requires |open| == n + 1 && open[n] == '\r' && NoBreaks(open[..n])
    ensures var e := if rest != "" && rest[0] == '\n' then CRLF else CR;
            var tail := Split(if e == CRLF then rest[1..] else rest, true);
            Split(open + rest, true) == Append(SplitText([Line(open[..n], e)], ""), tail)
  {
    var s := open + rest;
    assert forall j | 0 <= j < n :: s[j] == open[..n][j];
    SplitAt(s, n, true);
    assert s[..n] == open[..n] && s[n + 1..] == rest;
    assert rest != "" ==> s[n + 2..] == rest[1..] && s[n + 1] == rest[0];
  }

  lemma {:induction false} CutDiffers(limits: Limits, text: string, k: nat) returns (chunks: seq<string>)
    requires Parse(Server, limits, text).Frames?
    requires k < |Split(text, true).lines| && InsideFrame(Split(text, true).lines, k)
    ensures Concat(chunks) == text
    ensures RunChunks(Server, limits, START, chunks) != Parse(Server, limits, text)
  {
    var lines := Split(text, true).lines;
    var p := CutAtCr(text, k);
    var rest := text[|p|..];
    chunks := [p, rest];
    CutAtCrlf(text, k, p);
    TwoChunks(p, rest);
    PushTwo(p, rest, lines[..k] + [Line(lines[k].text, CR)]);
    RunEnds(limits, START, chunks);
    TwoBetween(lines[..k], Line(lines[k].text, CR), Line("", LF), lines[k + 1..]);
    if RunChunks(Server, limits, START, chunks).Frames? {
      BrokenInside(limits, lines, k);
    }
  }

  lemma {:induction false} TwoBetween(before: seq<Line>, cr: Line, lf: Line, tail: seq<Line>)
    ensures before + [cr] + ([lf] + tail) == before + [cr, lf] + tail
  {
  }

  lemma {:induction false} BrokenInside(limits: Limits, lines: seq<Line>, k: nat)
    requires k < |lines| && InsideFrame(lines, k)
    requires var c := ConsumeAll(Server, limits, lines); c.Continue? && c.pending.dataLines == []
    requires ConsumeAll(Server, limits, lines[..k] + [Line(lines[k].text, CR), Line("", LF)] + lines[k + 1..]).Continue?
    ensures |ConsumeAll(Server, limits, lines[..k] + [Line(lines[k].text, CR), Line("", LF)] + lines[k + 1..]).frames|
            == |ConsumeAll(Server, limits, lines).frames| + 1
  {
    assert lines[..k] + [lines[k]] + lines[k + 1..] == lines && lines[..k + 1] == lines[..k] + [lines[k]];
    OneFrameMore(limits, lines[..k], lines[k], lines[k + 1..]);
  }

  lemma {:induction false} PushTwo(p: string, rest: string, lines: seq<Line>)
    requires rest != "" && rest[0] == '\n' && Split(p, true) == SplitText(lines, "")
    ensures PushAll(START, [p, rest]) ==
              SplitText(lines + ([Line("", LF)] + Split(rest[1..], true).lines), Split(rest[1..], true).rest)
  {
    assert "" + p == p && "" + rest == rest && [] + lines == lines;
    SplitBreak(rest, true, LF);
    assert [p, rest][1..] == [rest] && [rest][1..] == [];
    assert SseReference.Push(Server, START, p) == SplitText(lines, "");
    assert PushAll(SplitText(lines, ""), [rest]) == PushAll(SseReference.Push(Server, SplitText(lines, ""), rest), []);
  }

  /** On streams the one-pass parse accepts, the server parser is chunk-independent exactly
      when no line between two data fields of one frame ends in CRLF. */
  lemma {:induction false} ServerChunkIndependentIff(limits: Limits, text: string)
    requires Parse(Server, limits, text).Frames?
    ensures ServerChunkSafe(text) <==>
            forall chunks: seq<string> | Concat(chunks) == text ::
              RunChunks(Server, limits, START, chunks) == Parse(Server, limits, text)
  {
    if ServerChunkSafe(text) {
      forall chunks: seq<string> | Concat(chunks) == text
        ensures RunChunks(Server, limits, START, chunks) == Parse(Server, limits, text)
      {
        SafeIndependence(limits, text, chunks);
      }
    } else {
      var lines := Split(text, true).lines;
      var k :| 0 <= k < |lines| && InsideFrame(lines, k);
      var chunks := CutDiffers(limits, text, k);
    }
  }

  // ---- Every reading of a text ----

  lemma {:induction false} PushAllAppend(seen: SplitText, chunks: seq<string>, last: string)
    ensures PushAll(seen, chunks + [last]) == SseReference.Push(Server, PushAll(seen, chunks), last)
    decreases |chunks|
  {
    if chunks == [] {
      assert [] + [last] == [last] && [last][1..] == [];
      assert PushAll(SseReference.Push(Server, seen, last), []) == SseReference.Push(Server, seen, last);
    } else {
      PushAllAppend(SseReference.Push(Server, seen, chunks[0]), chunks[1..], last);
      assert (chunks + [last])[1..] == chunks[1..] + [last];
    }
  }

  lemma {:induction false} ConcatAppend(chunks: seq<string>, last: string)
    ensures Concat(chunks + [last]) == Concat(chunks) + last
  {
    if chunks == [] {
      assert [] + [last] == [last] && [last][1..] == [];
      assert Concat([last]) == last + "" && last + "" == last && "" + last == last;
    } else {
      ConcatAppend(chunks[1..], last);
      assert (chunks + [last])[1..] == chunks[1..] + [last];
    }
  }

  /** The last broken line, with whole lines behind it. */
  ghost predicate BrokenLastAt(a: seq<Line>, b: seq<Line>, k: nat, before: seq<Line>) {
    && k < |b| && b[k].ending == CRLF && Broken(before, b[..k])
    && a == before + [Line(b[k].text, CR)] + ([Line("", LF)] + b[k + 1..])
  }

  lemma {:induction false} OneMoreBehind(a: seq<Line>, b: seq<Line>, k: nat, before: seq<Line>, line: Line)
    requires BrokenLastAt(a, b, k, before)
    ensures BrokenLastAt(a + [line], b + [line], k, before)
  {
    var c := b + [line];
    assert c[..k] == b[..k] && c[k + 1..] == b[k + 1..] + [line];
    assert [Line("", LF)] + (b[k + 1..] + [line]) == [Line("", LF)] + b[k + 1..] + [line];
  }

  lemma {:induction false} LastBroken(a: seq<Line>, b: seq<Line>) returns (k: nat, before: seq<Line>)
    requires Broken(a, b) && a != b
    ensures BrokenLastAt(a, b, k, before)
    decreases |b|
  {
    var n, m := |a| - 1, |b| - 1;
    if a[n] == b[m] && Broken(a[..n], b[..m]) {
      assert a == a[..n] + [a[n]] && b == b[..m] + [b[m]];
      k, before := LastBroken(a[..n], b[..m]);
      OneMoreBehind(a[..n], b[..m], k, before, b[m]);
    } else {
      k, before := m, a[..n - 1];
      assert b[k + 1..] == [] && a == before + [a[n - 1]] + [a[n]];
    }
  }

  /** Every way of breaking lines at their CRLF is that of some cut. */
  lemma {:induction false} BrokenByCut(text: string, a: seq<Line>) returns (chunks: seq<string>)
    requires Broken(a, Split(text, true).lines)
    ensures Concat(chunks) == text && PushAll(START, chunks) == SplitText(a, Split(text, true).rest)
    decreases |text|
  {
    var b := Split(text, true).lines;
    if a == b {
      chunks := UncutChunk(text);
    } else {
      var k, before := LastBroken(a, b);
      var p := CutAtCr(text, k);
      CutAtCrlf(text, k, p);
      BrokenAppend(before, b[..k], [Line(b[k].text, CR)]);
      assert p <= text && |p| < |text|;
      var earlier := BrokenByCut(p, before + [Line(b[k].text, CR)]);
      chunks := earlier + [text[|p|..]];
      CutBehind(earlier, p, before + [Line(b[k].text, CR)], text[|p|..]);
      assert p + text[|p|..] == text;
    }
  }

  lemma {:induction false} CutBehind(earlier: seq<string>, p: string, lines: seq<Line>, rest: string)
    requires Concat(earlier) == p && PushAll(START, earlier) == SplitText(lines, "")
    requires rest != "" && rest[0] == '\n'
    ensures Concat(earlier + [rest]) == p + rest
    ensures PushAll(START, earlier + [rest]) ==
              SplitText(lines + ([Line("", LF)] + Split(rest[1..], true).lines), Split(rest[1..], true).rest)
  {
    ConcatAppend(earlier, rest);
    PushAllAppend(START, earlier, rest);
    LfThenRest(lines, rest);
  }

  lemma {:induction false} UncutChunk(text: string) returns (chunks: seq<string>)
    ensures Concat(chunks) == text && PushAll(START, chunks) == Split(text, true)
  {
    chunks := [text];
    PushAllAppend(START, [], text);
    ConcatAppend([], text);
    assert [] + [text] == [text] && "" + text == text;
    assert [] + Split(text, true).lines == Split(text, true).lines;
  }

  lemma {:induction false} LfThenRest(lines: seq<Line>, rest: string)
    requires rest != "" && rest[0] == '\n'
    ensures SseReference.Push(Server, SplitText(lines, ""), rest) ==
              SplitText(lines + ([Line("", LF)] + Split(rest[1..], true).lines), Split(rest[1..], true).rest)
  {
    assert "" + rest == rest;
    SplitBreak(rest, true, LF);
  }

  /** The text is accepted with these frames when its lines are broken in this way. */
  ghost predicate AcceptedAs(limits: Limits, text: string, lines: seq<Line>, frames: seq<string>) {
    && Broken(lines, Split(text, true).lines)
    && SseReference.Finish(Server, limits, SplitText(lines, Split(text, true).rest)) == Frames(frames)
  }

  /** For every text, refused in one pass or not: some cut makes the server parser accept it with
      given frames exactly if breaking it at some of its CRLFs gives a text with these frames. */
  lemma {:induction false} ServerReadingsIff(limits: Limits, text: string, frames: seq<string>)
    ensures (exists chunks :: CutGives(limits, text, chunks, frames)) <==>
            exists lines :: AcceptedAs(limits, text, lines, frames)
  {
    if chunks :| CutGives(limits, text, chunks, frames) {
      ReadingBreaks(limits, text, chunks, frames);
    }
    if lines :| AcceptedAs(limits, text, lines, frames) {
      var chunks := BrokenByCut(text, lines);
      RunEnds(limits, START, chunks);
      assert CutGives(limits, text, chunks, frames);
    }
  }

  predicate CutGives(limits: Limits, text: string, chunks: seq<string>, frames: seq<string>) {
    Concat(chunks) == text && RunChunks(Server, limits, START, chunks) == Frames(frames)
  }

  lemma {:induction false} ReadingBreaks(limits: Limits, text: string, chunks: seq<string>, frames: seq<string>)
    requires CutGives(limits, text, chunks, frames)
    ensures AcceptedAs(limits, text, PushAll(START, chunks).lines, frames)
  {
    assert "" + text == text;
    AllFollows(START, "", chunks);
    RunEnds(limits, START, chunks);
  }

  /** Two data fields of one frame with a CRLF between them. */
  const TWO := [Line("data", CRLF), Line("data", LF), Line("", LF)]

  lemma {:induction false} TwoText()
    ensures Split(TextOf(TWO), true) == SplitText(TWO, "")
    ensures TWO == [Line("data", CRLF)] + [Line("data", LF)] + [Line("", LF)]
  {
    assert TWO[1..] == [Line("data", LF), Line("", LF)] && TWO[1..][1..] == [Line("", LF)] && TWO[1..][1..][1..] == [];
    SplitTextOf(TWO);
  }

  lemma {:induction false} TwoParses(limits: Limits)
    requires limits.maxLine >= 4 && limits.maxFrame >= 12
    ensures Parse(Server, limits, TextOf(TWO)) == Frames(["\n"])
  {
    var a, b := Line("data", CRLF), Line("data", LF);
    TwoText();
    BareDataLine(limits, CRLF);
    BareDataAgain(limits, Pending([""], 6), LF);
    ConsumeAllPush(Server, limits, [a], b);
    DispatchTwo(limits, [a] + [b], 11);
  }

  lemma {:induction false} DispatchTwo(limits: Limits, lines: seq<Line>, bytes: nat)
    requires bytes + 1 <= limits.maxFrame
    requires ConsumeAll(Server, limits, lines) == Continue(Pending([""] + [""], bytes), [])
    ensures ConsumeAll(Server, limits, lines + [Line("", LF)]) == Continue(NOTHING, ["\n"])
  {
    var values := [""] + [""];
    assert values[..1] == [""] && Join(values, "\n") == "\n";
    assert ByteLength("") == 0;
    ConsumeAllPush(Server, limits, lines, Line("", LF));
  }

  lemma {:induction false} BareDataAgain(limits: Limits, p: Pending, e: Ending)
    requires limits.maxLine >= 4 && p.frameBytes + 4 + Width(e) <= limits.maxFrame
    ensures Consume(Server, limits, p, Line("data", e)) ==
              Continue(Pending(p.dataLines + [""], p.frameBytes + 4 + Width(e)), [])
  {
    assert ByteLength("data") == 4;
  }

  lemma {:induction false} DataIsData(e: Ending)
    ensures DataLine(Line("data", e))
  {
    assert "data"[0] == 'd';
  }

  lemma {:induction false} TwoInside()
    ensures InsideFrame(TWO, 0)
  {
    DataIsData(CRLF);
    DataIsData(LF);
    assert TWO[..1] == [Line("data", CRLF)] && TWO[1..][0] == Line("data", LF);
  }

  /** A stream that is accepted in one pass and read differently when its CRLF is cut. */
  lemma {:induction false} FrameCut(limits: Limits) returns (chunks: seq<string>)
    requires limits.maxLine >= 4 && limits.maxFrame >= 12
    ensures Parse(Server, limits, TextOf(TWO)) == Frames(["\n"])
    ensures Concat(chunks) == TextOf(TWO) && RunChunks(Server, limits, START, chunks) != Frames(["\n"])
  {
    TwoParses(limits);
    TwoText();
    TwoInside();
    chunks := CutDiffers(limits, TextOf(TWO), 0);
  }
}
