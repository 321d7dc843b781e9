/** The server's incremental SSE parser. */
module SseServer {
  import opened Common
  import opened SseText
  import opened SseReference

  const MAX_FRAME_BYTES := 4 * 1024 * 1024
  const MAX_LINE_BYTES := 1024 * 1024
  const LIMITS := Limits(MAX_LINE_BYTES, MAX_FRAME_BYTES)

  class SseStreamParser {
    var textBuffer: string
    var dataLines: seq<string>
    var frameBytes: nat
    var closed: bool

    /** The lines found so far, and the payloads handed out for them. */
    ghost var seen: SplitText
    ghost var delivered: seq<string>

    ghost predicate Valid()
      reads this
    {
      && seen.rest == textBuffer
      && ConsumeAll(Server, LIMITS, seen.lines) == Continue(Pending(dataLines, frameBytes), delivered)
    }

    constructor ()
      ensures Valid() && !closed && seen == START && delivered == []
    {
      textBuffer, dataLines, frameBytes, closed := "", [], 0, false;
      seen, delivered := START, [];
    }

    method Push(text: string) returns (r: Outcome)
      requires Valid()
      modifies this
      ensures closed == old(closed)
      ensures old(closed) ==> r == Failed(Closed) && Valid() && seen == old(seen)
      ensures !old(closed) ==>
                var next := SseReference.Push(Server, old(seen), text);
                match Settle(Server, LIMITS, next)
                case Stop(e) => r == Failed(e)
                case Continue(_, frames) =>
                  Valid() && seen == next && r.Frames? && delivered == frames == old(delivered) + r.frames
    {
      if closed {
        return Failed(Closed);
      }
      textBuffer := textBuffer + text;
      r := DrainLines();
    }

    method Finish() returns (r: Outcome)
      requires Valid()
      modifies this
      ensures closed
      ensures old(closed) ==> r == Failed(Closed)
      ensures !old(closed) ==>
                match SseReference.Finish(Server, LIMITS, Append(old(seen), Split(old(textBuffer), true)))
                case Failed(e) => r == Failed(e)
                case Frames(frames) => r.Frames? && frames == old(delivered) + r.frames
    {
      if closed {
        return Failed(Closed);
      }
      closed := true;
      r := DrainLines();
      if r.Frames? && (|textBuffer| > 0 || |dataLines| > 0 || frameBytes > 0) {
        r := Failed(IncompleteFrame);
      }
    }

    /** Everything but the flag that `finish` sets. */
    ghost predicate Consumed()
      reads this
    {
      ConsumeAll(Server, LIMITS, seen.lines) == Continue(Pending(dataLines, frameBytes), delivered)
    }

    method DrainLines() returns (r: Outcome)
      requires Consumed()
      modifies this`textBuffer, this`dataLines, this`frameBytes, this`seen, this`delivered
      ensures var next := Append(old(seen), Split(old(textBuffer), true));
              match Settle(Server, LIMITS, next)
              case Stop(e) => r == Failed(e)
              case Continue(_, frames) =>
                Valid() && seen == next && r.Frames? && delivered == frames == old(delivered) + r.frames
    {
      ghost var whole := Append(seen, Split(textBuffer, true));
      ghost var start := delivered;
      var events := [];
      while true
        invariant Consumed() && delivered == start + events
        invariant Append(seen, Split(textBuffer, true)) == whole
        decreases |textBuffer|
      {
        var more, step := NextLine(whole, start, events);
        if step.Failed? {
          return step;
        }
        events := step.frames;
        if !more {
          break;
        }
      }
      r := CheckOpenLine(whole, events);
    }

    /** One complete line of the buffer, if there is one, behind the frames handed out so far. */
    method NextLine(ghost whole: SplitText, ghost start: seq<string>, events: seq<string>)
      returns (more: bool, r: Outcome)
      requires Consumed() && delivered == start + events && Append(seen, Split(textBuffer, true)) == whole
      modifies this`textBuffer, this`dataLines, this`frameBytes, this`seen, this`delivered
      ensures match r
              case Failed(e) => Settle(Server, LIMITS, whole) == Stop(e)
              case Frames(all) =>
                && Consumed() && delivered == start + all && Append(seen, Split(textBuffer, true)) == whole
                && if more then |textBuffer| < |old(textBuffer)|
                    else Split(textBuffer, true) == SplitText([], textBuffer)
    {
      var line, length, ending := TakeLine();
      more, r := line.Some?, Frames(events);
      if more {
        var step := AcceptLine(line.value, length, ending, Split(textBuffer, true), whole);
        r := if step.Failed? then step else Frames(events + step.frames);
      }
    }

    /** Cut the first complete line off the buffer. */
    method TakeLine() returns (line: Option<string>, length: nat, ghost ending: Ending)
      modifies this`textBuffer
      ensures var s := Split(old(textBuffer), true);
              match line
              case None => textBuffer == old(textBuffer) && s == SplitText([], textBuffer)
              case Some(text) =>
                && |textBuffer| < |old(textBuffer)| && length == Width(ending)
                && s == Append(SplitText([Line(text, ending)], ""), Split(textBuffer, true))
    {
      var index;
      index, length := FindLineEnd(textBuffer);
      SplitAt(textBuffer, index, true);
      ending := LF;
      if length == 0 {
        return None, length, ending;
      }
      ending := EndingAt(textBuffer, index);
      line := Some(textBuffer[..index]);
      textBuffer := textBuffer[index + length..];
    }

    /** With no complete line left, the open rest must be within the line limit. */
    method CheckOpenLine(ghost whole: SplitText, events: seq<string>) returns (r: Outcome)
      requires Consumed() && Split(textBuffer, true) == SplitText([], textBuffer)
      requires Append(seen, Split(textBuffer, true)) == whole
      modifies this`seen
      ensures match Settle(Server, LIMITS, whole)
              case Stop(e) => r == Failed(e)
              case Continue(_, all) => Valid() && seen == whole && r == Frames(events) && delivered == all
    {
      assert seen.lines + [] == seen.lines;
      seen := whole;
      if ByteLength(textBuffer) > MAX_LINE_BYTES {
        r := Failed(LineTooLarge);
      } else {
        r := Frames(events);
      }
    }

    /** One complete line, within the text `whole` that this drain is to consume. */
    method AcceptLine(line: string, length: nat, ghost ending: Ending, ghost tail: SplitText, ghost whole: SplitText)
      returns (r: Outcome)
      requires length == Width(ending)
      requires ConsumeAll(Server, LIMITS, seen.lines) == Continue(Pending(dataLines, frameBytes), delivered)
      requires whole == Append(seen, Append(SplitText([Line(line, ending)], ""), tail))
      modifies this`dataLines, this`frameBytes, this`seen, this`delivered
      ensures match r
              case Failed(e) => Settle(Server, LIMITS, whole) == Stop(e)
              case Frames(more) =>
                && ConsumeAll(Server, LIMITS, seen.lines) == Continue(Pending(dataLines, frameBytes), delivered)
                && delivered == old(delivered) + more
                && Append(seen, tail) == whole
    {
      ghost var before, next := seen.lines, Line(line, ending);
      LineThenRest(before, next, tail, whole);
      ConsumeAllPush(Server, LIMITS, before, next);
      r := ConsumeLine(line, length, ending);
      if r.Failed? {
        ConsumeAllStops(Server, LIMITS, before + [next], tail.lines);
      } else {
        seen := SplitText(before + [next], tail.rest);
        delivered := delivered + r.frames;
      }
    }

    method ConsumeLine(line: string, length: nat, ghost ending: Ending) returns (r: Outcome)
      requires length == Width(ending)
      modifies this`dataLines, this`frameBytes
      ensures match ServerLine(LIMITS, Pending(old(dataLines), old(frameBytes)), Line(line, ending))
              case Stop(e) => r == Failed(e)
              case Continue(p, out) => r == Frames(out) && p == Pending(dataLines, frameBytes)
    {
      var lineBytes := ByteLength(line);
      if lineBytes > MAX_LINE_BYTES {
        return Failed(LineTooLarge);
      }
      frameBytes := frameBytes + lineBytes + length;
      if frameBytes > MAX_FRAME_BYTES {
        return Failed(FrameTooLarge);
      }
      r := Frames([]);
      if |line| == 0 {
        if |dataLines| > 0 {
          r := Frames([Join(dataLines, "\n")]);
        }
        dataLines := [];
        frameBytes := 0;
        return;
      }
      if ":" <= line {
        return;
      }
      var separator := IndexOf(line, ':');
      var field := if separator == -1 then line else line[..separator];
      var value := if separator == -1 then "" else line[separator + 1..];
      if " " <= value {
        value := value[1..];
      }
      if field == "data" {
        dataLines := dataLines + [value];
      }
    }
  }

  /** The first line end and its length, or length 0 when there is none yet. */
  method FindLineEnd(value: string) returns (index: nat, length: nat)
    ensures index <= |value|
    ensures forall k | 0 <= k < index :: value[k] != '\n' && value[k] != '\r'
    ensures index == |value| <==> length == 0
    ensures index < |value| ==>
              (value[index] == '\n' || value[index] == '\r') && length == Width(EndingAt(value, index))
  {
    for i := 0 to |value|
      invariant forall k | 0 <= k < i :: value[k] != '\n' && value[k] != '\r'
    {
      if value[i] == '\n' {
        return i, 1;
      }
      if value[i] == '\r' {
        return i, if i + 1 < |value| && value[i + 1] == '\n' then 2 else 1;
      }
    }
    return |value|, 0;
  }

  /** A whole stream fed chunk by chunk. */
  method ParseStream(chunks: seq<string>) returns (r: Outcome)
    ensures r == RunChunks(Server, LIMITS, START, chunks)
    ensures KeepsCrlf("", chunks) ==> r == Parse(Server, LIMITS, Concat(chunks))
  {
    var parser := new SseStreamParser();
    var events := [];
    if KeepsCrlf("", chunks) {
      assert "" + Concat(chunks) == Concat(chunks);
      ChunkIndependence(Server, LIMITS, "", chunks);
    }
    for i := 0 to |chunks|
      invariant parser.Valid() && !parser.closed && fresh(parser)
      invariant events == parser.delivered
      invariant RunChunks(Server, LIMITS, parser.seen, chunks[i..]) == RunChunks(Server, LIMITS, START, chunks)
    {
      assert chunks[i..][1..] == chunks[i + 1..];
      r := parser.Push(chunks[i]);
      if r.Failed? {
        return;
      }
      events := events + r.frames;
    }
    r := parser.Finish();
    if r.Frames? {
      r := Frames(events + r.frames);
    }
  }
}
