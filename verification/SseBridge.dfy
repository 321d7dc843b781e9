/** The bridge's incremental SSE parser. */
module SseBridge {
  import opened Common
  import opened SseText
  import opened SseReference

  class SseStreamParser {
    const limits: Limits
    var buffer: string
    var dataLines: seq<string>
    var frameBytes: nat
    var finished: bool

    /** The text pushed so far, split into lines, and the frames handed out for it. */
    ghost var seen: SplitText
    ghost var delivered: seq<string>

    ghost predicate Valid()
      reads this
    {
      && seen.rest == buffer
      && ConsumeAll(Bridge, limits, seen.lines) == Continue(Pending(dataLines, frameBytes), delivered)
    }

    constructor (limits: Limits)
      ensures Valid() && !finished && seen == START && delivered == [] && this.limits == limits
    {
      this.limits := limits;
      buffer, dataLines, frameBytes, finished := "", [], 0, false;
      seen, delivered := START, [];
    }

    method Push(chunk: string) returns (r: Outcome)
      requires Valid()
      modifies this
      ensures finished == old(finished)
      ensures old(finished) ==> r == Failed(Closed) && Valid() && seen == old(seen)
      ensures !old(finished) ==>
                var next := SseReference.Push(Bridge, old(seen), chunk);
                match Settle(Bridge, limits, next)
                case Stop(e) => r == Failed(e)
                case Continue(_, frames) =>
                  Valid() && seen == next && r.Frames? && delivered == frames == old(delivered) + r.frames
    {
      if finished {
        return Failed(Closed);
      }
      buffer := buffer + chunk;
      r := Drain(false);
    }

    method Finish() returns (r: Outcome)
      requires Valid()
      modifies this
      ensures finished
      ensures old(finished) ==> r == Failed(Closed)
      ensures !old(finished) ==>
                match SseReference.Finish(Bridge, limits, Append(old(seen), Split(old(buffer), true)))
                case Failed(e) => r == Failed(e)
                case Frames(frames) => r.Frames? && frames == old(delivered) + r.frames
    {
      if finished {
        return Failed(Closed);
      }
      finished := true;
      r := Drain(true);
      if r.Frames? && (|buffer| > 0 || |dataLines| > 0) {
        r := Failed(IncompleteFrame);
      }
    }

    /** Everything but the flag that `finish` sets. */
    ghost predicate Consumed()
      reads this
    {
      ConsumeAll(Bridge, limits, seen.lines) == Continue(Pending(dataLines, frameBytes), delivered)
    }

    method Drain(final: bool) returns (r: Outcome)
      requires Consumed()
      modifies this`buffer, this`dataLines, this`frameBytes, this`seen, this`delivered
      ensures var next := Append(old(seen), Split(old(buffer), final));
              match Settle(Bridge, limits, next)
              case Stop(e) => r == Failed(e)
              case Continue(_, frames) =>
                Valid() && seen == next && r.Frames? && delivered == frames == old(delivered) + r.frames
    {
      ghost var whole := Append(seen, Split(buffer, final));
      ghost var start := delivered;
      var frames := [];
      while true
        invariant Consumed() && delivered == start + frames
        invariant Append(seen, Split(buffer, final)) == whole
        decreases |buffer|
      {
        var more, step := NextLine(final, whole, start, frames);
        if step.Failed? {
          return step;
        }
        frames := step.frames;
        if !more {
          break;
        }
      }
      r := AssertLineBudget(final, whole, frames);
    }

    /** With no complete line left, the open rest must be within the line limit. */
    method AssertLineBudget(final: bool, ghost whole: SplitText, frames: seq<string>) returns (r: Outcome)
      requires Consumed() && Split(buffer, final) == SplitText([], buffer)
      requires Append(seen, Split(buffer, final)) == whole
      modifies this`seen
      ensures match Settle(Bridge, limits, whole)
              case Stop(e) => r == Failed(e)
              case Continue(_, all) => Valid() && seen == whole && r == Frames(frames) && delivered == all
    {
      assert seen.lines + [] == seen.lines;
      seen := whole;
      if ByteLength(buffer) > limits.maxLine {
        r := Failed(LineTooLarge);
      } else {
        r := Frames(frames);
      }
    }

    /** One complete line of the buffer, if there is one, behind the frames handed out so far. */
    method NextLine(final: bool, ghost whole: SplitText, ghost start: seq<string>, frames: seq<string>)
      returns (more: bool, r: Outcome)
      requires Consumed() && delivered == start + frames && Append(seen, Split(buffer, final)) == whole
      modifies this`buffer, this`dataLines, this`frameBytes, this`seen, this`delivered
      ensures match r
              case Failed(e) => Settle(Bridge, limits, whole) == Stop(e)
              case Frames(all) =>
                && Consumed() && delivered == start + all && Append(seen, Split(buffer, final)) == whole
                && if more then |buffer| < |old(buffer)| else Split(buffer, final) == SplitText([], buffer)
    {
      var line, ending := TakeLine(final);
      more, r := line.Some?, Frames(frames);
      if more {
        var step := AcceptLine(line.value, ending, Split(buffer, final), whole);
        r := if step.Failed? then step else Frames(frames + step.frames);
      }
    }

    /** Cut the first complete line off the buffer. */
    method TakeLine(final: bool) returns (line: Option<string>, ghost ending: Ending)
      modifies this`buffer
      ensures var s := Split(old(buffer), final);
              match line
              case None => buffer == old(buffer) && s == SplitText([], buffer)
              case Some(text) =>
                |buffer| < |old(buffer)| && s == Append(SplitText([Line(text, ending)], ""), Split(buffer, final))
    {
      var newline := IndexOf(buffer, '\n');
      var carriage := IndexOf(buffer, '\r');
      var index, terminatorLength;
      ending := LF;
      if newline == -1 && carriage == -1 {
        SplitAt(buffer, |buffer|, final);
        return None, ending;
      }
      if newline == -1 || (carriage != -1 && carriage < newline) {
        index := carriage;
        if index + 1 < |buffer| && buffer[index + 1] == '\n' {
          terminatorLength := 2;
        } else if index + 1 == |buffer| && !final {
          SplitAt(buffer, index, final);
          return None, ending;
        } else {
          terminatorLength := 1;
        }
      } else {
        index := newline;
        terminatorLength := 1;
      }
      SplitAt(buffer, index, final);
      ending := EndingAt(buffer, index);
      line := Some(buffer[..index]);
      buffer := buffer[index + terminatorLength..];
    }

    /** One complete line, within the text `whole` that this drain is to consume. */
    method AcceptLine(line: string, ghost ending: Ending, ghost tail: SplitText, ghost whole: SplitText)
      returns (r: Outcome)
      requires ConsumeAll(Bridge, limits, seen.lines) == Continue(Pending(dataLines, frameBytes), delivered)
      requires whole == Append(seen, Append(SplitText([Line(line, ending)], ""), tail))
      modifies this`dataLines, this`frameBytes, this`seen, this`delivered
      ensures match r
              case Failed(e) => Settle(Bridge, limits, whole) == Stop(e)
              case Frames(more) =>
                && ConsumeAll(Bridge, limits, seen.lines) == Continue(Pending(dataLines, frameBytes), delivered)
                && delivered == old(delivered) + more
                && Append(seen, tail) == whole
    {
      ghost var before, next := seen.lines, Line(line, ending);
      LineThenRest(before, next, tail, whole);
      ConsumeAllPush(Bridge, limits, before, next);
      var frames;
      r, frames := ConsumeLine(line, ending);
      if r.Failed? {
        ConsumeAllStops(Bridge, limits, before + [next], tail.lines);
      } else {
        r := Frames(frames);
        seen := SplitText(before + [next], tail.rest);
        delivered := delivered + frames;
      }
    }

    /** One complete line; its budget is checked first. */
    method ConsumeLine(line: string, ghost ending: Ending) returns (r: Outcome, frames: seq<string>)
      modifies this`dataLines, this`frameBytes
      ensures match BridgeLine(limits, Pending(old(dataLines), old(frameBytes)), Line(line, ending))
              case Stop(e) => r == Failed(e)
              case Continue(p, out) => r.Frames? && frames == out && p == Pending(dataLines, frameBytes)
    {
      r, frames := Frames([]), [];
      if ByteLength(line) > limits.maxLine {
        return Failed(LineTooLarge), [];
      }
      if line == "" {
        if |dataLines| > 0 {
          var data := Join(dataLines, "\n");
          if frameBytes > limits.maxFrame {
            return Failed(FrameTooLarge), [];
          }
          frames := [data];
        }
        dataLines := [];
        frameBytes := 0;
        return;
      }
      if ":" <= line || !("data:" <= line) {
        return;
      }
      var value := line[5..];
      if " " <= value {
        value := value[1..];
      }
      dataLines := dataLines + [value];
      frameBytes := frameBytes + ByteLength(value);
      if frameBytes > limits.maxFrame {
        r := Failed(FrameTooLarge);
      }
    }
  }

  /** A whole stream, cut into chunks in any way, as the stream reader feeds it. */
  method ParseStream(limits: Limits, chunks: seq<string>) returns (r: Outcome)
    ensures r == RunChunks(Bridge, limits, START, chunks)
    ensures ChunkSafe(limits, Concat(chunks)) ==> r == Parse(Bridge, limits, Concat(chunks))
  {
    var parser := new SseStreamParser(limits);
    var frames := [];
    if ChunkSafe(limits, Concat(chunks)) {
      assert "" + Concat(chunks) == Concat(chunks);
      ChunkIndependence(Bridge, limits, "", chunks);
    }
    for i := 0 to |chunks|
      invariant parser.Valid() && !parser.finished && parser.limits == limits && fresh(parser)
      invariant frames == parser.delivered
      invariant RunChunks(Bridge, limits, parser.seen, chunks[i..]) == RunChunks(Bridge, limits, START, chunks)
    {
      assert chunks[i..][1..] == chunks[i + 1..];
      r := parser.Push(chunks[i]);
      if r.Failed? {
        return;
      }
      frames := frames + r.frames;
    }
    r := parser.Finish();
    if r.Frames? {
      r := Frames(frames + r.frames);
    }
  }
}
