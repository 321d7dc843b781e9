/** Both parsers against section 9.2.6 of the WHATWG HTML standard, and against each other. */
module SseStandard {
  import opened SseText
  import opened SseReference

  /** A data field without a colon: the standard and the server read it as empty data,
      the bridge ignores it. */
  predicate BareData(line: Line) {
    line.text == "data"
  }

  function BareCount(lines: seq<Line>): nat {
    if lines == [] then 0
    else BareCount(lines[..|lines| - 1]) + (if BareData(lines[|lines| - 1]) then 1 else 0)
  }

  lemma {:induction false} FieldOfDataLine(line: string)
    requires "data:" <= line
    ensures FieldName(line) == "data" && FieldValue(line) == StripSpace(line[5..])
  {
    assert line[..5] == "data:";
    assert line[0] == 'd' && line[1] == 'a' && line[2] == 't' && line[3] == 'a' && line[4] == ':';
    assert IndexOf(line, ':') == 4;
    assert line[..4] == "data";
  }

  lemma {:induction false} OnlyDataLinesHaveDataField(line: string)
    requires line != "" && !(":" <= line) && FieldName(line) == "data"
    ensures "data:" <= line || line == "data"
  {
    var colon := IndexOf(line, ':');
    if colon >= 0 {
      assert |line[..colon]| == 4 && line[..colon] == "data" && line[..5] == line[..4] + [line[4]];
    }
  }

  lemma {:induction false} BufferEmptyIff(dataLines: seq<string>)
    ensures (BufferOf(dataLines) == "") == (dataLines == [])
    ensures dataLines != [] ==> BufferOf(dataLines)[..|BufferOf(dataLines)| - 1] == Join(dataLines, "\n")
  {
  }

  /** Line by line, the server keeps exactly the standard's data buffer and payloads. */
  lemma {:induction false} ServerFollowsStandard(limits: Limits, lines: seq<Line>)
    requires ConsumeAll(Server, limits, lines).Continue?
    ensures var c := ConsumeAll(Server, limits, lines);
            Standard(lines) == Buffer(BufferOf(c.pending.dataLines), c.frames)
  {
    if lines != [] {
      var before, line := lines[..|lines| - 1], lines[|lines| - 1];
      ServerFollowsStandard(limits, before);
      var p := ConsumeAll(Server, limits, before).pending;
      BufferEmptyIff(p.dataLines);
      BufferOfPush(p.dataLines, FieldValue(line.text));
      assert Consume(Server, limits, p, line).Continue?;
    }
  }

  /** The bridge does too, as long as no line is a bare `data`. */
  lemma {:induction false} BridgeFollowsStandard(limits: Limits, lines: seq<Line>)
    requires ConsumeAll(Bridge, limits, lines).Continue?
    requires BareCount(lines) == 0
    ensures var c := ConsumeAll(Bridge, limits, lines);
            Standard(lines) == Buffer(BufferOf(c.pending.dataLines), c.frames)
  {
    if lines != [] {
      var before, line := lines[..|lines| - 1], lines[|lines| - 1];
      BridgeFollowsStandard(limits, before);
      var p := ConsumeAll(Bridge, limits, before).pending;
      BufferEmptyIff(p.dataLines);
      if "data:" <= line.text {
        FieldOfDataLine(line.text);
        BufferOfPush(p.dataLines, FieldValue(line.text));
      } else if line.text != "" && !(":" <= line.text) && FieldName(line.text) == "data" {
        OnlyDataLinesHaveDataField(line.text);
      }
      assert Consume(Bridge, limits, p, line).Continue?;
    }
  }

  /** An accepted stream gives exactly the payloads of the standard. */
  lemma {:induction false} ServerDeliversStandard(limits: Limits, text: string)
    requires Parse(Server, limits, text).Frames?
    ensures Parse(Server, limits, text) == Frames(StandardPayloads(text))
  {
    ServerFollowsStandard(limits, Split(text, true).lines);
  }

  // ---- Exactly when the two agree: weigh each payload by its length plus one ----

  function Weight(values: seq<string>): nat {
    if values == [] then 0 else Weight(values[..|values| - 1]) + |values[|values| - 1]| + 1
  }

  lemma {:induction false} WeightAppend(a: seq<string>, b: seq<string>)
    ensures Weight(a + b) == Weight(a) + Weight(b)
  {
    if b == [] {
      assert a + b == a;
    } else {
      WeightAppend(a, b[..|b| - 1]);
      assert (a + b)[..|a + b| - 1] == a + b[..|b| - 1];
    }
  }

  lemma {:induction false} WeightOfJoin(values: seq<string>)
    requires values != []
    ensures Weight([Join(values, "\n")]) == Weight(values)
  {
    var n := |values| - 1;
    assert Weight([Join(values, "\n")]) == |Join(values, "\n")| + 1 by {
      assert [Join(values, "\n")][..0] == [];
    }
    if n > 0 {
      WeightOfJoin(values[..n]);
      assert [Join(values[..n], "\n")][..0] == [];
    } else {
      assert values[..0] == [];
    }
  }

  lemma {:induction false} DispatchWeight(frames: seq<string>, p: Pending)
    ensures Weight(frames + Dispatch(p)) == Weight(frames) + Weight(p.dataLines)
  {
    WeightAppend(frames, Dispatch(p));
    if p.dataLines != [] {
      WeightOfJoin(p.dataLines);
    }
  }

  /** Payloads delivered and data still pending. */
  function Total(frames: seq<string>, p: Pending): nat {
    Weight(frames) + Weight(p.dataLines)
  }

  /** What a data field adds; a bare `data` line is left to the caller. */
  function DataWeight(line: Line): nat {
    if "data:" <= line.text then |FieldValue(line.text)| + 1 else 0
  }

  lemma {:induction false} PushWeight(frames: seq<string>, dataLines: seq<string>, value: string)
    ensures Weight(frames + []) + Weight(dataLines + [value]) == Weight(frames) + Weight(dataLines) + |value| + 1
  {
    WeightAppend(dataLines, [value]);
    assert frames + [] == frames && [value][..0] == [];
  }

  lemma {:induction false} ServerWeighs(limits: Limits, frames: seq<string>, p: Pending, line: Line)
    requires Consume(Server, limits, p, line).Continue?
    ensures var c := Consume(Server, limits, p, line);
            Total(frames + c.frames, c.pending) ==
                Total(frames, p) + DataWeight(line) + (if BareData(line) then 1 else 0)
  {
    DispatchWeight(frames, p);
    PushWeight(frames, p.dataLines, FieldValue(line.text));
    if "data:" <= line.text {
      FieldOfDataLine(line.text);
    } else if !BareData(line) && line.text != "" && !(":" <= line.text) && FieldName(line.text) == "data" {
      OnlyDataLinesHaveDataField(line.text);
    }
  }

  lemma {:induction false} BridgeWeighs(limits: Limits, frames: seq<string>, p: Pending, line: Line)
    requires Consume(Bridge, limits, p, line).Continue?
    ensures var c := Consume(Bridge, limits, p, line);
            Total(frames + c.frames, c.pending) == Total(frames, p) + DataWeight(line)
  {
    DispatchWeight(frames, p);
    PushWeight(frames, p.dataLines, FieldValue(line.text));
    if "data:" <= line.text {
      FieldOfDataLine(line.text);
    }
  }

  /** The server's payloads outweigh the bridge's by one for each bare `data` line. */
  lemma {:induction false} BareLinesWeigh(sl: Limits, bl: Limits, lines: seq<Line>)
    requires ConsumeAll(Server, sl, lines).Continue? && ConsumeAll(Bridge, bl, lines).Continue?
    ensures var s, b := ConsumeAll(Server, sl, lines), ConsumeAll(Bridge, bl, lines);
            Total(s.frames, s.pending) == Total(b.frames, b.pending) + BareCount(lines)
  {
    if lines != [] {
      var before, line := lines[..|lines| - 1], lines[|lines| - 1];
      BareLinesWeigh(sl, bl, before);
      var s, b := ConsumeAll(Server, sl, before), ConsumeAll(Bridge, bl, before);
      ServerWeighs(sl, s.frames, s.pending, line);
      BridgeWeighs(bl, b.frames, b.pending, line);
    }
  }

  /** On a stream that both parsers accept they deliver the same payloads exactly when no
      line is a bare `data`; then these are the payloads of the standard. */
  lemma {:induction false} ParsersAgreeIff(sl: Limits, bl: Limits, text: string)
    requires Parse(Server, sl, text).Frames? && Parse(Bridge, bl, text).Frames?
    ensures Parse(Server, sl, text) == Parse(Bridge, bl, text) <==>
            BareCount(Split(text, true).lines) == 0
    ensures BareCount(Split(text, true).lines) == 0 ==>
              Parse(Bridge, bl, text) == Frames(StandardPayloads(text))
  {
    var lines := Split(text, true).lines;
    ServerDeliversStandard(sl, text);
    BareLinesWeigh(sl, bl, lines);
    if BareCount(lines) == 0 {
      BridgeFollowsStandard(bl, lines);
    }
  }

  /** A stream that both accept and read differently: a bare `data`, then an empty line. */
  const BARE := [Line("data", LF), Line("", LF)]

  lemma {:induction false} BareText()
    ensures Split(TextOf(BARE), true) == SplitText(BARE, "") && BARE == [Line("data", LF)] + [Line("", LF)]
  {
    assert BARE[1..] == [Line("", LF)] && BARE[1..][1..] == [];
    SplitTextOf(BARE);
  }

  lemma {:induction false} BareServer(limits: Limits)
    requires limits.maxLine >= 4 && limits.maxFrame >= 6
    ensures Parse(Server, limits, TextOf(BARE)) == Frames([""])
  {
    var data, empty := Line("data", LF), Line("", LF);
    BareText();
    BareDataLine(limits, LF);
    ConsumeAllPush(Server, limits, [data], empty);
    assert Consume(Server, limits, Pending([""], 5), empty) == Continue(NOTHING, [""]);
  }

  lemma {:induction false} BareBridge(limits: Limits)
    requires limits.maxLine >= 4
    ensures Parse(Bridge, limits, TextOf(BARE)) == Frames([])
  {
    var data, empty := Line("data", LF), Line("", LF);
    BareText();
    assert ByteLength("data") == 4;
    assert Consume(Bridge, limits, NOTHING, data) == Continue(NOTHING, []);
    ConsumeAllPush(Bridge, limits, [], data);
    ConsumeAllPush(Bridge, limits, [data], empty);
    assert [] + [data] == [data];
  }

  lemma {:induction false} BareDataDiffers(sl: Limits, bl: Limits)
    requires sl.maxLine >= 4 && sl.maxFrame >= 6 && bl.maxLine >= 4
    ensures Parse(Server, sl, TextOf(BARE)) == Frames([""]) && Parse(Bridge, bl, TextOf(BARE)) == Frames([])
  {
    BareServer(sl);
    BareBridge(bl);
  }
}
