/** How a streaming run ends: recovery of an empty answer, the nudge, and the last events. */
module Closing {
  import opened Common
  import Chat
  import Nudge
  import opened Reasoning
  import opened Forwarder
  import opened ToolCalls
  import opened Stream

  /** A reply to the recovery request for an empty answer. */
  datatype RecoveredReply = RecoveredReply(text: string, reasoning: string, calls: seq<Fragment>)

  /** What closing obtains from outside: a recovery, which texts need an audit, the outcome
      of that audit, and the tools that the client must not see. */
  datatype Environment = Environment(
    recovered: Option<RecoveredReply>,
    mustAudit: string -> bool,
    nudge: Option<Nudge.Result>,
    isWeb: string -> bool)

  // ---- What the client has seen when the run is over ----

  datatype Ending = Ending(deltas: seq<string>, finished: bool, text: string, done: bool, tools: seq<Event>,
      terminal: Event)

  function Rendered(e: Ending): seq<Event> {
    [Created] + ItemEvents(0, e.deltas, e.finished) + MessageEvents(MessageIndex(e.deltas != []), e.text, e.done)
    + e.tools + [e.terminal]
  }

  function ToolEvent(c: ToolCall): Event {
    ToolItem(c.id, c.name, if c.args == "" then "{}" else c.args)
  }

  function ToolEvents(calls: seq<ToolCall>): (r: seq<Event>)
    ensures |r| == |calls|
  {
    seq(|calls|, k requires 0 <= k < |calls| => ToolEvent(calls[k]))
  }

  // ---- The answer behind it ----

  datatype Answer = Answer(text: string, calls: seq<ToolCall>, reasoning: State)

  predicate Empty(a: Answer) {
    a.text == "" && a.calls == []
  }

  function Received(syn: Synthetic, freshId: nat -> string, d: Digest): Answer
    requires d.Good?
  {
    Answer(d.text, Assembled(d.fragments, freshId), AddAll(syn, IDLE, d.reasonings))
  }

  /** Map semantics: a present key keeps its place. */
  function SetCall(calls: seq<ToolCall>, c: ToolCall): (r: seq<ToolCall>)
    ensures r != []
  {
    if calls == [] then [c]
    else if calls[0].key == c.key then [c] + calls[1..]
    else [calls[0]] + SetCall(calls[1..], c)
  }

  function Unindexed(fs: seq<Fragment>): nat {
    if fs == [] then 0 else Unindexed(fs[..|fs| - 1]) + (if fs[|fs| - 1].index.None? then 1 else 0)
  }

  /** The calls of a recovered reply; of two with one index the later counts. */
  function RecoveredCalls(fs: seq<Fragment>, freshId: nat -> string): (calls: seq<ToolCall>)
    ensures calls == [] <==> fs == []
  {
    if fs == [] then []
    else
      var init, f := fs[..|fs| - 1], fs[|fs| - 1];
      SetCall(RecoveredCalls(init, freshId), RecoveredCall(f, Unindexed(init), |init|, freshId))
  }

  function RecoveredCall(f: Fragment, n: nat, at: nat, freshId: nat -> string): ToolCall {
    ToolCall(if f.index.Some? then AtIndex(f.index.value) else Recovered(n),
             if f.id != "" then f.id else freshId(at), f.name, f.args)
  }

  /** The calls that a nudge brought. */
  function NudgedCalls(calls: seq<Chat.Call>, freshId: nat -> string): (r: seq<ToolCall>)
    ensures |r| == |calls|
  {
    seq(|calls|, k requires 0 <= k < |calls| =>
      ToolCall(AtIndex(k), if calls[k].id != "" then calls[k].id else freshId(k), calls[k].name, calls[k].args))
  }

  /** An empty answer is replaced by the recovered one. */
  function AfterRecovery(syn: Synthetic, freshId: nat -> string, env: Environment, a: Answer): Answer {
    if !Empty(a) || env.recovered.None? then a
    else
      var r := env.recovered.value;
      Answer(r.text, RecoveredCalls(r.calls, freshId),
          Add(syn, a.reasoning, Visible(syn.fallback, syn.fold, r.reasoning)))
  }

  predicate NeedsAudit(env: Environment, a: Answer) {
    a.calls == [] && a.text != "" && env.mustAudit(a.text)
  }

  function AfterNudge(syn: Synthetic, freshId: nat -> string, env: Environment, a: Answer): Answer {
    if !NeedsAudit(env, a) || env.nudge.None? || env.nudge.value.toolCalls == [] then a
    else
      Answer(a.text, NudgedCalls(env.nudge.value.toolCalls, freshId), Add(syn, a.reasoning, env.nudge.value.reasoning))
  }

  function WebCall(calls: seq<ToolCall>, isWeb: string -> bool): bool {
    exists c | c in calls :: isWeb(c.name)
  }

  /** The end of a run whose stream was read to its end marker. */
  function Conclude(syn: Synthetic, freshId: nat -> string, env: Environment, a: Answer): Ending {
    if Empty(a) then
      Ending(Finish(syn, a.reasoning).deltas, true, "", false, [], ResponseFailed(EmptyUpstream))
    else if NeedsAudit(env, a) && Nudge.NudgeFailure(env.nudge).Some? then
      Ending(a.reasoning.deltas, a.reasoning.finished, a.text, false, [],
          ResponseFailed(Nudge.NudgeFailure(env.nudge).value))
    else
      var b := AfterNudge(syn, freshId, env, a);
      var deltas := Finish(syn, b.reasoning).deltas;
      if WebCall(b.calls, env.isWeb) then Ending(deltas, true, b.text, true, [], ResponseFailed(WebLoopError))
      else Ending(deltas, true, b.text, true, ToolEvents(b.calls), ResponseCompleted(b.calls == []))
  }

  // ---- The closing code ----

  method RenderTools(calls: seq<ToolCall>, isWeb: string -> bool) returns (items: Option<seq<Event>>)
    ensures items == if WebCall(calls, isWeb) then None else Some(ToolEvents(calls))
  {
    var rendered := [];
    for k := 0 to |calls|
      invariant rendered == ToolEvents(calls[..k])
      invariant forall c | c in calls[..k] :: !isWeb(c.name)
    {
      assert calls[..k + 1] == calls[..k] + [calls[k]];
      if isWeb(calls[k].name) {
        return None;
      }
      rendered := rendered + [ToolEvent(calls[k])];
    }
    assert calls[..|calls|] == calls;
    items := Some(rendered);
  }

  method CollectRecovered(fs: seq<Fragment>, freshId: nat -> string) returns (calls: seq<ToolCall>)
    ensures calls == RecoveredCalls(fs, freshId)
  {
    calls := [];
    var next: nat := 0;
    for k := 0 to |fs|
      invariant calls == RecoveredCalls(fs[..k], freshId) && next == Unindexed(fs[..k])
    {
      assert fs[..k + 1][..k] == fs[..k];
      calls := SetCall(calls, RecoveredCall(fs[k], next, k, freshId));
      if fs[k].index.None? {
        next := next + 1;
      }
    }
    assert fs[..|fs|] == fs;
  }

  ghost function AnswerOf(acc: Accumulator): Answer
    reads acc, acc.forwarder
  {
    Answer(acc.text, acc.toolCalls, acc.forwarder.Abs())
  }

  ghost predicate Waiting(acc: Accumulator, client: Client)
    reads acc, acc.forwarder, client
  {
    acc.Buffered() && client.events == [Created] + acc.forwarder.item
  }

  /** An empty answer is asked for once more. */
  method RecoverEmpty(acc: Accumulator, client: Client, env: Environment)
    requires Waiting(acc, client)
    modifies acc, acc.forwarder, client
    ensures Waiting(acc, client)
    ensures AnswerOf(acc) == AfterRecovery(acc.forwarder.syn, acc.freshId, env, old(AnswerOf(acc)))
  {
    if acc.text == "" && |acc.toolCalls| == 0 && env.recovered.Some? {
      var r := env.recovered.value;
      acc.text := r.text;
      acc.bufferedMessageText := r.text;
      acc.AddReasoning(client, Visible(acc.forwarder.syn.fallback, acc.forwarder.syn.fold, r.reasoning));
      acc.toolCalls := CollectRecovered(r.calls, acc.freshId);
    }
  }

  /** Calls and reasoning of the nudge join the answer while no message is open. */
  method AdoptNudge(acc: Accumulator, client: Client, env: Environment)
    requires Waiting(acc, client)
    modifies acc, acc.forwarder, client
    ensures Waiting(acc, client)
    ensures AnswerOf(acc) == AfterNudge(acc.forwarder.syn, acc.freshId, env, old(AnswerOf(acc)))
  {
    if NeedsAudit(env, Answer(acc.text, acc.toolCalls, IDLE)) && env.nudge.Some? && |env.nudge.value.toolCalls| > 0 {
      acc.toolCalls := NudgedCalls(env.nudge.value.toolCalls, acc.freshId);
      acc.AddReasoning(client, env.nudge.value.reasoning);
    }
  }

  method FinishReasoning(acc: Accumulator, client: Client)
    requires Waiting(acc, client)
    modifies acc.forwarder, client
    ensures Waiting(acc, client)
    ensures acc.forwarder.Abs() == Finish(acc.forwarder.syn, old(acc.forwarder.Abs()))
  {
    ghost var written, item := client.events, acc.forwarder.item;
    var _ := acc.forwarder.FinishItem(client, acc.ReasoningOutputIndex());
    WroteBehind([Created], written, client.events, item, acc.forwarder.item);
  }

  /** The message item, in full or cut off, behind the reasoning item. */
  method WriteMessage(acc: Accumulator, client: Client, done: bool)
    requires Waiting(acc, client)
    modifies acc, client
    ensures client.events == [Created] + ItemEvents(0, acc.forwarder.deltas, acc.forwarder.finished)
                             + MessageEvents(MessageIndex(acc.forwarder.deltas != []), old(acc.text), done)
    ensures acc.toolCalls == old(acc.toolCalls)
  {
    acc.FlushBufferedMessage(client);
    if done && acc.text != "" {
      client.Write(MessageDone(acc.messageOutputIndex.value, acc.text));
    }
  }

  method WriteTools(acc: Accumulator, client: Client, env: Environment)
    modifies client
    ensures client.events == old(client.events)
              + (if WebCall(acc.toolCalls, env.isWeb) then [ResponseFailed(WebLoopError)]
                 else ToolEvents(acc.toolCalls) + [ResponseCompleted(acc.toolCalls == [])])
  {
    var rendered := RenderTools(acc.toolCalls, env.isWeb);
    if rendered.None? {
      client.Write(ResponseFailed(WebLoopError));
      return;
    }
    for k := 0 to |rendered.value|
      invariant client.events == old(client.events) + rendered.value[..k]
    {
      client.Write(rendered.value[k]);
    }
    client.Write(ResponseCompleted(|acc.toolCalls| == 0));
  }

  method FailEmpty(acc: Accumulator, client: Client, env: Environment)
    requires Waiting(acc, client) && Empty(AnswerOf(acc))
    modifies acc.forwarder, client
    ensures client.events == Rendered(Conclude(acc.forwarder.syn, acc.freshId, env, old(AnswerOf(acc))))
  {
    FinishReasoning(acc, client);
    client.Write(ResponseFailed(EmptyUpstream));
  }

  method FailNudge(acc: Accumulator, client: Client, env: Environment, failure: FailureKind)
    requires Waiting(acc, client) && NeedsAudit(env, AnswerOf(acc)) && Nudge.NudgeFailure(env.nudge) == Some(failure)
    modifies acc, client
    ensures client.events == Rendered(Conclude(acc.forwarder.syn, acc.freshId, env, old(AnswerOf(acc))))
  {
    WriteMessage(acc, client, false);
    client.Write(ResponseFailed(failure));
  }

  method FinishAnswer(acc: Accumulator, client: Client, env: Environment)
    requires Waiting(acc, client) && !Empty(AnswerOf(acc))
    requires NeedsAudit(env, AnswerOf(acc)) ==> Nudge.NudgeFailure(env.nudge).None?
    modifies acc, acc.forwarder, client
    ensures client.events == Rendered(Conclude(acc.forwarder.syn, acc.freshId, env, old(AnswerOf(acc))))
  {
    AdoptNudge(acc, client, env);
    ghost var b := AnswerOf(acc);
    FinishReasoning(acc, client);
    WriteMessage(acc, client, true);
    WriteTools(acc, client, env);
    FinishedShows(acc.forwarder.syn, acc.freshId, env, old(AnswerOf(acc)), b);
  }

  /** What is written of an answer that is neither empty nor failed its audit. */
  lemma {:induction false} FinishedShows(syn: Synthetic, freshId: nat -> string, env: Environment, a: Answer, b: Answer)
    requires !Empty(a) && (NeedsAudit(env, a) ==> Nudge.NudgeFailure(env.nudge).None?)
    requires b == AfterNudge(syn, freshId, env, a)
    ensures var deltas := Finish(syn, b.reasoning).deltas;
            Rendered(Conclude(syn, freshId, env, a)) ==
              [Created] + ItemEvents(0, deltas, true) + MessageEvents(MessageIndex(deltas != []), b.text, true)
              + (if WebCall(b.calls, env.isWeb) then [ResponseFailed(WebLoopError)]
                 else ToolEvents(b.calls) + [ResponseCompleted(b.calls == [])])
  {
  }

  /** The answer as it stands behind the recovery. */
  method CloseAnswer(acc: Accumulator, client: Client, env: Environment)
    requires Waiting(acc, client)
    modifies acc, acc.forwarder, client
    ensures client.events == Rendered(Conclude(acc.forwarder.syn, acc.freshId, env, old(AnswerOf(acc))))
  {
    if acc.text == "" && |acc.toolCalls| == 0 {
      FailEmpty(acc, client, env);
      return;
    }
    if NeedsAudit(env, Answer(acc.text, acc.toolCalls, IDLE)) {
      var failure := Nudge.NudgeFailure(env.nudge);
      if failure.Some? {
        FailNudge(acc, client, env, failure.value);
        return;
      }
    }
    FinishAnswer(acc, client, env);
  }

  /** How a run that received frames with digest d is concluded. */
  function Concluded(syn: Synthetic, freshId: nat -> string, env: Environment, d: Digest): Ending
    requires d.Good?
  {
    Conclude(syn, freshId, env, AfterRecovery(syn, freshId, env, Received(syn, freshId, d)))
  }

  method Close(acc: Accumulator, client: Client, env: Environment, ghost d: Digest)
    requires acc.Holds(d) && Waiting(acc, client)
    modifies acc, acc.forwarder, client
    ensures client.events == Rendered(Concluded(acc.forwarder.syn, acc.freshId, env, d))
  {
    RecoverEmpty(acc, client, env);
    CloseAnswer(acc, client, env);
  }

  // ---- What every run shows ----

  /** The place of an event in a run. */
  function Rank(e: Event): nat {
    match e
    case Created => 0
    case ReasoningAdded(_) => 1
    case ReasoningPartAdded(_) => 2
    case ReasoningDelta(_, _) => 3
    case ReasoningTextDone(_, _) => 4
    case ReasoningPartDone(_, _) => 5
    case ReasoningDone(_, _) => 6
    case MessageAdded(_) => 7
    case MessageDelta(_, _) => 8
    case MessageDone(_, _) => 9
    case ToolItem(_, _, _) => 10
    case ResponseFailed(_) => 11
    case ResponseCompleted(_) => 11
  }

  predicate Repeats(e: Event) {
    e.ReasoningDelta? || e.ToolItem?
  }

  predicate Follows(x: Event, y: Event) {
    Rank(x) < Rank(y) || (Rank(x) == Rank(y) && Repeats(x))
  }

  /** Events stand in the order of their ranks; only reasoning deltas and tools repeat. */
  predicate Ordered(events: seq<Event>) {
    forall i, j | 0 <= i < j < |events| :: Follows(events[i], events[j])
  }

  predicate IsMessage(e: Event) {
    e.MessageAdded? || e.MessageDelta? || e.MessageDone?
  }

  /** Reasoning has index 0 and a message index m, which is 1 behind reasoning; a closed
      message repeats the text. */
  predicate Fits(e: Event, m: nat, text: string) {
    && (IsReasoning(e) ==> e.index == 0 && m == 1)
    && (IsMessage(e) ==> e.index == m)
    && (e.MessageDone? ==> e.text == text)
  }

  predicate AllFit(events: seq<Event>, m: nat, text: string) {
    forall k | 0 <= k < |events| :: Fits(events[k], m, text)
  }

  predicate IsTerminal(e: Event) {
    e.ResponseFailed? || e.ResponseCompleted?
  }

  /** The concatenated message deltas. */
  function MessageText(events: seq<Event>): string {
    if events == [] then ""
    else
      var last := events[|events| - 1];
      MessageText(events[..|events| - 1]) + (if last.MessageDelta? then last.delta else "")
  }

  predicate AllTools(events: seq<Event>) {
    forall k | 0 <= k < |events| :: events[k].ToolItem?
  }

  predicate WellFormed(e: Ending) {
    IsTerminal(e.terminal) && AllTools(e.tools)
  }

  lemma {:induction false} OrderedAppend(a: seq<Event>, b: seq<Event>)
    requires Ordered(a) && Ordered(b)
    requires a != [] && b != [] ==> Follows(a[|a| - 1], b[0])
    ensures Ordered(a + b)
  {
    var all, n := a + b, |a|;
    forall i, j | 0 <= i < j < |all|
      ensures Follows(all[i], all[j])
    {
      if i < n <= j {
        assert i < n - 1 ==> Follows(a[i], a[n - 1]);
        assert j > n ==> Follows(b[0], b[j - n]);
      }
    }
  }

  lemma {:induction false} AllFitAppend(a: seq<Event>, b: seq<Event>, m: nat, text: string)
    requires AllFit(a, m, text) && AllFit(b, m, text)
    ensures AllFit(a + b, m, text)
  {
  }

  lemma {:induction false} MessageTextPush(a: seq<Event>, e: Event)
    ensures MessageText(a + [e]) == MessageText(a) + (if e.MessageDelta? then e.delta else "")
  {
    assert (a + [e])[..|a|] == a;
  }

  lemma {:induction false} MessageTextAppend(a: seq<Event>, b: seq<Event>)
    ensures MessageText(a + b) == MessageText(a) + MessageText(b)
  {
    if b == [] {
      assert a + b == a;
    } else {
      var init, last := b[..|b| - 1], b[|b| - 1];
      MessageTextAppend(a, init);
      MessageTextPush(a + init, last);
      assert a + b == a + init + [last];
    }
  }

  /** A part of a run: its order, indices and message text. */
  predicate Shows(events: seq<Event>, m: nat, text: string, part: string) {
    Ordered(events) && AllFit(events, m, text) && MessageText(events) == part
  }

  lemma {:induction false} ShowsAppend(a: seq<Event>, b: seq<Event>, m: nat, text: string, x: string, y: string)
    requires Shows(a, m, text, x) && Shows(b, m, text, y)
    requires a != [] && b != [] ==> Follows(a[|a| - 1], b[0])
    ensures Shows(a + b, m, text, x + y)
  {
    OrderedAppend(a, b);
    AllFitAppend(a, b, m, text);
    MessageTextAppend(a, b);
  }

  lemma {:induction false} ShowsOne(e: Event, m: nat, text: string)
    requires Fits(e, m, text)
    ensures Shows([e], m, text, if e.MessageDelta? then e.delta else "")
  {
    assert [e][..0] == [];
  }

  lemma {:induction false} DeltasShow(deltas: seq<string>, text: string)
    ensures Shows(DeltaEvents(0, deltas), 1, text, "")
    ensures |DeltaEvents(0, deltas)| == |deltas|
    ensures deltas != [] ==>
              DeltaEvents(0, deltas)[0].ReasoningDelta? && DeltaEvents(0, deltas)[|deltas| - 1].ReasoningDelta?
  {
    if deltas != [] {
      var init, e := deltas[..|deltas| - 1], ReasoningDelta(0, deltas[|deltas| - 1]);
      DeltasShow(init, text);
      ShowsMore(DeltaEvents(0, init), e, text);
    }
  }

  lemma {:induction false} ShowsMore(a: seq<Event>, e: Event, text: string)
    requires Shows(a, 1, text, "") && e.ReasoningDelta? && e.index == 0
    requires a != [] ==> a[|a| - 1].ReasoningDelta?
    ensures Shows(a + [e], 1, text, "")
  {
    ShowsOne(e, 1, text);
    ShowsAppend(a, [e], 1, text, "", "");
  }

  lemma {:induction false} TwoShow(a: Event, b: Event, m: nat, text: string, x: string, y: string)
    requires Fits(a, m, text) && Fits(b, m, text) && Follows(a, b)
    requires x == (if a.MessageDelta? then a.delta else "") && y == (if b.MessageDelta? then b.delta else "")
    ensures Shows([a, b], m, text, x + y)
  {
    ShowsOne(a, m, text);
    ShowsOne(b, m, text);
    ShowsAppend([a], [b], m, text, x, y);
    assert [a, b] == [a] + [b];
  }

  lemma {:induction false} ItemShows(deltas: seq<string>, finished: bool, text: string)
    requires deltas != []
    ensures var item := ItemEvents(0, deltas, finished);
            Shows(item, 1, text, "") && item[0].ReasoningAdded? && 1 <= Rank(item[|item| - 1]) <= 6
  {
    var head := [ReasoningAdded(0), ReasoningPartAdded(0)];
    TwoShow(head[0], head[1], 1, text, "", "");
    DeltasShow(deltas, text);
    ShowsAppend(head, DeltaEvents(0, deltas), 1, text, "", "");
    var open := head + DeltaEvents(0, deltas);
    if finished {
      ItemCloses(open, Joined(deltas), text);
    } else {
      assert open + [] == open;
    }
  }

  lemma {:induction false} ItemCloses(events: seq<Event>, joined: string, text: string)
    requires events != [] && events[|events| - 1].ReasoningDelta? && Shows(events, 1, text, "")
    ensures var closing := [ReasoningTextDone(0, joined), ReasoningPartDone(0, joined), ReasoningDone(0, joined)];
            Shows(events + closing, 1, text, "")
  {
    var c, d, e := ReasoningTextDone(0, joined), ReasoningPartDone(0, joined), ReasoningDone(0, joined);
    ShowsOne(c, 1, text);
    ShowsOne(d, 1, text);
    ShowsOne(e, 1, text);
    ShowsAppend(events, [c], 1, text, "", "");
    ShowsAppend(events + [c], [d], 1, text, "", "");
    ShowsAppend(events + [c] + [d], [e], 1, text, "", "");
    assert events + [c, d, e] == events + [c] + [d] + [e];
  }

  lemma {:induction false} MessageShows(m: nat, text: string, done: bool)
    requires text != ""
    ensures Shows(MessageEvents(m, text, done), m, text, text)
  {
    var open := [MessageAdded(m), MessageDelta(m, text)];
    TwoShow(open[0], open[1], m, text, "", text);
    if done {
      ShowsOne(MessageDone(m, text), m, text);
      ShowsAppend(open, [MessageDone(m, text)], m, text, text, "");
    } else {
      assert open + [] == open;
    }
  }

  lemma {:induction false} ToolsShow(tools: seq<Event>, m: nat, text: string)
    requires AllTools(tools)
    ensures Shows(tools, m, text, "")
    ensures tools != [] ==> tools[0].ToolItem? && tools[|tools| - 1].ToolItem?
  {
    if tools != [] {
      var init, e := tools[..|tools| - 1], tools[|tools| - 1];
      ToolsShow(init, m, text);
      ShowsOne(e, m, text);
      ShowsAppend(init, [e], m, text, "", "");
      assert init + [e] == tools;
    }
  }

  /** Every run keeps the order of its events, its message deltas add up to the text that
      the message's closing event repeats, and no index is used twice. */
  lemma {:induction false} RunsShow(e: Ending)
    requires WellFormed(e)
    ensures Shows(Rendered(e), MessageIndex(e.deltas != []), e.text, e.text)
  {
    var m := MessageIndex(e.deltas != []);
    var a, item := [Created], ItemEvents(0, e.deltas, e.finished);
    ShowsOne(Created, m, e.text);
    if e.deltas != [] {
      ItemShows(e.deltas, e.finished, e.text);
      ShowsAppend(a, item, m, e.text, "", "");
    } else {
      assert a + item == a;
    }
    RestShows(a + item, e, m);
  }

  lemma {:induction false} RestShows(events: seq<Event>, e: Ending, m: nat)
    requires WellFormed(e) && events != [] && Rank(events[|events| - 1]) <= 6 && Shows(events, m, e.text, "")
    ensures Shows(events + MessageEvents(m, e.text, e.done) + e.tools + [e.terminal], m, e.text, e.text)
  {
    var message := MessageEvents(m, e.text, e.done);
    if e.text != "" {
      MessageShows(m, e.text, e.done);
      ShowsAppend(events, message, m, e.text, "", e.text);
    } else {
      assert events + message == events;
    }
    ToolsThenEnd(events + message, e.tools, e.terminal, m, e.text);
  }

  lemma {:induction false} ToolsThenEnd(events: seq<Event>, tools: seq<Event>, terminal: Event, m: nat, text: string)
    requires AllTools(tools) && IsTerminal(terminal)
    requires events != [] && Rank(events[|events| - 1]) <= 9 && Shows(events, m, text, text)
    ensures Shows(events + tools + [terminal], m, text, text)
  {
    ToolsShow(tools, m, text);
    ShowsAppend(events, tools, m, text, text, "");
    EndsShows(events + tools, terminal, m, text, text);
  }

  lemma {:induction false} EndsShows(events: seq<Event>, terminal: Event, m: nat, text: string, part: string)
    requires events != [] && IsTerminal(terminal) && Rank(events[|events| - 1]) <= 10
    requires Shows(events, m, text, part)
    ensures Shows(events + [terminal], m, text, part)
  {
    ShowsOne(terminal, m, text);
    ShowsAppend(events, [terminal], m, text, part, "");
  }

  /** The same, read off single events: the last event and no other is terminal, any two
      events stand in order, reasoning and message differ in index, and the closing event
      of a message holds the joined deltas. */
  lemma {:induction false} RunEvents(e: Ending, i: nat, j: nat)
    requires WellFormed(e) && i < j < |Rendered(e)|
    ensures var events := Rendered(e);
            && !IsTerminal(events[i])
            && IsTerminal(events[|events| - 1])
            && Follows(events[i], events[j])
            && (IsReasoning(events[i]) && IsMessage(events[j]) ==> events[i].index != events[j].index)
            && (events[j].MessageDone? ==> events[j].text == MessageText(events))
  {
    var events, m := Rendered(e), MessageIndex(e.deltas != []);
    RunsShow(e);
    assert Follows(events[i], events[j]) && Fits(events[i], m, e.text) && Fits(events[j], m, e.text);
  }

  lemma {:induction false} ConcludeWellFormed(syn: Synthetic, freshId: nat -> string, env: Environment, a: Answer)
    ensures WellFormed(Conclude(syn, freshId, env, a))
  {
    var b := AfterNudge(syn, freshId, env, a);
    ToolEventsAre(b.calls);
  }

  lemma {:induction false} ToolEventsAre(calls: seq<ToolCall>)
    ensures AllTools(ToolEvents(calls))
  {
  }

  /** What a run that completes has to show, measured against the frames it received. */
  ghost predicate GoodEnding(freshId: nat -> string, env: Environment, d: Digest, e: Ending)
    requires d.Good?
  {
    && e.finished && e.done
    && (e.text != "" || e.tools != [])
    && e.terminal == ResponseCompleted(e.tools == [])
    // Received text and received calls reach the client as they came.
    && (d.text != "" ==> e.text == d.text)
    && (d.fragments != [] ==> e.tools == ToolEvents(Assembled(d.fragments, freshId)))
    // An empty answer was replaced by a recovered one, whose calls reach the client too.
    && (d.text == "" && d.fragments == [] ==>
          && env.recovered.Some? && e.text == env.recovered.value.text
          && (env.recovered.value.calls != [] ==>
                e.tools == ToolEvents(RecoveredCalls(env.recovered.value.calls, freshId))))
    // A text on its own either needs no audit, or was confirmed.
    && (e.tools == [] && env.mustAudit(e.text) ==>
          env.nudge.Some? && env.nudge.value.status == Nudge.Confirmed)
    // Tools behind a plain text, received or recovered, are those of the nudge.
    && (d.fragments == [] && e.tools != []
        && (d.text == "" ==> env.recovered.Some? && env.recovered.value.calls == []) ==>
          && env.mustAudit(e.text) && env.nudge.Some? && Nudge.NudgeFailure(env.nudge).None?
          && e.tools == ToolEvents(NudgedCalls(env.nudge.value.toolCalls, freshId)))
  }

  /** `response.completed` never follows an empty answer, an inconclusive nudge or a web call. */
  lemma {:induction false} CompletedIsGood(cfg: Nudge.Config, syn: Synthetic, freshId: nat -> string,
      env: Environment, d: Digest)
    requires d.Good?
    requires env.nudge.Some? ==> Nudge.Justified(cfg, env.nudge.value)
    ensures var e := Concluded(syn, freshId, env, d);
            e.terminal.ResponseCompleted? ==> GoodEnding(freshId, env, d, e)
  {
    HeadersOpen(d.fragments, freshId);
  }

  lemma {:induction false} HeadersOpen(fs: seq<Fragment>, freshId: nat -> string)
    ensures Headers(fs, freshId) == [] <==> fs == []
  {
    if fs != [] {
      HeadersOpen(fs[..|fs| - 1], freshId);
    }
  }
}
