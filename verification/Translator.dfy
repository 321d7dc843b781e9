/** Request translation: the input items of a Responses request become chat messages. */
module Translator {
  import opened Common
  import opened Chat

  datatype Item =
    | MessageItem(role: Option<string>, parts: seq<Part>)
    | ReasoningItem(text: string)
    | FunctionCall(callId: string, namespace: string, name: string, arguments: string)
    | CustomToolCall(callId: string, name: string, input: string)
    | CallOutput(callId: string, output: string)
    | AgentMessage(parts: seq<Part>, text: string)
    | DiscoveredTools
    | Unrepresentable

  /** Configuration and the foreign calls the translator makes. */
  datatype Config = Config(
    bound: Content -> Content,
    isReminder: seq<Part> -> bool,
    reasoningFor: string -> string,
    encodeInput: string -> string,
    fallbackReasoning: string,
    toolSearchDirective: string,
    executionDirective: string,
    loopDirective: string,
    nudgeRetries: nat)

  datatype Request = Request(instructions: string, directToolSearch: bool, items: seq<Item>, hasTools: bool)

  function SystemMessage(content: Content): Message {
    Message(System, content, [], None, "")
  }

  function RoleOf(name: Option<string>): Role {
    match name
    case None => User
    case Some(n) =>
      if n == "developer" || n == "system" then System
      else if n == "user" || n == "" then User
      else if n == "assistant" then Assistant
      else if n == "tool" then Tool
      else OtherRole(n)
  }

  function CallOf(cfg: Config, item: Item): Call
    requires item.FunctionCall? || item.CustomToolCall?
  {
    match item
    case FunctionCall(id, namespace, name, arguments) =>
      Call(id, namespace + name, if arguments == "" then "{}" else arguments)
    case CustomToolCall(id, name, input) => Call(id, name, cfg.encodeInput(input))
  }

  // ---- What the input promises ----

  /** Calls still waiting for an output; Broken once the rule cannot be met any more. */
  datatype Pairing = Broken | Waiting(ids: multiset<Option<string>>)

  const SETTLED := Waiting(multiset{})

  predicate Relocatable(m: Message) {
    m.role == System || m.role == User
  }

  function Answer(p: Pairing, id: Option<string>): Pairing {
    if p.Waiting? && id in p.ids then Waiting(p.ids - multiset{id}) else Broken
  }

  /** One message of a chat: system and user messages may stand anywhere, others only when
      nothing waits. */
  function Step(p: Pairing, m: Message): Pairing {
    if m.role == Tool then Answer(p, m.answers)
    else if HasCalls(m) then
      if p == SETTLED then Waiting(multiset(CallIds(m.calls))) else Broken
    else if Relocatable(m) || p == SETTLED then p
    else Broken
  }

  function Run(p: Pairing, ms: seq<Message>): Pairing {
    if ms == [] then p else Step(Run(p, ms[..|ms| - 1]), ms[|ms| - 1])
  }

  /** The same for input items; a call joins the batch when nothing came in between. */
  datatype BatchState = BatchState(pairing: Pairing, joinable: bool)

  function ItemStep(s: BatchState, item: Item): BatchState {
    match item
    case MessageItem(role, parts) =>
      if parts == [] then s
      else if RoleOf(role) == Tool then BatchState(Answer(s.pairing, None), false)
      else if RoleOf(role) == System || RoleOf(role) == User || s.pairing == SETTLED then BatchState(s.pairing, false)
      else BatchState(Broken, false)
    case AgentMessage(parts, text) => if parts == [] && text == "" then s else BatchState(s.pairing, false)
    case FunctionCall(id, _, _, _) => CallStep(s, id)
    case CustomToolCall(id, _, _) => CallStep(s, id)
    case CallOutput(id, _) => BatchState(Answer(s.pairing, Some(id)), false)
    case _ => s
  }

  function CallStep(s: BatchState, id: string): BatchState {
    if s.joinable && s.pairing.Waiting? then BatchState(Waiting(s.pairing.ids + multiset{Some(id)}), true)
    else if s.pairing == SETTLED then BatchState(Waiting(multiset{Some(id)}), true)
    else BatchState(Broken, true)
  }

  function RunItems(items: seq<Item>): BatchState {
    if items == [] then BatchState(SETTLED, false)
    else ItemStep(RunItems(items[..|items| - 1]), items[|items| - 1])
  }

  /** Each batch of consecutive calls gets all its outputs, once each, before the next call
      or assistant message; system and user messages may be interleaved. */
  predicate BatchesAnswered(items: seq<Item>) {
    RunItems(items).pairing == SETTLED
  }

  function InputCalls(cfg: Config, items: seq<Item>): seq<Call> {
    if items == [] then []
    else
      var last := items[|items| - 1];
      InputCalls(cfg, items[..|items| - 1]) +
      (if last.FunctionCall? || last.CustomToolCall? then [CallOf(cfg, last)] else [])
  }

  /** Outputs as tool messages, in input order. */
  function InputOutputs(items: seq<Item>): seq<Message> {
    if items == [] then []
    else
      var last := items[|items| - 1];
      InputOutputs(items[..|items| - 1]) +
      (match last
       case CallOutput(id, output) => [Message(Tool, Plain(output), [], Some(id), "")]
       case MessageItem(role, parts) =>
         if parts != [] && RoleOf(role) == Tool then [Message(Tool, Parts(parts), [], None, "")] else []
       case _ => [])
  }

  predicate IsTool(m: Message) {
    m.role == Tool
  }

  predicate Reasoned(m: Message) {
    HasCalls(m) ==> m.reasoning != ""
  }

  // ---- What is said, and by whom ----

  datatype Utterance = Utterance(role: Role, letter: char)
  type Voice = seq<Utterance>

  function PartsText(parts: seq<Part>): string {
    if parts == [] then ""
    else PartsText(parts[..|parts| - 1]) + (match parts[|parts| - 1] case Text(t) => t case Image(_) => "")
  }

  function ContentText(c: Content): string {
    match c
    case Plain(text) => text
    case Parts(parts) => PartsText(parts)
  }

  function Spoken(role: Role, text: string): Voice {
    if text == "" then [] else Spoken(role, text[..|text| - 1]) + [Utterance(role, text[|text| - 1])]
  }

  /** The text of a conversation, each character with the role that speaks it. */
  function Voices(ms: seq<Message>): Voice {
    if ms == [] then []
    else Voices(ms[..|ms| - 1]) + Spoken(ms[|ms| - 1].role, ContentText(ms[|ms| - 1].content))
  }

  /** System reminders speak as the user. */
  function SpeakingRole(cfg: Config, name: Option<string>, parts: seq<Part>): Role {
    if RoleOf(name) == System && cfg.isReminder(parts) then User else RoleOf(name)
  }

  function Voiced(cfg: Config, item: Item): Voice {
    match item
    case MessageItem(name, parts) =>
      if parts == [] then []
      else
        var role := SpeakingRole(cfg, name, parts);
        Spoken(role, ContentText(if role == System then cfg.bound(Parts(parts)) else Parts(parts)))
    case CallOutput(_, output) => Spoken(Tool, output)
    case AgentMessage(parts, text) =>
      if parts == [] && text == "" then [] else Spoken(User, if parts != [] then PartsText(parts) else text)
    case _ => []
  }

  function InputVoices(cfg: Config, items: seq<Item>): Voice {
    if items == [] then [] else InputVoices(cfg, items[..|items| - 1]) + Voiced(cfg, items[|items| - 1])
  }

  /** Nothing the items say is lost, added, or given to another role. */
  ghost predicate Heard(cfg: Config, opening: Voice, items: seq<Item>, messages: seq<Message>) {
    Voices(messages) == opening + InputVoices(cfg, items)
  }

  lemma {:induction false} VoicesPush(ms: seq<Message>, m: Message)
    ensures Voices(ms + [m]) == Voices(ms) + Spoken(m.role, ContentText(m.content))
  {
    assert (ms + [m])[..|ms|] == ms;
  }

  lemma {:induction false} InputVoicesPush(cfg: Config, opening: Voice, items: seq<Item>, item: Item)
    ensures opening + InputVoices(cfg, items + [item]) == opening + InputVoices(cfg, items) + Voiced(cfg, item)
  {
    assert (items + [item])[..|items|] == items;
  }

  lemma {:induction false} HeardPush(cfg: Config, opening: Voice, items: seq<Item>, item: Item,
      messages: seq<Message>, m: Message)
    requires Heard(cfg, opening, items, messages) && Voiced(cfg, item) == Spoken(m.role, ContentText(m.content))
    ensures Heard(cfg, opening, items + [item], messages + [m])
  {
    VoicesPush(messages, m);
    InputVoicesPush(cfg, opening, items, item);
  }

  lemma {:induction false} HeardNothing(cfg: Config, opening: Voice, items: seq<Item>, item: Item,
      messages: seq<Message>)
    requires Heard(cfg, opening, items, messages) && Voiced(cfg, item) == []
    ensures Heard(cfg, opening, items + [item], messages)
  {
    InputVoicesPush(cfg, opening, items, item);
  }

  lemma {:induction false} HeardJoin(cfg: Config, opening: Voice, items: seq<Item>, item: Item,
      messages: seq<Message>, joined: Message)
    requires Heard(cfg, opening, items, messages) && Voiced(cfg, item) == [] && messages != []
    requires joined.role == messages[|messages| - 1].role && joined.content == messages[|messages| - 1].content
    ensures Heard(cfg, opening, items + [item], messages[..|messages| - 1] + [joined])
  {
    var init := messages[..|messages| - 1];
    assert messages == init + [messages[|messages| - 1]];
    VoicesPush(init, joined);
    VoicesPush(init, messages[|messages| - 1]);
    HeardNothing(cfg, opening, items, item, messages);
  }

  lemma {:induction false} OneText(text: string)
    ensures ContentText(Parts([Text(text)])) == text
  {
    var one := [Text(text)];
    assert one[..0] == [] && PartsText(one) == "" + text && "" + text == text;
  }

  // ---- The item loop ----

  /** The message ends the list as an open batch of calls. */
  predicate Joinable(ms: seq<Message>) {
    ms != [] && HasCalls(ms[|ms| - 1]) && ms[|ms| - 1].content == Plain("")
  }

  /** What the loop over the first items has established. */
  ghost predicate Collected(cfg: Config, items: seq<Item>, messages: seq<Message>) {
    && Run(SETTLED, messages) == RunItems(items).pairing
    && Joinable(messages) == RunItems(items).joinable
    && AllCalls(messages) == InputCalls(cfg, items)
    && Filter(messages, IsTool) == InputOutputs(items)
    && (forall m | m in messages :: Reasoned(m))
  }

  lemma {:induction false} PushMessage(ms: seq<Message>, m: Message)
    ensures Run(SETTLED, ms + [m]) == Step(Run(SETTLED, ms), m)
    ensures AllCalls(ms + [m]) == AllCalls(ms) + (if HasCalls(m) then m.calls else [])
    ensures Filter(ms + [m], IsTool) == Filter(ms, IsTool) + (if IsTool(m) then [m] else [])
    ensures (ms + [m])[|ms|] == m
  {
    assert (ms + [m])[..|ms|] == ms;
  }

  lemma {:induction false} PushItem(cfg: Config, items: seq<Item>, item: Item)
    ensures RunItems(items + [item]) == ItemStep(RunItems(items), item)
    ensures InputCalls(cfg, items + [item]) == InputCalls(cfg, items) +
              (if item.FunctionCall? || item.CustomToolCall? then [CallOf(cfg, item)] else [])
    ensures InputOutputs(items + [item]) == InputOutputs(items) + InputOutputs([item])
  {
    assert (items + [item])[..|items|] == items && [item][..0] == [];
  }

  lemma {:induction false} NewBatch(ms: seq<Message>, m: Message, id: string)
    requires HasCalls(m) && |m.calls| == 1 && m.calls[0].id == id
    ensures Run(SETTLED, ms + [m]) ==
              if Run(SETTLED, ms) == SETTLED then Waiting(multiset{Some(id)}) else Broken
  {
    PushMessage(ms, m);
    assert CallIds(m.calls) == [Some(id)];
  }

  /** A call that joins the last message waits together with that batch. */
  lemma {:induction false} JoinBatch(ms: seq<Message>, call: Call, joined: Message)
    requires Joinable(ms) && joined.role == Assistant && joined.calls == ms[|ms| - 1].calls + [call]
    ensures var before := Run(SETTLED, ms);
            Run(SETTLED, ms[..|ms| - 1] + [joined]) ==
              if before.Waiting? then Waiting(before.ids + multiset{Some(call.id)}) else Broken
    ensures AllCalls(ms[..|ms| - 1] + [joined]) == AllCalls(ms) + [call]
    ensures Filter(ms[..|ms| - 1] + [joined], IsTool) == Filter(ms, IsTool)
  {
    var init, last := ms[..|ms| - 1], ms[|ms| - 1];
    assert ms == init + [last];
    PushMessage(init, last);
    PushMessage(init, joined);
    assert CallIds(joined.calls) == CallIds(last.calls) + [Some(call.id)];
  }

  lemma {:induction false} CollectNothing(cfg: Config, before: seq<Item>, item: Item, messages: seq<Message>)
    requires Collected(cfg, before, messages) && ItemStep(RunItems(before), item) == RunItems(before)
    requires !item.FunctionCall? && !item.CustomToolCall? && InputOutputs([item]) == []
    ensures Collected(cfg, before + [item], messages)
  {
    PushItem(cfg, before, item);
  }

  /** An item that is represented by a message without calls. */
  lemma {:induction false} CollectPlain(cfg: Config, before: seq<Item>, item: Item, messages: seq<Message>, m: Message)
    requires Collected(cfg, before, messages) && m.calls == []
    requires !item.FunctionCall? && !item.CustomToolCall?
    requires InputOutputs([item]) == if IsTool(m) then [m] else []
    requires ItemStep(RunItems(before), item) == BatchState(Step(RunItems(before).pairing, m), false)
    ensures Collected(cfg, before + [item], messages + [m])
  {
    var now := messages + [m];
    assert Run(SETTLED, now) == RunItems(before + [item]).pairing by {
      PushItem(cfg, before, item);
      PushMessage(messages, m);
    }
    assert RunItems(before + [item]).joinable == Joinable(now) == false by {
      PushItem(cfg, before, item);
    }
    assert AllCalls(now) == InputCalls(cfg, before + [item]) &&
        Filter(now, IsTool) == InputOutputs(before + [item]) by {
      PushItem(cfg, before, item);
      PushMessage(messages, m);
    }
  }

  lemma {:induction false} OutputsOfOne(item: Item)
    ensures InputOutputs([item]) ==
              match item
              case CallOutput(id, output) => [Message(Tool, Plain(output), [], Some(id), "")]
              case MessageItem(role, parts) =>
                if parts != [] && RoleOf(role) == Tool then [Message(Tool, Parts(parts), [], None, "")] else []
              case _ => []
  {
    assert [item][..0] == [] && InputOutputs([]) == [];
  }

  method CollectMessages(cfg: Config, items: seq<Item>, initial: seq<Message>) returns (messages: seq<Message>)
    requires cfg.fallbackReasoning != ""
    requires Collected(cfg, [], initial)
    ensures Collected(cfg, items, messages) && Heard(cfg, Voices(initial), items, messages)
  {
    messages := initial;
    var pendingReasoning := "";
    ghost var opening := Voices(initial);
    ghost var before: seq<Item> := [];
    assert opening + [] == opening;
    for k := 0 to |items|
      invariant Collected(cfg, before, messages) && Heard(cfg, opening, before, messages)
      invariant before + items[k..] == items
    {
      NextItem(before, items, k);
      messages, pendingReasoning, before := AddItem(cfg, opening, before, messages, items[k], pendingReasoning);
    }
    NoItems(before, items);
  }

  lemma {:induction false} NoItems(before: seq<Item>, items: seq<Item>)
    requires before + items[|items|..] == items
    ensures before == items
  {
    assert before + items[|items|..] == before;
  }

  lemma {:induction false} NextItem(before: seq<Item>, items: seq<Item>, k: nat)
    requires k < |items| && before + items[k..] == items
    ensures before + [items[k]] + items[k + 1..] == items
  {
    assert items[k..] == [items[k]] + items[k + 1..];
  }

  method AddItem(cfg: Config, ghost opening: Voice, ghost before: seq<Item>, messages: seq<Message>, item: Item,
      pendingReasoning: string)
    returns (r: seq<Message>, pending: string, ghost now: seq<Item>)
    requires cfg.fallbackReasoning != "" && Collected(cfg, before, messages) && Heard(cfg, opening, before, messages)
    ensures Collected(cfg, now, r) && Heard(cfg, opening, now, r) && now == before + [item]
  {
    pending, now := pendingReasoning, before + [item];
    if item.FunctionCall? || item.CustomToolCall? {
      r, pending := AddCall(cfg, opening, before, messages, item, pendingReasoning);
    } else {
      if item.ReasoningItem? && item.text != "" {
        pending := item.text;
      }
      r := AddMessage(cfg, opening, before, messages, item);
    }
  }

  /** The message, if any, that an item other than a call stands for. */
  method MessageFor(cfg: Config, item: Item) returns (m: Option<Message>)
    requires !item.FunctionCall? && !item.CustomToolCall?
    ensures m.None? ==> Voiced(cfg, item) == [] && InputOutputs([item]) == [] && forall s :: ItemStep(s, item) == s
    ensures m.Some? ==>
              && m.value.calls == []
              && Voiced(cfg, item) == Spoken(m.value.role, ContentText(m.value.content))
              && InputOutputs([item]) == (if IsTool(m.value) then [m.value] else [])
              && forall s :: ItemStep(s, item) == BatchState(Step(s.pairing, m.value), false)
  {
    OutputsOfOne(item);
    match item {
      case MessageItem(name, parts) =>
        if |parts| > 0 {
          var role := RoleOf(name);
          if role == System && cfg.isReminder(parts) {
            role := User;
          }
          return Some(Message(role, if role == System then cfg.bound(Parts(parts)) else Parts(parts), [], None, ""));
        }
      case CallOutput(id, output) =>
        return Some(Message(Tool, Plain(output), [], Some(id), ""));
      case AgentMessage(parts, text) =>
        if |parts| > 0 || text != "" {
          OneText(text);
          return Some(Message(User, Parts(if |parts| > 0 then parts else [Text(text)]), [], None, ""));
        }
      case _ =>
    }
    return None;
  }

  method AddMessage(cfg: Config, ghost opening: Voice, ghost before: seq<Item>, messages: seq<Message>, item: Item)
    returns (r: seq<Message>)
    requires !item.FunctionCall? && !item.CustomToolCall?
    requires Collected(cfg, before, messages) && Heard(cfg, opening, before, messages)
    ensures Collected(cfg, before + [item], r) && Heard(cfg, opening, before + [item], r)
  {
    var m := MessageFor(cfg, item);
    if m.None? {
      CollectNothing(cfg, before, item, messages);
      HeardNothing(cfg, opening, before, item, messages);
      return messages;
    }
    CollectPlain(cfg, before, item, messages, m.value);
    HeardPush(cfg, opening, before, item, messages, m.value);
    r := messages + [m.value];
  }

  lemma {:induction false} CollectJoin(cfg: Config, before: seq<Item>, item: Item, messages: seq<Message>,
      joined: Message)
    requires item.FunctionCall? || item.CustomToolCall?
    requires Collected(cfg, before, messages) && Joinable(messages) && joined.reasoning != ""
    requires var prev := messages[|messages| - 1];
             joined == prev.(calls := prev.calls + [CallOf(cfg, item)], reasoning := joined.reasoning)
    ensures Collected(cfg, before + [item], messages[..|messages| - 1] + [joined])
  {
    PushItem(cfg, before, item);
    OutputsOfOne(item);
    JoinBatch(messages, CallOf(cfg, item), joined);
    var r := messages[..|messages| - 1] + [joined];
    assert forall m | m in r :: m == joined || m in messages;
  }

  lemma {:induction false} CollectCall(cfg: Config, before: seq<Item>, item: Item, messages: seq<Message>, m: Message)
    requires item.FunctionCall? || item.CustomToolCall?
    requires Collected(cfg, before, messages) && !Joinable(messages) && m.reasoning != ""
    requires m == Message(Assistant, Plain(""), [CallOf(cfg, item)], None, m.reasoning)
    ensures Collected(cfg, before + [item], messages + [m])
  {
    PushItem(cfg, before, item);
    OutputsOfOne(item);
    NewBatch(messages, m, item.callId);
    PushMessage(messages, m);
  }

  /** Parallel calls share one assistant message: the upstream rejects consecutive ones. */
  method AddCall(cfg: Config, ghost opening: Voice, ghost before: seq<Item>, messages: seq<Message>, item: Item,
      pendingReasoning: string)
    returns (r: seq<Message>, pending: string)
    requires item.FunctionCall? || item.CustomToolCall?
    requires cfg.fallbackReasoning != "" && Collected(cfg, before, messages) && Heard(cfg, opening, before, messages)
    ensures Collected(cfg, before + [item], r) && Heard(cfg, opening, before + [item], r)
  {
    var call := CallOf(cfg, item);
    var cached := cfg.reasoningFor(item.callId);
    var reasoning := if cached != "" then cached else cfg.fallbackReasoning;
    pending := pendingReasoning;
    if |messages| > 0 && HasCalls(messages[|messages| - 1]) && messages[|messages| - 1].content == Plain("") {
      var prev := messages[|messages| - 1];
      var joined := prev.(calls := prev.calls + [call],
          reasoning := if prev.reasoning == "" then reasoning else prev.reasoning);
      CollectJoin(cfg, before, item, messages, joined);
      HeardJoin(cfg, opening, before, item, messages, joined);
      r := messages[..|messages| - 1] + [joined];
    } else {
      if pendingReasoning != "" {
        reasoning := pendingReasoning;
        pending := "";
      }
      var m := Message(Assistant, Plain(""), [call], None, reasoning);
      CollectCall(cfg, before, item, messages, m);
      assert Spoken(Assistant, "") == [];
      HeardPush(cfg, opening, before, item, messages, m);
      r := messages + [m];
    }
  }

  // ---- The merge pass ----

  predicate Mergeable(a: Message, b: Message) {
    a.role == b.role && a.role != Tool && a.calls == [] && b.calls == []
  }

  predicate SpecialMessage(m: Message) {
    m.role == Tool || m.calls != []
  }

  ghost predicate MergedFrom(merged: seq<Message>, ms: seq<Message>) {
    && Run(SETTLED, merged) == Run(SETTLED, ms)
    && Filter(merged, SpecialMessage) == Filter(ms, SpecialMessage)
    && Voices(merged) == Voices(ms)
  }

  lemma {:induction false} PushMore(ms: seq<Message>, m: Message)
    ensures Voices(ms + [m]) == Voices(ms) + Spoken(m.role, ContentText(m.content))
    ensures Filter(ms + [m], SpecialMessage) == Filter(ms, SpecialMessage) + (if SpecialMessage(m) then [m] else [])
  {
    assert (ms + [m])[..|ms|] == ms;
  }

  lemma {:induction false} MergedRun(init: seq<Message>, prev: Message, m: Message, joined: Message)
    requires Mergeable(prev, m) && joined.role == prev.role && joined.calls == []
    ensures Run(SETTLED, init + [joined]) == Step(Run(SETTLED, init + [prev]), m)
  {
    PushMessage(init, prev);
    PushMessage(init, joined);
  }

  lemma {:induction false} SpokenTwo(role: Role, a: string, b: string)
    ensures Spoken(role, a + b) == Spoken(role, a) + Spoken(role, b)
  {
    if b == "" {
      assert a + b == a;
    } else {
      SpokenTwo(role, a, b[..|b| - 1]);
      assert (a + b)[..|a + b| - 1] == a + b[..|b| - 1];
    }
  }

  lemma {:induction false} SpokenAppend(before: Voice, role: Role, a: string, b: string)
    ensures before + Spoken(role, a + b) == before + Spoken(role, a) + Spoken(role, b)
  {
    SpokenTwo(role, a, b);
    assert before + (Spoken(role, a) + Spoken(role, b)) == before + Spoken(role, a) + Spoken(role, b);
  }

  lemma {:induction false} MergedWords(init: seq<Message>, prev: Message, more: string, joined: Message)
    requires !SpecialMessage(prev) && !SpecialMessage(joined) && joined.role == prev.role
    requires ContentText(joined.content) == ContentText(prev.content) + more
    ensures Voices(init + [joined]) == Voices(init + [prev]) + Spoken(prev.role, more)
    ensures Filter(init + [joined], SpecialMessage) == Filter(init + [prev], SpecialMessage)
  {
    SpokenAppend(Voices(init), prev.role, ContentText(prev.content), more);
    PushMore(init, prev);
    PushMore(init, joined);
  }

  lemma {:induction false} MergeStep(init: seq<Message>, prev: Message, ms: seq<Message>, m: Message, joined: Message)
    requires MergedFrom(init + [prev], ms) && Mergeable(prev, m)
    requires joined.role == prev.role && joined.calls == []
    requires joined.content == Parts([Text(ContentText(prev.content) + ContentText(m.content))])
    ensures MergedFrom(init + [joined], ms + [m])
  {
    MergedRun(init, prev, m, joined);
    OneText(ContentText(prev.content) + ContentText(m.content));
    MergedWords(init, prev, ContentText(m.content), joined);
    PushMessage(ms, m);
    PushMore(ms, m);
  }

  lemma {:induction false} MergePush(merged: seq<Message>, ms: seq<Message>, m: Message)
    requires MergedFrom(merged, ms)
    ensures MergedFrom(merged + [m], ms + [m])
  {
    PushMessage(merged, m);
    PushMessage(ms, m);
    PushMore(merged, m);
    PushMore(ms, m);
  }

  predicate NoneMergeable(ms: seq<Message>) {
    forall k | 0 < k < |ms| :: !Mergeable(ms[k - 1], ms[k])
  }

  lemma {:induction false} StaysApart(init: seq<Message>, prev: Message, joined: Message)
    requires NoneMergeable(init + [prev]) && joined.role == prev.role && joined.calls == prev.calls
    ensures NoneMergeable(init + [joined])
  {
    assert init != [] ==> !Mergeable(init[|init| - 1], prev) by {
      assert init != [] ==> (init + [prev])[|init| - 1] == init[|init| - 1] && (init + [prev])[|init|] == prev;
    }
    forall k | 0 < k < |init + [joined]|
      ensures !Mergeable((init + [joined])[k - 1], (init + [joined])[k])
    {
      if k < |init| {
        assert (init + [prev])[k - 1] == init[k - 1] && (init + [prev])[k] == init[k];
      }
    }
  }

  lemma {:induction false} PushApart(ms: seq<Message>, m: Message)
    requires NoneMergeable(ms) && (ms != [] ==> !Mergeable(ms[|ms| - 1], m))
    ensures NoneMergeable(ms + [m])
  {
  }

  method MergeOne(merged: seq<Message>, ghost seen: seq<Message>, m: Message) returns (r: seq<Message>)
    requires MergedFrom(merged, seen) && NoneMergeable(merged)
    ensures MergedFrom(r, seen + [m]) && NoneMergeable(r)
  {
    if |merged| > 0 && Mergeable(merged[|merged| - 1], m) {
      var init, prev := merged[..|merged| - 1], merged[|merged| - 1];
      var joined := prev.(content := Parts([Text(ContentText(prev.content) + ContentText(m.content))]));
      assert merged == init + [prev];
      MergeStep(init, prev, seen, m, joined);
      StaysApart(init, prev, joined);
      r := init + [joined];
    } else {
      MergePush(merged, seen, m);
      PushApart(merged, m);
      r := merged + [m];
    }
  }

  /** No two neighbours of the result could still be merged. */
  method MergeRuns(messages: seq<Message>) returns (merged: seq<Message>)
    ensures MergedFrom(merged, messages) && NoneMergeable(merged)
  {
    merged := [];
    for k := 0 to |messages|
      invariant MergedFrom(merged, messages[..k]) && NoneMergeable(merged)
    {
      assert messages[..k + 1] == messages[..k] + [messages[k]];
      merged := MergeOne(merged, messages[..k], messages[k]);
    }
    assert messages[..|messages|] == messages;
  }

  // ---- The reorder pass ----

  datatype Gathered = Gathered(moved: seq<Message>, tools: seq<Message>, rest: seq<Message>)

  /** After an assistant message with calls: its tool messages, the system and user messages
      that stand between them while `need` more are expected, and what follows. */
  function Gather(ms: seq<Message>, need: nat): (g: Gathered)
    ensures |g.rest| <= |ms|
  {
    if ms == [] then Gathered([], [], [])
    else if ms[0].role == Tool then
      var g := Gather(ms[1..], if need > 0 then need - 1 else 0);
      g.(tools := [ms[0]] + g.tools)
    else if Relocatable(ms[0]) && need > 0 then
      var g := Gather(ms[1..], need);
      g.(moved := [ms[0]] + g.moved)
    else Gathered([], [], ms)
  }

  function Reorder(ms: seq<Message>): seq<Message>
    decreases |ms|
  {
    if ms == [] then []
    else if HasCalls(ms[0]) then
      var g := Gather(ms[1..], |ms[0].calls|);
      g.moved + ([ms[0]] + g.tools) + Reorder(g.rest)
    else [ms[0]] + Reorder(ms[1..])
  }

  method ReorderMessages(merged: seq<Message>) returns (reorder: seq<Message>)
    ensures reorder == Reorder(merged)
  {
    reorder := [];
    var i := 0;
    ghost var rest := merged;
    while i < |merged|
      invariant i <= |merged| && rest == merged[i..]
      invariant reorder + Reorder(rest) == Reorder(merged)
    {
      var m := merged[i];
      assert rest[1..] == merged[i + 1..];
      ReorderNext(reorder, rest);
      if HasCalls(m) {
        var moved, tools, j := GatherTools(merged, i + 1, |m.calls|);
        reorder := reorder + (moved + ([m] + tools));
        i, rest := j, merged[j..];
      } else {
        reorder := reorder + [m];
        i, rest := i + 1, rest[1..];
      }
    }
    assert rest == [];
  }

  lemma {:induction false} ReorderNext(before: seq<Message>, ms: seq<Message>)
    requires ms != []
    ensures if HasCalls(ms[0]) then
              var g := Gather(ms[1..], |ms[0].calls|);
              before + Reorder(ms) == before + (g.moved + ([ms[0]] + g.tools)) + Reorder(g.rest)
            else before + Reorder(ms) == before + [ms[0]] + Reorder(ms[1..])
  {
  }

  method GatherTools(merged: seq<Message>, start: nat, need: nat)
    returns (moved: seq<Message>, tools: seq<Message>, j: nat)
    requires start <= |merged|
    ensures start <= j <= |merged|
    ensures Gather(merged[start..], need) == Gathered(moved, tools, merged[j..])
  {
    moved, tools, j := [], [], start;
    ghost var rest, left: nat := merged[start..], need;
    ghost var g := Gather(rest, left);
    assert Behind(moved, tools, g) == g;
    while j < |merged|
      invariant start <= j <= |merged| && rest == merged[j..] && left == Missing(need, |tools|)
      invariant g == Behind(moved, tools, Gather(rest, left))
    {
      var n := merged[j];
      GatherNext(moved, tools, rest, left);
      if n.role == Tool {
        tools := tools + [n];
        left := Missing(left, 1);
      } else if Relocatable(n) && |tools| < need {
        moved := moved + [n];
      } else {
        return;
      }
      j := j + 1;
      rest := rest[1..];
    }
    GatherEnds(moved, tools, rest, left);
  }

  lemma {:induction false} GatherEnds(moved: seq<Message>, tools: seq<Message>, rest: seq<Message>, need: nat)
    requires rest == []
    ensures Behind(moved, tools, Gather(rest, need)) == Gathered(moved, tools, rest)
  {
    assert moved + [] == moved && tools + [] == tools;
  }

  function Missing(need: nat, have: nat): nat {
    if have < need then need - have else 0
  }

  lemma {:induction false} GatherNext(moved: seq<Message>, tools: seq<Message>, ms: seq<Message>, need: nat)
    requires ms != []
    ensures var all := Behind(moved, tools, Gather(ms, need));
            if ms[0].role == Tool then
              all == Behind(moved, tools + [ms[0]], Gather(ms[1..], Missing(need, 1)))
            else if Relocatable(ms[0]) && need > 0 then
              all == Behind(moved + [ms[0]], tools, Gather(ms[1..], need))
            else all == Gathered(moved, tools, ms)
  {
    var h := Gather(ms[1..], if ms[0].role == Tool then Missing(need, 1) else need);
    if ms[0].role == Tool {
      assert tools + ([ms[0]] + h.tools) == tools + [ms[0]] + h.tools;
    } else {
      assert moved + ([ms[0]] + h.moved) == moved + [ms[0]] + h.moved;
    }
  }

  ghost function Behind(moved: seq<Message>, tools: seq<Message>, g: Gathered): Gathered {
    Gathered(moved + g.moved, tools + g.tools, g.rest)
  }

  lemma {:induction false} RunAppend(p: Pairing, a: seq<Message>, b: seq<Message>)
    ensures Run(p, a + b) == Run(Run(p, a), b)
  {
    if b == [] {
      assert a + b == a;
    } else {
      var init, last := b[..|b| - 1], b[|b| - 1];
      RunAppend(p, a, init);
      assert (a + b)[..|a + b| - 1] == a + init && (a + b)[|a + b| - 1] == last;
    }
  }

  lemma {:induction false} RunFirst(p: Pairing, ms: seq<Message>)
    requires ms != []
    ensures Run(p, ms) == Run(Step(p, ms[0]), ms[1..])
  {
    RunAppend(p, [ms[0]], ms[1..]);
    assert [ms[0]] + ms[1..] == ms && [ms[0]][..0] == [];
    assert Run(p, [ms[0]]) == Step(p, ms[0]);
  }

  lemma {:induction false} BrokenStays(ms: seq<Message>)
    ensures Run(Broken, ms) == Broken
  {
    if ms != [] {
      BrokenStays(ms[..|ms| - 1]);
    }
  }

  /** The gathered pieces: what they are, and that what follows is not a tool message. */
  lemma {:induction false} GatheredKinds(ms: seq<Message>, need: nat)
    ensures var g := Gather(ms, need);
            && (forall k | 0 <= k < |g.moved| :: Relocatable(g.moved[k]))
            && (forall k | 0 <= k < |g.tools| :: g.tools[k].role == Tool)
            && (g.rest != [] ==> g.rest[0].role != Tool)
  {
    if ms != [] && (ms[0].role == Tool || (Relocatable(ms[0]) && need > 0)) {
      GatheredKinds(ms[1..], if ms[0].role == Tool && need > 0 then need - 1 else need);
    }
  }

  /** Gathering succeeds exactly when the waiting calls are all answered in time. */
  ghost predicate GatherFits(ms: seq<Message>, ids: multiset<Option<string>>, need: nat) {
    var g := Gather(ms, need);
    if multiset(AnswerIds(g.tools)) == ids then Run(Waiting(ids), ms) == Run(SETTLED, g.rest)
    else Run(Waiting(ids), ms) != SETTLED
  }

  lemma {:induction false} GatherAnswers(ms: seq<Message>, ids: multiset<Option<string>>, need: nat)
    requires |ids| == need
    ensures GatherFits(ms, ids, need)
  {
    if ms == [] {
      assert AnswerIds([]) == [];
    } else if ms[0].role == Tool {
      if ms[0].answers in ids {
        OneLess(ids, ms[0].answers);
        GatherAnswers(ms[1..], ids - multiset{ms[0].answers}, need - 1);
        GatherExpected(ms, ids, need);
      } else {
        GatherUnexpected(ms, ids, need);
      }
    } else if Relocatable(ms[0]) && need > 0 {
      GatherAnswers(ms[1..], ids, need);
      GatherMoved(ms, ids, need);
    } else {
      GatherStops(ms, ids, need);
    }
  }

  lemma {:induction false} OneLess(ids: multiset<Option<string>>, id: Option<string>)
    requires id in ids
    ensures |ids - multiset{id}| == |ids| - 1
  {
  }

  lemma {:induction false} GatherMoved(ms: seq<Message>, ids: multiset<Option<string>>, need: nat)
    requires ms != [] && Relocatable(ms[0]) && need > 0 && GatherFits(ms[1..], ids, need)
    ensures GatherFits(ms, ids, need)
  {
    RunFirst(Waiting(ids), ms);
  }

  lemma {:induction false} GatherStops(ms: seq<Message>, ids: multiset<Option<string>>, need: nat)
    requires ms != [] && ms[0].role != Tool && !(Relocatable(ms[0]) && need > 0) && |ids| == need
    ensures GatherFits(ms, ids, need)
  {
    assert AnswerIds([]) == [];
    RunFirst(Waiting(ids), ms);
    if need > 0 {
      BrokenStays(ms[1..]);
    } else {
      assert ids == multiset{};
    }
  }

  lemma {:induction false} GatherExpected(ms: seq<Message>, ids: multiset<Option<string>>, need: nat)
    requires ms != [] && ms[0].role == Tool && ms[0].answers in ids && need > 0
    requires GatherFits(ms[1..], ids - multiset{ms[0].answers}, need - 1)
    ensures GatherFits(ms, ids, need)
  {
    var one := multiset{ms[0].answers};
    RunFirst(Waiting(ids), ms);
    var h := Gather(ms[1..], need - 1);
    AnswersFirst(ms[0], h.tools);
    assert one + multiset(AnswerIds(h.tools)) == ids <==> multiset(AnswerIds(h.tools)) == ids - one;
  }

  lemma {:induction false} GatherUnexpected(ms: seq<Message>, ids: multiset<Option<string>>, need: nat)
    requires ms != [] && ms[0].role == Tool && ms[0].answers !in ids
    ensures GatherFits(ms, ids, need)
  {
    RunFirst(Waiting(ids), ms);
    BrokenStays(ms[1..]);
    AnswersFirst(ms[0], Gather(ms[1..], Missing(need, 1)).tools);
    assert ms[0].answers in multiset{ms[0].answers};
  }

  lemma {:induction false} AnswersFirst(m: Message, tools: seq<Message>)
    ensures multiset(AnswerIds([m] + tools)) == multiset{m.answers} + multiset(AnswerIds(tools))
  {
    assert AnswerIds([m] + tools) == [m.answers] + AnswerIds(tools);
  }

  lemma {:induction false} ReorderHead(ms: seq<Message>)
    requires ms != [] && ms[0].role != Tool
    ensures Reorder(ms) != [] && Reorder(ms)[0].role != Tool
  {
    if HasCalls(ms[0]) {
      GatheredKinds(ms[1..], |ms[0].calls|);
    }
  }

  lemma {:induction false} TurnPrefix(m: Message, tools: seq<Message>, rest: seq<Message>)
    requires HasCalls(m)
    requires forall k | 0 <= k < |tools| :: tools[k].role == Tool
    requires rest != [] ==> rest[0].role != Tool
    ensures WellPaired([m] + tools + rest) <==>
            multiset(AnswerIds(tools)) == multiset(CallIds(m.calls)) && WellPaired(rest)
  {
    var n := |m.calls|;
    var turn := [m] + tools + rest;
    if multiset(AnswerIds(tools)) == multiset(CallIds(m.calls)) {
      assert |multiset(AnswerIds(tools))| == |tools| && |multiset(CallIds(m.calls))| == n;
      assert turn[1..n + 1] == tools && turn[n + 1..] == rest;
    } else if |tools| < n {
      assert |turn| > |tools| + 1 ==> turn[|tools| + 1].role != Tool;
      if n < |turn| {
        assert turn[1..n + 1][|tools|] == turn[|tools| + 1];
      }
    } else if |tools| == n {
      assert turn[1..n + 1] == tools;
    } else {
      assert turn[n + 1].role == Tool && turn[n + 1..][0] == turn[n + 1];
    }
  }

  /** The reorder pass yields a well-paired chat exactly when every batch is answered. */
  ghost predicate PairsIff(ms: seq<Message>) {
    WellPaired(Reorder(ms)) <==> Run(SETTLED, ms) == SETTLED
  }

  lemma {:induction false} ReorderPairsIff(ms: seq<Message>)
    ensures PairsIff(ms)
    decreases |ms|
  {
    if ms != [] && HasCalls(ms[0]) {
      ReorderPairsIff(Gather(ms[1..], |ms[0].calls|).rest);
      TurnPairsIff(ms);
    } else if ms != [] {
      ReorderPairsIff(ms[1..]);
      RunFirst(SETTLED, ms);
      assert Reorder(ms)[1..] == Reorder(ms[1..]);
      if ms[0].role == Tool || !Relocatable(ms[0]) {
        BrokenStays(ms[1..]);
      }
    }
  }

  /** The reordered turn is well paired exactly if its tool messages answer its calls. */
  lemma {:induction false} TurnPaired(m: Message, g: Gathered, later: seq<Message>)
    requires HasCalls(m) && (later != [] ==> later[0].role != Tool)
    requires forall k | 0 <= k < |g.moved| :: Relocatable(g.moved[k])
    requires forall k | 0 <= k < |g.tools| :: g.tools[k].role == Tool
    ensures WellPaired(g.moved + ([m] + g.tools) + later) <==>
            multiset(AnswerIds(g.tools)) == multiset(CallIds(m.calls)) && WellPaired(later)
  {
    TurnPrefix(m, g.tools, later);
    PlainPrefix(g.moved, [m] + g.tools + later);
    assert g.moved + ([m] + g.tools) + later == g.moved + ([m] + g.tools + later);
  }

  /** So are the waiting calls of the turn. */
  lemma {:induction false} TurnAnswered(ms: seq<Message>)
    requires ms != [] && HasCalls(ms[0])
    ensures var g := Gather(ms[1..], |ms[0].calls|);
            Run(SETTLED, ms) == SETTLED <==>
            multiset(AnswerIds(g.tools)) == multiset(CallIds(ms[0].calls)) && Run(SETTLED, g.rest) == SETTLED
  {
    var ids := multiset(CallIds(ms[0].calls));
    assert |ids| == |ms[0].calls|;
    GatherAnswers(ms[1..], ids, |ids|);
    RunFirst(SETTLED, ms);
  }

  lemma {:induction false} TurnPairsIff(ms: seq<Message>)
    requires ms != [] && HasCalls(ms[0]) && PairsIff(Gather(ms[1..], |ms[0].calls|).rest)
    ensures PairsIff(ms)
  {
    var g := Gather(ms[1..], |ms[0].calls|);
    GatheredKinds(ms[1..], |ms[0].calls|);
    if g.rest != [] {
      ReorderHead(g.rest);
    }
    TurnPaired(ms[0], g, Reorder(g.rest));
    TurnAnswered(ms);
  }

  predicate NotRelocatable(m: Message) {
    !Relocatable(m)
  }

  lemma {:induction false} FilterFirst(m: Message, ms: seq<Message>, p: Message -> bool)
    ensures Filter([m] + ms, p) == (if p(m) then [m] else []) + Filter(ms, p)
  {
    FilterAppend([m], ms, p);
    FilterAll([m], p, p(m));
  }

  lemma {:induction false} FilterParts(a: seq<Message>, b: seq<Message>, c: seq<Message>, p: Message -> bool, inA: bool)
    requires forall k | 0 <= k < |a| :: p(a[k]) == inA
    requires forall k | 0 <= k < |b| :: p(b[k]) == !inA
    ensures Filter(a + b + c, p) == (if inA then a else b) + Filter(c, p)
  {
    var fa, fb := if inA then a else [], if inA then [] else b;
    assert Filter(a, p) == fa && Filter(b, p) == fb by {
      FilterAll(a, p, inA);
      FilterAll(b, p, !inA);
    }
    FilterAppend(a, b, p);
    FilterAppend(a + b, c, p);
    assert fa + fb == if inA then a else b;
  }

  ghost predicate Parted(ms: seq<Message>, g: Gathered) {
    && Filter(ms, Relocatable) == g.moved + Filter(g.rest, Relocatable)
    && Filter(ms, NotRelocatable) == g.tools + Filter(g.rest, NotRelocatable)
  }

  lemma {:induction false} GatherKeepsOrder(ms: seq<Message>, need: nat)
    ensures Parted(ms, Gather(ms, need))
  {
    if ms == [] {
    } else if ms[0].role == Tool || (Relocatable(ms[0]) && need > 0) {
      var less := if ms[0].role == Tool && need > 0 then need - 1 else need;
      GatherKeepsOrder(ms[1..], less);
      PartOne(ms[0], ms[1..], ms, Gather(ms[1..], less));
    } else {
      assert [] + Filter(ms, Relocatable) == Filter(ms, Relocatable);
      assert [] + Filter(ms, NotRelocatable) == Filter(ms, NotRelocatable);
    }
  }

  lemma {:induction false} PartOne(m: Message, tail: seq<Message>, ms: seq<Message>, h: Gathered)
    requires Parted(tail, h) && ms == [m] + tail
    ensures Relocatable(m) ==> Parted(ms, h.(moved := [m] + h.moved))
    ensures !Relocatable(m) ==> Parted(ms, h.(tools := [m] + h.tools))
  {
    FilterFirst(m, tail, Relocatable);
    FilterFirst(m, tail, NotRelocatable);
    var rest := if Relocatable(m) then Filter(h.rest, Relocatable) else Filter(h.rest, NotRelocatable);
    assert [m] + (h.moved + rest) == [m] + h.moved + rest;
    assert [m] + (h.tools + rest) == [m] + h.tools + rest;
    assert [] + Filter(tail, Relocatable) == Filter(tail, Relocatable);
    assert [] + Filter(tail, NotRelocatable) == Filter(tail, NotRelocatable);
  }

  /** The reorder pass keeps the order of the system and user messages and, separately, the
      order of all other messages. */
  ghost predicate SameOrders(a: seq<Message>, b: seq<Message>) {
    && Filter(a, Relocatable) == Filter(b, Relocatable)
    && Filter(a, NotRelocatable) == Filter(b, NotRelocatable)
  }

  lemma {:induction false} ReorderKeepsOrder(ms: seq<Message>)
    ensures SameOrders(Reorder(ms), ms)
    decreases |ms|
  {
    if ms != [] && HasCalls(ms[0]) {
      var g := Gather(ms[1..], |ms[0].calls|);
      ReorderKeepsOrder(g.rest);
      TurnKeepsOrder(ms[0], ms[1..], g, Reorder(g.rest));
      assert ms == [ms[0]] + ms[1..];
    } else if ms != [] {
      ReorderKeepsOrder(ms[1..]);
      PrependKeepsOrder(ms[0], Reorder(ms[1..]), ms[1..]);
      assert ms == [ms[0]] + ms[1..];
    }
  }

  lemma {:induction false} PrependKeepsOrder(m: Message, a: seq<Message>, b: seq<Message>)
    requires SameOrders(a, b)
    ensures SameOrders([m] + a, [m] + b)
  {
    FilterFirst(m, a, Relocatable);
    FilterFirst(m, a, NotRelocatable);
    FilterFirst(m, b, Relocatable);
    FilterFirst(m, b, NotRelocatable);
  }

  lemma {:induction false} TurnKeepsOrder(m: Message, tail: seq<Message>, g: Gathered, later: seq<Message>)
    requires HasCalls(m) && g == Gather(tail, |m.calls|)
    requires SameOrders(later, g.rest)
    ensures SameOrders(g.moved + ([m] + g.tools) + later, [m] + tail)
  {
    GatheredKinds(tail, |m.calls|);
    GatherKeepsOrder(tail, |m.calls|);
    TurnKeepsMovable(m, tail, g, later);
    TurnKeepsOthers(m, tail, g, later);
  }

  ghost predicate GatheredFrom(tail: seq<Message>, g: Gathered) {
    && (forall k | 0 <= k < |g.moved| :: Relocatable(g.moved[k]))
    && (forall k | 0 <= k < |g.tools| :: g.tools[k].role == Tool)
    && Parted(tail, g)
  }

  lemma {:induction false} TurnKeepsMovable(m: Message, tail: seq<Message>, g: Gathered, later: seq<Message>)
    requires HasCalls(m) && GatheredFrom(tail, g)
    requires Filter(later, Relocatable) == Filter(g.rest, Relocatable)
    ensures Filter(g.moved + ([m] + g.tools) + later, Relocatable) == Filter([m] + tail, Relocatable)
  {
    FilterParts(g.moved, [m] + g.tools, later, Relocatable, true);
    FilterFirst(m, tail, Relocatable);
    assert [] + Filter(tail, Relocatable) == Filter(tail, Relocatable);
  }

  lemma {:induction false} TurnKeepsOthers(m: Message, tail: seq<Message>, g: Gathered, later: seq<Message>)
    requires HasCalls(m) && GatheredFrom(tail, g)
    requires Filter(later, NotRelocatable) == Filter(g.rest, NotRelocatable)
    ensures Filter(g.moved + ([m] + g.tools) + later, NotRelocatable) == Filter([m] + tail, NotRelocatable)
  {
    FilterParts(g.moved, [m] + g.tools, later, NotRelocatable, false);
    FilterFirst(m, tail, NotRelocatable);
    var others := Filter(g.rest, NotRelocatable);
    assert [m] + g.tools + others == [m] + (g.tools + others);
  }

  /** The reorder pass loses and invents nothing. */
  lemma {:induction false} ReorderPermutes(ms: seq<Message>)
    ensures multiset(Reorder(ms)) == multiset(ms)
    decreases |ms|
  {
    if ms != [] {
      assert ms == [ms[0]] + ms[1..];
      if HasCalls(ms[0]) {
        var g := Gather(ms[1..], |ms[0].calls|);
        ReorderPermutes(g.rest);
        GatherPermutes(ms[1..], |ms[0].calls|);
      } else {
        ReorderPermutes(ms[1..]);
      }
    }
  }

  ghost predicate Together(ms: seq<Message>, g: Gathered) {
    multiset(ms) == multiset(g.moved) + multiset(g.tools) + multiset(g.rest)
  }

  lemma {:induction false} TogetherOne(ms: seq<Message>, h: Gathered)
    requires ms != [] && Together(ms[1..], h)
    ensures Together(ms, h.(moved := [ms[0]] + h.moved)) && Together(ms, h.(tools := [ms[0]] + h.tools))
  {
    OneMore(ms[0], h.moved);
    OneMore(ms[0], h.tools);
    OneMore(ms[0], ms[1..]);
    assert ms == [ms[0]] + ms[1..];
  }

  lemma {:induction false} OneMore(m: Message, ms: seq<Message>)
    ensures multiset([m] + ms) == multiset{m} + multiset(ms)
  {
  }

  lemma {:induction false} GatherPermutes(ms: seq<Message>, need: nat)
    ensures Together(ms, Gather(ms, need))
  {
    if ms != [] && (ms[0].role == Tool || (Relocatable(ms[0]) && need > 0)) {
      var less := if ms[0].role == Tool && need > 0 then need - 1 else need;
      GatherPermutes(ms[1..], less);
      TogetherOne(ms, Gather(ms[1..], less));
    }
  }

  lemma {:induction false} GatherExact(tools: seq<Message>, rest: seq<Message>)
    requires forall k | 0 <= k < |tools| :: tools[k].role == Tool
    requires rest != [] ==> rest[0].role != Tool
    ensures Gather(tools + rest, |tools|) == Gathered([], tools, rest)
  {
    if tools == [] {
      assert tools + rest == rest;
    } else {
      GatherExact(tools[1..], rest);
      assert (tools + rest)[1..] == tools[1..] + rest;
    }
  }

  /** A chat that needs no repair is left as it is; so the pass is idempotent on answered batches. */
  lemma {:induction false} ReorderKeepsPaired(ms: seq<Message>)
    requires WellPaired(ms)
    ensures Reorder(ms) == ms
    decreases |ms|
  {
    if ms != [] {
      if HasCalls(ms[0]) {
        var n := |ms[0].calls|;
        var tools, rest := ms[1..n + 1], ms[n + 1..];
        assert ms[1..] == tools + rest && ms == [] + ([ms[0]] + tools) + rest;
        GatherExact(tools, rest);
        ReorderKeepsPaired(rest);
      } else {
        ReorderKeepsPaired(ms[1..]);
      }
    }
  }

  // ---- The whole translation ----

  lemma {:induction false} FilterWithin<T>(s: seq<T>, p: T -> bool, q: T -> bool)
    requires forall x | x in s :: p(x) ==> q(x)
    ensures Filter(Filter(s, q), p) == Filter(s, p)
  {
    if s != [] {
      var init, last := s[..|s| - 1], s[|s| - 1];
      FilterWithin(init, p, q);
      FilterAppend(Filter(init, q), if q(last) then [last] else [], p);
      assert [last][..0] == [];
    }
  }

  lemma {:induction false} FilterMember<T>(s: seq<T>, p: T -> bool, x: T)
    ensures x in Filter(s, p) <==> x in s && p(x)
  {
    if s != [] {
      FilterMember(s[..|s| - 1], p, x);
      assert s == s[..|s| - 1] + [s[|s| - 1]];
    }
  }

  lemma {:induction false} CallsWithin(ms: seq<Message>, q: Message -> bool)
    requires forall m | m in ms :: HasCalls(m) ==> q(m)
    ensures AllCalls(Filter(ms, q)) == AllCalls(ms)
  {
    if ms != [] {
      var init, last := ms[..|ms| - 1], ms[|ms| - 1];
      CallsWithin(init, q);
      AllCallsAppend(Filter(init, q), if q(last) then [last] else []);
      assert [last][..0] == [];
    }
  }

  /** What the chat must say about the calls, whatever became of the other messages. */
  ghost predicate SameCalls(chat: seq<Message>, ms: seq<Message>) {
    && AllCalls(chat) == AllCalls(ms)
    && Filter(chat, IsTool) == Filter(ms, IsTool)
    && ((forall m | m in ms :: Reasoned(m)) ==> forall m | m in chat :: Reasoned(m))
  }

  lemma {:induction false} MergeKeepsCalls(merged: seq<Message>, ms: seq<Message>)
    requires MergedFrom(merged, ms)
    ensures SameCalls(merged, ms)
  {
    CallsWithin(merged, SpecialMessage);
    CallsWithin(ms, SpecialMessage);
    FilterWithin(merged, IsTool, SpecialMessage);
    FilterWithin(ms, IsTool, SpecialMessage);
    forall m | m in merged && (forall x | x in ms :: Reasoned(x)) ensures Reasoned(m) {
      FilterMember(merged, SpecialMessage, m);
      FilterMember(ms, SpecialMessage, m);
    }
  }

  lemma {:induction false} ReorderKeepsCalls(ms: seq<Message>)
    ensures SameCalls(Reorder(ms), ms)
  {
    ReorderKeepsOrder(ms);
    ReorderPermutes(ms);
    CallsWithin(Reorder(ms), NotRelocatable);
    CallsWithin(ms, NotRelocatable);
    FilterWithin(Reorder(ms), IsTool, NotRelocatable);
    FilterWithin(ms, IsTool, NotRelocatable);
    forall m | m in Reorder(ms) && (forall x | x in ms :: Reasoned(x)) ensures Reasoned(m) {
      assert m in multiset(Reorder(ms));
    }
  }

  // ---- The voices of the whole chat ----

  /** The characters that system and user speak, or those of all others. */
  function Channel(v: Voice, free: bool): Voice {
    if v == [] then []
    else
      var last := v[|v| - 1];
      Channel(v[..|v| - 1], free) + (if (last.role == System || last.role == User) == free then [last] else [])
  }

  /** The same said by system and user, in order, and the same by all others. */
  ghost predicate SameVoices(a: Voice, b: Voice) {
    Channel(a, true) == Channel(b, true) && Channel(a, false) == Channel(b, false)
  }

  lemma {:induction false} ChannelAppend(a: Voice, b: Voice, free: bool)
    ensures Channel(a + b, free) == Channel(a, free) + Channel(b, free)
  {
    if b == [] {
      assert a + b == a;
    } else {
      ChannelAppend(a, b[..|b| - 1], free);
      assert (a + b)[..|a + b| - 1] == a + b[..|b| - 1];
    }
  }

  lemma {:induction false} ChannelSpoken(role: Role, text: string, free: bool)
    ensures Channel(Spoken(role, text), free) ==
              if (role == System || role == User) == free then Spoken(role, text) else []
  {
    if text != "" {
      ChannelSpoken(role, text[..|text| - 1], free);
    }
  }

  /** The same, message by message. */
  function ChannelOf(ms: seq<Message>, free: bool): Voice {
    if ms == [] then []
    else
      var m := ms[|ms| - 1];
      ChannelOf(ms[..|ms| - 1], free) + (if Relocatable(m) == free then Spoken(m.role, ContentText(m.content)) else [])
  }

  lemma {:induction false} ChannelIs(ms: seq<Message>, free: bool)
    ensures Channel(Voices(ms), free) == ChannelOf(ms, free)
  {
    if ms != [] {
      var init, m := ms[..|ms| - 1], ms[|ms| - 1];
      ChannelIs(init, free);
      ChannelAppend(Voices(init), Spoken(m.role, ContentText(m.content)), free);
      ChannelSpoken(m.role, ContentText(m.content), free);
    }
  }

  lemma {:induction false} FilterPush(ms: seq<Message>, m: Message, p: Message -> bool)
    ensures Filter(ms + [m], p) == if p(m) then Filter(ms, p) + [m] else Filter(ms, p)
  {
    assert (ms + [m])[..|ms|] == ms;
  }

  lemma {:induction false} ChannelPush(ms: seq<Message>, m: Message, free: bool)
    ensures ChannelOf(ms + [m], free) ==
              if Relocatable(m) == free then ChannelOf(ms, free) + Spoken(m.role, ContentText(m.content))
                  else ChannelOf(ms, free)
  {
    assert (ms + [m])[..|ms|] == ms;
  }

  lemma {:induction false} ChannelFilter(ms: seq<Message>, free: bool, p: Message -> bool)
    requires forall m :: p(m) <==> Relocatable(m) == free
    ensures ChannelOf(ms, free) == Voices(Filter(ms, p))
  {
    if ms != [] {
      var init, m := ms[..|ms| - 1], ms[|ms| - 1];
      ChannelFilter(init, free, p);
      assert ms == init + [m];
      ChannelPush(init, m, free);
      FilterPush(init, m, p);
      VoicesPush(Filter(init, p), m);
    }
  }

  lemma {:induction false} ReorderKeepsVoices(ms: seq<Message>)
    ensures SameVoices(Voices(Reorder(ms)), Voices(ms))
  {
    ReorderKeepsOrder(ms);
    ChannelIs(ms, true);
    ChannelIs(ms, false);
    ChannelIs(Reorder(ms), true);
    ChannelIs(Reorder(ms), false);
    ChannelFilter(ms, true, Relocatable);
    ChannelFilter(ms, false, NotRelocatable);
    ChannelFilter(Reorder(ms), true, Relocatable);
    ChannelFilter(Reorder(ms), false, NotRelocatable);
  }

  lemma {:induction false} PushSaid(ms: seq<Message>, said: Voice, m: Message)
    requires SameVoices(Voices(ms), said)
    ensures SameVoices(Voices(ms + [m]), said + Spoken(m.role, ContentText(m.content)))
  {
    var more := Spoken(m.role, ContentText(m.content));
    VoicesPush(ms, m);
    ChannelAppend(Voices(ms), more, true);
    ChannelAppend(Voices(ms), more, false);
    ChannelAppend(said, more, true);
    ChannelAppend(said, more, false);
  }

  /** What the translator itself says, before and behind the conversation. */
  function Opening(cfg: Config, body: Request): seq<Message> {
    (if body.instructions != "" then [SystemMessage(cfg.bound(Plain(body.instructions)))] else [])
    + (if body.directToolSearch then [SystemMessage(Plain(cfg.toolSearchDirective))] else [])
  }

  function Directive(due: bool, directive: string): Voice {
    if due then Spoken(System, directive) else []
  }

  /** With tools at hand two directives follow the conversation. */
  function Directed(cfg: Config, body: Request, said: Voice): Voice {
    said + Directive(body.hasTools && cfg.nudgeRetries > 0, cfg.executionDirective)
    + Directive(body.hasTools && cfg.loopDirective != "", cfg.loopDirective)
  }

  function Said(cfg: Config, body: Request): Voice {
    Voices(Opening(cfg, body)) + InputVoices(cfg, body.items)
  }

  /** Same calls, same pairing. */
  ghost predicate Extends(messages: seq<Message>, chat: seq<Message>) {
    SameCalls(messages, chat) && (WellPaired(messages) <==> WellPaired(chat))
  }

  lemma {:induction false} ExtendsTwice(a: seq<Message>, b: seq<Message>, c: seq<Message>)
    requires Extends(c, b) && Extends(b, a)
    ensures Extends(c, a)
  {
  }

  lemma {:induction false} PushSystem(ms: seq<Message>, content: Content)
    ensures Extends(ms + [SystemMessage(content)], ms)
  {
    PushMessage(ms, SystemMessage(content));
    if WellPaired(ms) {
      WellPairedPush(ms, SystemMessage(content));
    } else {
      UnpairedPush(ms, SystemMessage(content));
    }
  }

  lemma {:induction false} UnpairedPush(ms: seq<Message>, m: Message)
    requires !WellPaired(ms) && m.role == System
    ensures !WellPaired(ms + [m])
    decreases |ms|
  {
    if ms[0].role != Tool {
      var n := if HasCalls(ms[0]) then |ms[0].calls| else 0;
      if n < |ms| {
        assert (ms + [m])[1..n + 1] == ms[1..n + 1];
        if WellPaired(ms[n + 1..]) {
        } else {
          UnpairedPush(ms[n + 1..], m);
          assert (ms + [m])[n + 1..] == ms[n + 1..] + [m];
        }
      } else if n == |ms| {
        assert (ms + [m])[1..n + 1][n - 1] == m;
      }
    }
  }

  lemma {:induction false} StartCollected(cfg: Config, initial: seq<Message>, content: Content)
    requires Collected(cfg, [], initial)
    ensures Collected(cfg, [], initial + [SystemMessage(content)])
  {
    PushMessage(initial, SystemMessage(content));
  }

  method OpeningMessages(cfg: Config, body: Request) returns (initial: seq<Message>)
    ensures initial == Opening(cfg, body) && Collected(cfg, [], initial)
  {
    initial := [];
    if body.instructions != "" {
      StartCollected(cfg, initial, cfg.bound(Plain(body.instructions)));
      initial := initial + [SystemMessage(cfg.bound(Plain(body.instructions)))];
    }
    if body.directToolSearch {
      StartCollected(cfg, initial, Plain(cfg.toolSearchDirective));
      initial := initial + [SystemMessage(Plain(cfg.toolSearchDirective))];
    }
  }

  method AddDirectives(cfg: Config, body: Request, chat: seq<Message>, ghost said: Voice)
    returns (messages: seq<Message>)
    requires SameVoices(Voices(chat), said) && chat != []
    ensures Extends(messages, chat) && messages != []
    ensures SameVoices(Voices(messages), Directed(cfg, body, said))
  {
    var nudge, loop := body.hasTools && cfg.nudgeRetries > 0, body.hasTools && cfg.loopDirective != "";
    var one := AddDirective(chat, nudge, cfg.executionDirective, said);
    ghost var heard := said + Directive(nudge, cfg.executionDirective);
    messages := AddDirective(one, loop, cfg.loopDirective, heard);
    assert heard + Directive(loop, cfg.loopDirective) == Directed(cfg, body, said);
    ExtendsTwice(chat, one, messages);
  }

  method AddDirective(chat: seq<Message>, due: bool, directive: string, ghost said: Voice)
    returns (messages: seq<Message>)
    requires chat != [] && SameVoices(Voices(chat), said)
    ensures Extends(messages, chat) && messages != []
    ensures SameVoices(Voices(messages), said + Directive(due, directive))
  {
    messages := chat;
    if due {
      PushSystem(chat, Plain(directive));
      PushSaid(chat, said, SystemMessage(Plain(directive)));
      messages := chat + [SystemMessage(Plain(directive))];
    } else {
      assert said + [] == said;
    }
  }

  method TranslateRequest(cfg: Config, body: Request) returns (messages: seq<Message>)
    requires cfg.fallbackReasoning != ""
    ensures WellPaired(messages) <==> BatchesAnswered(body.items)
    ensures AllCalls(messages) == InputCalls(cfg, body.items)
    ensures Filter(messages, IsTool) == InputOutputs(body.items)
    ensures forall m | m in messages :: HasCalls(m) ==> m.reasoning != ""
    ensures SameVoices(Voices(messages),
              if messages == [] then Said(cfg, body) else Directed(cfg, body, Said(cfg, body)))
  {
    messages := TranslateItems(cfg, body);
    if |messages| > 0 {
      messages := AddDirectives(cfg, body, messages, Said(cfg, body));
    }
  }

  /** Collect, merge, reorder. */
  method TranslateItems(cfg: Config, body: Request) returns (chat: seq<Message>)
    requires cfg.fallbackReasoning != ""
    ensures WellPaired(chat) <==> BatchesAnswered(body.items)
    ensures AllCalls(chat) == InputCalls(cfg, body.items)
    ensures Filter(chat, IsTool) == InputOutputs(body.items)
    ensures forall m | m in chat :: HasCalls(m) ==> m.reasoning != ""
    ensures SameVoices(Voices(chat), Said(cfg, body))
  {
    var initial := OpeningMessages(cfg, body);
    var collected := CollectMessages(cfg, body.items, initial);
    var merged := MergeRuns(collected);
    MergeKeepsCalls(merged, collected);
    chat := ReorderMessages(merged);
    ReorderPairsIff(merged);
    ReorderKeepsCalls(merged);
    ReorderKeepsVoices(merged);
  }
}
