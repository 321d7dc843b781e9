/** Context compaction: the oldest messages are replaced by one summary. */
module Compaction {
  import opened Common
  import opened Chat

  // ---- Token estimates ----

  function Count(s: string): nat {
    (|s| + 3) / 4
  }

  function PartsTokens(parts: seq<Part>): nat {
    if parts == [] then 0
    else PartsTokens(parts[1..]) + (if parts[0].Text? then Count(parts[0].text) else 0)
  }

  function CallTokens(calls: seq<Call>): nat {
    if calls == [] then 0
    else CallTokens(calls[1..]) + Count(calls[0].name) + Count(calls[0].args) + 6
  }

  function EstimateTokens(m: Message): nat {
    4 + (match m.content case Plain(text) => Count(text) case Parts(parts) => PartsTokens(parts))
    + CallTokens(m.calls) + Count(m.reasoning)
  }

  /** The messages from k on. */
  function SumTokens(ms: seq<Message>, k: nat): nat
    requires k <= |ms|
    decreases |ms| - k
  {
    if k == |ms| then 0 else EstimateTokens(ms[k]) + SumTokens(ms, k + 1)
  }

  /** Messages plus the tool definitions, given by the length of their encoding. */
  function TotalTokens(ms: seq<Message>, toolsLength: nat): nat {
    SumTokens(ms, 0) + (if toolsLength > 0 then (toolsLength + 3) / 4 + 4 else 0)
  }

  function Round(x: real): int {
    (x + 0.5).Floor
  }

  function RealTokens(ms: seq<Message>, toolsLength: nat, ratio: real): int {
    Round(TotalTokens(ms, toolsLength) as real * ratio)
  }

  // ---- Compaction ----

  datatype Settings = Settings(disabled: bool, safetyFactor: real, contextLimit: nat, keepTokens: nat)

  class ChatRequest {
    var messages: seq<Message>
    const toolsLength: nat

    constructor (messages: seq<Message>, toolsLength: nat)
      ensures this.messages == messages && this.toolsLength == toolsLength
    {
      this.messages, this.toolsLength := messages, toolsLength;
    }
  }

  /** Number of leading system messages. */
  function Lead(ms: seq<Message>): (n: nat)
    ensures n <= |ms|
    ensures forall k | 0 <= k < n :: ms[k].role == System
    ensures n < |ms| ==> ms[n].role != System
  {
    if ms == [] || ms[0].role != System then 0 else 1 + Lead(ms[1..])
  }

  function NonSystemCount(ms: seq<Message>): nat {
    if ms == [] then 0 else NonSystemCount(ms[1..]) + (if ms[0].role != System then 1 else 0)
  }

  predicate EmergencyApplies(ms: seq<Message>, toolsLength: nat, emergency: bool) {
    emergency && NonSystemCount(ms) > 8 && TotalTokens(ms, toolsLength) > 20000
  }

  /** Compaction runs when the real size is over the limit in force, or in an emergency. */
  predicate Triggered(s: Settings, ms: seq<Message>, toolsLength: nat, ratio: real, emergency: bool) {
    var safetyNet := s.disabled && s.safetyFactor > 0.0;
    var limit := if safetyNet then Round(s.contextLimit as real * s.safetyFactor) else s.contextLimit;
    EmergencyApplies(ms, toolsLength, emergency) ||
    (RealTokens(ms, toolsLength, ratio) > limit && (!s.disabled || safetyNet))
  }

  function SummaryMessages(summary: string): seq<Message> {
    if summary == "" then []
    else [Message(System, Plain("[Resumen de la conversación anterior]\n" + summary), [], None, "")]
  }

  /** The leading system messages, an optional summary, and a suffix of the old list. */
  ghost predicate CompactedAt(before: seq<Message>, after: seq<Message>, summary: string, cut: nat) {
    && Lead(before) <= cut <= |before|
    && after == before[..Lead(before)] + SummaryMessages(summary) + before[cut..]
    && (WellPaired(before) ==> cut == |before| || before[cut].role != Tool)
    && (WellPaired(before) && Lead(before) < |before| ==> cut < |before|)
  }

  ghost predicate Compacts(before: seq<Message>, after: seq<Message>) {
    after == before || exists summary: string, cut: nat :: CompactedAt(before, after, summary, cut)
  }

  /** The budget cut of the messages behind the head: what follows fits, one more would not. */
  ghost predicate BudgetCut(body: seq<Message>, keepTokens: nat, c: nat) {
    && c <= |body| && (body != [] ==> c < |body|)
    && (SumTokens(body, c) <= keepTokens || c + 1 == |body|)
    && (c > 0 ==> SumTokens(body, c - 1) > keepTokens)
  }

  /** A cut in front of a tool message moves back to the assistant message it answers. */
  function TurnStart(body: seq<Message>, c: nat): (d: nat)
    ensures d <= c
  {
    if 0 < c < |body| && body[c].role == Tool then TurnStart(body, c - 1) else c
  }

  function SkipOrphans(body: seq<Message>, c: nat): (d: nat)
    ensures c <= d && (c <= |body| ==> d <= |body|)
    decreases |body| - c
  {
    if c < |body| && body[c].role == Tool then SkipOrphans(body, c + 1) else c
  }

  /** The messages kept as they are: from the budget cut on, minus dropped plain messages. */
  ghost predicate Kept(body: seq<Message>, keepTokens: nat, c: nat, dropped: nat, kept: seq<Message>) {
    BudgetCut(body, keepTokens, c) && KeptBehind(body, SkipOrphans(body, TurnStart(body, c)), dropped, kept)
  }

  /** What is left of the messages from first on without some plain ones in front. */
  ghost predicate KeptBehind(body: seq<Message>, first: nat, dropped: nat, kept: seq<Message>) {
    && first + dropped <= |body| && kept == body[first + dropped..]
    && (forall k | first <= k < first + dropped :: !HasCalls(body[k]))
    && (dropped > 0 ==> kept != [])
  }

  /** A compaction that runs leaves the head, a summary when anything was cut off, and the
      kept messages; it drops kept messages only while the result is too large. */
  ghost predicate FullyCompacted(s: Settings, before: seq<Message>, after: seq<Message>, toolsLength: nat,
      ratio: real, summary: string, c: nat, dropped: nat, kept: seq<Message>) {
    var head, body := before[..Lead(before)], before[Lead(before)..];
    && Kept(body, s.keepTokens, c, dropped, kept)
    && after == head + SummaryMessages(if TurnStart(body, c) > 0 then summary else "") + kept
    && (RealTokens(after, toolsLength, ratio) <= s.contextLimit || |kept| <= 1 || HasCalls(kept[0]) || dropped == 200)
  }

  /** The newest messages that fit the budget, and at least one: one more would not fit. */
  method SelectRecent(body: seq<Message>, keepTokens: nat) returns (recent: seq<Message>)
    ensures |recent| <= |body| && recent == body[|body| - |recent|..]
    ensures BudgetCut(body, keepTokens, |body| - |recent|)
  {
    recent := [];
    var used := 0;
    var j := |body|;
    while j > 0
      invariant 0 <= j <= |body| && recent == body[j..] && used == SumTokens(body, j)
      invariant used <= keepTokens || |recent| == 1
    {
      var t := EstimateTokens(body[j - 1]);
      if used + t > keepTokens && |recent| > 0 {
        break;
      }
      recent := [body[j - 1]] + recent;
      used := used + t;
      j := j - 1;
    }
  }

  /** A tool message at the cut pulls its assistant message down with it; orphans go. */
  method RepairBoundary(body: seq<Message>, selected: seq<Message>)
    returns (history: seq<Message>, recent: seq<Message>)
    requires |selected| <= |body| && selected == body[|body| - |selected|..]
    requires body != [] ==> selected != []
    ensures history == body[..TurnStart(body, |body| - |selected|)]
    ensures recent == body[SkipOrphans(body, TurnStart(body, |body| - |selected|))..]
  {
    history, recent := PullTurn(body, selected);
    recent := DropOrphans(body, recent);
  }

  method PullTurn(body: seq<Message>, selected: seq<Message>) returns (history: seq<Message>, recent: seq<Message>)
    requires |selected| <= |body| && selected == body[|body| - |selected|..]
    requires body != [] ==> selected != []
    ensures history == body[..TurnStart(body, |body| - |selected|)]
    ensures recent == body[TurnStart(body, |body| - |selected|)..]
  {
    recent := selected;
    history := body[..|body| - |recent|];
    while |recent| > 0 && recent[0].role == Tool && |history| > 0
      invariant |history| <= |body| && recent == body[|history|..] && history == body[..|history|]
      invariant TurnStart(body, |history|) == TurnStart(body, |body| - |selected|)
      decreases |history|
    {
      CutEarlier(body, |history|);
      var lastOld := history[|history| - 1];
      history := history[..|history| - 1];
      recent := [lastOld] + recent;
    }
  }

  method DropOrphans(body: seq<Message>, kept: seq<Message>) returns (recent: seq<Message>)
    requires |kept| <= |body| && kept == body[|body| - |kept|..]
    ensures recent == body[SkipOrphans(body, |body| - |kept|)..]
  {
    recent := kept;
    while |recent| > 0 && recent[0].role == Tool
      invariant |recent| <= |body| && recent == body[|body| - |recent|..]
      invariant SkipOrphans(body, |body| - |recent|) == SkipOrphans(body, |body| - |kept|)
    {
      CutLater(body, |body| - |recent|);
      recent := recent[1..];
    }
  }

  lemma {:induction false} CutEarlier(body: seq<Message>, c: nat)
    requires 0 < c <= |body|
    ensures body[..c][..c - 1] == body[..c - 1] && [body[c - 1]] + body[c..] == body[c - 1..]
  {
  }

  lemma {:induction false} CutLater(body: seq<Message>, c: nat)
    requires c < |body|
    ensures body[c..][1..] == body[c + 1..]
  {
  }

  lemma {:induction false} CutIsTurn(body: seq<Message>, c: nat)
    requires c <= |body|
    ensures var d := SkipOrphans(body, TurnStart(body, c)); d < |body| ==> body[d].role != Tool
    ensures body != [] && body[0].role != Tool && c < |body| ==>
              SkipOrphans(body, TurnStart(body, c)) == TurnStart(body, c)
  {
    SkipEnds(body, TurnStart(body, c));
    StartEnds(body, c);
  }

  lemma {:induction false} SkipEnds(body: seq<Message>, c: nat)
    requires c <= |body|
    ensures SkipOrphans(body, c) < |body| ==> body[SkipOrphans(body, c)].role != Tool
    decreases |body| - c
  {
    if c < |body| && body[c].role == Tool {
      SkipEnds(body, c + 1);
    }
  }

  lemma {:induction false} StartEnds(body: seq<Message>, c: nat)
    requires c <= |body|
    ensures var d := TurnStart(body, c); d == 0 || d == |body| || body[d].role != Tool
  {
    if 0 < c < |body| && body[c].role == Tool {
      StartEnds(body, c - 1);
    }
  }

  lemma {:induction false} NextTurn(before: seq<Message>, k: nat)
    requires WellPaired(before) && k + 1 < |before|
    requires before[k].role != Tool && !HasCalls(before[k])
    ensures before[k + 1].role != Tool
  {
    CutAtTurn(before, k);
    assert WellPaired(before[k..][1..]);
    assert before[k..][1] == before[k + 1];
  }

  method IsDue(s: Settings, messages: seq<Message>, toolsLength: nat, ratio: real, emergency: bool) returns (due: bool)
    ensures due == Triggered(s, messages, toolsLength, ratio, emergency)
  {
    var total := TotalTokens(messages, toolsLength);
    var totalReal := RealTokens(messages, toolsLength, ratio);
    var emergencyCompaction := emergency && NonSystemCount(messages) > 8 && total > 20000;
    var safetyNet := s.disabled && s.safetyFactor > 0.0;
    var effectiveLimit := if safetyNet then Round(s.contextLimit as real * s.safetyFactor) else s.contextLimit;
    if totalReal <= effectiveLimit && !emergencyCompaction {
      return false;
    }
    due := !(s.disabled && !safetyNet && !emergencyCompaction);
  }

  /** Mutates the request as the original does. `summary` is whatever the summariser gives. */
  method CompactContext(s: Settings, chat: ChatRequest, ratio: real, emergency: bool, summary: string)
    modifies chat
    ensures if Triggered(s, old(chat.messages), chat.toolsLength, ratio, emergency) then
              exists c, dropped, kept ::
                FullyCompacted(s, old(chat.messages), chat.messages, chat.toolsLength, ratio, summary, c, dropped, kept)
            else chat.messages == old(chat.messages)
    ensures Compacts(old(chat.messages), chat.messages)
    ensures WellPaired(old(chat.messages)) ==> WellPaired(chat.messages)
  {
    var due := IsDue(s, chat.messages, chat.toolsLength, ratio, emergency);
    if due {
      ghost var before := chat.messages;
      ghost var c, dropped, kept;
      chat.messages, c, dropped, kept := Compacted(s, chat.messages, chat.toolsLength, ratio, summary);
      FullyCompactedKeeps(s, before, chat.messages, chat.toolsLength, ratio, summary, c, dropped, kept);
    }
  }

  method Compacted(s: Settings, messages: seq<Message>, toolsLength: nat, ratio: real, summary: string)
    returns (compacted: seq<Message>, ghost c: nat, ghost dropped: nat, ghost kept: seq<Message>)
    ensures FullyCompacted(s, messages, compacted, toolsLength, ratio, summary, c, dropped, kept)
  {
    var headSystems, body := SplitHead(messages);
    var history, recent, remaining;
    history, recent, c := KeepRecent(body, s.keepTokens);
    var shown := SummaryMessages(if |history| > 0 then summary else "");
    ghost var first := SkipOrphans(body, TurnStart(body, c));
    remaining, dropped := DropSome(s, toolsLength, ratio, headSystems, shown, recent, body, first);
    compacted := headSystems + shown + remaining;
    kept := remaining;
  }

  method KeepRecent(body: seq<Message>, keepTokens: nat)
    returns (history: seq<Message>, recent: seq<Message>, ghost c: nat)
    ensures BudgetCut(body, keepTokens, c) && |history| == TurnStart(body, c)
    ensures recent == body[SkipOrphans(body, TurnStart(body, c))..]
  {
    var selected := SelectRecent(body, keepTokens);
    c := |body| - |selected|;
    history, recent := RepairBoundary(body, selected);
  }

  lemma {:induction false} DroppedFrom(body: seq<Message>, first: nat, dropped: nat)
    requires first + dropped <= |body|
    requires forall k | 0 <= k < dropped :: !HasCalls(body[first..][k])
    ensures body[first..][dropped..] == body[first + dropped..]
    ensures forall k | first <= k < first + dropped :: !HasCalls(body[k])
  {
    forall k | first <= k < first + dropped
      ensures !HasCalls(body[k])
    {
      assert body[first..][k - first] == body[k];
    }
  }

  method SplitHead(messages: seq<Message>) returns (headSystems: seq<Message>, body: seq<Message>)
    ensures headSystems == messages[..Lead(messages)] && body == messages[Lead(messages)..]
  {
    var i := 0;
    headSystems := [];
    while i < |messages| && messages[i].role == System
      invariant i <= Lead(messages) && headSystems == messages[..i]
    {
      headSystems := headSystems + [messages[i]];
      i := i + 1;
    }
    body := messages[i..];
  }

  lemma {:induction false} BodyStartsTurn(messages: seq<Message>)
    requires WellPaired(messages)
    ensures Lead(messages) < |messages| ==> messages[Lead(messages)].role != Tool
    ensures WellPaired(messages[Lead(messages)..])
  {
    var lead := Lead(messages);
    assert messages == messages[..lead] + messages[lead..];
    PlainPrefix(messages[..lead], messages[lead..]);
  }

  /** While the result is too large, drop the oldest kept message unless it heads a tool turn. */
  method DropOldest(s: Settings, toolsLength: nat, ratio: real, headSystems: seq<Message>, shown: seq<Message>,
      kept: seq<Message>) returns (recent: seq<Message>)
    ensures |recent| <= |kept| && recent == kept[|kept| - |recent|..]
    ensures |recent| < |kept| ==> recent != []
    ensures forall k | 0 <= k < |kept| - |recent| :: !HasCalls(kept[k])
    ensures RealTokens(headSystems + shown + recent, toolsLength, ratio) <= s.contextLimit || |recent| <= 1 ||
            HasCalls(recent[0]) || |kept| - |recent| == 200
  {
    recent := kept;
    ghost var dropped := 0;
    var guard := 0;
    while RealTokens(headSystems + shown + recent, toolsLength, ratio) > s.contextLimit && |recent| > 1 && guard < 200
      invariant guard == dropped <= 200 && dropped <= |kept| && recent == kept[dropped..]
      invariant dropped > 0 ==> recent != []
      invariant forall k | 0 <= k < dropped :: !HasCalls(kept[k])
      decreases |recent|
    {
      guard := guard + 1;
      var first := recent[0];
      if HasCalls(first) {
        break;
      }
      recent := recent[1..];
      dropped := dropped + 1;
    }
  }

  method DropSome(s: Settings, toolsLength: nat, ratio: real, headSystems: seq<Message>, shown: seq<Message>,
      kept: seq<Message>, ghost body: seq<Message>, ghost first: nat)
    returns (recent: seq<Message>, ghost dropped: nat)
    requires first <= |body| && kept == body[first..]
    ensures KeptBehind(body, first, dropped, recent)
    ensures RealTokens(headSystems + shown + recent, toolsLength, ratio) <= s.contextLimit || |recent| <= 1 ||
            HasCalls(recent[0]) || dropped == 200
  {
    recent := DropOldest(s, toolsLength, ratio, headSystems, shown, kept);
    dropped := |kept| - |recent|;
    DroppedFrom(body, first, dropped);
  }

  // ---- What compaction keeps ----

  lemma {:induction false} CompactedPairs(before: seq<Message>, after: seq<Message>, summary: string, cut: nat)
    requires CompactedAt(before, after, summary, cut)
    ensures Compacts(before, after)
    ensures WellPaired(before) ==> WellPaired(after)
  {
    if WellPaired(before) {
      CutAtTurn(before, cut);
      PlainPrefix(before[..Lead(before)] + SummaryMessages(summary), before[cut..]);
    }
  }

  /** Behind the first kept turn only plain messages were dropped, so a turn starts there too. */
  lemma {:induction false} DroppedToTurn(body: seq<Message>, first: nat, dropped: nat)
    requires WellPaired(body) && first + dropped <= |body|
    requires first < |body| ==> body[first].role != Tool
    requires forall k | first <= k < first + dropped :: !HasCalls(body[k])
    ensures first + dropped < |body| ==> body[first + dropped].role != Tool
  {
    if dropped > 0 {
      DroppedToTurn(body, first, dropped - 1);
      if first + dropped < |body| {
        NextTurn(body, first + dropped - 1);
      }
    }
  }

  lemma {:induction false} KeptIsTurn(body: seq<Message>, keepTokens: nat, c: nat, dropped: nat, kept: seq<Message>)
    requires Kept(body, keepTokens, c, dropped, kept) && WellPaired(body)
    ensures kept != [] ==> kept[0].role != Tool
    ensures body != [] ==> kept != []
  {
    CutIsTurn(body, c);
    DroppedToTurn(body, SkipOrphans(body, TurnStart(body, c)), dropped);
  }

  lemma {:induction false} FullyCompactedKeeps(s: Settings, before: seq<Message>, after: seq<Message>,
      toolsLength: nat, ratio: real, summary: string, c: nat, dropped: nat, kept: seq<Message>)
    requires FullyCompacted(s, before, after, toolsLength, ratio, summary, c, dropped, kept)
    ensures Compacts(before, after)
    ensures WellPaired(before) ==> WellPaired(after)
  {
    var shown := if TurnStart(before[Lead(before)..], c) > 0 then summary else "";
    KeptOf(before, s.keepTokens, c, dropped, kept);
    SuffixKept(before, after, shown, kept);
    CompactedPairs(before, after, shown, |before| - |kept|);
  }

  lemma {:induction false} SuffixKept(before: seq<Message>, after: seq<Message>, shown: string, kept: seq<Message>)
    requires |kept| <= |before| - Lead(before) && kept == before[|before| - |kept|..]
    requires after == before[..Lead(before)] + SummaryMessages(shown) + kept
    requires WellPaired(before) ==> kept == [] || kept[0].role != Tool
    requires WellPaired(before) && Lead(before) < |before| ==> kept != []
    ensures CompactedAt(before, after, shown, |before| - |kept|)
  {
    assert kept != [] ==> kept[0] == before[|before| - |kept|];
  }

  /** The kept messages as a suffix of the whole list. */
  lemma {:induction false} KeptOf(before: seq<Message>, keepTokens: nat, c: nat, dropped: nat, kept: seq<Message>)
    requires Kept(before[Lead(before)..], keepTokens, c, dropped, kept)
    ensures |kept| <= |before| - Lead(before) && kept == before[|before| - |kept|..]
    ensures WellPaired(before) ==> kept == [] || kept[0].role != Tool
    ensures WellPaired(before) && Lead(before) < |before| ==> kept != []
  {
    if WellPaired(before) {
      BodyStartsTurn(before);
      KeptIsTurn(before[Lead(before)..], keepTokens, c, dropped, kept);
    }
  }

  lemma {:induction false} LeadOfPrefix(head: seq<Message>, ms: seq<Message>)
    requires forall k | 0 <= k < |head| :: head[k].role == System
    requires head <= ms
    ensures Lead(ms) >= |head|
  {
    if head != [] {
      LeadOfPrefix(head[1..], ms[1..]);
    }
  }

  /** Pairing and the head survive, and no system message in front is ever lost. */
  lemma {:induction false} CompactsKeeps(before: seq<Message>, after: seq<Message>)
    requires Compacts(before, after)
    ensures WellPaired(before) ==> WellPaired(after)
    ensures before[..Lead(before)] <= after[..Lead(after)]
    ensures WellPaired(before) && Lead(before) < |before| ==> after != [] && after[|after| - 1] == before[|before| - 1]
  {
    if after != before {
      var summary: string, cut: nat :| CompactedAt(before, after, summary, cut);
      CompactedPairs(before, after, summary, cut);
      KeepsEnds(before, after, summary, cut);
    }
  }

  lemma {:induction false} KeepsEnds(before: seq<Message>, after: seq<Message>, summary: string, cut: nat)
    requires CompactedAt(before, after, summary, cut)
    ensures before[..Lead(before)] <= after[..Lead(after)]
    ensures WellPaired(before) && Lead(before) < |before| ==> after != [] && after[|after| - 1] == before[|before| - 1]
  {
    var head := before[..Lead(before)];
    assert head <= after;
    LeadOfPrefix(head, after);
    assert cut < |before| ==> before[cut..][|before| - cut - 1] == before[|before| - 1];
  }

  /** Over any run of compactions the original head stays a prefix and pairing stays. */
  lemma {:induction false} CompactionRunKeepsHead(states: seq<seq<Message>>)
    requires states != []
    requires forall k | 0 < k < |states| :: Compacts(states[k - 1], states[k])
    ensures var first, last := states[0], states[|states| - 1];
            first[..Lead(first)] <= last && (WellPaired(first) ==> WellPaired(last))
  {
    CompactionRunHead(states, |states| - 1);
  }

  lemma {:induction false} CompactionRunHead(states: seq<seq<Message>>, k: nat)
    requires k < |states| && forall j | 0 < j < |states| :: Compacts(states[j - 1], states[j])
    ensures states[0][..Lead(states[0])] <= states[k][..Lead(states[k])]
    ensures WellPaired(states[0]) ==> WellPaired(states[k])
  {
    if k > 0 {
      CompactionRunHead(states, k - 1);
      CompactsKeeps(states[k - 1], states[k]);
    }
  }
}
