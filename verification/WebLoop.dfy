/** The internal web-tool loop: web calls of the provider are resolved behind the bridge. */
module WebLoop {
  import opened Common
  import opened Chat
  import opened Compaction

  datatype Usage = Usage(prompt: nat, completion: nat, total: nat, reasoning: nat)
  datatype Reply = Reply(hasMessage: bool, text: string, reasoning: string, calls: seq<Call>, usage: Usage)
  datatype FetchResult = Failure | Success(reply: Reply)

  /** Why a completion was requested. */
  datatype Kind = Main | Recovery | Synthesis
  datatype Entry = Entry(kind: Kind, sent: seq<Message>, result: FetchResult)

  datatype Error = UpstreamFailure | NoMessage | MixedExhausted | WebLimitExhausted | Incomplete
  datatype Outcome =
    | Answered(reply: Reply, usage: Usage, messages: seq<Message>)
    | Failed(error: Error)

  /** Settings and the foreign calls of the loop. */
  datatype Config = Config(
    webRounds: nat,
    mixedRetries: nat,
    emptyRetries: nat,
    settings: Settings,
    isWeb: string -> bool,
    search: string -> string,
    showsReasoning: string -> bool,
    reasoningFor: string -> string,
    fallbackReasoning: string,
    ratio: nat -> real,
    summary: nat -> string,
    emptyDirective: string,
    limitDirective: string,
    mixedDirective: seq<Call> -> string)

  /** The provider answers in any way; what it was sent is recorded. */
  class Upstream {
    const script: nat -> FetchResult
    var log: seq<Entry>

    constructor (script: nat -> FetchResult)
      ensures this.script == script && log == []
    {
      this.script, log := script, [];
    }

    method Fetch(kind: Kind, messages: seq<Message>) returns (r: FetchResult)
      modifies this`log
      ensures r == script(|old(log)|)
      ensures log == old(log) + [Entry(kind, messages, r)]
    {
      r := script(|log|);
      log := log + [Entry(kind, messages, r)];
    }
  }

  predicate VisibleAction(r: Reply) {
    !Blank(r.text) || r.calls != []
  }

  predicate Usable(e: Entry) {
    e.result.Success? && VisibleAction(e.result.reply)
  }

  /** The first answer, or the last usable recovery in its place. */
  function Chosen(first: FetchResult, recoveries: seq<Entry>): FetchResult {
    if recoveries == [] then first
    else
      var last := recoveries[|recoveries| - 1];
      if Usable(last) then last.result else Chosen(first, recoveries[..|recoveries| - 1])
  }

  /** The reply a round acts on: the recovered one if recovery gave one, else its own. */
  function ActedOn(round: seq<Entry>): FetchResult
    requires round != []
  {
    Chosen(round[0].result, round[1..])
  }

  function WebCalls(cfg: Config, calls: seq<Call>): seq<Call> {
    Filter(calls, (c: Call) => cfg.isWeb(c.name))
  }

  function ClientCalls(cfg: Config, calls: seq<Call>): seq<Call> {
    Filter(calls, (c: Call) => !cfg.isWeb(c.name))
  }

  /** A reply that mixes web calls with calls for the client. */
  predicate Mixed(cfg: Config, r: Reply) {
    WebCalls(cfg, r.calls) != [] && ClientCalls(cfg, r.calls) != []
  }

  function AddUsage(a: Usage, b: Usage): Usage {
    Usage(a.prompt + b.prompt, a.completion + b.completion, a.total + b.total, a.reasoning + b.reasoning)
  }

  const NO_USAGE := Usage(0, 0, 0, 0)

  /** What a log entry adds to the aggregate: replies of empty recovery do not count. */
  function Counted(e: Entry): Usage {
    if e.kind != Recovery && e.result.Success? then e.result.reply.usage else NO_USAGE
  }

  /** Requests of the loop's own, synthesis requests, and the usage that counts. */
  datatype Tally = Tally(main: nat, synthesis: nat, usage: Usage)

  function AddEntry(t: Tally, e: Entry): Tally {
    Tally(t.main + (if e.kind == Main then 1 else 0),
          t.synthesis + (if e.kind == Synthesis then 1 else 0),
          AddUsage(t.usage, Counted(e)))
  }

  function TallyFrom(t: Tally, log: seq<Entry>): Tally {
    if log == [] then t else AddEntry(TallyFrom(t, log[..|log| - 1]), log[|log| - 1])
  }

  const EMPTY_TALLY := Tally(0, 0, NO_USAGE)

  /** Everything sent is well paired. */
  ghost predicate AllPaired(log: seq<Entry>) {
    forall e | e in log :: WellPaired(e.sent)
  }

  predicate OnlyRecovery(log: seq<Entry>) {
    forall e | e in log :: e.kind == Recovery
  }

  lemma {:induction false} TallyPush(t: Tally, log: seq<Entry>, e: Entry)
    ensures TallyFrom(t, log + [e]) == AddEntry(TallyFrom(t, log), e)
  {
    assert (log + [e])[..|log|] == log;
  }

  lemma {:induction false} TallyAppend(t: Tally, a: seq<Entry>, b: seq<Entry>)
    ensures TallyFrom(t, a + b) == TallyFrom(TallyFrom(t, a), b)
  {
    if b == [] {
      assert a + b == a;
    } else {
      var init, last := b[..|b| - 1], b[|b| - 1];
      TallyAppend(t, a, init);
      TallyPush(t, a + init, last);
      assert a + b == a + init + [last];
    }
  }

  lemma {:induction false} RecoveriesAddNothing(t: Tally, log: seq<Entry>)
    requires OnlyRecovery(log)
    ensures TallyFrom(t, log) == t
  {
    if log != [] {
      RecoveriesAddNothing(t, log[..|log| - 1]);
    }
  }

  // ---- Turns appended by the loop ----

  function AnswerTo(cfg: Config, call: Call): Message {
    Message(Tool, Plain(cfg.search(if call.args == "" then "{}" else call.args)), [], Some(call.id), "")
  }

  function TurnReasoning(cfg: Config, reply: Reply, calls: seq<Call>): string {
    if cfg.showsReasoning(reply.reasoning) then reply.reasoning
    else if calls == [] then ""
    else if cfg.reasoningFor(calls[0].id) != "" then cfg.reasoningFor(calls[0].id)
    else cfg.fallbackReasoning
  }

  /** The web calls of a reply with their search results, in order. */
  method AppendWebToolTurn(cfg: Config, working: ChatRequest, reply: Reply, webCalls: seq<Call>)
    requires webCalls != []
    modifies working
    ensures |working.messages| == |old(working.messages)| + 1 + |webCalls|
    ensures old(working.messages) <= working.messages
    ensures working.messages[|old(working.messages)|] ==
              Message(Assistant, Plain(reply.text), webCalls, None, TurnReasoning(cfg, reply, webCalls))
    ensures forall k | 0 <= k < |webCalls| ::
              working.messages[|old(working.messages)| + 1 + k] == AnswerTo(cfg, webCalls[k])
    ensures WellPaired(old(working.messages)) ==> WellPaired(working.messages)
  {
    ghost var before := working.messages;
    var turn := Message(Assistant, Plain(reply.text), webCalls, None, TurnReasoning(cfg, reply, webCalls));
    working.messages := working.messages + [turn];
    ghost var tools := [];
    for k := 0 to |webCalls|
      invariant working.messages == before + [turn] + tools && |tools| == k
      invariant forall j | 0 <= j < k :: tools[j] == AnswerTo(cfg, webCalls[j])
    {
      var answer := AnswerTo(cfg, webCalls[k]);
      working.messages := working.messages + [answer];
      tools := tools + [answer];
    }
    if WellPaired(before) {
      WebTurnPairs(cfg, before, turn, tools);
    }
  }

  lemma {:induction false} TurnAnswered(cfg: Config, turn: Message, tools: seq<Message>)
    requires HasCalls(turn) && |tools| == |turn.calls|
    requires forall j | 0 <= j < |tools| :: tools[j] == AnswerTo(cfg, turn.calls[j])
    ensures WellPaired([turn] + tools)
  {
    assert AnswerIds(tools) == CallIds(turn.calls);
    WellPairedTurn(turn, tools);
  }

  lemma {:induction false} WebTurnPairs(cfg: Config, before: seq<Message>, turn: Message, tools: seq<Message>)
    requires WellPaired(before) && HasCalls(turn) && |tools| == |turn.calls|
    requires forall j | 0 <= j < |tools| :: tools[j] == AnswerTo(cfg, turn.calls[j])
    ensures WellPaired(before + [turn] + tools)
  {
    TurnAnswered(cfg, turn, tools);
    WellPairedAppend(before, [turn] + tools);
    assert before + [turn] + tools == before + ([turn] + tools);
  }

  /** Compaction, as the loop uses it. */
  method CompactEmergency(cfg: Config, up: Upstream, chat: ChatRequest)
    modifies chat
    ensures Compacts(old(chat.messages), chat.messages)
    ensures WellPaired(old(chat.messages)) ==> WellPaired(chat.messages)
  {
    CompactContext(cfg.settings, chat, cfg.ratio(|up.log|), true, cfg.summary(|up.log|));
  }

  method PushSystem(working: ChatRequest, text: string)
    modifies working
    ensures working.messages == old(working.messages) + [Message(System, Plain(text), [], None, "")]
    ensures WellPaired(old(working.messages)) ==> WellPaired(working.messages)
  {
    if WellPaired(working.messages) {
      WellPairedPush(working.messages, Message(System, Plain(text), [], None, ""));
    }
    working.messages := working.messages + [Message(System, Plain(text), [], None, "")];
  }

  /** A second, smaller request after an unusable completion. */
  method RecoverEmptyCompletion(cfg: Config, up: Upstream, chat: ChatRequest)
    returns (recovered: Option<Recovered>, ghost more: seq<Entry>)
    requires WellPaired(chat.messages)
    modifies up`log
    ensures up.log == old(up.log) + more && |more| <= cfg.emptyRetries
    ensures OnlyRecovery(more) && AllPaired(more)
    ensures recovered.Some? ==> VisibleAction(recovered.value.reply) && WellPaired(recovered.value.messages)
    ensures match recovered
            case Some(x) => more != [] && more[|more| - 1] == Entry(Recovery, x.messages, Success(x.reply))
            case None => |more| == cfg.emptyRetries && forall e | e in more :: !Usable(e)
  {
    recovered, more := None, [];
    if cfg.emptyRetries == 0 {
      return;
    }
    var recovery := new ChatRequest(chat.messages, chat.toolsLength);
    CompactEmergency(cfg, up, recovery);
    PushSystem(recovery, cfg.emptyDirective);
    var messages := recovery.messages;
    for attempt := 0 to cfg.emptyRetries
      invariant up.log == old(up.log) + more && |more| == attempt
      invariant OnlyRecovery(more) && AllPaired(more) && forall e | e in more :: !Usable(e)
    {
      var result := up.Fetch(Recovery, messages);
      more := more + [Entry(Recovery, messages, result)];
      if result.Success? && VisibleAction(result.reply) {
        recovered := Some(Recovered(result.reply, messages));
        return;
      }
    }
  }

  datatype Recovered = Recovered(reply: Reply, messages: seq<Message>)

  /** The last request: no more searches. */
  method SynthesizeAfterWebLimit(cfg: Config, up: Upstream, messages: seq<Message>, usage: Usage)
    returns (r: Outcome, ghost e: Entry)
    requires WellPaired(messages)
    modifies up`log
    ensures up.log == old(up.log) + [e] && e.kind == Synthesis && WellPaired(e.sent)
    ensures r == if e.result.Failure? then Failed(UpstreamFailure)
                 else if WebCalls(cfg, e.result.reply.calls) != [] then Failed(WebLimitExhausted)
                 else Answered(e.result.reply, AddUsage(usage, Counted(e)), e.sent)
  {
    var directive := Message(System, Plain(cfg.limitDirective), [], None, "");
    WellPairedPush(messages, directive);
    var result := up.Fetch(Synthesis, messages + [directive]);
    e := Entry(Synthesis, messages + [directive], result);
    if result.Failure? {
      r := Failed(UpstreamFailure);
    } else if |WebCalls(cfg, result.reply.calls)| > 0 {
      r := Failed(WebLimitExhausted);
    } else {
      r := Answered(result.reply, AddUsage(usage, result.reply.usage), messages + [directive]);
    }
  }

  datatype Round = Ended(outcome: Outcome) | UseReply(reply: Reply, usage: Usage)

  /** What each request of the loop's own was answered with, a usable recovery in its place. */
  function Replies(log: seq<Entry>): seq<FetchResult> {
    if log == [] then []
    else
      var before, e := Replies(log[..|log| - 1]), log[|log| - 1];
      match e.kind
      case Main => before + [e.result]
      case Recovery => if Usable(e) && before != [] then before[..|before| - 1] + [e.result] else before
      case Synthesis => before
  }

  lemma {:induction false} RepliesPush(log: seq<Entry>, e: Entry)
    ensures Replies(log + [e]) ==
              match e.kind
              case Main => Replies(log) + [e.result]
              case Recovery =>
                if Usable(e) && Replies(log) != []
                    then Replies(log)[..|Replies(log)| - 1] + [e.result] else Replies(log)
              case Synthesis => Replies(log)
  {
    assert (log + [e])[..|log|] == log;
  }

  /** Recoveries replace the last reply only. */
  lemma {:induction false} RepliesRecovered(log: seq<Entry>, done: seq<FetchResult>, first: FetchResult,
      more: seq<Entry>)
    requires OnlyRecovery(more) && Replies(log) == done + [first]
    ensures Replies(log + more) == done + [Chosen(first, more)]
  {
    if more == [] {
      assert log + more == log;
    } else {
      var init, e := more[..|more| - 1], more[|more| - 1];
      assert e in more && forall x | x in init :: x in more;
      RepliesRecovered(log, done, first, init);
      RepliesInstead(log + init, done, Chosen(first, init), e);
      assert log + more == log + init + [e];
    }
  }

  lemma {:induction false} RepliesInstead(log: seq<Entry>, done: seq<FetchResult>, last: FetchResult, e: Entry)
    requires e.kind == Recovery && Replies(log) == done + [last]
    ensures Replies(log + [e]) == done + [if Usable(e) then e.result else last]
  {
    RepliesPush(log, e);
    assert (done + [last])[..|done|] == done;
  }

  lemma {:induction false} ChosenNone(first: FetchResult, more: seq<Entry>)
    requires forall e | e in more :: !Usable(e)
    ensures Chosen(first, more) == first
  {
    if more != [] {
      assert more[|more| - 1] in more && forall x | x in more[..|more| - 1] :: x in more;
      ChosenNone(first, more[..|more| - 1]);
    }
  }

  /** A request of the loop's own and the recoveries behind it. */
  ghost predicate IsRound(round: seq<Entry>) {
    && round != [] && round[0].kind == Main && OnlyRecovery(round[1..]) && AllPaired(round)
    && (|round| > 1 ==> !Usable(round[0]))
  }

  lemma {:induction false} RoundReply(log: seq<Entry>, round: seq<Entry>)
    requires IsRound(round)
    ensures Replies(log + round) == Replies(log) + [ActedOn(round)]
  {
    var main, more := round[0], round[1..];
    assert log + round == log + [main] + more;
    RepliesPush(log, main);
    RepliesRecovered(log + [main], Replies(log), main.result, more);
  }

  lemma {:induction false} RoundTally(t: Tally, round: seq<Entry>)
    requires IsRound(round)
    ensures TallyFrom(t, round) == AddEntry(t, round[0])
  {
    assert round == [round[0]] + round[1..];
    TallyAppend(t, [round[0]], round[1..]);
    TallyPush(t, [], round[0]);
    assert [] + [round[0]] == [round[0]];
    RecoveriesAddNothing(TallyFrom(t, [round[0]]), round[1..]);
  }

  /** One request of the loop's own, with empty recovery behind it. */
  method FetchRound(cfg: Config, up: Upstream, working: ChatRequest, usage: Usage)
    returns (r: Round, ghost round: seq<Entry>)
    requires WellPaired(working.messages)
    modifies up`log, working
    ensures WellPaired(working.messages)
    ensures up.log == old(up.log) + round && IsRound(round)
    ensures match r
            case Ended(o) => o == Failed(UpstreamFailure) || o == Failed(NoMessage)
            case UseReply(reply, u) => ActedOn(round) == Success(reply) && u == AddUsage(usage, Counted(round[0]))
  {
    var result := up.Fetch(Main, working.messages);
    ghost var first := Entry(Main, working.messages, result);
    round := [first];
    if result.Failure? {
      return Ended(Failed(UpstreamFailure)), round;
    }
    var reply := result.reply;
    if !reply.hasMessage {
      return Ended(Failed(NoMessage)), round;
    }
    if !VisibleAction(reply) {
      ghost var more;
      reply, more := ReplyInstead(cfg, up, working, reply);
      RecoveredRound(first, more);
      round := [first] + more;
    }
    r := UseReply(reply, AddUsage(usage, result.reply.usage));
  }

  /** The reply to go on with when the first shows nothing. */
  method ReplyInstead(cfg: Config, up: Upstream, working: ChatRequest, empty: Reply)
    returns (reply: Reply, ghost more: seq<Entry>)
    requires WellPaired(working.messages)
    modifies up`log, working
    ensures WellPaired(working.messages) && up.log == old(up.log) + more && OnlyRecovery(more) && AllPaired(more)
    ensures Chosen(Success(empty), more) == Success(reply)
  {
    reply := empty;
    var recovered;
    recovered, more := RecoverEmptyCompletion(cfg, up, working);
    if recovered.Some? {
      reply := recovered.value.reply;
      working.messages := recovered.value.messages;
    } else {
      ChosenNone(Success(empty), more);
    }
  }

  lemma {:induction false} RecoveredRound(first: Entry, more: seq<Entry>)
    requires first.kind == Main && WellPaired(first.sent) && !Usable(first) && OnlyRecovery(more) && AllPaired(more)
    ensures IsRound([first] + more) && ActedOn([first] + more) == Chosen(first.result, more)
  {
    assert ([first] + more)[1..] == more;
  }

  // ---- The run ----

  /** What a run has sent, and the replies it has acted on: the first of those it received. */
  ghost predicate RunLog(sent: seq<Entry>, tally: Tally, rounds: seq<Reply>) {
    AllPaired(sent) && TallyFrom(EMPTY_TALLY, sent) == tally && ActsOn(Replies(sent), rounds)
  }

  /** A reply that could not be used comes last, if there is one. */
  predicate ActsOn(replies: seq<FetchResult>, rounds: seq<Reply>) {
    && |rounds| <= |replies| <= |rounds| + 1
    && forall k | 0 <= k < |rounds| :: replies[k] == Success(rounds[k])
  }

  lemma {:induction false} PairedAppend(a: seq<Entry>, b: seq<Entry>)
    requires AllPaired(a) && AllPaired(b)
    ensures AllPaired(a + b)
  {
  }

  lemma {:induction false} RoundLogged(sent: seq<Entry>, tally: Tally, rounds: seq<Reply>, round: seq<Entry>)
    requires RunLog(sent, tally, rounds) && |Replies(sent)| == |rounds| && IsRound(round)
    ensures RunLog(sent + round, AddEntry(tally, round[0]), rounds)
    ensures ActedOn(round).Success? ==>
              RunLog(sent + round, AddEntry(tally, round[0]), rounds + [ActedOn(round).reply])
              && |Replies(sent + round)| == |rounds| + 1
  {
    PairedAppend(sent, round);
    TallyAppend(EMPTY_TALLY, sent, round);
    RoundTally(tally, round);
    RoundReply(sent, round);
    ActsOnMore(Replies(sent), rounds, ActedOn(round));
  }

  lemma {:induction false} ActsOnMore(replies: seq<FetchResult>, rounds: seq<Reply>, next: FetchResult)
    requires ActsOn(replies, rounds) && |replies| == |rounds|
    ensures ActsOn(replies + [next], rounds)
    ensures next.Success? ==> ActsOn(replies + [next], rounds + [next.reply])
  {
  }

  lemma {:induction false} SynthesisLogged(sent: seq<Entry>, tally: Tally, rounds: seq<Reply>, e: Entry)
    requires RunLog(sent, tally, rounds) && e.kind == Synthesis && WellPaired(e.sent)
    ensures RunLog(sent + [e], AddEntry(tally, e), rounds)
  {
    PairedAppend(sent, [e]);
    TallyPush(EMPTY_TALLY, sent, e);
    RepliesPush(sent, e);
  }

  /** The synthesis request, if the round ended in one. */
  ghost predicate IsSynthesis(more: seq<Entry>) {
    more == [] || (|more| == 1 && more[0].kind == Synthesis && WellPaired(more[0].sent))
  }

  /** An answer is the reply acted on, or that of the synthesis request. */
  predicate AnsweredBy(o: Outcome, reply: Reply, usage: Usage, more: seq<Entry>)
    requires o.Answered?
  {
    if more == [] then o.reply == reply && o.usage == usage
    else more[0].result == Success(o.reply) && o.usage == AddUsage(usage, Counted(more[0]))
  }

  /** What the loop does with a reply: answer, search and go on, or give up. */
  method ActOnReply(cfg: Config, up: Upstream, working: ChatRequest, reply: Reply, usage: Usage,
      mixedRecoveryAttempts: nat, webRounds: nat)
    returns (end: Option<Outcome>, mixed: nat, web: nat, ghost more: seq<Entry>)
    requires WellPaired(working.messages)
    modifies up`log, working
    ensures up.log == old(up.log) + more && IsSynthesis(more)
    ensures end.None? ==>
              && more == [] && WellPaired(working.messages)
              && GoesOn(cfg, reply, mixedRecoveryAttempts, webRounds, mixed, web)
    ensures end.Some? ==>
              && end.value != Failed(Incomplete)
              && (Mixed(cfg, reply) ==> mixedRecoveryAttempts >= cfg.mixedRetries)
              && (end.value.Answered? ==>
                    && AnsweredBy(end.value, reply, usage, more)
                    && WellPaired(end.value.messages)
                    && WebCalls(cfg, end.value.reply.calls) == [])
  {
    end, mixed, web, more := None, mixedRecoveryAttempts, webRounds, [];
    var webCalls := WebCalls(cfg, reply.calls);
    if |webCalls| == 0 {
      end := Some(Answered(reply, usage, working.messages));
      return;
    }
    var clientCalls := ClientCalls(cfg, reply.calls);
    if |clientCalls| > 0 {
      if mixedRecoveryAttempts >= cfg.mixedRetries {
        end := Some(Failed(MixedExhausted));
        return;
      }
      mixed := mixed + 1;
      CompactEmergency(cfg, up, working);
      AppendWebToolTurn(cfg, working, reply, webCalls);
      PushSystem(working, cfg.mixedDirective(clientCalls));
      return;
    }
    AppendWebToolTurn(cfg, working, reply, webCalls);
    web := web + 1;
    if web >= cfg.webRounds {
      var outcome;
      ghost var e;
      outcome, e := SynthesizeAfterWebLimit(cfg, up, working.messages, usage);
      more := [e];
      end := Some(outcome);
    }
  }

  predicate AllMixed(cfg: Config, rounds: seq<Reply>) {
    forall x | x in rounds :: Mixed(cfg, x)
  }

  /** Between two rounds. */
  ghost predicate Looping(cfg: Config, sent: seq<Entry>, tally: Tally, rounds: seq<Reply>, usage: Usage, mixed: nat,
      web: nat) {
    && RunLog(sent, tally, rounds) && |Replies(sent)| == |rounds| == mixed + web
    && tally == Tally(|rounds|, 0, usage)
    && mixed <= cfg.mixedRetries && (web == 0 || web < cfg.webRounds)
    && (cfg.webRounds == 0 ==> AllMixed(cfg, rounds))
  }

  /** No round was left to go on with. */
  predicate UsedUp(cfg: Config, rounds: seq<Reply>) {
    cfg.webRounds == 0 && |rounds| == cfg.mixedRetries && AllMixed(cfg, rounds)
  }

  /** Behind the last round. */
  ghost predicate RunEnds(cfg: Config, sent: seq<Entry>, tally: Tally, rounds: seq<Reply>, r: Outcome) {
    && RunLog(sent, tally, rounds)
    && tally.main <= cfg.webRounds + cfg.mixedRetries && tally.synthesis <= 1
    && (r == Failed(Incomplete) <==> UsedUp(cfg, rounds))
    && (r.Answered? ==>
          && r.usage == tally.usage && WellPaired(r.messages) && WebCalls(cfg, r.reply.calls) == []
          && rounds != [] && AnsweredLast(r.reply, rounds, sent, tally))
  }

  /** The synthesis request, if there was one, joins the log. */
  lemma {:induction false} EndLogged(cfg: Config, sent: seq<Entry>, tally: Tally, rounds: seq<Reply>, usage: Usage,
      more: seq<Entry>, r: Outcome) returns (total: Tally)
    requires RunLog(sent, tally, rounds) && tally == Tally(|rounds|, 0, usage) && IsSynthesis(more)
    requires 0 < |rounds| <= cfg.webRounds + cfg.mixedRetries && r != Failed(Incomplete) && !UsedUp(cfg, rounds)
    requires r.Answered? ==>
               AnsweredBy(r, rounds[|rounds| - 1], usage, more) && WellPaired(r.messages) &&
                   WebCalls(cfg, r.reply.calls) == []
    ensures RunEnds(cfg, sent + more, total, rounds, r)
  {
    if more == [] {
      assert sent + more == sent;
      total := tally;
    } else {
      assert more == [more[0]];
      SynthesisLogged(sent, tally, rounds, more[0]);
      total := AddEntry(tally, more[0]);
    }
  }

  /** What acting on one more reply means for the count of rounds. */
  lemma {:induction false} NotUsedUp(cfg: Config, rounds: seq<Reply>, reply: Reply, mixed: nat, web: nat)
    requires |rounds| == mixed + web < cfg.webRounds + cfg.mixedRetries &&
        (Mixed(cfg, reply) ==> mixed >= cfg.mixedRetries)
    ensures !UsedUp(cfg, rounds) && !UsedUp(cfg, rounds + [reply])
  {
    assert reply in rounds + [reply];
  }

  /** What a reply leaves the loop with when it goes on. */
  predicate GoesOn(cfg: Config, reply: Reply, mixed: nat, web: nat, mixedNow: nat, webNow: nat) {
    && mixedNow + webNow == mixed + web + 1
    && mixedNow == mixed + (if Mixed(cfg, reply) then 1 else 0)
    && mixedNow <= (if Mixed(cfg, reply) then cfg.mixedRetries else mixed)
    && (!Mixed(cfg, reply) ==> webNow < cfg.webRounds)
  }

  lemma {:induction false} LoopsOn(cfg: Config, sent: seq<Entry>, tally: Tally, rounds: seq<Reply>, usage: Usage,
      mixed: nat, web: nat, round: seq<Entry>, reply: Reply, mixedNow: nat, webNow: nat)
    requires Looping(cfg, sent, tally, rounds, usage, mixed, web) && IsRound(round) && ActedOn(round) == Success(reply)
    requires GoesOn(cfg, reply, mixed, web, mixedNow, webNow)
    ensures Looping(cfg, sent + round, AddEntry(tally, round[0]), rounds + [reply], AddUsage(usage, Counted(round[0])),
                    mixedNow, webNow)
  {
    RoundLogged(sent, tally, rounds, round);
  }

  lemma {:induction false} LoopEnds(cfg: Config, sent: seq<Entry>, tally: Tally, rounds: seq<Reply>, usage: Usage,
      mixed: nat, web: nat, round: seq<Entry>, reply: Reply, more: seq<Entry>, r: Outcome) returns (total: Tally)
    requires Looping(cfg, sent, tally, rounds, usage, mixed, web) && IsRound(round) && ActedOn(round) == Success(reply)
    requires |rounds| < cfg.webRounds + cfg.mixedRetries && (Mixed(cfg, reply) ==> mixed >= cfg.mixedRetries)
    requires IsSynthesis(more) && r != Failed(Incomplete)
    requires r.Answered? ==>
               && AnsweredBy(r, reply, AddUsage(usage, Counted(round[0])), more)
               && WellPaired(r.messages) && WebCalls(cfg, r.reply.calls) == []
    ensures RunEnds(cfg, sent + (round + more), total, rounds + [reply], r)
  {
    RoundLogged(sent, tally, rounds, round);
    NotUsedUp(cfg, rounds, reply, mixed, web);
    LogOn(sent, round, more);
    total := EndLogged(cfg, sent + round, AddEntry(tally, round[0]), rounds + [reply],
                       AddUsage(usage, Counted(round[0])), more, r);
  }

  method RunRound(cfg: Config, up: Upstream, working: ChatRequest, usage: Usage, mixed: nat, web: nat,
      ghost sent: seq<Entry>, ghost tally: Tally, ghost rounds: seq<Reply>)
    returns (end: Option<Outcome>, total: Usage, mixedNow: nat, webNow: nat,
             ghost more: seq<Entry>, ghost tallyNow: Tally, ghost roundsNow: seq<Reply>)
    requires WellPaired(working.messages) && Looping(cfg, sent, tally, rounds, usage, mixed, web)
    requires |rounds| < cfg.webRounds + cfg.mixedRetries
    modifies up`log, working
    ensures up.log == old(up.log) + more
    ensures end.None? ==>
              && WellPaired(working.messages) && |roundsNow| == |rounds| + 1
              && Looping(cfg, sent + more, tallyNow, roundsNow, total, mixedNow, webNow)
    ensures end.Some? ==> RunEnds(cfg, sent + more, tallyNow, roundsNow, end.value)
  {
    var fetched;
    fetched, more := FetchRound(cfg, up, working, usage);
    tallyNow, roundsNow, total := AddEntry(tally, more[0]), rounds, usage;
    match fetched {
      case Ended(outcome) =>
        RoundLogged(sent, tally, rounds, more);
        end, mixedNow, webNow := Some(outcome), mixed, web;
      case UseReply(reply, counted) =>
        ghost var own, synthesis := more, more;
        total, roundsNow := counted, rounds + [reply];
        end, mixedNow, webNow, synthesis := ActOnReply(cfg, up, working, reply, total, mixed, web);
        LogOn(old(up.log), own, synthesis);
        more := own + synthesis;
        if end.Some? {
          tallyNow := LoopEnds(cfg, sent, tally, rounds, usage, mixed, web, own, reply, synthesis, end.value);
        } else {
          LoopsOn(cfg, sent, tally, rounds, usage, mixed, web, own, reply, mixedNow, webNow);
          assert own + [] == own;
        }
    }
  }

  /** The loop. `sent` lists its requests, `rounds` the replies it acted on, recovered ones in
      place of empty ones. */
  method RunInternalWebToolLoop(cfg: Config, up: Upstream, chat: ChatRequest)
    returns (r: Outcome, ghost rounds: seq<Reply>, ghost tally: Tally, ghost sent: seq<Entry>)
    requires WellPaired(chat.messages)
    modifies up`log
    ensures up.log == old(up.log) + sent && RunEnds(cfg, sent, tally, rounds, r)
    ensures cfg.webRounds >= 1 ==> r != Failed(Incomplete)
  {
    var working := new ChatRequest(chat.messages, chat.toolsLength);
    var usage := NO_USAGE;
    var mixedRecoveryAttempts: nat, webRounds: nat := 0, 0;
    rounds, tally, sent := [], EMPTY_TALLY, [];
    var maxRounds := cfg.webRounds + cfg.mixedRetries;
    for round := 0 to maxRounds
      invariant WellPaired(working.messages) && fresh(working)
      invariant up.log == old(up.log) + sent && |rounds| == round
      invariant Looping(cfg, sent, tally, rounds, usage, mixedRecoveryAttempts, webRounds)
    {
      var end;
      ghost var more;
      end, usage, mixedRecoveryAttempts, webRounds, more, tally, rounds :=
        RunRound(cfg, up, working, usage, mixedRecoveryAttempts, webRounds, sent, tally, rounds);
      LogOn(old(up.log), sent, more);
      sent := sent + more;
      if end.Some? {
        return end.value, rounds, tally, sent;
      }
    }
    r := Failed(Incomplete);
  }

  lemma {:induction false} LogOn(before: seq<Entry>, sent: seq<Entry>, more: seq<Entry>)
    ensures before + sent + more == before + (sent + more)
  {
  }

  /** The answer is the last reply acted on, or that of the synthesis behind it. */
  predicate AnsweredLast(answer: Reply, rounds: seq<Reply>, sent: seq<Entry>, tally: Tally)
    requires rounds != []
  {
    if tally.synthesis == 0 then answer == rounds[|rounds| - 1]
    else sent != [] && sent[|sent| - 1].kind == Synthesis && sent[|sent| - 1].result == Success(answer)
  }
}
