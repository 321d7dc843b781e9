/** Closing with the recovery and the audit that it calls for, instead of any outcome of theirs. */
module LiveClosing {
  import opened Common
  import Chat
  import Nudge
  import Compaction
  import WebLoop
  import opened Forwarder
  import opened ToolCalls
  import opened Stream
  import opened Closing

  /** A reply of the recovery; the upstream may number its calls. */
  function RecoveredFrom(reply: WebLoop.Reply, index: nat -> Option<int>): RecoveredReply {
    RecoveredReply(reply.text, reply.reasoning,
      seq(|reply.calls|, k requires 0 <= k < |reply.calls| =>
        Fragment(index(k), reply.calls[k].id, reply.calls[k].name, reply.calls[k].args)))
  }

  /** The recovered reply is the last one of the requests, which ask for nothing else. */
  ghost predicate Recovers(recovered: Option<RecoveredReply>, index: nat -> Option<int>, sent: seq<WebLoop.Entry>) {
    && WebLoop.OnlyRecovery(sent) && WebLoop.AllPaired(sent)
    && if recovered.None? then forall e | e in sent :: !WebLoop.Usable(e)
       else sent != [] && WebLoop.Usable(sent[|sent| - 1])
            && recovered.value == RecoveredFrom(sent[|sent| - 1].result.reply, index)
  }

  method Recover(acc: Accumulator, loop: WebLoop.Config, up: WebLoop.Upstream, chat: Compaction.ChatRequest,
      index: nat -> Option<int>)
    returns (recovered: Option<RecoveredReply>, ghost sent: seq<WebLoop.Entry>)
    requires Chat.WellPaired(chat.messages)
    modifies up`log
    ensures up.log == old(up.log) + sent && |sent| <= loop.emptyRetries && Recovers(recovered, index, sent)
    ensures sent != [] ==> acc.text == "" && acc.toolCalls == []
  {
    recovered, sent := None, [];
    if acc.text == "" && |acc.toolCalls| == 0 {
      var reply;
      reply, sent := WebLoop.RecoverEmptyCompletion(loop, up, chat);
      if reply.Some? {
        recovered := Some(RecoveredFrom(reply.value.reply, index));
      }
    } else {
      assert up.log + [] == up.log;
    }
  }

  /** What the provider has said to the audit and the nudge when a text goes out on its own,
      or with the tools of the nudge. */
  ghost predicate Vouched(cfg: Nudge.Config, replies: nat -> Nudge.Reply, before: nat, after: nat,
      freshId: nat -> string, e: Ending) {
    exists k: nat :: before <= k < after && replies(k).Reply? &&
      var reply := replies(k);
      if e.tools == [] then
        reply.toolCalls == [] && (cfg.decide(reply.text) == Some(true) || cfg.isConfirmation(reply.text))
      else e.tools == ToolEvents(NudgedCalls(reply.toolCalls, freshId))
  }

  /** The audit and the nudge, for a text that needs them. */
  method Audit(acc: Accumulator, cfg: Nudge.Config, world: Nudge.World, env: Environment) returns (audited: Environment)
    requires Nudge.Sound(cfg)
    modifies world
    ensures audited == env.(nudge := audited.nudge)
    ensures NeedsAudit(env, AnswerOf(acc)) ==>
              && audited.nudge.Some? && Nudge.Justified(cfg, audited.nudge.value)
              && world.calls - old(world.calls) <= 1 + cfg.maxAttempts
              && (Nudge.NudgeFailure(audited.nudge).None? ==>
                  Answered(cfg, world.reply, old(world.calls), world.calls, audited.nudge.value))
    ensures !NeedsAudit(env, AnswerOf(acc)) ==> audited.nudge.None? && world.calls == old(world.calls)
  {
    audited := env.(nudge := None);
    if NeedsAudit(env, Answer(acc.text, acc.toolCalls, IDLE)) {
      var nudge := Nudge.AuditThenNudge(cfg, world);
      audited := env.(nudge := Some(nudge));
    }
  }

  ghost predicate Answered(cfg: Nudge.Config, replies: nat -> Nudge.Reply, before: nat, after: nat, r: Nudge.Result) {
    && Nudge.Justified(cfg, r) && (r.status == Nudge.ToolCalls || r.status == Nudge.Confirmed)
    && (r.status == Nudge.Confirmed ==> r.toolCalls == [])
    && exists k: nat :: before <= k < after && replies(k) == Nudge.Reply(r.toolCalls, r.text, r.reasoning)
  }

  /** Closing a run: at most the configured recoveries and audits, and what is completed was
      received, recovered, or vouched for by a reply of the provider. */
  method CloseLive(acc: Accumulator, client: Client, loop: WebLoop.Config, up: WebLoop.Upstream,
      chat: Compaction.ChatRequest, cfg: Nudge.Config, world: Nudge.World, mustAudit: string -> bool,
      isWeb: string -> bool, index: nat -> Option<int>, ghost d: Digest)
    returns (ghost env: Environment, ghost sent: seq<WebLoop.Entry>)
    requires acc.Holds(d) && Waiting(acc, client) && Chat.WellPaired(chat.messages) && Nudge.Sound(cfg)
    modifies acc, acc.forwarder, client, up`log, world
    ensures up.log == old(up.log) + sent && |sent| <= loop.emptyRetries && Recovers(env.recovered, index, sent)
    ensures world.calls - old(world.calls) <= 1 + cfg.maxAttempts
    ensures env.mustAudit == mustAudit && env.isWeb == isWeb
    ensures var e := Concluded(acc.forwarder.syn, acc.freshId, env, d);
            && client.events == Rendered(e)
            && (e.terminal.ResponseCompleted? ==>
                  && GoodEnding(acc.freshId, env, d, e)
                  && (env.nudge.Some? ==> Vouched(cfg, world.reply, old(world.calls), world.calls, acc.freshId, e)))
  {
    var recovered;
    recovered, sent := Recover(acc, loop, up, chat, index);
    var asked := Environment(recovered, mustAudit, None, isWeb);
    RecoverEmpty(acc, client, asked);
    ghost var a := AnswerOf(acc);
    var audited := Audit(acc, cfg, world, asked);
    env := audited;
    CloseAnswer(acc, client, audited);
    CompletedIsGood(cfg, acc.forwarder.syn, acc.freshId, env, d);
    if env.nudge.Some? {
      VouchedEnding(cfg, world.reply, old(world.calls), world.calls, acc.forwarder.syn, acc.freshId, env, a);
    }
  }

  lemma {:induction false} VouchedEnding(cfg: Nudge.Config, replies: nat -> Nudge.Reply, before: nat, after: nat,
      syn: Synthetic, freshId: nat -> string, env: Environment, a: Closing.Answer)
    requires NeedsAudit(env, a) && env.nudge.Some?
    requires Nudge.NudgeFailure(env.nudge).None? ==> Answered(cfg, replies, before, after, env.nudge.value)
    ensures var e := Conclude(syn, freshId, env, a);
            e.terminal.ResponseCompleted? ==> Vouched(cfg, replies, before, after, freshId, e)
  {
    var e, r := Conclude(syn, freshId, env, a), env.nudge.value;
    if e.terminal.ResponseCompleted? {
      var k: nat :| before <= k < after && replies(k) == Nudge.Reply(r.toolCalls, r.text, r.reasoning);
      assert e.tools == ToolEvents(if r.toolCalls == [] then a.calls else NudgedCalls(r.toolCalls, freshId));
    }
  }
}
