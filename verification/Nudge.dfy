/** Closing audit and nudge: a bounded attempt to turn a narration into tool calls. */
module Nudge {
  import opened Common
  import opened Chat
  import opened Forwarder

  datatype Status =
    | ToolCalls | Confirmed | ContinueWork
    | InconclusiveUnconfirmed | InconclusiveTimeout | InconclusiveError

  datatype Result = Result(status: Status, toolCalls: seq<Call>, reasoning: string, text: string, attempts: nat,
      audited: bool)

  datatype Reply = Reply(toolCalls: seq<Call>, text: string, reasoning: string) | TimedOut | Broken

  /** `decide` is the audit's reading of a text: complete, continue, or neither. */
  datatype Config = Config(
    budgetMs: nat, timeoutMs: nat, recoveryTimeoutMs: nat, auditTimeoutMs: nat, maxAttempts: nat,
    isConfirmation: string -> bool,
    decide: string -> Option<bool>)

  predicate Sound(cfg: Config) {
    cfg.budgetMs >= 1 && cfg.timeoutMs >= 1 && cfg.recoveryTimeoutMs >= 1 && cfg.auditTimeoutMs >= 1
  }

  function Min(a: nat, b: nat): nat {
    if a < b then a else b
  }

  /** The clock and the provider: any delay between clock readings, any reply, any duration. */
  class World {
    const delay: nat -> nat
    const reply: nat -> Reply
    const duration: nat -> nat
    var now: nat
    var readings: nat
    var calls: nat

    /** When the last provider call ended, and whether a call overran its timeout. */
    ghost var lastEnd: nat
    ghost var overran: bool

    constructor (delay: nat -> nat, reply: nat -> Reply, duration: nat -> nat)
      ensures calls == 0 && !overran
    {
      this.delay, this.reply, this.duration := delay, reply, duration;
      now, readings, calls, lastEnd, overran := 0, 0, 0, 0, false;
    }

    method Read() returns (t: nat)
      modifies this`now, this`readings
      ensures t == now == old(now) + delay(old(readings)) && readings == old(readings) + 1
    {
      now := now + delay(readings);
      readings := readings + 1;
      t := now;
    }

    method Call(timeoutMs: nat) returns (r: Reply)
      modifies this`now, this`calls, this`lastEnd, this`overran
      ensures calls == old(calls) + 1 && r == reply(old(calls)) && lastEnd == now >= old(now)
      ensures overran == (old(overran) || now > old(now) + timeoutMs)
    {
      r := reply(calls);
      overran := overran || duration(calls) > timeoutMs;
      now := now + duration(calls);
      lastEnd := now;
      calls := calls + 1;
    }
  }

  /** The three ways out that are not failures, and what each must show. */
  predicate Justified(cfg: Config, r: Result) {
    match r.status
    case ToolCalls => r.toolCalls != []
    case Confirmed => if r.audited then cfg.decide(r.text) == Some(true) else cfg.isConfirmation(r.text)
    case ContinueWork => false
    case _ => true
  }

  /** If no call overruns its timeout, none ends behind the deadline that the first reading of
      the clock sets, however long the code takes between two readings. */
  method NudgeForToolCalls(cfg: Config, world: World, budgetMs: nat, firstTimeoutMs: nat, recoveryTimeoutMs: nat)
    returns (r: Result)
    requires budgetMs >= 1 && firstTimeoutMs >= 1 && recoveryTimeoutMs >= 1
    modifies world
    ensures world.calls - old(world.calls) == r.attempts <= cfg.maxAttempts
    ensures old(world.overran) ==> world.overran
    ensures !world.overran && world.calls > old(world.calls) ==>
              world.lastEnd <= old(world.now) + world.delay(old(world.readings)) + budgetMs
    ensures world.calls == old(world.calls) ==> world.lastEnd == old(world.lastEnd)
    ensures Justified(cfg, r) && !r.audited
    ensures r.status == ToolCalls || r.status == Confirmed ==>
              r.attempts > 0 && world.reply(world.calls - 1) == Reply(r.toolCalls, r.text, r.reasoning)
    ensures r.status != ToolCalls ==> r.toolCalls == []
  {
    var startedAt := world.Read();
    var deadline := startedAt + budgetMs;
    var attempt := 0;
    while true
      invariant world.calls == old(world.calls) + attempt && attempt <= cfg.maxAttempts
      invariant old(world.overran) ==> world.overran
      invariant !world.overran && attempt > 0 ==> world.lastEnd <= deadline
      invariant attempt == 0 ==> world.lastEnd == old(world.lastEnd)
      decreases cfg.maxAttempts - attempt
    {
      var t := world.Read();
      var remainingMs: int := deadline - t;
      if remainingMs <= 0 || attempt >= cfg.maxAttempts {
        return Result(InconclusiveTimeout, [], "", "", attempt, false);
      }
      attempt := attempt + 1;
      var timeoutMs := Min(if attempt == 1 then firstTimeoutMs else recoveryTimeoutMs, remainingMs);
      var reply := world.Call(timeoutMs);
      match reply {
        case Reply(toolCalls, text, reasoning) =>
          if |toolCalls| > 0 || cfg.isConfirmation(text) {
            return Result(if |toolCalls| > 0 then ToolCalls else Confirmed, toolCalls, reasoning, text, attempt, false);
          }
          if attempt < cfg.maxAttempts {
            t := world.Read();
            if t < deadline {
              continue;
            }
          }
          return Result(InconclusiveUnconfirmed, [], reasoning, text, attempt, false);
        case TimedOut =>
          if attempt < cfg.maxAttempts {
            t := world.Read();
            if t < deadline {
              continue;
            }
          }
          return Result(InconclusiveTimeout, [], "", "", attempt, false);
        case Broken =>
          return Result(InconclusiveError, [], "", "", attempt, false);
      }
    }
  }

  method AuditCompletion(cfg: Config, world: World, timeoutMs: nat) returns (r: Result)
    modifies world
    ensures world.calls == old(world.calls) + 1 && r.attempts == 1 && r.audited
    ensures world.readings == old(world.readings) && world.lastEnd == world.now >= old(world.now)
    ensures world.overran == (old(world.overran) || world.now > old(world.now) + timeoutMs)
    ensures r.status != ToolCalls
    ensures r.status == Confirmed ==>
              cfg.decide(r.text) == Some(true) && r.toolCalls == [] &&
              world.reply(old(world.calls)) == Reply([], r.text, r.reasoning)
  {
    var reply := world.Call(timeoutMs);
    match reply {
      case Reply(toolCalls, text, reasoning) =>
        var decision := if |toolCalls| > 0 then Some(false) else cfg.decide(text);
        var status := if decision == Some(true) then Confirmed
                      else if decision == Some(false) then ContinueWork
                      else InconclusiveUnconfirmed;
        r := Result(status, toolCalls, reasoning, text, 1, true);
      case TimedOut =>
        r := Result(InconclusiveTimeout, [], "", "", 1, true);
      case Broken =>
        r := Result(InconclusiveError, [], "", "", 1, true);
    }
  }

  /** One budget covers the audit and the continuation behind it: if no call overruns its
      timeout, the last one ends within the budget, counted from the first reading of the clock,
      plus the one delay between computing what is left and starting the continuation. */
  method AuditThenNudge(cfg: Config, world: World) returns (r: Result)
    requires Sound(cfg)
    modifies world
    ensures world.calls - old(world.calls) <= 1 + cfg.maxAttempts
    ensures !world.overran ==>
              world.lastEnd <= old(world.now) + world.delay(old(world.readings)) + cfg.budgetMs
                               + world.delay(old(world.readings) + 2)
    ensures Justified(cfg, r)
    ensures (r.status == ToolCalls || r.status == Confirmed) <==> NudgeFailure(Some(r)) == None
    ensures r.status == ToolCalls || r.status == Confirmed ==>
              exists k: nat :: old(world.calls) <= k < world.calls &&
                  world.reply(k) == Reply(r.toolCalls, r.text, r.reasoning)
    ensures r.status == Confirmed ==> r.toolCalls == []
  {
    var startedAt := world.Read();
    var budgetMs: int := cfg.budgetMs;
    r := AuditCompletion(cfg, world, Min(Min(cfg.auditTimeoutMs, cfg.timeoutMs), budgetMs));
    if r.status == Confirmed || r.status == ToolCalls {
      return;
    }
    var t := world.Read();
    var remainingMs: int := budgetMs - (t - startedAt);
    if remainingMs <= 0 {
      r := r.(status := InconclusiveTimeout);
      return;
    }
    r := NudgeForToolCalls(cfg, world, remainingMs, Min(cfg.timeoutMs, remainingMs),
        Min(cfg.recoveryTimeoutMs, remainingMs));
  }

  /** How a nudge ends the turn, if it is a failure. */
  function NudgeFailure(nudge: Option<Result>): Option<FailureKind> {
    match nudge
    case None => Some(RecoveryUnresolved)
    case Some(r) =>
      if r.status == InconclusiveTimeout then Some(RecoveryTimeout)
      else if r.status == InconclusiveError then Some(RecoveryError)
      else if r.status == InconclusiveUnconfirmed then Some(RecoveryUnresolved)
      else None
  }
}
