/** The proxy's retry loop for one chat completion without streaming. */
module Proxy {
  import opened Common

  datatype Skip = Skip(platform: string, modelId: string, keyId: nat)
  datatype Route = Route(who: Skip, coldStartMs: nat)

  /** `code` classifies the failure of this attempt, `later` the same error once it is only
      the last one of several. */
  datatype Reply =
    | Success
    | Failure(code: string, later: string, retryable: bool, schema: bool, status: int)

  datatype Kind = Retryable | SchemaMismatch | Downgrade
  datatype LastError = LastError(kind: Kind, code: string)

  type Models = set<(string, string)>

  datatype Act =
    | Read(now: nat)                     // the clock
    | Started(deadline: nat)
    | Asked(skip: set<Skip>, excluded: Models)  // the router, for a route
    | Purged(kept: set<Skip>)            // keys that are no longer cooling
    | Rejected(who: Skip, code: string)  // the route cannot serve this request
    | Opened(id: nat, who: Skip)
    | Closed(id: nat, ok: bool)
    | Warming(who: Skip)                 // wait for a cold start, then try the same route
    | GivenUp(who: Skip, error: LastError)
    | Waited(ms: int)
    | Finished(completed: bool)          // the routing trace
    | Sent(status: int, code: string)

  /** Router, provider, rate limits and clock: any answer to any question. */
  class World {
    const route: (nat, set<Skip>, Models) -> Option<Route>
    const rejects: nat -> Option<string>
    const reply: nat -> Reply
    const cooling: (nat, Skip) -> bool
    const shortest: nat -> int
    const clock: nat -> nat
    var asked: nat
    var readings: nat
    var lastRead: nat
    var begun: nat
    var log: seq<Act>

    /** What the monitor makes of the log. */
    ghost var seen: Monitor

    ghost predicate Valid()
      reads this
    {
      seen == Watched(log)
    }

    constructor (route: (nat, set<Skip>, Models) -> Option<Route>, rejects: nat -> Option<string>, reply: nat -> Reply,
        cooling: (nat, Skip) -> bool, shortest: nat -> int, clock: nat -> nat)
      ensures Valid() && asked == 0 && begun == 0 && log == []
    {
      this.route, this.rejects, this.reply, this.cooling, this.shortest, this.clock :=
        route, rejects, reply, cooling, shortest, clock;
      asked, readings, lastRead, begun, log := 0, 0, 0, 0, [];
      seen := FRESH;
    }

    method Now() returns (t: nat)
      requires Valid()
      modifies this`readings, this`lastRead, this`log, this`seen
      ensures Valid() && lastRead == t && log == old(log) + [Read(t)] && seen == Observe(old(seen), Read(t))
    {
      t := clock(readings);
      readings := readings + 1;
      lastRead := t;
      Do(Read(t));
    }

    method RouteRequest(skip: set<Skip>, excluded: Models) returns (r: Option<Route>)
      requires Valid()
      modifies this`asked, this`log, this`seen
      ensures Valid() && asked == old(asked) + 1 && r == route(old(asked), skip, excluded)
      ensures log == old(log) + [Asked(skip, excluded)] && seen == Observe(old(seen), Asked(skip, excluded))
    {
      r := route(asked, skip, excluded);
      asked := asked + 1;
      Do(Asked(skip, excluded));
    }

    method Do(act: Act)
      requires Valid()
      modifies this`log, this`seen
      ensures Valid() && log == old(log) + [act] && seen == Observe(old(seen), act)
    {
      WatchedPush(log, act);
      log := log + [act];
      seen := Observe(seen, act);
    }

    method Open(who: Skip) returns (id: nat)
      requires Valid()
      modifies this`log, this`begun, this`seen
      ensures Valid() && id == old(begun) && begun == id + 1
      ensures log == old(log) + [Opened(id, who)] && seen == Observe(old(seen), Opened(id, who))
    {
      id := begun;
      begun := begun + 1;
      Do(Opened(id, who));
    }
  }

  // ---- A monitor of the log ----

  datatype Monitor =
    | Bad
    | Watch(open: Option<nat>, begun: nat, skipped: set<Skip>, rejected: Models, warmed: set<Skip>,
            finished: nat, sent: nat, last: Option<LastError>, deadline: Option<nat>, clock: nat, late: bool)

  const FRESH := Watch(None, 0, {}, {}, {}, 0, 0, None, None, 0, false)

  /** The router is asked only while every reading of the clock was before the deadline, and a
      wait for a cooldown ends before it. It is asked with the models rejected so far and the
      keys given up and not purged since. Attempts are numbered, one at a time, and closed by
      their own number; a route is warmed at most once; only the end of the trace and the
      answer may come last, once each. */
  function Observe(m: Monitor, act: Act): Monitor {
    if m.Bad? || (m.finished + m.sent > 0 && !act.Finished? && !act.Sent?) then Bad
    else
      match act
      case Finished(_) => if m.open.None? && m.finished == 0 then m.(finished := 1) else Bad
      case Sent(_, _) => if m.open.None? && m.sent == 0 then m.(sent := 1) else Bad
      case Opened(id, _) => if m.open.None? && id == m.begun then m.(open := Some(id), begun := m.begun + 1) else Bad
      case Closed(id, _) => if m.open == Some(id) then m.(open := None) else Bad
      case Warming(who) => if who in m.warmed then Bad else m.(warmed := m.warmed + {who})
      case Read(now) => m.(clock := now, late := m.late || (m.deadline.Some? && now >= m.deadline.value))
      case Started(deadline) => if m.deadline.None? then m.(deadline := Some(deadline)) else Bad
      case Asked(skip, excluded) =>
        if m.deadline.Some? && !m.late && skip == m.skipped && excluded == m.rejected then m else Bad
      case Purged(kept) => if kept < m.skipped then m.(skipped := kept) else Bad
      case Rejected(who, code) =>
        m.(rejected := m.rejected + {(who.platform, who.modelId)}, last := Some(LastError(SchemaMismatch, code)))
      case GivenUp(who, error) => m.(skipped := m.skipped + {who}, last := Some(error))
      case Waited(ms) => if m.deadline.Some? && m.clock + ms < m.deadline.value then m else Bad
  }

  function Watched(log: seq<Act>): Monitor {
    if log == [] then FRESH else Observe(Watched(log[..|log| - 1]), log[|log| - 1])
  }

  lemma {:induction false} WatchedPush(log: seq<Act>, act: Act)
    ensures Watched(log + [act]) == Observe(Watched(log), act)
  {
    assert (log + [act])[..|log|] == log;
  }

  // ---- The answers ----

  /** How a request without success is answered: 503 only if the router has no route and
      nothing was tried that counts. */
  function Answer(last: Option<LastError>, refused: bool): (r: Act)
    ensures r.Sent?
  {
    match last
    case None => if refused then Sent(503, "no_route") else Sent(429, "rate_limited")
    case Some(LastError(SchemaMismatch, _)) => Sent(502, "schema_incompatible")
    case Some(LastError(Downgrade, code)) => Sent(502, code)
    case Some(LastError(Retryable, code)) => Sent(429, code)
  }

  function Counted(f: Reply): LastError
    requires f.Failure?
  {
    LastError(if !f.retryable then SchemaMismatch
              else if f.code == "model_downgrade" || f.code == "foreign_toolset" then Downgrade
              else Retryable,
              f.later)
  }

  const MAX_WAIT_MS := 60_000

  datatype Verdict = Again | Over

  /** In the middle of the loop: nothing is answered yet. */
  ghost predicate Going(handler: Handler, open: Option<nat>, late: bool)
    reads handler, handler.world
  {
    var world := handler.world;
    world.Valid() &&
    world.seen == Watch(open, world.begun, handler.skipKeys, handler.excludedModels, handler.coldStartRetried,
                        0, 0, handler.lastError, Some(handler.deadline), world.lastRead, late)
  }

  /** The ways a request ends: with success behind an attempt that succeeded, with the error of
      an attempt that is not worth repeating, or with what the attempts so far add up to. */
  predicate Settled(log: seq<Act>, last: Option<LastError>) {
    var n := |log|;
    n >= 2 &&
    ((n >= 3 && log[n - 3].Closed? && log[n - 3].ok && log[n - 2] == Finished(true) && log[n - 1] == Sent(200, ""))
     || (n >= 3 && log[n - 3].Closed? && !log[n - 3].ok && log[n - 2].Sent? && log[n - 1] == Finished(false))
     || (log[n - 2] == Answer(last, true) && log[n - 1] == Finished(false))
     || (log[n - 2] == Finished(false) && log[n - 1] == Answer(last, false)))
  }

  /** Everything closed, the trace finished once, one answer sent. */
  ghost predicate Answered(world: World)
    reads world
  {
    var m := world.seen;
    && world.Valid() && m.Watch? && m.open.None? && m.begun == world.begun && m.finished == 1 && m.sent == 1
    && Settled(world.log, m.last)
  }

  lemma {:induction false} EndsWell(log: seq<Act>, id: nat, last: Option<LastError>)
    ensures Settled(log + [Closed(id, true)] + [Finished(true)] + [Sent(200, "")], last)
  {
  }

  lemma {:induction false} EndsFailed(log: seq<Act>, id: nat, status: int, code: string, last: Option<LastError>)
    ensures Settled(log + [Closed(id, false)] + [Sent(status, code)] + [Finished(false)], last)
  {
  }

  lemma {:induction false} EndsRefused(log: seq<Act>, last: Option<LastError>)
    ensures Settled(log + [Answer(last, true)] + [Finished(false)], last)
    ensures Settled(log + [Finished(false)] + [Answer(last, false)], last)
  {
  }

  class Handler {
    const world: World
    const deadline: nat
    var skipKeys: set<Skip>
    var excludedModels: Models
    var coldStartRetried: set<Skip>
    var lastError: Option<LastError>

    constructor (world: World, deadline: nat)
      ensures this.world == world && this.deadline == deadline
      ensures skipKeys == {} && excludedModels == {} && coldStartRetried == {} && lastError == None
    {
      this.world, this.deadline := world, deadline;
      skipKeys, excludedModels, coldStartRetried, lastError := {}, {}, {}, None;
    }

    ghost predicate Valid()
      reads this, world
    {
      Going(this, None, false)
    }

    /** Keys that are no longer cooling are tried again. */
    method Purge(t: nat) returns (purged: bool)
      modifies this`skipKeys
      ensures skipKeys == set k | k in old(skipKeys) && world.cooling(t, k)
      ensures purged <==> skipKeys != old(skipKeys)
    {
      purged := false;
      var todo := skipKeys;
      while todo != {}
        invariant todo <= old(skipKeys)
        invariant skipKeys == set k | k in old(skipKeys) && (k in todo || world.cooling(t, k))
        invariant purged <==> skipKeys != old(skipKeys)
        decreases |todo|
      {
        var k :| k in todo;
        todo := todo - {k};
        if !world.cooling(t, k) {
          skipKeys := skipKeys - {k};
          purged := true;
        }
      }
    }

    /** No route: look again if a key has cooled or will soon, else give the final answer. */
    method NoRoute() returns (verdict: Verdict)
      requires Valid()
      modifies this`skipKeys, world`log, world`seen, world`readings, world`lastRead
      ensures verdict.Again? ==> Valid()
      ensures verdict.Over? ==>
                Answered(world)
    {
      var purged := Purge(world.asked);
      if purged {
        world.Do(Purged(skipKeys));
        return Again;
      }
      var waitMs := world.shortest(world.asked);
      var now := world.Now();
      if waitMs > 0 && waitMs <= MAX_WAIT_MS && now + waitMs < deadline {
        world.Do(Waited(waitMs));
        return Again;
      }
      Refuse(now >= deadline);
      return Over;
    }

    method Refuse(ghost late: bool)
      requires Going(this, None, late)
      modifies world`log, world`seen
      ensures Answered(world)
    {
      EndsRefused(world.log, lastError);
      End(Answer(lastError, true), Finished(false), late);
    }

    /** The trace ends and the answer is sent, in either order. */
    method End(first: Act, second: Act, ghost late: bool)
      requires Going(this, None, late) && Settled(world.log + [first] + [second], lastError)
      requires (first.Sent? && second.Finished?) || (first.Finished? && second.Sent?)
      modifies world`log, world`seen
      ensures Answered(world)
    {
      world.Do(first);
      world.Do(second);
    }

    /** The budget of attempts or time is used up. */
    method Exhaust(ghost late: bool)
      requires Going(this, None, late)
      modifies world`log, world`seen
      ensures Answered(world)
    {
      EndsRefused(world.log, lastError);
      End(Finished(false), Answer(lastError, false), late);
    }

    method Reject(route: Route, code: string)
      requires Valid()
      modifies this`excludedModels, this`lastError, world`log, world`seen
      ensures Valid() && lastError == Some(LastError(SchemaMismatch, code))
      ensures excludedModels == old(excludedModels) + {(route.who.platform, route.who.modelId)}
      ensures world.log == old(world.log) + [Rejected(route.who, code)]
    {
      excludedModels := excludedModels + {(route.who.platform, route.who.modelId)};
      lastError := Some(LastError(SchemaMismatch, code));
      world.Do(Rejected(route.who, code));
    }

    /** One call of the provider. A failure that may pass is retried on this route after its
        first cold start, else on another; any other failure is the answer. */
    method Attempt(route: Route, reply: Reply) returns (verdict: Verdict)
      requires Valid()
      modifies this`skipKeys, this`coldStartRetried, this`lastError, world`log, world`seen, world`begun
      ensures verdict.Again? <==> reply.Failure? && (reply.retryable || reply.schema)
      ensures verdict.Again? ==> Valid()
      ensures verdict.Over? ==>
                && Answered(world)
                && (if reply.Success? then Sent(200, "") else Sent(reply.status, reply.code)) in world.log
    {
      var id := world.Open(route.who);
      match reply {
        case Success =>
          Succeed(id);
          verdict := Over;
        case Failure(code, later, retryable, schema, status) =>
          if !retryable && !schema {
            Fail(id, status, code);
            return Over;
          }
          world.Do(Closed(id, false));
          Retry(route, reply);
          verdict := Again;
      }
    }

    method Succeed(id: nat)
      requires Going(this, Some(id), false)
      modifies world`log, world`seen
      ensures Answered(world) && world.log[|world.log| - 1] == Sent(200, "")
    {
      EndsWell(world.log, id, lastError);
      world.Do(Closed(id, true));
      world.Do(Finished(true));
      world.Do(Sent(200, ""));
    }

    method Fail(id: nat, status: int, code: string)
      requires Going(this, Some(id), false)
      modifies world`log, world`seen
      ensures Answered(world) && world.log[|world.log| - 2] == Sent(status, code)
    {
      EndsFailed(world.log, id, status, code, lastError);
      world.Do(Closed(id, false));
      world.Do(Sent(status, code));
      world.Do(Finished(false));
    }

    method Retry(route: Route, reply: Reply)
      requires Valid() && reply.Failure?
      modifies this`skipKeys, this`coldStartRetried, this`lastError, world`log, world`seen
      ensures Valid()
      ensures var cold := reply.retryable && route.coldStartMs != 0 && route.who !in old(coldStartRetried);
              && coldStartRetried == old(coldStartRetried) + (if cold then {route.who} else {})
              && skipKeys == old(skipKeys) + (if cold then {} else {route.who})
              && lastError == (if cold then old(lastError) else Some(Counted(reply)))
    {
      if reply.retryable && route.coldStartMs != 0 && route.who !in coldStartRetried {
        world.Do(Warming(route.who));
        coldStartRetried := coldStartRetried + {route.who};
        return;
      }
      GiveUp(route.who, Counted(reply));
    }

    method GiveUp(who: Skip, error: LastError)
      requires Valid()
      modifies this`skipKeys, this`lastError, world`log, world`seen
      ensures Valid() && skipKeys == old(skipKeys) + {who} && lastError == Some(error)
    {
      skipKeys := skipKeys + {who};
      lastError := Some(error);
      world.Do(GivenUp(who, error));
    }

    method Iterate() returns (verdict: Verdict)
      requires Valid()
      modifies this, world
      ensures world.asked == old(world.asked) + 1
      ensures verdict.Again? ==> Valid()
      ensures verdict.Over? ==> Answered(world)
    {
      var n := world.asked;
      var route := world.RouteRequest(skipKeys, excludedModels);
      if route.None? {
        verdict := NoRoute();
      } else if world.rejects(n).Some? {
        Reject(route.value, world.rejects(n).value);
        verdict := Again;
      } else {
        verdict := Attempt(route.value, world.reply(n));
      }
    }
  }

  method ChatCompletions(world: World, maxAttempts: nat, maxDurationMs: nat)
    requires world.Valid() && world.log == [] && world.begun == 0
    modifies world
    ensures Answered(world)
    ensures world.asked - old(world.asked) <= maxAttempts
  {
    var start := world.Now();
    var deadline := start + maxDurationMs;
    world.Do(Started(deadline));
    var handler := new Handler(world, deadline);
    for attempt := 0 to maxAttempts
      invariant handler.world == world && handler.deadline == deadline && fresh(handler) && handler.Valid()
      invariant world.asked == old(world.asked) + attempt
    {
      var now := world.Now();
      if now >= deadline {
        handler.Exhaust(true);
        return;
      }
      var verdict := handler.Iterate();
      if verdict.Over? {
        return;
      }
    }
    handler.Exhaust(false);
  }

  // ---- What a watched log shows ----

  lemma {:induction false} StepAt(log: seq<Act>, k: nat)
    requires k < |log|
    ensures Watched(log[..k + 1]) == Observe(Watched(log[..k]), log[k])
  {
    assert log[..k + 1][..k] == log[..k];
  }

  predicate Grown(m: Monitor, n: Monitor) {
    && m.Watch? && n.Watch? && m.warmed <= n.warmed && m.rejected <= n.rejected && m.begun <= n.begun
    && m.finished <= n.finished && m.sent <= n.sent && (m.late ==> n.late)
    && (m.deadline.Some? ==> n.deadline == m.deadline)
  }

  lemma {:induction false} ObserveGrows(m: Monitor, act: Act)
    requires Observe(m, act).Watch?
    ensures Grown(m, Observe(m, act))
  {
  }

  lemma {:induction false} GrownOn(m: Monitor, n: Monitor, o: Monitor)
    requires Grown(m, n) && Grown(n, o)
    ensures Grown(m, o)
  {
  }

  lemma {:induction false} GrewAt(log: seq<Act>, k: nat)
    requires k < |log| && Watched(log[..k + 1]).Watch?
    ensures Grown(Watched(log[..k]), Watched(log[..k + 1]))
  {
    StepAt(log, k);
    ObserveGrows(Watched(log[..k]), log[k]);
  }

  lemma {:induction false} Grows(log: seq<Act>, i: nat, j: nat)
    requires i <= j <= |log| && Watched(log[..j]).Watch?
    ensures Grown(Watched(log[..i]), Watched(log[..j]))
    decreases j
  {
    if i < j {
      GrewAt(log, j - 1);
      Grows(log, i, j - 1);
      GrownOn(Watched(log[..i]), Watched(log[..j - 1]), Watched(log[..j]));
    }
  }

  /** What stands between two acts of a watched log. */
  lemma {:induction false} Between(log: seq<Act>, i: nat, j: nat)
    requires Watched(log).Watch? && i < j < |log|
    ensures Grown(Observe(Watched(log[..i]), log[i]), Watched(log[..j]))
    ensures Observe(Watched(log[..j]), log[j]).Watch?
  {
    assert log[..|log|] == log;
    Grows(log, j + 1, |log|);
    GrewAt(log, j);
    Grows(log, i + 1, j);
    StepAt(log, i);
    StepAt(log, j);
  }

  lemma {:induction false} Apart(m: Monitor, x: Act, n: Monitor, y: Act)
    requires Grown(Observe(m, x), n) && Observe(n, y).Watch?
    ensures x.Warming? ==> x != y
    ensures x.Opened? && y.Opened? ==> x.id < y.id
    ensures x.Finished? ==> !y.Finished?
    ensures x.Sent? ==> !y.Sent?
  {
  }

  /** No route is warmed twice, no attempt number is used twice, and the trace ends and the
      answer is sent no more than once. */
  lemma {:induction false} NothingTwice(log: seq<Act>, i: nat, j: nat)
    requires Watched(log).Watch? && i < j < |log|
    ensures log[i].Warming? ==> log[i] != log[j]
    ensures log[i].Opened? && log[j].Opened? ==> log[i].id < log[j].id
    ensures log[i].Finished? ==> !log[j].Finished?
    ensures log[i].Sent? ==> !log[j].Sent?
  {
    Between(log, i, j);
    Apart(Watched(log[..i]), log[i], Watched(log[..j]), log[j]);
  }

  /** A rejected model is excluded from every later question to the router. */
  lemma {:induction false} RejectedExcluded(log: seq<Act>, i: nat, j: nat)
    requires Watched(log).Watch? && i < j < |log| && log[i].Rejected? && log[j].Asked?
    ensures (log[i].who.platform, log[i].who.modelId) in log[j].excluded
  {
    Between(log, i, j);
    Excluded(Watched(log[..i]), log[i], Watched(log[..j]), log[j]);
  }

  lemma {:induction false} Excluded(m: Monitor, reject: Act, n: Monitor, ask: Act)
    requires reject.Rejected? && ask.Asked? && Grown(Observe(m, reject), n) && Observe(n, ask).Watch?
    ensures (reject.who.platform, reject.who.modelId) in ask.excluded
  {
  }

  lemma {:induction false} InTime(m: Monitor, start: Act, n: Monitor, read: Act, o: Monitor, ask: Act)
    requires start.Started? && read.Read? && ask.Asked?
    requires Grown(Observe(m, start), n) && Grown(Observe(n, read), o) && Observe(o, ask).Watch?
    ensures read.now < start.deadline
  {
  }

  /** Once the deadline is set, the router is not asked behind a reading at or past it. */
  lemma {:induction false} AskedBeforeDeadline(log: seq<Act>, i: nat, j: nat, k: nat)
    requires Watched(log).Watch? && i < j < k < |log| && log[i].Started? && log[j].Read? && log[k].Asked?
    ensures log[j].now < log[i].deadline
  {
    Between(log, i, j);
    Between(log, j, k);
    InTime(Watched(log[..i]), log[i], Watched(log[..j]), log[j], Watched(log[..k]), log[k]);
  }

  predicate OpensOrCloses(act: Act) {
    act.Opened? || act.Closed?
  }

  /** Each attempt is closed, before any other is opened. */
  lemma {:induction false} OpenedThenClosed(log: seq<Act>, i: nat) returns (j: nat)
    requires Watched(log).Watch? && Watched(log).open.None? && i < |log| && log[i].Opened?
    ensures i < j < |log| && log[j].Closed? && log[j].id == log[i].id
    ensures forall k | i < k < j :: !OpensOrCloses(log[k])
  {
    assert log[..|log|] == log;
    StepAt(log, i);
    Grows(log, i + 1, |log|);
    j := Closing(log, i + 1, log[i].id);
  }

  lemma {:induction false} WhileOpen(m: Monitor, act: Act, id: nat)
    requires m.Watch? && m.open == Some(id) && Observe(m, act).Watch?
    ensures act.Closed? ==> act.id == id
    ensures !act.Closed? ==> !OpensOrCloses(act) && Observe(m, act).open == Some(id)
  {
  }

  lemma {:induction false} Closing(log: seq<Act>, from: nat, id: nat) returns (j: nat)
    requires Watched(log).Watch? && Watched(log).open.None?
    requires from <= |log| && Watched(log[..from]).Watch? && Watched(log[..from]).open == Some(id)
    ensures from <= j < |log| && log[j].Closed? && log[j].id == id
    ensures forall k | from <= k < j :: !OpensOrCloses(log[k])
    decreases |log| - from
  {
    assert log[..|log|] == log;
    Grows(log, from + 1, |log|);
    StepAt(log, from);
    WhileOpen(Watched(log[..from]), log[from], id);
    if log[from].Closed? {
      j := from;
    } else {
      j := Closing(log, from + 1, id);
    }
  }
}
