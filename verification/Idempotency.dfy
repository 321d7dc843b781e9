/** Idempotency keys: a claimed key lets one change through, and repeats get its result. */
module Idempotency {
  import opened Common

  const STALE_MS := 10 * 60 * 1000

  /** The table keeps the time of a claim in whole seconds. */
  function Stored(now: int): int {
    now / 1000 * 1000
  }

  /** Requests are compared by hash; a hash stands for the request itself. `created` is the
      time stored, in milliseconds. */
  datatype Row<S> = Row(hash: string, result: Option<S>, created: int)

  datatype Answer<S> = Proceed | Replay(snapshot: S) | Reused | InProgress

  /** A request at `now` is too late for the unfinished claim made at `start`. */
  predicate TakesOver(start: int, now: int) {
    now - Stored(start) > STALE_MS
  }

  predicate Stale<S>(row: Row<S>, now: int) {
    now - row.created > STALE_MS
  }

  /** What a claim finds in the key's row. */
  function Claim<S>(row: Option<Row<S>>, hash: string, now: int): Answer<S> {
    if row.None? then Proceed
    else if row.value.hash != hash then Reused
    else if row.value.result.Some? then Replay(row.value.result.value)
    else if Stale(row.value, now) then Proceed
    else InProgress
  }

  function ClaimedRow<S>(row: Option<Row<S>>, hash: string, now: int): Option<Row<S>> {
    if Claim(row, hash, now).Proceed? then Some(Row(hash, None, Stored(now))) else row
  }

  function CompletedRow<S>(row: Option<Row<S>>, snapshot: S): Option<Row<S>> {
    if row.None? then None else Some(row.value.(result := Some(snapshot)))
  }

  function AbandonedRow<S>(row: Option<Row<S>>): Option<Row<S>> {
    if row.Some? && row.value.result.None? then None else row
  }

  function At<S>(rows: map<string, Row<S>>, key: string): Option<Row<S>> {
    if key in rows then Some(rows[key]) else None
  }

  /** The table of keys. Without a key every operation is a no-op. */
  class Table<S(==)> {
    var rows: map<string, Row<S>>

    constructor ()
      ensures rows == map[]
    {
      rows := map[];
    }

    method ClaimIdempotency(key: Option<string>, hash: string, now: int) returns (r: Answer<S>)
      modifies this
      ensures key.None? ==> r.Proceed? && rows == old(rows)
      ensures key.Some? ==> r == Claim(At(old(rows), key.value), hash, now)
      ensures key.Some? ==> At(rows, key.value) == ClaimedRow(At(old(rows), key.value), hash, now)
      ensures forall k | key != Some(k) :: At(rows, k) == At(old(rows), k)
    {
      if key.None? {
        return Proceed;
      }
      if key.value in rows {
        var existing := rows[key.value];
        if existing.hash != hash {
          return Reused;
        }
        if existing.result.Some? {
          return Replay(existing.result.value);
        }
        if Stale(existing, now) {
          rows := rows - {key.value};
        } else {
          return InProgress;
        }
      }
      rows := rows[key.value := Row(hash, None, Stored(now))];
      r := Proceed;
    }

    method CompleteIdempotency(key: Option<string>, snapshot: S)
      modifies this
      ensures key.Some? ==> At(rows, key.value) == CompletedRow(At(old(rows), key.value), snapshot)
      ensures forall k | key != Some(k) :: At(rows, k) == At(old(rows), k)
    {
      if key.Some? && key.value in rows {
        rows := rows[key.value := rows[key.value].(result := Some(snapshot))];
      }
    }

    method AbandonIdempotency(key: Option<string>)
      modifies this
      ensures key.Some? ==> At(rows, key.value) == AbandonedRow(At(old(rows), key.value))
      ensures forall k | key != Some(k) :: At(rows, k) == At(old(rows), k)
    {
      if key.Some? && key.value in rows && rows[key.value].result.None? {
        rows := rows - {key.value};
      }
    }
  }

  // ---- Any number of clients of one key ----

  /** Where a client stands: it has claimed the key, undone its change, or made it. */
  datatype Phase = Idle | Holding(hash: string) | Undone(hash: string) | Committed(hash: string)

  datatype Step<S> =
    | Request(hash: string, now: int)   // claim the key
    | Commit                            // the change becomes visible
    | Undo                              // the change fails and is rolled back
    | Abandon                           // then the claim is given up
    | Complete(snapshot: S)             // the result is stored
    | Crash                             // the client never takes another step

  /** `takeovers` counts claims of a stale row, `lost` clients that crashed before a commit. */
  datatype State<S> = State(row: Option<Row<S>>, clients: seq<Phase>, commits: nat, takeovers: nat, lost: nat)

  function Start<S>(n: nat): State<S> {
    State(None, seq(n, _ => Idle), 0, 0, 0)
  }

  /** A step of client c; a step it cannot take changes nothing. */
  function Next<S>(s: State<S>, c: nat, step: Step<S>): State<S> {
    if c >= |s.clients| then s
    else
      match (s.clients[c], step)
      case (Idle, Request(hash, now)) =>
        if Claim(s.row, hash, now).Proceed? then
          s.(row := ClaimedRow(s.row, hash, now), clients := s.clients[c := Holding(hash)],
             takeovers := s.takeovers + if s.row.Some? then 1 else 0)
        else s
      case (Holding(hash), Commit) => s.(clients := s.clients[c := Committed(hash)], commits := s.commits + 1)
      case (Holding(hash), Undo) => s.(clients := s.clients[c := Undone(hash)])
      case (Undone(_), Abandon) => s.(row := AbandonedRow(s.row), clients := s.clients[c := Idle])
      case (Committed(_), Complete(snapshot)) => s.(row := CompletedRow(s.row, snapshot),
          clients := s.clients[c := Idle])
      case (Holding(_), Crash) => s.(clients := s.clients[c := Idle], lost := s.lost + 1)
      case (Undone(_), Crash) => s.(clients := s.clients[c := Idle], lost := s.lost + 1)
      case (Committed(_), Crash) => s.(clients := s.clients[c := Idle])
      case _ => s
  }

  type Schedule<S> = seq<(nat, Step<S>)>

  function Run<S>(s: State<S>, steps: Schedule<S>): State<S> {
    if steps == [] then s
    else
      var last := steps[|steps| - 1];
      Next(Run(s, steps[..|steps| - 1]), last.0, last.1)
  }

  /** Clients whose change may still come, and clients that still have a step to take. */
  function Uncommitted(clients: seq<Phase>): nat {
    if clients == [] then 0
    else
      var p := clients[|clients| - 1];
      Uncommitted(clients[..|clients| - 1]) + if p.Holding? || p.Undone? then 1 else 0
  }

  function Active(clients: seq<Phase>): nat {
    if clients == [] then 0
    else Active(clients[..|clients| - 1]) + if clients[|clients| - 1].Idle? then 0 else 1
  }

  lemma {:induction false} Moved(clients: seq<Phase>, c: nat, p: Phase)
    requires c < |clients|
    ensures Uncommitted(clients[c := p]) ==
              Uncommitted(clients) + (if p.Holding? || p.Undone? then 1 else 0)
              - (if clients[c].Holding? || clients[c].Undone? then 1 else 0)
    ensures Active(clients[c := p]) == Active(clients)
        + (if p.Idle? then 0 else 1) - (if clients[c].Idle? then 0 else 1)
  {
    var n := |clients| - 1;
    if c < n {
      Moved(clients[..n], c, p);
      assert clients[c := p][..n] == clients[..n][c := p];
    } else {
      assert clients[c := p][..n] == clients[..n];
    }
  }

  /** The balance of a key: changes made or still to come never exceed one, plus one for
      each claim that was taken over, minus one for each claimant that crashed. */
  predicate Balanced<S>(s: State<S>) {
    && Uncommitted(s.clients) + s.commits + s.lost + (if s.row.None? then 1 else 0) <= 1 + s.takeovers
    && Active(s.clients) + (if s.row.None? || s.row.value.result.Some? then 1 else 0) <= 1 + s.takeovers
  }

  lemma {:induction false} StepBalanced<S>(s: State<S>, c: nat, step: Step<S>)
    requires Balanced(s)
    ensures Balanced(Next(s, c, step))
    ensures s.takeovers <= Next(s, c, step).takeovers
  {
    if c < |s.clients| {
      var p := Next(s, c, step).clients[c];
      Moved(s.clients, c, p);
      assert Next(s, c, step).clients == s.clients[c := p];
    }
  }

  lemma {:induction false} StartBalanced<S>(n: nat)
    ensures Balanced(Start<S>(n)) && Active(Start<S>(n).clients) == 0
  {
    if n > 0 {
      StartBalanced<S>(n - 1);
      assert Start<S>(n).clients[..n - 1] == Start<S>(n - 1).clients;
    }
  }

  lemma {:induction false} RunBalanced<S>(n: nat, steps: Schedule<S>)
    ensures Balanced(Run(Start(n), steps))
  {
    if steps == [] {
      StartBalanced<S>(n);
    } else {
      var last := steps[|steps| - 1];
      RunBalanced(n, steps[..|steps| - 1]);
      StepBalanced(Run(Start(n), steps[..|steps| - 1]), last.0, last.1);
    }
  }

  /** Under any interleaving a key lets at most one change through for each time it was free
      to take: once, plus once for each claim taken over, less the claimants that crashed. */
  lemma {:induction false} CommitsBalance<S>(n: nat, steps: Schedule<S>)
    ensures var s := Run(Start(n), steps); s.commits + s.lost <= 1 + s.takeovers
  {
    RunBalanced(n, steps);
  }

  // ---- Claims within the window ----

  /** A client meets the unfinished claim of the same request, whose stored time is older than
      the window. */
  predicate Outlived<S>(s: State<S>, c: nat, step: Step<S>) {
    && c < |s.clients| && s.clients[c].Idle? && step.Request?
    && s.row.Some? && s.row.value.hash == step.hash && s.row.value.result.None?
    && step.now - s.row.value.created > STALE_MS
  }

  /** No claim outlives the window before it is finished. */
  predicate InTime<S>(n: nat, steps: Schedule<S>) {
    forall k | 0 <= k < |steps| :: !Outlived(Run(Start(n), steps[..k]), steps[k].0, steps[k].1)
  }

  lemma {:induction false} InTimeInit<S>(n: nat, steps: Schedule<S>)
    requires steps != []
    ensures var init, last := steps[..|steps| - 1], steps[|steps| - 1];
            InTime(n, steps) <==> InTime(n, init) && !Outlived(Run(Start(n), init), last.0, last.1)
  {
    var init, last := steps[..|steps| - 1], steps[|steps| - 1];
    assert forall k | 0 <= k < |init| :: init[..k] == steps[..k] && init[k] == steps[k];
    if InTime(n, init) && !Outlived(Run(Start(n), init), last.0, last.1) {
      forall k | 0 <= k < |steps|
        ensures !Outlived(Run(Start(n), steps[..k]), steps[k].0, steps[k].1)
      {
        assert k < |init| ==> !Outlived(Run(Start(n), init[..k]), init[k].0, init[k].1);
      }
    }
    if InTime(n, steps) {
      assert !Outlived(Run(Start(n), steps[..|steps| - 1]), steps[|steps| - 1].0, steps[|steps| - 1].1);
      forall k | 0 <= k < |init|
        ensures !Outlived(Run(Start(n), init[..k]), init[k].0, init[k].1)
      {
        assert !Outlived(Run(Start(n), steps[..k]), steps[k].0, steps[k].1);
      }
    }
  }

  lemma {:induction false} TakeoverStep<S>(s: State<S>, c: nat, step: Step<S>)
    ensures Next(s, c, step).takeovers == s.takeovers + if Outlived(s, c, step) then 1 else 0
  {
  }

  /** Claims are taken over exactly if one outlives the window. */
  lemma {:induction false} TakeoversIff<S>(n: nat, steps: Schedule<S>)
    ensures Run(Start<S>(n), steps).takeovers == 0 <==> InTime(n, steps)
  {
    if steps != [] {
      var init, last := steps[..|steps| - 1], steps[|steps| - 1];
      TakeoversIff(n, init);
      InTimeInit(n, steps);
      TakeoverStep(Run(Start(n), init), last.0, last.1);
    }
  }

  /** With no claim outliving the window, one key commits its change at most once. */
  lemma {:induction false} CommitsBounded<S>(n: nat, steps: Schedule<S>)
    requires InTime(n, steps)
    ensures var s := Run(Start(n), steps); s.commits + s.lost <= 1
  {
    TakeoversIff(n, steps);
    RunBalanced(n, steps);
  }

  predicate RequestedAt<S>(steps: Schedule<S>, k: nat, created: int) {
    k < |steps| && steps[k].1.Request? && Stored(steps[k].1.now) == created
  }

  lemma {:induction false} CreatedByRequest<S>(n: nat, steps: Schedule<S>) returns (k: nat)
    requires Run(Start<S>(n), steps).row.Some?
    ensures RequestedAt(steps, k, Run(Start<S>(n), steps).row.value.created)
  {
    var init, last := steps[..|steps| - 1], steps[|steps| - 1];
    var before, after := Run(Start<S>(n), init), Run(Start<S>(n), steps);
    if before.row.Some? && before.row.value.created == after.row.value.created {
      k := CreatedByRequest(n, init);
    } else {
      k := |steps| - 1;
    }
  }

  /** No two requests are further apart than the window, the first counted from its whole second. */
  predicate RequestsClose<S>(steps: Schedule<S>) {
    forall i: nat, j: nat | i < |steps| && j < |steps| && steps[i].1.Request? && steps[j].1.Request? ::
      !TakesOver(steps[i].1.now, steps[j].1.now)
  }

  /** In particular if all requests of the key come within the window. */
  lemma {:induction false} CloseRequests<S>(n: nat, steps: Schedule<S>)
    requires RequestsClose(steps)
    ensures InTime(n, steps)
  {
    forall k | 0 <= k < |steps|
      ensures !Outlived(Run(Start(n), steps[..k]), steps[k].0, steps[k].1)
    {
      if Run(Start(n), steps[..k]).row.Some? {
        var i := CreatedByRequest(n, steps[..k]);
        assert steps[..k][i] == steps[i];
        assert steps[k].1.Request? ==> !TakesOver(steps[i].1.now, steps[k].1.now);
      }
    }
  }

  predicate NoneFurther<S>(steps: Schedule<S>, gap: int) {
    forall i: nat, j: nat | i < |steps| && j < |steps| && steps[i].1.Request? && steps[j].1.Request? ::
      steps[j].1.now - steps[i].1.now <= gap
  }

  /** Ten minutes less one second, but not a millisecond more, is a safe distance for every
      schedule. */
  lemma {:induction false} SafeDistanceIff(gap: nat)
    ensures gap <= STALE_MS - 999 <==>
            forall n: nat, steps: Schedule<int> | NoneFurther(steps, gap) :: InTime(n, steps)
  {
    if gap <= STALE_MS - 999 {
      forall n: nat, steps: Schedule<int> | NoneFurther(steps, gap)
        ensures InTime(n, steps)
      {
        assert RequestsClose(steps);
        CloseRequests(n, steps);
      }
    } else {
      var steps := TakenOver("", 999, gap);
      assert NoneFurther(steps, gap);
      TakeoversIff(2, steps);
    }
  }

  // ---- The claim belongs to its claimant ----

  /** The row belongs to the one client that is under way. */
  ghost predicate Owned<S>(s: State<S>) {
    forall c | 0 <= c < |s.clients| ::
      match s.clients[c]
      case Idle => true
      case Holding(hash) => s.row.Some? && s.row.value.hash == hash && s.row.value.result.None?
      case Undone(hash) => s.row.Some? && s.row.value.hash == hash && s.row.value.result.None?
      case Committed(hash) => s.row.Some? && s.row.value.hash == hash && s.row.value.result.None?
  }

  lemma {:induction false} ActiveAt(clients: seq<Phase>, c: nat)
    requires c < |clients| && !clients[c].Idle?
    ensures Active(clients) >= 1
    decreases |clients|
  {
    if c < |clients| - 1 {
      ActiveAt(clients[..|clients| - 1], c);
    }
  }

  lemma {:induction false} ActiveTwo(clients: seq<Phase>, c: nat, d: nat)
    requires c < d < |clients| && !clients[c].Idle? && !clients[d].Idle?
    ensures Active(clients) >= 2
    decreases |clients|
  {
    if d < |clients| - 1 {
      ActiveTwo(clients[..|clients| - 1], c, d);
    } else {
      ActiveAt(clients[..d], c);
    }
  }

  lemma {:induction false} OnlyOne<S>(s: State<S>, c: nat)
    requires Balanced(s) && s.takeovers == 0 && c < |s.clients| && !s.clients[c].Idle?
    ensures forall d | 0 <= d < |s.clients| && d != c :: s.clients[d].Idle?
  {
    forall d | 0 <= d < |s.clients| && d != c
      ensures s.clients[d].Idle?
    {
      if !s.clients[d].Idle? {
        ActiveTwo(s.clients, if c < d then c else d, if c < d then d else c);
      }
    }
  }

  lemma {:induction false} NoneActive<S>(s: State<S>)
    requires Balanced(s) && s.takeovers == 0 && (s.row.None? || s.row.value.result.Some?)
    ensures forall d | 0 <= d < |s.clients| :: s.clients[d].Idle?
  {
    forall d | 0 <= d < |s.clients|
      ensures s.clients[d].Idle?
    {
      if !s.clients[d].Idle? {
        ActiveAt(s.clients, d);
      }
    }
  }

  lemma {:induction false} StepOwned<S>(s: State<S>, c: nat, step: Step<S>)
    requires Balanced(s) && Owned(s) && Next(s, c, step).takeovers == 0
    ensures Owned(Next(s, c, step))
    ensures s.row.Some? && s.row.value.result.Some? ==> Next(s, c, step).row == s.row
  {
    StepBalanced(s, c, step);
    if c < |s.clients| {
      if !s.clients[c].Idle? {
        OnlyOne(s, c);
      } else if s.row.None? || s.row.value.result.Some? {
        NoneActive(s);
      }
    }
  }

  lemma {:induction false} TakeoversGrow<S>(n: nat, steps: Schedule<S>)
    requires steps != []
    ensures Run(Start(n), steps[..|steps| - 1]).takeovers <= Run(Start(n), steps).takeovers
  {
    var last := steps[|steps| - 1];
    RunBalanced(n, steps[..|steps| - 1]);
    StepBalanced(Run(Start(n), steps[..|steps| - 1]), last.0, last.1);
  }

  lemma {:induction false} NoTakeoverOwned<S>(n: nat, steps: Schedule<S>)
    requires Run(Start<S>(n), steps).takeovers == 0
    ensures Owned(Run(Start<S>(n), steps))
  {
    if steps != [] {
      var init, last := steps[..|steps| - 1], steps[|steps| - 1];
      TakeoversGrow(n, steps);
      NoTakeoverOwned(n, init);
      RunBalanced(n, init);
      StepOwned(Run(Start(n), init), last.0, last.1);
    }
  }

  /** As long as no claim outlives the window, the row is the claim of the one client under
      way: nobody who was refused, or has given up, removes it. */
  lemma {:induction false} RunOwned<S>(n: nat, steps: Schedule<S>)
    requires InTime(n, steps)
    ensures Owned(Run(Start<S>(n), steps))
  {
    TakeoversIff(n, steps);
    NoTakeoverOwned(n, steps);
  }

  lemma {:induction false} NoTakeoverStays<S>(n: nat, steps: Schedule<S>, more: Schedule<S>)
    requires var row := Run(Start<S>(n), steps).row; row.Some? && row.value.result.Some?
    requires Run(Start<S>(n), steps + more).takeovers == 0
    ensures Run(Start<S>(n), steps + more).row == Run(Start<S>(n), steps).row
  {
    if more == [] {
      assert steps + more == steps;
    } else {
      var init, last := more[..|more| - 1], more[|more| - 1];
      var all := steps + more;
      assert all[..|all| - 1] == steps + init;
      TakeoversGrow(n, all);
      NoTakeoverStays(n, steps, init);
      NoTakeoverOwned(n, steps + init);
      RunBalanced(n, steps + init);
      StepOwned(Run(Start(n), steps + init), last.0, last.1);
    }
  }

  /** A stored result stays, and every repeat of its request is answered with it. */
  lemma {:induction false} ResultStays<S>(n: nat, steps: Schedule<S>, more: Schedule<S>)
    requires var row := Run(Start<S>(n), steps).row; row.Some? && row.value.result.Some?
    requires InTime(n, steps + more)
    ensures var row := Run(Start<S>(n), steps).row;
            && Run(Start<S>(n), steps + more).row == row
            && forall now :: Claim(row, row.value.hash, now) == Replay(row.value.result.value)
  {
    TakeoversIff(n, steps + more);
    NoTakeoverStays(n, steps, more);
  }

  // ---- With a takeover ----

  lemma {:induction false} RunPush<S>(s: State<S>, steps: Schedule<S>, c: nat, step: Step<S>)
    ensures Run(s, steps + [(c, step)]) == Next(Run(s, steps), c, step)
  {
    assert (steps + [(c, step)])[..|steps|] == steps;
  }

  /** The bound is met whenever the second request comes too late for the first: a slow client
      and the one that takes its claim over both commit. */
  lemma {:induction false} TakeoverCommitsTwice(hash: string, start: int, gap: int) returns (steps: Schedule<int>)
    requires TakesOver(start, start + gap)
    ensures steps == [(0, Request(hash, start)), (1, Request(hash, start + gap)), (0, Commit), (1, Commit)]
    ensures var s := Run(Start<int>(2), steps); s.commits == 2 && s.takeovers == 1 && s.lost == 0
  {
    var requests := TakenOver(hash, start, gap);
    var s := Run(Start<int>(2), requests);
    RunPush(Start<int>(2), requests, 0, Commit);
    RunPush(Start<int>(2), requests + [(0, Commit)], 1, Commit);
    steps := requests + [(0, Commit)] + [(1, Commit)];
  }

  lemma {:induction false} TakenOver(hash: string, start: int, gap: int) returns (steps: Schedule<int>)
    requires TakesOver(start, start + gap)
    ensures steps == [(0, Request(hash, start)), (1, Request(hash, start + gap))]
    ensures var s := Run(Start<int>(2), steps);
            && s.commits == 0 && s.takeovers == 1 && s.lost == 0
            && s.row == Some(Row(hash, None, Stored(start + gap))) && s.clients == [Holding(hash), Holding(hash)]
  {
    var first: Step<int> := Request(hash, start);
    assert [] + [(0, first)] == [(0, first)];
    RunPush(Start<int>(2), [], 0, first);
    RunPush(Start<int>(2), [(0, first)], 1, Request(hash, start + gap));
    steps := [(0, first)] + [(1, Request(hash, start + gap))];
  }

  /** Otherwise, and only then, the second client of the same schedule is refused. */
  lemma {:induction false} WithinWindowRefused(hash: string, start: int, gap: int)
    ensures var claimed := Next(Start<int>(2), 0, Request(hash, start));
            Next(claimed, 1, Request(hash, start + gap)) == claimed <==> start + gap - start / 1000 * 1000 <= STALE_MS
  {
    var claimed := Next(Start<int>(2), 0, Request(hash, start));
    assert claimed.takeovers == 0 && claimed.row == Some(Row(hash, None, Stored(start)));
    TakeoverStep(claimed, 1, Request(hash, start + gap));
  }

  /** A claim made late in its second can be taken over before ten minutes have passed. */
  lemma {:induction false} EarlyTakeover(hash: string) returns (steps: Schedule<int>)
    ensures steps == [(0, Request(hash, 999)), (1, Request(hash, 600500)), (0, Commit), (1, Commit)]
    ensures 600500 - 999 < STALE_MS && Run(Start<int>(2), steps).commits == 2
  {
    steps := TakeoverCommitsTwice(hash, 999, 599501);
  }
}
