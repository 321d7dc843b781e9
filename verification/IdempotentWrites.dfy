/** A key's claims together with the tables that its requests write: what a takeover can repeat. */
module IdempotentWrites {
  import opened Idempotency
  import opened Configuration
  import opened Repetition

  /** The operation that a hash stands for. */
  type Requests = string -> Operation

  /** `made` counts the commits of each request. */
  datatype Joint<S> = Joint(key: State<S>, tables: Tables, made: multiset<string>)

  /** A client of the key takes a step, or somebody else writes. */
  datatype Move<S> = Client(c: nat, step: Step<S>) | Elsewhere(op: Operation)

  predicate Attempts<S>(key: State<S>, c: nat, step: Step<S>) {
    c < |key.clients| && key.clients[c].Holding? && step.Commit?
  }

  /** What becomes of a step: a change that the tables refuse is rolled back. */
  ghost function Taken<S>(j: Joint<S>, digest: Digest, requests: Requests, c: nat, step: Step<S>): Step<S> {
    if Attempts(j.key, c, step) && Perform(j.tables, digest, requests(j.key.clients[c].hash)).Failed? then Undo
    else step
  }

  ghost function Turn<S>(j: Joint<S>, digest: Digest, requests: Requests, move: Move<S>): Joint<S> {
    match move
    case Elsewhere(op) =>
      var written := Perform(j.tables, digest, op);
      if written.Done? then j.(tables := written.tables) else j
    case Client(c, step) =>
      var taken := Taken(j, digest, requests, c, step);
      var key := Next(j.key, c, taken);
      if Attempts(j.key, c, taken) then
        var hash := j.key.clients[c].hash;
        Joint(key, Perform(j.tables, digest, requests(hash)).tables, j.made + multiset{hash})
      else j.(key := key)
  }

  ghost function Play<S>(j: Joint<S>, digest: Digest, requests: Requests, moves: seq<Move<S>>): Joint<S> {
    if moves == [] then j
    else Turn(Play(j, digest, requests, moves[..|moves| - 1]), digest, requests, moves[|moves| - 1])
  }

  function Opening<S>(n: nat, t: Tables): Joint<S> {
    Joint(Start(n), t, multiset{})
  }

  /** The schedule of the key alone. */
  ghost function Steps<S>(n: nat, t: Tables, digest: Digest, requests: Requests, moves: seq<Move<S>>): Schedule<S> {
    if moves == [] then []
    else
      var init, last := moves[..|moves| - 1], moves[|moves| - 1];
      var before := Steps(n, t, digest, requests, init);
      match last
      case Elsewhere(_) => before
      case Client(c, step) =>
        var j := Play(Opening(n, t), digest, requests, init);
        before + [(c, Taken(j, digest, requests, c, step))]
  }

  /** With its tables a key behaves as one of the schedules it has on its own, and its commits
      are those made. */
  lemma {:induction false} PlayIsRun<S>(n: nat, t: Tables, digest: Digest, requests: Requests, moves: seq<Move<S>>)
    ensures var j := Play(Opening<S>(n, t), digest, requests, moves);
            j.key == Run(Start(n), Steps(n, t, digest, requests, moves)) && |j.made| == j.key.commits
  {
    if moves != [] {
      var init, last := moves[..|moves| - 1], moves[|moves| - 1];
      PlayIsRun(n, t, digest, requests, init);
      if last.Client? {
        var j := Play(Opening<S>(n, t), digest, requests, init);
        TurnIsNext(j, digest, requests, last.c, last.step);
        var taken := Taken(j, digest, requests, last.c, last.step);
        RunPush(Start<S>(n), Steps(n, t, digest, requests, init), last.c, taken);
      }
    }
  }

  lemma {:induction false} TurnIsNext<S>(j: Joint<S>, digest: Digest, requests: Requests, c: nat, step: Step<S>)
    ensures var k := Turn(j, digest, requests, Client(c, step));
            && k.key == Next(j.key, c, Taken(j, digest, requests, c, step))
            && |k.made| - |j.made| == k.key.commits - j.key.commits
  {
  }

  // ---- Requests that commit once ----

  ghost predicate MadeOnce<S>(j: Joint<S>, requests: Requests, hash: string) {
    IdsBelow(j.tables) && j.made[hash] <= 1 && (j.made[hash] == 1 ==> Marked(j.tables, requests(hash)))
  }

  lemma {:induction false} WriteKeepsOnce<S>(j: Joint<S>, digest: Digest, requests: Requests, hash: string,
      op: Operation)
    requires MadeOnce(j, requests, hash) && Perform(j.tables, digest, op).Done?
    ensures MadeOnce(j.(tables := Perform(j.tables, digest, op).tables), requests, hash)
  {
    PerformKeepsModels(j.tables, digest, op);
    if Marked(j.tables, requests(hash)) {
      MarkStays(j.tables, digest, requests(hash), op);
    }
  }

  lemma {:induction false} TurnKeepsOnce<S>(j: Joint<S>, digest: Digest, requests: Requests, hash: string,
      move: Move<S>)
    requires MadeOnce(j, requests, hash) && Once(requests(hash))
    ensures MadeOnce(Turn(j, digest, requests, move), requests, hash)
  {
    match move {
      case Elsewhere(op) =>
        if Perform(j.tables, digest, op).Done? {
          WriteKeepsOnce(j, digest, requests, hash, op);
        }
      case Client(c, step) =>
        if Attempts(j.key, c, Taken(j, digest, requests, c, step)) {
          var mine := j.key.clients[c].hash;
          WriteKeepsOnce(j, digest, requests, hash, requests(mine));
          if mine == hash {
            CommitMarks(j.tables, digest, requests(hash));
          }
        }
    }
  }

  /** A request with an expected revision, or one that creates models, commits at most once,
      whatever is taken over, whoever crashes, and whatever is written elsewhere. */
  lemma {:induction false} OnceCommitsOnce<S>(n: nat, t: Tables, digest: Digest, requests: Requests, hash: string,
      moves: seq<Move<S>>)
    requires IdsBelow(t) && Once(requests(hash))
    ensures MadeOnce(Play(Opening<S>(n, t), digest, requests, moves), requests, hash)
  {
    if moves != [] {
      var init := moves[..|moves| - 1];
      OnceCommitsOnce(n, t, digest, requests, hash, init);
      TurnKeepsOnce(Play(Opening<S>(n, t), digest, requests, init), digest, requests, hash, moves[|moves| - 1]);
    }
  }

  /** With no claim outliving the window a key commits once, whatever its requests are. */
  lemma {:induction false} InTimeCommitsOnce<S>(n: nat, t: Tables, digest: Digest, requests: Requests,
      moves: seq<Move<S>>)
    requires InTime(n, Steps(n, t, digest, requests, moves))
    ensures |Play(Opening<S>(n, t), digest, requests, moves).made| <= 1
  {
    PlayIsRun(n, t, digest, requests, moves);
    CommitsBounded(n, Steps(n, t, digest, requests, moves));
  }

  // ---- Requests that a takeover commits twice ----

  lemma {:induction false} PlayPush<S>(j: Joint<S>, digest: Digest, requests: Requests, moves: seq<Move<S>>,
      move: Move<S>)
    ensures Play(j, digest, requests, moves + [move]) == Turn(Play(j, digest, requests, moves), digest, requests, move)
  {
    assert (moves + [move])[..|moves|] == moves;
  }

  /** Two clients hold the key: the second has taken the claim of the first over. */
  lemma {:induction false} BothHold(t: Tables, digest: Digest, requests: Requests, hash: string, start: int, now: int)
    returns (moves: seq<Move<int>>)
    requires TakesOver(start, now)
    ensures moves == [Client(0, Request(hash, start)), Client(1, Request(hash, now))]
    ensures var j := Play(Opening<int>(2, t), digest, requests, moves);
            j.key.clients == [Holding(hash), Holding(hash)] && j.tables == t && j.made == multiset{}
  {
    var first: Move<int>, second: Move<int> := Client(0, Request(hash, start)), Client(1, Request(hash, now));
    assert [] + [first] == [first];
    PlayPush(Opening<int>(2, t), digest, requests, [], first);
    PlayPush(Opening<int>(2, t), digest, requests, [first], second);
    moves := [first] + [second];
  }

  lemma {:induction false} HolderCommits(j: Joint<int>, digest: Digest, requests: Requests, c: nat, hash: string)
    requires c < |j.key.clients| && j.key.clients[c] == Holding(hash) && Perform(j.tables, digest, requests(hash)).Done?
    ensures var k := Turn(j, digest, requests, Client(c, Commit));
            && k.made == j.made + multiset{hash} && k.tables == Perform(j.tables, digest, requests(hash)).tables
            && k.key.clients == j.key.clients[c := Committed(hash)]
  {
  }

  /** Both commit, if the request can be repeated. */
  lemma {:induction false} TakeoverRepeats(t: Tables, digest: Digest, requests: Requests, hash: string, start: int,
      now: int)
    returns (moves: seq<Move<int>>)
    requires TakesOver(start, now) && IdsBelow(t)
    requires !Once(requests(hash)) && Perform(t, digest, requests(hash)).Done?
    ensures moves == [Client(0, Request(hash, start)), Client(1, Request(hash, now)),
                      Client(0, Commit), Client(1, Commit)]
    ensures Play(Opening<int>(2, t), digest, requests, moves).made[hash] == 2
  {
    var held := BothHold(t, digest, requests, hash, start, now);
    var j := Play(Opening<int>(2, t), digest, requests, held);
    HolderCommits(j, digest, requests, 0, hash);
    PlayPush(Opening<int>(2, t), digest, requests, held, Client(0, Commit));
    var k := Turn(j, digest, requests, Client(0, Commit));
    RepeatsIff(t, digest, requests(hash));
    HolderCommits(k, digest, requests, 1, hash);
    PlayPush(Opening<int>(2, t), digest, requests, held + [Client(0, Commit)], Client(1, Commit));
    moves := held + [Client(0, Commit)] + [Client(1, Commit)];
  }

  ghost predicate CommitsTwice(n: nat, t: Tables, digest: Digest, requests: Requests, hash: string,
      moves: seq<Move<int>>) {
    Play(Opening<int>(n, t), digest, requests, moves).made[hash] >= 2
  }

  /** A request that the tables accept can be committed twice under one key exactly if it
      neither names the revision it expects nor creates models. */
  lemma {:induction false} CommitsTwiceIff(t: Tables, digest: Digest, requests: Requests, hash: string)
    requires IdsBelow(t) && Perform(t, digest, requests(hash)).Done?
    ensures (exists n, moves :: CommitsTwice(n, t, digest, requests, hash, moves)) <==> !Once(requests(hash))
  {
    if Once(requests(hash)) {
      forall n, moves
        ensures !CommitsTwice(n, t, digest, requests, hash, moves)
      {
        OnceCommitsOnce(n, t, digest, requests, hash, moves);
      }
    } else {
      var moves := TakeoverRepeats(t, digest, requests, hash, 0, STALE_MS + 1);
      assert CommitsTwice(2, t, digest, requests, hash, moves);
    }
  }
}
