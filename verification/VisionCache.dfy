/** The cache of image descriptions: least recently used entries go first. */
module VisionCache {
  import opened Common
  import opened OrderedMap

  /** `ts` is 0 for an entry without a time stamp. */
  datatype Entry = Entry(text: string, ts: nat)
  type List = seq<Slot<string, Entry>>

  /** `weigh` is the size in bytes of a key with its serialised entry. */
  datatype Config = Config(weigh: (string, Entry) -> nat, maxEntries: nat, maxBytes: nat, ttlMs: nat)

  function Bytes(cfg: Config, list: List): nat {
    if list == [] then 0
    else Bytes(cfg, list[..|list| - 1]) + cfg.weigh(list[|list| - 1].key, list[|list| - 1].value)
  }

  predicate WithinLimits(cfg: Config, list: List) {
    |list| <= cfg.maxEntries && Bytes(cfg, list) <= cfg.maxBytes
  }

  predicate Expired(cfg: Config, e: Entry, now: int) {
    e.ts != 0 && now - e.ts > cfg.ttlMs
  }

  // ---- A plain recency list, oldest first ----

  /** Drop the oldest until both limits hold. */
  function Trim(cfg: Config, list: List): List
    decreases |list|
  {
    if WithinLimits(cfg, list) || list == [] then list else Trim(cfg, list[1..])
  }

  datatype Op = Put(key: string, entry: Entry) | Lookup(key: string, now: int)

  function Apply(cfg: Config, list: List, op: Op): List {
    match op
    case Put(key, entry) =>
      if cfg.weigh(key, entry) > cfg.maxBytes then list
      else Trim(cfg, Without(list, key) + [Slot(key, entry)])
    case Lookup(key, now) =>
      match Find(list, key)
      case None => list
      case Some(e) => Without(list, key) + (if Expired(cfg, e, now) then [] else [Slot(key, e)])
  }

  function Replay(cfg: Config, ops: seq<Op>): List {
    if ops == [] then [] else Apply(cfg, Replay(cfg, ops[..|ops| - 1]), ops[|ops| - 1])
  }

  // ---- Byte accounting ----

  lemma {:induction false} BytesPush(cfg: Config, list: List, s: Slot<string, Entry>)
    ensures Bytes(cfg, list + [s]) == Bytes(cfg, list) + cfg.weigh(s.key, s.value)
  {
    InitOf(list, s);
  }

  lemma {:induction false} BytesWithout(cfg: Config, list: List, key: string)
    requires Distinct(list)
    ensures Bytes(cfg, Without(list, key)) ==
              Bytes(cfg, list) - (match Find(list, key) case None => 0 case Some(e) => cfg.weigh(key, e))
  {
    if list != [] {
      var init, last := list[..|list| - 1], list[|list| - 1];
      BytesWithout(cfg, init, key);
      if last.key != key {
        BytesPush(cfg, Without(init, key), last);
      } else {
        assert Without(list, key) == Without(init, key);
      }
    }
  }

  class Cache {
    const cfg: Config
    const cache: Map<string, Entry>
    var cacheBytes: int

    ghost predicate Valid()
      reads this, cache
    {
      cache.Valid() && cacheBytes == Bytes(cfg, List())
    }

    ghost function List(): List
      reads this, cache
    {
      cache.Entries()
    }

    constructor (cfg: Config)
      ensures Valid() && List() == [] && fresh(cache) && this.cfg == cfg
    {
      this.cfg := cfg;
      cache := new Map();
      cacheBytes := 0;
    }

    method SetCached(key: string, value: Entry)
      requires Valid()
      modifies this, cache
      ensures Valid() && List() == Apply(cfg, old(List()), Put(key, value))
    {
      var size := cfg.weigh(key, value);
      if size > cfg.maxBytes {
        return;
      }
      Replace(key, value, size);
      Evict();
    }

    /** The new value goes to the end, wherever the key stood. */
    method Replace(key: string, value: Entry, size: nat)
      requires Valid() && size == cfg.weigh(key, value)
      modifies this, cache
      ensures Valid() && List() == Without(old(List()), key) + [Slot(key, value)]
    {
      BytesWithout(cfg, List(), key);
      WithoutFinds(List(), key, key);
      var previous := cache.Get(key);
      if previous.Some? {
        cacheBytes := cacheBytes - cfg.weigh(key, previous.value);
      }
      cache.Delete(key);
      BytesPush(cfg, List(), Slot(key, value));
      cache.Set(key, value);
      cacheBytes := cacheBytes + size;
    }

    method Evict()
      requires Valid()
      modifies this, cache
      ensures Valid() && List() == Trim(cfg, old(List()))
    {
      var n := cache.Size();
      while n > cfg.maxEntries || cacheBytes > cfg.maxBytes
        invariant Valid() && n == |List()|
        invariant Trim(cfg, List()) == Trim(cfg, old(List()))
        decreases |List()|
      {
        var oldestKey := cache.FirstKey();
        if oldestKey.None? {
          break;
        }
        FindIn(List(), 0);
        BytesWithout(cfg, List(), oldestKey.value);
        WithoutFirst(List());
        var oldest := cache.Get(oldestKey.value);
        cache.Delete(oldestKey.value);
        if oldest.Some? {
          cacheBytes := cacheBytes - cfg.weigh(oldestKey.value, oldest.value);
        }
        n := cache.Size();
      }
    }

    /** A hit becomes the newest entry; an expired entry is dropped and never returned. */
    method GetCached(key: string, now: int) returns (r: Option<Entry>)
      requires Valid()
      modifies this, cache
      ensures Valid() && List() == Apply(cfg, old(List()), Lookup(key, now))
      ensures r == match Find(old(List()), key)
                   case None => None
                   case Some(e) => if Expired(cfg, e, now) then None else Some(e)
    {
      r := cache.Get(key);
      if r.None? {
        return;
      }
      if Expired(cfg, r.value, now) {
        Drop(key, r.value);
        return None;
      }
      Renew(key, r.value);
    }

    method Drop(key: string, value: Entry)
      requires Valid() && Find(List(), key) == Some(value)
      modifies this, cache
      ensures Valid() && List() == Without(old(List()), key)
    {
      BytesWithout(cfg, List(), key);
      cache.Delete(key);
      cacheBytes := cacheBytes - cfg.weigh(key, value);
    }

    /** A present entry goes to the end. */
    method Renew(key: string, value: Entry)
      requires Valid() && Find(List(), key) == Some(value)
      modifies this, cache
      ensures Valid() && List() == Without(old(List()), key) + [Slot(key, value)]
    {
      BytesWithout(cfg, List(), key);
      WithoutFinds(List(), key, key);
      cache.Delete(key);
      BytesPush(cfg, List(), Slot(key, value));
      cache.Set(key, value);
    }
  }

  // ---- What the recency list keeps ----

  lemma {:induction false} BytesPop(cfg: Config, list: List)
    requires list != []
    ensures Bytes(cfg, list) == cfg.weigh(list[0].key, list[0].value) + Bytes(cfg, list[1..])
  {
    if |list| == 1 {
      assert Bytes(cfg, list[..0]) == 0 == Bytes(cfg, list[1..]);
    } else {
      BytesPop(cfg, list[..|list| - 1]);
      assert list[..|list| - 1][1..] == list[1..][..|list[1..]| - 1];
    }
  }

  lemma {:induction false} BytesSuffix(cfg: Config, list: List, k: nat)
    requires k <= |list|
    ensures Bytes(cfg, list[k..]) <= Bytes(cfg, list)
    decreases |list|
  {
    if k > 0 {
      BytesPop(cfg, list);
      BytesSuffix(cfg, list[1..], k - 1);
      assert list[1..][k - 1..] == list[k..];
    } else {
      assert list[0..] == list;
    }
  }

  /** Eviction keeps the longest run of newest entries that fits both limits. */
  lemma {:induction false} TrimKeepsNewest(cfg: Config, list: List) returns (k: nat)
    ensures k <= |list| && Trim(cfg, list) == list[k..] && WithinLimits(cfg, list[k..])
    ensures forall j | 0 <= j < k :: !WithinLimits(cfg, list[j..])
    decreases |list|
  {
    if WithinLimits(cfg, list) || list == [] {
      k := 0;
      assert list[0..] == list;
    } else {
      k := TrimKeepsNewest(cfg, list[1..]);
      assert list[1..][k..] == list[k + 1..];
      forall j | 0 <= j < k + 1
        ensures !WithinLimits(cfg, list[j..])
      {
        assert j > 0 ==> list[1..][j - 1..] == list[j..];
        assert j == 0 ==> list[j..] == list;
      }
      k := k + 1;
    }
  }

  predicate Kept(cfg: Config, list: List) {
    Distinct(list) && WithinLimits(cfg, list)
  }

  lemma {:induction false} ApplyKeeps(cfg: Config, list: List, op: Op)
    requires Kept(cfg, list)
    ensures Kept(cfg, Apply(cfg, list, op))
  {
    WithoutDistinct(list, op.key);
    WithoutFinds(list, op.key, op.key);
    BytesWithout(cfg, list, op.key);
    WithoutAbsent(list, op.key);
    match op {
      case Put(key, entry) =>
        var pushed := Without(list, key) + [Slot(key, entry)];
        DistinctPush(Without(list, key), Slot(key, entry));
        var k := TrimKeepsNewest(cfg, pushed);
        DistinctSuffix(pushed, k);
      case Lookup(key, now) =>
        match Find(list, key) {
          case None =>
          case Some(e) =>
            DistinctPush(Without(list, key), Slot(key, e));
            BytesPush(cfg, Without(list, key), Slot(key, e));
            assert Without(list, key) + [] == Without(list, key);
        }
    }
  }

  /** Both limits hold after every operation of every run. */
  lemma {:induction false} ReplayKeeps(cfg: Config, ops: seq<Op>)
    ensures Kept(cfg, Replay(cfg, ops))
  {
    if ops != [] {
      ReplayKeeps(cfg, ops[..|ops| - 1]);
      ApplyKeeps(cfg, Replay(cfg, ops[..|ops| - 1]), ops[|ops| - 1]);
    }
  }

  /** A stored entry survives its own insertion exactly when one entry of its size fits. */
  lemma {:induction false} StoredSurvivesIff(cfg: Config, list: List, key: string, entry: Entry)
    requires Kept(cfg, list) && Find(list, key) != Some(entry)
    ensures Find(Apply(cfg, list, Put(key, entry)), key) == Some(entry) <==>
              cfg.maxEntries >= 1 && cfg.weigh(key, entry) <= cfg.maxBytes
  {
    if cfg.weigh(key, entry) <= cfg.maxBytes {
      var pushed := Without(list, key) + [Slot(key, entry)];
      var n := |pushed| - 1;
      var k := TrimKeepsNewest(cfg, pushed);
      BytesPush(cfg, [], pushed[n]);
      assert [] + [pushed[n]] == pushed[n..];
      if k <= n {
        assert pushed[k..][|pushed| - k - 1] == Slot(key, entry);
      }
    }
  }

  // ---- The order is that of last use ----

  /** A lookup uses the key it asks for; a value that is too large is not stored at all. */
  predicate Uses(cfg: Config, op: Op, key: string) {
    op.key == key && (op.Put? ==> cfg.weigh(key, op.entry) <= cfg.maxBytes)
  }

  /** The last operation of the run that used the key, or -1. */
  function LastUse(cfg: Config, ops: seq<Op>, key: string): (k: int)
    ensures -1 <= k < |ops|
  {
    if ops == [] then -1
    else if Uses(cfg, ops[|ops| - 1], key) then |ops| - 1
    else LastUse(cfg, ops[..|ops| - 1], key)
  }

  /** The value last stored under the key. */
  function LastStored(cfg: Config, ops: seq<Op>, key: string): Option<Entry> {
    if ops == [] then None
    else
      var op := ops[|ops| - 1];
      if op.Put? && Uses(cfg, op, key) then Some(op.entry) else LastStored(cfg, ops[..|ops| - 1], key)
  }

  /** Values are those last stored, and uses come in order, all before the bound. */
  predicate Ranked(cfg: Config, ops: seq<Op>, list: List, bound: int) {
    list == [] ||
    var last := list[|list| - 1];
    var use := LastUse(cfg, ops, last.key);
    && 0 <= use < bound
    && LastStored(cfg, ops, last.key) == Some(last.value)
    && Ranked(cfg, ops, list[..|list| - 1], use)
  }

  lemma {:induction false} RankedWiden(cfg: Config, ops: seq<Op>, list: List, bound: int, more: int)
    requires Ranked(cfg, ops, list, bound) && bound <= more
    ensures Ranked(cfg, ops, list, more)
  {
  }

  lemma {:induction false} RankedTail(cfg: Config, ops: seq<Op>, list: List, bound: int)
    requires Ranked(cfg, ops, list, bound) && list != []
    ensures Ranked(cfg, ops, list[1..], bound)
  {
    if |list| > 1 {
      var use := LastUse(cfg, ops, list[|list| - 1].key);
      RankedTail(cfg, ops, list[..|list| - 1], use);
      assert list[..|list| - 1][1..] == list[1..][..|list[1..]| - 1];
    }
  }

  lemma {:induction false} RankedSuffix(cfg: Config, ops: seq<Op>, list: List, bound: int, k: nat)
    requires Ranked(cfg, ops, list, bound) && k <= |list|
    ensures Ranked(cfg, ops, list[k..], bound)
    decreases k
  {
    if k > 0 {
      RankedTail(cfg, ops, list, bound);
      RankedSuffix(cfg, ops, list[1..], bound, k - 1);
      assert list[1..][k - 1..] == list[k..];
    } else {
      assert list[0..] == list;
    }
  }

  /** An operation does not touch the standing of the other keys. */
  lemma {:induction false} RankedOthers(cfg: Config, ops: seq<Op>, op: Op, list: List, bound: int)
    requires Ranked(cfg, ops, list, bound)
    ensures Ranked(cfg, ops + [op], Without(list, op.key), bound)
  {
    if list != [] {
      var init, last := list[..|list| - 1], list[|list| - 1];
      var use := LastUse(cfg, ops, last.key);
      assert (ops + [op])[..|ops|] == ops;
      RankedOthers(cfg, ops, op, init, use);
      if last.key != op.key {
        InitOf(Without(init, op.key), last);
      } else {
        assert Without(list, op.key) == Without(init, op.key);
        RankedWiden(cfg, ops + [op], Without(init, op.key), use, bound);
      }
    }
  }

  /** An operation that uses no key leaves every standing as it is. */
  lemma {:induction false} RankedUnused(cfg: Config, ops: seq<Op>, op: Op, list: List, bound: int)
    requires Ranked(cfg, ops, list, bound) && (Uses(cfg, op, op.key) ==> Find(list, op.key).None?)
    ensures Ranked(cfg, ops + [op], list, bound)
  {
    if list != [] {
      assert (ops + [op])[..|ops|] == ops;
      RankedUnused(cfg, ops, op, list[..|list| - 1], LastUse(cfg, ops, list[|list| - 1].key));
    }
  }

  lemma {:induction false} RankedPush(cfg: Config, ops: seq<Op>, op: Op, list: List, s: Slot<string, Entry>)
    requires Ranked(cfg, ops + [op], list, |ops|) && s.key == op.key && Uses(cfg, op, op.key)
    requires if op.Put? then s.value == op.entry else LastStored(cfg, ops, s.key) == Some(s.value)
    ensures Ranked(cfg, ops + [op], list + [s], |ops| + 1)
  {
    assert (ops + [op])[..|ops|] == ops;
    InitOf(list, s);
  }

  lemma {:induction false} RankedFind(cfg: Config, ops: seq<Op>, list: List, bound: int, key: string)
    requires Ranked(cfg, ops, list, bound) && Find(list, key).Some?
    ensures LastStored(cfg, ops, key) == Find(list, key)
  {
    if list[|list| - 1].key != key {
      RankedFind(cfg, ops, list[..|list| - 1], LastUse(cfg, ops, list[|list| - 1].key), key);
    }
  }

  lemma {:induction false} ApplyRanked(cfg: Config, ops: seq<Op>, op: Op, list: List)
    requires Ranked(cfg, ops, list, |ops|)
    ensures Ranked(cfg, ops + [op], Apply(cfg, list, op), |ops| + 1)
  {
    if !Uses(cfg, op, op.key) || (op.Lookup? && Find(list, op.key).None?) {
      RankedUnused(cfg, ops, op, list, |ops|);
      RankedWiden(cfg, ops + [op], list, |ops|, |ops| + 1);
      return;
    }
    var rest := Without(list, op.key);
    RankedOthers(cfg, ops, op, list, |ops|);
    match op {
      case Put(key, entry) =>
        RankedPush(cfg, ops, op, rest, Slot(key, entry));
        var k := TrimKeepsNewest(cfg, rest + [Slot(key, entry)]);
        RankedSuffix(cfg, ops + [op], rest + [Slot(key, entry)], |ops| + 1, k);
      case Lookup(key, now) =>
        RankedFind(cfg, ops, list, |ops|, key);
        RankedPush(cfg, ops, op, rest, Slot(key, Find(list, key).value));
        RankedWiden(cfg, ops + [op], rest, |ops|, |ops| + 1);
        assert rest + [] == rest;
    }
  }

  lemma {:induction false} ReplayRanked(cfg: Config, ops: seq<Op>)
    ensures Ranked(cfg, ops, Replay(cfg, ops), |ops|)
  {
    if ops != [] {
      var init, op := ops[..|ops| - 1], ops[|ops| - 1];
      ReplayRanked(cfg, init);
      ApplyRanked(cfg, init, op, Replay(cfg, init));
      assert init + [op] == ops;
    }
  }

  lemma {:induction false} RankedAt(cfg: Config, ops: seq<Op>, list: List, bound: int, i: nat)
    requires Ranked(cfg, ops, list, bound) && i < |list|
    ensures 0 <= LastUse(cfg, ops, list[i].key) < bound && LastStored(cfg, ops, list[i].key) == Some(list[i].value)
    decreases |list|
  {
    if i < |list| - 1 {
      RankedAt(cfg, ops, list[..|list| - 1], LastUse(cfg, ops, list[|list| - 1].key), i);
    }
  }

  lemma {:induction false} RankedPair(cfg: Config, ops: seq<Op>, list: List, bound: int, i: nat, j: nat)
    requires Ranked(cfg, ops, list, bound) && i < j < |list|
    ensures LastUse(cfg, ops, list[i].key) < LastUse(cfg, ops, list[j].key)
    decreases |list|
  {
    var use := LastUse(cfg, ops, list[|list| - 1].key);
    if j < |list| - 1 {
      RankedPair(cfg, ops, list[..|list| - 1], use, i, j);
    } else {
      RankedAt(cfg, ops, list[..|list| - 1], use, i);
    }
  }

  /** After any run the entries stand in the order in which the run last used them, each with
      the value last stored; so eviction from the front is least recently used first. */
  lemma {:induction false} LruOrder(cfg: Config, ops: seq<Op>, i: nat, j: nat)
    requires i < j < |Replay(cfg, ops)|
    ensures var list := Replay(cfg, ops);
            && 0 <= LastUse(cfg, ops, list[i].key) < LastUse(cfg, ops, list[j].key)
            && LastStored(cfg, ops, list[i].key) == Some(list[i].value)
            && LastStored(cfg, ops, list[j].key) == Some(list[j].value)
  {
    var list := Replay(cfg, ops);
    ReplayRanked(cfg, ops);
    RankedAt(cfg, ops, list, |ops|, i);
    RankedAt(cfg, ops, list, |ops|, j);
    RankedPair(cfg, ops, list, |ops|, i, j);
  }

  // ---- One description at a time ----

  /** Who answers a request for a description. */
  datatype Answer = Cached(text: string) | Joined(task: nat) | Started(task: nat)

  /** Requests for an image that is already being described wait for that description. */
  class Adapter {
    const cache: Cache
    const pending: Map<string, nat>
    var started: nat

    /** The descriptions under way: the image each one is for. */
    ghost var open: map<nat, string>

    ghost predicate Valid()
      reads this, cache, cache.cache, pending
    {
      && cache.Valid() && pending.Valid()
      && (forall t | t in open :: t < started && Find(pending.Entries(), open[t]) == Some(t))
      && (forall key | Find(pending.Entries(), key).Some? ::
            Find(pending.Entries(), key).value in open && open[Find(pending.Entries(), key).value] == key)
    }

    constructor (cfg: Config)
      ensures Valid() && open == map[] && cache.List() == []
    {
      cache := new Cache(cfg);
      pending := new Map();
      started := 0;
      open := map[];
    }

    method Describe(key: string, now: int) returns (r: Answer)
      requires Valid()
      modifies this, cache, cache.cache, pending
      ensures Valid()
      ensures var hit := Find(old(cache.List()), key);
              match r
              case Cached(text) =>
                && hit.Some? && !Expired(cache.cfg, hit.value, now) && text == hit.value.text
                && open == old(open)
              case Joined(t) => t in old(open) && old(open)[t] == key && open == old(open)
              case Started(t) => t == old(started) && key !in old(open).Values && open == old(open)[t := key]
    {
      var cached := cache.GetCached(key, now);
      if cached.Some? {
        return Cached(cached.value.text);
      }
      var active := pending.Get(key);
      if active.Some? {
        return Joined(active.value);
      }
      r := Started(started);
      ghost var before := pending.Entries();
      pending.Set(key, started);
      forall other
        ensures Find(pending.Entries(), other) == if other == key then Some(started) else Find(before, other)
      {
        FindAppend(before, [Slot(key, started)], other);
      }
      open := open[started := key];
      started := started + 1;
    }

    /** A description ends; only a successful one is stored. */
    method Settle(key: string, text: Option<string>, now: nat)
      requires Valid() && Find(pending.Entries(), key).Some?
      modifies this, cache, cache.cache, pending
      ensures Valid()
      ensures open == old(open) - {Find(old(pending.Entries()), key).value} && key !in open.Values
      ensures cache.List() ==
                if text.Some? then Apply(cache.cfg, old(cache.List()), Put(key, Entry(text.value, now)))
                else old(cache.List())
    {
      if text.Some? {
        cache.SetCached(key, Entry(text.value, now));
      }
      ghost var before := pending.Entries();
      open := open - {Find(before, key).value};
      pending.Delete(key);
      forall other
        ensures Find(pending.Entries(), other) == if other == key then None else Find(before, other)
      {
        WithoutFinds(before, key, other);
      }
    }
  }
}
