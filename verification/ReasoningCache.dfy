/** Reasoning remembered per call: bounded, first in first out. */
module ReasoningCache {
  import opened Common
  import opened Reasoning
  import opened OrderedMap
  import Forwarder

  datatype Saved = Saved(text: string, savedAt: int)
  type List = seq<Slot<string, Saved>>

  /** `weigh` is the length of one serialised entry. */
  datatype Config = Config(syn: Forwarder.Synthetic, weigh: (string, Saved) -> nat, maxEntries: nat, maxBytes: nat,
      ttlMs: int)

  function VisibleText(cfg: Config, text: string): string {
    Visible(cfg.syn.fallback, cfg.syn.fold, text)
  }

  /** The serialised object: braces, entries, and a comma between two entries. */
  function Size(cfg: Config, list: List): nat {
    if list == [] then 2
    else cfg.weigh(list[0].key, list[0].value) + Size(cfg, list[1..]) + if |list| > 1 then 1 else 0
  }

  /** A key that is remembered again keeps its place. */
  function Stored(list: List, key: string, v: Saved): List {
    if Find(list, key).None? then list + [Slot(key, v)] else Overwritten(list, key, v)
  }

  function Shrunk(cfg: Config, list: List): List {
    if |list| > 1 && Size(cfg, list) > cfg.maxBytes then Shrunk(cfg, list[1..]) else list
  }

  function Bounded(cfg: Config, list: List): List {
    Shrunk(cfg, if |list| > cfg.maxEntries then list[1..] else list)
  }

  class Cache {
    const cfg: Config
    const values: Map<string, Saved>

    constructor (cfg: Config)
      ensures values.Valid() && values.Entries() == [] && fresh(values) && this.cfg == cfg
    {
      this.cfg := cfg;
      values := new Map();
    }

    /** Nothing is stored without an id or without visible text. */
    method Remember(callId: string, text: string, now: int)
      requires values.Valid()
      modifies values
      ensures values.Valid()
      ensures var visible := VisibleText(cfg, text);
              values.Entries() ==
                if callId == "" || visible == "" then old(values.Entries())
                else Bounded(cfg, Stored(old(values.Entries()), callId, Saved(visible, now)))
    {
      var visible := VisibleText(cfg, text);
      if callId == "" || visible == "" {
        return;
      }
      values.Set(callId, Saved(visible, now));
      var n := values.Size();
      if n > cfg.maxEntries {
        DropFirst();
      }
      Shrink();
    }

    method DropFirst()
      requires values.Valid() && values.Entries() != []
      modifies values
      ensures values.Valid() && values.Entries() == old(values.Entries())[1..]
    {
      WithoutFirst(values.Entries());
      var first := values.FirstKey();
      values.Delete(first.value);
    }

    method Shrink()
      requires values.Valid()
      modifies values
      ensures values.Valid() && values.Entries() == Shrunk(cfg, old(values.Entries()))
    {
      var n := values.Size();
      var size := Measure();
      while size > cfg.maxBytes && n > 1
        invariant values.Valid() && n == |values.Entries()| && size == Size(cfg, values.Entries())
        invariant Shrunk(cfg, values.Entries()) == Shrunk(cfg, old(values.Entries()))
        decreases n
      {
        DropFirst();
        n := values.Size();
        size := Measure();
      }
    }

    /** The length of the whole cache, serialised. */
    method Measure() returns (n: nat)
      requires values.Valid()
      ensures n == Size(cfg, values.Entries())
    {
      var seen := 0;
      n := 2;
      var k := |values.records|;
      assert values.records[k..] == [];
      while k > 0
        invariant k <= |values.records|
        invariant n == Size(cfg, Live(values.records[k..])) && seen == |Live(values.records[k..])|
      {
        k := k - 1;
        LiveFront(values.records, k);
        if values.records[k].Some? {
          var s := values.records[k].value;
          assert ([s] + Live(values.records[k + 1..]))[1..] == Live(values.records[k + 1..]);
          n := n + cfg.weigh(s.key, s.value) + if seen > 0 then 1 else 0;
          seen := seen + 1;
        }
      }
      assert values.records[0..] == values.records;
    }

    /** What was remembered is cleaned once more; an expired entry is dropped. */
    method Get(callId: string, now: int) returns (r: Option<string>)
      requires values.Valid()
      modifies values
      ensures values.Valid()
      ensures match (if callId == "" then None else Find(old(values.Entries()), callId))
              case None => r == None && values.Entries() == old(values.Entries())
              case Some(e) =>
                if now - e.savedAt > cfg.ttlMs then
                  r == None && values.Entries() == Without(old(values.Entries()), callId)
                else r == Some(VisibleText(cfg, e.text)) && values.Entries() == old(values.Entries())
    {
      if callId == "" {
        return None;
      }
      var entry := values.Get(callId);
      if entry.None? {
        return None;
      }
      if now - entry.value.savedAt > cfg.ttlMs {
        values.Delete(callId);
        return None;
      }
      r := Some(VisibleText(cfg, entry.value.text));
    }
  }

  lemma {:induction false} LiveFront(records: seq<Option<Slot<string, Saved>>>, k: nat)
    requires k < |records|
    ensures Live(records[k..]) ==
              match records[k] case None => Live(records[k + 1..]) case Some(s) => [s] + Live(records[k + 1..])
  {
    assert records[k..] == [records[k]] + records[k + 1..];
    LiveAppend([records[k]], records[k + 1..]);
  }

  // ---- What survives ----

  lemma {:induction false} SizeFalls(cfg: Config, list: List, k: nat)
    requires k <= |list|
    ensures Size(cfg, list[k..]) <= Size(cfg, list)
    decreases k
  {
    if k > 0 {
      SizeFalls(cfg, list[1..], k - 1);
      assert list[1..][k - 1..] == list[k..];
    } else {
      assert list[0..] == list;
    }
  }

  /** Shrinking drops the fewest oldest entries, and never the last one. */
  lemma {:induction false} ShrunkIs(cfg: Config, list: List) returns (k: nat)
    requires list != []
    ensures k < |list| && Shrunk(cfg, list) == list[k..]
    ensures Size(cfg, list[k..]) <= cfg.maxBytes || k == |list| - 1
    ensures forall j | 0 <= j < k :: Size(cfg, list[j..]) > cfg.maxBytes
  {
    if |list| > 1 && Size(cfg, list) > cfg.maxBytes {
      k := ShrunkIs(cfg, list[1..]);
      assert list[1..][k..] == list[k + 1..];
      forall j | 0 <= j < k + 1
        ensures Size(cfg, list[j..]) > cfg.maxBytes
      {
        assert j > 0 ==> list[1..][j - 1..] == list[j..];
        assert j == 0 ==> list[j..] == list;
      }
      k := k + 1;
    } else {
      k := 0;
      assert list[0..] == list;
    }
  }

  lemma {:induction false} SuffixFinds(list: List, k: nat, at: nat)
    requires Distinct(list) && k <= |list| && at < |list|
    ensures Find(list[k..], list[at].key) == if at >= k then Some(list[at].value) else None
  {
    DistinctSuffix(list, k);
    if at >= k {
      assert list[k..][at - k] == list[at];
      FindIn(list[k..], at - k);
    } else {
      AbsentLater(list, at, k);
    }
  }

  lemma {:induction false} AbsentLater(list: List, at: nat, k: nat)
    requires Distinct(list) && at < k <= |list|
    ensures Find(list[k..], list[at].key).None?
    decreases |list|
  {
    if k < |list| {
      var init, last := list[..|list| - 1], list[|list| - 1];
      AbsentLater(init, at, k);
      FindIn(init, at);
      assert list[k..] == init[k..] + [last];
      InitOf(init[k..], last);
    }
  }

  /** An entry just stored survives exactly if it is not the one dropped over the limit of
      entries, the oldest, and it is the newest or fits with all newer ones. A cache as it is
      loaded may hold more entries than the limit. */
  lemma {:induction false} RememberedSurvivesIff(cfg: Config, list: List, key: string, v: Saved, at: nat)
    requires Distinct(list)
    requires var s := Stored(list, key, v); at < |s| && s[at] == Slot(key, v)
    ensures var s := Stored(list, key, v);
            Find(Bounded(cfg, s), key) == Some(v) <==>
            (|s| <= cfg.maxEntries || at > 0) && (at == |s| - 1 || Size(cfg, s[at..]) <= cfg.maxBytes)
  {
    var s := Stored(list, key, v);
    StoredDistinct(list, key, v);
    if |s| <= cfg.maxEntries {
      SurvivesIf(cfg, s, at);
    } else if at == 0 {
      OldestDropped(cfg, s);
    } else {
      DistinctSuffix(s, 1);
      SurvivesIf(cfg, s[1..], at - 1);
      assert s[1..][at - 1] == s[at] && s[1..][at - 1..] == s[at..];
    }
  }

  lemma {:induction false} OldestDropped(cfg: Config, s: List)
    requires Distinct(s) && |s| > cfg.maxEntries && s != []
    ensures Find(Bounded(cfg, s), s[0].key).None?
  {
    if |s| == 1 {
      assert s[1..] == [];
    } else {
      var k := ShrunkIs(cfg, s[1..]);
      assert s[1..][k..] == s[k + 1..];
      SuffixFinds(s, k + 1, 0);
    }
  }

  /** As long as no more entries are held than the limit, the limit costs an entry just stored
      its place only if nothing may be kept at all. */
  lemma {:induction false} WithinLimitSurvivesIff(cfg: Config, list: List, key: string, v: Saved, at: nat)
    requires Distinct(list) && |list| <= cfg.maxEntries
    requires var s := Stored(list, key, v); at < |s| && s[at] == Slot(key, v)
    ensures var s := Stored(list, key, v);
            Find(Bounded(cfg, s), key) == Some(v) <==>
            cfg.maxEntries >= 1 && (at == |s| - 1 || Size(cfg, s[at..]) <= cfg.maxBytes)
  {
    RememberedSurvivesIff(cfg, list, key, v, at);
    StoredDistinct(list, key, v);
    if Find(list, key).None? {
      NewIsLast(list, key, v, at);
    }
  }

  lemma {:induction false} SurvivesIf(cfg: Config, s: List, at: nat)
    requires Distinct(s) && at < |s|
    ensures Find(Shrunk(cfg, s), s[at].key) == Some(s[at].value) <==>
            at == |s| - 1 || Size(cfg, s[at..]) <= cfg.maxBytes
  {
    var k := ShrunkIs(cfg, s);
    SuffixFinds(s, k, at);
    if k <= at {
      SizeFalls(cfg, s[k..], at - k);
      assert s[k..][at - k..] == s[at..];
    }
  }

  lemma {:induction false} StoredDistinct(list: List, key: string, v: Saved)
    requires Distinct(list)
    ensures Distinct(Stored(list, key, v)) && |Stored(list, key, v)| >= |list|
    ensures Find(list, key).Some? ==> |Stored(list, key, v)| == |list|
  {
    if Find(list, key).None? {
      DistinctPush(list, Slot(key, v));
    } else {
      OverwrittenDistinct(list, key, v);
      OverwrittenLength(list, key, v);
    }
  }

  lemma {:induction false} OverwrittenLength(list: List, key: string, v: Saved)
    ensures |Overwritten(list, key, v)| == |list|
  {
    if list != [] {
      OverwrittenLength(list[..|list| - 1], key, v);
    }
  }

  lemma {:induction false} NewIsLast(list: List, key: string, v: Saved, at: nat)
    requires Distinct(list) && Find(list, key).None? && at <= |list| && (list + [Slot(key, v)])[at].key == key
    ensures at == |list|
  {
    if at < |list| {
      FindIn(list, at);
    }
  }

  /** Remembering the older of two calls again throws that very entry out if both no longer
      fit: it keeps the place of the oldest. */
  lemma {:induction false} RememberedAndLost(cfg: Config, x: Saved, y: Saved, v: Saved)
    requires cfg.maxEntries >= 2 && cfg.weigh("a", v) + cfg.weigh("b", y) + 3 > cfg.maxBytes
    ensures Find(Bounded(cfg, Stored([Slot("a", x), Slot("b", y)], "a", v)), "a") != Some(v)
  {
    var first, second := [Slot("a", x)], [Slot("b", y)];
    var list := first + second;
    assert list == [Slot("a", x), Slot("b", y)];
    DistinctPush([], Slot("a", x));
    assert [] + first == first;
    InitOf(first, Slot("b", y));
    OverwrittenAppend(first, second, "a", v);
    FindAppend(first, second, "a");
    var s := Stored(list, "a", v);
    assert s == [Slot("a", v)] + second;
    assert s[1..] == second && s[0..] == s && second[1..] == [];
    assert Size(cfg, second) == cfg.weigh("b", y) + 2;
    assert Size(cfg, s) == cfg.weigh("a", v) + Size(cfg, second) + 1;
    RememberedSurvivesIff(cfg, list, "a", v, 0);
  }
}
