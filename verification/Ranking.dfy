/** The ranking snapshot: curated groups first, then all other enabled models in sort order. */
module Ranking {

  datatype Model = Model(platform: string, modelId: string, enabled: bool)
  datatype Entry = Entry(platform: string, modelId: string)
  datatype Update = Update(rank: int, platform: string, modelId: string)

  function Key(platform: string, modelId: string): string {
    platform + ":" + modelId
  }

  function KeyOf(u: Update): string {
    Key(u.platform, u.modelId)
  }

  function Keys(updates: seq<Update>): set<string> {
    if updates == [] then {} else Keys(updates[..|updates| - 1]) + {KeyOf(updates[|updates| - 1])}
  }

  lemma {:induction false} KeysPush(updates: seq<Update>, u: Update)
    ensures Keys(updates + [u]) == Keys(updates) + {KeyOf(u)}
  {
    assert (updates + [u])[..|updates|] == updates;
  }

  lemma {:induction false} KeysHave(updates: seq<Update>, i: nat)
    requires i < |updates|
    ensures KeyOf(updates[i]) in Keys(updates)
  {
    if i < |updates| - 1 {
      KeysHave(updates[..|updates| - 1], i);
    }
  }

  /** An entry is ranked unless its key has a rank already. */
  function Ranked(updates: seq<Update>, rank: int, e: Entry): seq<Update> {
    if Key(e.platform, e.modelId) in Keys(updates) then updates else updates + [Update(rank, e.platform, e.modelId)]
  }

  function GroupRanked(updates: seq<Update>, rank: int, present: set<string>, group: seq<Entry>): (r: seq<Update>)
    ensures updates <= r
  {
    if group == [] then updates
    else
      var before, e := GroupRanked(updates, rank, present, group[..|group| - 1]), group[|group| - 1];
      if Key(e.platform, e.modelId) in present then Ranked(before, rank, e) else before
  }

  datatype Progress = Progress(updates: seq<Update>, next: int)

  /** All of a group share one rank; a group with nothing to rank uses none up. */
  function GroupsRanked(p: Progress, present: set<string>, groups: seq<seq<Entry>>): (r: Progress)
    ensures p.updates <= r.updates
  {
    if groups == [] then p
    else
      var before := GroupsRanked(p, present, groups[..|groups| - 1]);
      var after := GroupRanked(before.updates, before.next, present, groups[|groups| - 1]);
      Progress(after, if |after| > |before.updates| then before.next + 1 else before.next)
  }

  /** Models one by one, each with a rank of its own. */
  function ModelsRanked(p: Progress, list: seq<Model>): (r: Progress)
    ensures p.updates <= r.updates
  {
    if list == [] then p
    else
      var before, m := ModelsRanked(p, list[..|list| - 1]), list[|list| - 1];
      var after := Ranked(before.updates, before.next, Entry(m.platform, m.modelId));
      Progress(after, if |after| > |before.updates| then before.next + 1 else before.next)
  }

  function Present(models: seq<Model>): set<string> {
    if models == [] then {}
    else Present(models[..|models| - 1]) + {Key(models[|models| - 1].platform, models[|models| - 1].modelId)}
  }

  function EnabledOf(models: seq<Model>): seq<Model> {
    if models == [] then []
    else EnabledOf(models[..|models| - 1]) + (if models[|models| - 1].enabled then [models[|models| - 1]] else [])
  }

  /** A stable sort by the given order. */
  function InsertBy(leq: (Model, Model) -> bool, list: seq<Model>, m: Model): (r: seq<Model>)
    ensures multiset(r) == multiset(list) + multiset{m} && |r| == |list| + 1
    ensures r[|list|] == m || (list != [] && r[|list|] == list[|list| - 1])
  {
    if list == [] || leq(list[|list| - 1], m) then list + [m]
    else
      var last := list[|list| - 1];
      assert list == list[..|list| - 1] + [last];
      InsertBy(leq, list[..|list| - 1], m) + [last]
  }

  function SortBy(leq: (Model, Model) -> bool, list: seq<Model>): (r: seq<Model>)
    ensures multiset(r) == multiset(list)
  {
    if list == [] then []
    else
      assert list == list[..|list| - 1] + [list[|list| - 1]];
      InsertBy(leq, SortBy(leq, list[..|list| - 1]), list[|list| - 1])
  }

  function Grouped(models: seq<Model>, first: seq<seq<Entry>>, second: seq<seq<Entry>>): Progress {
    GroupsRanked(GroupsRanked(Progress([], 1), Present(models), first), Present(models), second)
  }

  function Snapshot(models: seq<Model>, leq: (Model, Model) -> bool, first: seq<seq<Entry>>,
      second: seq<seq<Entry>>): seq<Update> {
    ModelsRanked(Grouped(models, first, second), SortBy(leq, EnabledOf(models))).updates
  }

  // ---- The loops ----

  class Builder {
    var updates: seq<Update>
    var rankedKeys: set<string>

    ghost predicate Valid()
      reads this
    {
      rankedKeys == Keys(updates)
    }

    constructor ()
      ensures Valid() && updates == []
    {
      updates, rankedKeys := [], {};
    }

    method Push(rank: int, e: Entry)
      requires Valid() && Key(e.platform, e.modelId) !in rankedKeys
      modifies this
      ensures Valid() && updates == Ranked(old(updates), rank, e) && |updates| == |old(updates)| + 1
    {
      KeysPush(updates, Update(rank, e.platform, e.modelId));
      updates := updates + [Update(rank, e.platform, e.modelId)];
      rankedKeys := rankedKeys + {Key(e.platform, e.modelId)};
    }

    method ApplyGroup(group: seq<Entry>, rank: int, present: set<string>) returns (applied: bool)
      requires Valid()
      modifies this
      ensures Valid() && updates == GroupRanked(old(updates), rank, present, group)
      ensures applied <==> |updates| > |old(updates)|
    {
      applied := false;
      for k := 0 to |group|
        invariant Valid() && updates == GroupRanked(old(updates), rank, present, group[..k])
        invariant applied <==> |updates| > |old(updates)|
      {
        assert group[..k + 1][..k] == group[..k];
        var e := group[k];
        if Key(e.platform, e.modelId) in present && Key(e.platform, e.modelId) !in rankedKeys {
          Push(rank, e);
          applied := true;
        }
      }
      assert group[..|group|] == group;
    }

    method ApplyRankGroups(groups: seq<seq<Entry>>, startRank: int, present: set<string>) returns (nextRank: int)
      requires Valid()
      modifies this
      ensures Valid() && Progress(updates, nextRank) == GroupsRanked(Progress(old(updates), startRank), present, groups)
    {
      nextRank := startRank;
      for k := 0 to |groups|
        invariant Valid()
        invariant Progress(updates, nextRank) == GroupsRanked(Progress(old(updates), startRank), present, groups[..k])
      {
        assert groups[..k + 1][..k] == groups[..k];
        var applied := ApplyGroup(groups[k], nextRank, present);
        if applied {
          nextRank := nextRank + 1;
        }
      }
      assert groups[..|groups|] == groups;
    }

    method ApplyModels(list: seq<Model>, startRank: int)
      requires Valid()
      modifies this
      ensures Valid() && updates == ModelsRanked(Progress(old(updates), startRank), list).updates
    {
      var nextRank := startRank;
      for k := 0 to |list|
        invariant Valid()
        invariant Progress(updates, nextRank) == ModelsRanked(Progress(old(updates), startRank), list[..k])
      {
        assert list[..k + 1][..k] == list[..k];
        var e := Entry(list[k].platform, list[k].modelId);
        if Key(e.platform, e.modelId) !in rankedKeys {
          Push(nextRank, e);
          nextRank := nextRank + 1;
        }
      }
      assert list[..|list|] == list;
    }
  }

  method BuildLatestRankingSnapshot(models: seq<Model>, leq: (Model, Model) -> bool, first: seq<seq<Entry>>,
      second: seq<seq<Entry>>)
    returns (updates: seq<Update>)
    ensures updates == Snapshot(models, leq, first, second)
  {
    var sorted := SortBy(leq, EnabledOf(models));
    var present := Present(models);
    var builder := new Builder();
    var nextRank := builder.ApplyRankGroups(first, 1, present);
    nextRank := builder.ApplyRankGroups(second, nextRank, present);
    builder.ApplyModels(sorted, nextRank);
    updates := builder.updates;
  }

  // ---- Dense ranks ----

  function LastRank(updates: seq<Update>): int {
    if updates == [] then 0 else updates[|updates| - 1].rank
  }

  /** Ranks start at 1 and go up by at most 1. */
  predicate Dense(updates: seq<Update>) {
    updates == [] ||
    (Dense(updates[..|updates| - 1]) &&
     var before := LastRank(updates[..|updates| - 1]);
     (|updates| > 1 && LastRank(updates) == before) || LastRank(updates) == before + 1)
  }

  predicate OneRankEach(updates: seq<Update>) {
    updates == [] ||
    (OneRankEach(updates[..|updates| - 1]) && KeyOf(updates[|updates| - 1]) !in Keys(updates[..|updates| - 1]))
  }

  /** With rank r next to give: either none has it yet, or the last update does. */
  predicate Ready(updates: seq<Update>, r: int, open: bool) {
    Dense(updates) && OneRankEach(updates) &&
        (LastRank(updates) == r - 1 || (open && updates != [] && LastRank(updates) == r))
  }

  lemma {:induction false} RankedReady(updates: seq<Update>, r: int, open: bool, e: Entry)
    requires Ready(updates, r, open)
    ensures var after := Ranked(updates, r, e);
            && (|after| > |updates| ==> Dense(after) && OneRankEach(after) && LastRank(after) == r)
            && Keys(after) == Keys(updates) + {Key(e.platform, e.modelId)}
  {
    var u := Update(r, e.platform, e.modelId);
    assert (updates + [u])[..|updates|] == updates;
    KeysPush(updates, u);
  }

  predicate AfterGroup(n: nat, r: int, after: seq<Update>) {
    Dense(after) && OneRankEach(after) && LastRank(after) == (if |after| > n then r else r - 1)
  }

  lemma {:induction false} GroupStep(n: nat, r: int, before: seq<Update>, e: Entry)
    requires n <= |before| && AfterGroup(n, r, before)
    ensures AfterGroup(n, r, Ranked(before, r, e))
    ensures Keys(Ranked(before, r, e)) == Keys(before) + {Key(e.platform, e.modelId)}
  {
    RankedReady(before, r, |before| > n, e);
  }

  lemma {:induction false} GroupReady(updates: seq<Update>, r: int, present: set<string>, group: seq<Entry>)
    requires Ready(updates, r, false)
    ensures AfterGroup(|updates|, r, GroupRanked(updates, r, present, group))
    ensures Keys(GroupRanked(updates, r, present, group)) <= Keys(updates) + present
  {
    if group != [] {
      GroupReady(updates, r, present, group[..|group| - 1]);
      GroupStep(|updates|, r, GroupRanked(updates, r, present, group[..|group| - 1]), group[|group| - 1]);
    }
  }

  lemma {:induction false} GroupsReady(p: Progress, present: set<string>, groups: seq<seq<Entry>>)
    requires Ready(p.updates, p.next, false)
    ensures var after := GroupsRanked(p, present, groups); Ready(after.updates, after.next, false)
    ensures Keys(GroupsRanked(p, present, groups).updates) <= Keys(p.updates) + present
  {
    if groups != [] {
      GroupsReady(p, present, groups[..|groups| - 1]);
      var before := GroupsRanked(p, present, groups[..|groups| - 1]);
      GroupReady(before.updates, before.next, present, groups[|groups| - 1]);
    }
  }

  lemma {:induction false} PresentHas(list: seq<Model>, m: Model)
    requires m in list
    ensures Key(m.platform, m.modelId) in Present(list)
  {
    if m != list[|list| - 1] {
      PresentHas(list[..|list| - 1], m);
    }
  }

  lemma {:induction false} PresentFrom(list: seq<Model>, key: string) returns (m: Model)
    requires key in Present(list)
    ensures m in list && Key(m.platform, m.modelId) == key
  {
    m := list[|list| - 1];
    if Key(m.platform, m.modelId) != key {
      m := PresentFrom(list[..|list| - 1], key);
    }
  }

  lemma {:induction false} ModelStep(p: Progress, m: Model)
    requires Ready(p.updates, p.next, false)
    ensures var after := Ranked(p.updates, p.next, Entry(m.platform, m.modelId));
            && Ready(after, if |after| > |p.updates| then p.next + 1 else p.next, false)
            && Keys(after) == Keys(p.updates) + {Key(m.platform, m.modelId)}
  {
    RankedReady(p.updates, p.next, false, Entry(m.platform, m.modelId));
  }

  lemma {:induction false} ModelsReady(p: Progress, list: seq<Model>)
    requires Ready(p.updates, p.next, false)
    ensures var after := ModelsRanked(p, list); Ready(after.updates, after.next, false)
    ensures Keys(ModelsRanked(p, list).updates) == Keys(p.updates) + Present(list)
  {
    if list != [] {
      ModelsReady(p, list[..|list| - 1]);
      ModelStep(ModelsRanked(p, list[..|list| - 1]), list[|list| - 1]);
    }
  }

  lemma {:induction false} EnabledAre(models: seq<Model>)
    ensures forall m :: m in EnabledOf(models) <==> m in models && m.enabled
  {
    if models != [] {
      EnabledAre(models[..|models| - 1]);
      assert models == models[..|models| - 1] + [models[|models| - 1]];
    }
  }

  /** Every run of the snapshot ranks densely and without repeats; the ranked keys are those of
      catalog models, among them all enabled ones. */
  lemma {:induction false} SnapshotIsDense(models: seq<Model>, leq: (Model, Model) -> bool, first: seq<seq<Entry>>,
      second: seq<seq<Entry>>)
    ensures var updates := Snapshot(models, leq, first, second);
            && Dense(updates) && OneRankEach(updates)
            && (forall m | m in models && m.enabled :: Key(m.platform, m.modelId) in Keys(updates))
            && Keys(updates) <= Present(models)
  {
    var present, start := Present(models), Progress([], 1);
    GroupsReady(start, present, first);
    GroupsReady(GroupsRanked(start, present, first), present, second);
    var sorted := SortBy(leq, EnabledOf(models));
    ModelsReady(Grouped(models, first, second), sorted);
    EnabledAre(models);
    forall m | m in models && m.enabled
      ensures Key(m.platform, m.modelId) in Present(sorted)
    {
      assert m in multiset(EnabledOf(models)) && m in multiset(sorted);
      PresentHas(sorted, m);
    }
    forall key | key in Present(sorted)
      ensures key in present
    {
      var m := PresentFrom(sorted, key);
      assert m in multiset(sorted) && m in multiset(EnabledOf(models));
      PresentHas(models, m);
    }
  }

  predicate HasRank(updates: seq<Update>, r: int) {
    exists k :: 0 <= k < |updates| && updates[k].rank == r
  }

  /** Dense ranks never fall, and take every value from 1 to the last. */
  lemma {:induction false} DenseCovers(updates: seq<Update>, i: nat)
    requires Dense(updates) && i < |updates|
    ensures 1 <= updates[i].rank <= LastRank(updates)
    ensures forall j | i <= j < |updates| :: updates[i].rank <= updates[j].rank
    ensures forall r | 1 <= r <= LastRank(updates) :: HasRank(updates, r)
    decreases |updates|
  {
    var n := |updates| - 1;
    var init := updates[..n];
    if n == 0 {
      assert updates[0].rank == 1;
      assert HasRank(updates, 1);
    } else {
      DenseCovers(init, if i < n then i else n - 1);
      forall r | 1 <= r <= LastRank(updates)
        ensures HasRank(updates, r)
      {
        if r <= LastRank(init) {
          assert HasRank(init, r);
          var k :| 0 <= k < |init| && init[k].rank == r;
          assert updates[k].rank == r;
        } else {
          assert updates[n].rank == r;
        }
      }
    }
  }

  lemma {:induction false} RankedOnce(updates: seq<Update>, i: nat, j: nat)
    requires OneRankEach(updates) && i < j < |updates|
    ensures KeyOf(updates[i]) != KeyOf(updates[j])
    decreases |updates|
  {
    if j < |updates| - 1 {
      RankedOnce(updates[..|updates| - 1], i, j);
    } else {
      KeysHave(updates[..j], i);
    }
  }

  // ---- Outside the groups ----

  /** The models that the groups leave over, in order, each key once. */
  function LeftOver(ranked: set<string>, list: seq<Model>): seq<Model> {
    if list == [] then []
    else
      var before, m := LeftOver(ranked, list[..|list| - 1]), list[|list| - 1];
      if Key(m.platform, m.modelId) in ranked + Present(list[..|list| - 1]) then before else before + [m]
  }

  /** Behind the groups ranks are consecutive, and follow the sort order. */
  lemma {:induction false} LeftOverInOrder(p: Progress, list: seq<Model>)
    requires Ready(p.updates, p.next, false)
    ensures var after := ModelsRanked(p, list);
            var rest := LeftOver(Keys(p.updates), list);
            && after.next == p.next + |rest|
            && |after.updates| == |p.updates| + |rest|
            && forall k | 0 <= k < |rest| ::
                 after.updates[|p.updates| + k] == Update(p.next + k, rest[k].platform, rest[k].modelId)
  {
    if list != [] {
      LeftOverInOrder(p, list[..|list| - 1]);
      ModelsReady(p, list[..|list| - 1]);
    }
  }

  ghost predicate Total(leq: (Model, Model) -> bool) {
    forall a, b :: leq(a, b) || leq(b, a)
  }

  ghost predicate Transitive(leq: (Model, Model) -> bool) {
    forall a, b, c :: leq(a, b) && leq(b, c) ==> leq(a, c)
  }

  predicate Sorted(leq: (Model, Model) -> bool, list: seq<Model>) {
    |list| <= 1 || (Sorted(leq, list[..|list| - 1]) && leq(list[|list| - 2], list[|list| - 1]))
  }

  lemma {:induction false} SortedPush(leq: (Model, Model) -> bool, list: seq<Model>, m: Model)
    requires Sorted(leq, list) && (list != [] ==> leq(list[|list| - 1], m))
    ensures Sorted(leq, list + [m])
  {
    assert (list + [m])[..|list|] == list;
  }

  lemma {:induction false} InsertSorted(leq: (Model, Model) -> bool, list: seq<Model>, m: Model)
    requires Total(leq) && Sorted(leq, list)
    ensures Sorted(leq, InsertBy(leq, list, m))
  {
    if list == [] || leq(list[|list| - 1], m) {
      SortedPush(leq, list, m);
    } else {
      var init, last := list[..|list| - 1], list[|list| - 1];
      InsertSorted(leq, init, m);
      SortedPush(leq, InsertBy(leq, init, m), last);
    }
  }

  lemma {:induction false} SortSorted(leq: (Model, Model) -> bool, list: seq<Model>)
    requires Total(leq)
    ensures Sorted(leq, SortBy(leq, list))
  {
    if list != [] {
      SortSorted(leq, list[..|list| - 1]);
      InsertSorted(leq, SortBy(leq, list[..|list| - 1]), list[|list| - 1]);
    }
  }

  lemma {:induction false} SortedAt(leq: (Model, Model) -> bool, list: seq<Model>, i: nat, j: nat)
    requires Transitive(leq) && Sorted(leq, list) && i < j < |list|
    ensures leq(list[i], list[j])
    decreases |list|
  {
    var init := list[..|list| - 1];
    if j < |init| {
      SortedAt(leq, init, i, j);
    } else if i + 1 < j {
      SortedAt(leq, init, i, j - 1);
    }
  }

  // ---- Keys ----

  /** No platform followed by a colon begins another one. */
  predicate Distinguishes(platforms: set<string>) {
    forall p, q | p in platforms && q in platforms && p != q :: !(p + ":" <= q)
  }

  predicate SameKey(a: Entry, b: Entry) {
    Key(a.platform, a.modelId) == Key(b.platform, b.modelId)
  }

  lemma {:induction false} LongerBegins(a: Entry, b: Entry)
    requires SameKey(a, b) && |a.platform| < |b.platform|
    ensures a.platform + ":" <= b.platform
  {
    var x, y, n := Key(a.platform, a.modelId), Key(b.platform, b.modelId), |a.platform| + 1;
    assert x[..n] == a.platform + ":" && y[..n] == b.platform[..n];
  }

  lemma {:induction false} SameLength(a: Entry, b: Entry)
    requires SameKey(a, b) && |a.platform| == |b.platform|
    ensures a == b
  {
    var x, y, n := Key(a.platform, a.modelId), Key(b.platform, b.modelId), |a.platform|;
    assert x[..n] == a.platform && y[..n] == b.platform;
    assert x[n + 1..] == a.modelId && y[n + 1..] == b.modelId;
  }

  /** Two entries with one key, where a platform begins another. */
  lemma {:induction false} BeginsThenSame(p: string, q: string) returns (a: Entry, b: Entry)
    requires p + ":" <= q
    ensures a.platform == p && b.platform == q && SameKey(a, b)
  {
    var rest := q[|p| + 1..];
    assert q == p + ":" + rest;
    a, b := Entry(p, rest + ":"), Entry(q, "");
    assert Key(q, "") == p + ":" + (rest + ":");
  }

  /** Keys tell all models of some platforms apart exactly if no platform followed by a colon
      begins another. */
  lemma {:induction false} KeysTellApartIff(platforms: set<string>)
    ensures Distinguishes(platforms) <==>
            forall a: Entry, b: Entry | a.platform in platforms && b.platform in platforms && SameKey(a, b) :: a == b
  {
    if Distinguishes(platforms) {
      forall a: Entry, b: Entry | a.platform in platforms && b.platform in platforms && SameKey(a, b)
        ensures a == b
      {
        KeysTellApart(platforms, a, b);
      }
    } else {
      var p, q :| p in platforms && q in platforms && p != q && p + ":" <= q;
      var a, b := BeginsThenSame(p, q);
    }
  }

  lemma {:induction false} KeysTellApart(platforms: set<string>, a: Entry, b: Entry)
    requires Distinguishes(platforms) && a.platform in platforms && b.platform in platforms && SameKey(a, b)
    ensures a == b
  {
    if |a.platform| < |b.platform| {
      LongerBegins(a, b);
    } else if |b.platform| < |a.platform| {
      LongerBegins(b, a);
    } else {
      SameLength(a, b);
    }
  }

  /** The platform names the registry admits: `^[a-z][a-z0-9-]{1,63}$`. */
  predicate IsPlatform(p: string) {
    && 2 <= |p| <= 64 && 'a' <= p[0] <= 'z'
    && forall k | 1 <= k < |p| :: 'a' <= p[k] <= 'z' || '0' <= p[k] <= '9' || p[k] == '-'
  }

  lemma {:induction false} BeginsHasColon(p: string, q: string)
    requires p + ":" <= q
    ensures ':' in q
  {
    assert q[|p|] == ':';
  }

  lemma {:induction false} PlatformsDistinguished(platforms: set<string>)
    requires forall p | p in platforms :: IsPlatform(p)
    ensures Distinguishes(platforms)
  {
    forall p, q | p in platforms && q in platforms && p != q
      ensures !(p + ":" <= q)
    {
      if p + ":" <= q {
        BeginsHasColon(p, q);
      }
    }
  }

  /** All models ranked are among those given. */
  predicate UpdatesWithin(updates: seq<Update>, ok: Entry -> bool) {
    updates == [] || (UpdatesWithin(updates[..|updates| - 1], ok) && ok(EntryOf(updates[|updates| - 1])))
  }

  function EntryOf(u: Update): Entry {
    Entry(u.platform, u.modelId)
  }

  function NameOf(m: Model): Entry {
    Entry(m.platform, m.modelId)
  }

  predicate GroupWithin(group: seq<Entry>, ok: Entry -> bool) {
    forall k | 0 <= k < |group| :: ok(group[k])
  }

  predicate GroupsWithin(groups: seq<seq<Entry>>, ok: Entry -> bool) {
    forall k | 0 <= k < |groups| :: GroupWithin(groups[k], ok)
  }

  predicate ModelsWithin(list: seq<Model>, ok: Entry -> bool) {
    forall k | 0 <= k < |list| && list[k].enabled :: ok(NameOf(list[k]))
  }

  lemma {:induction false} RankedWithin(updates: seq<Update>, rank: int, e: Entry, ok: Entry -> bool)
    requires UpdatesWithin(updates, ok) && ok(e)
    ensures UpdatesWithin(Ranked(updates, rank, e), ok)
  {
    var u := Update(rank, e.platform, e.modelId);
    assert (updates + [u])[..|updates|] == updates;
  }

  lemma {:induction false} GroupStaysWithin(updates: seq<Update>, rank: int, present: set<string>,
      group: seq<Entry>, ok: Entry -> bool)
    requires UpdatesWithin(updates, ok) && GroupWithin(group, ok)
    ensures UpdatesWithin(GroupRanked(updates, rank, present, group), ok)
  {
    if group != [] {
      var init, last := group[..|group| - 1], group[|group| - 1];
      GroupStaysWithin(updates, rank, present, init, ok);
      RankedWithin(GroupRanked(updates, rank, present, init), rank, last, ok);
    }
  }

  lemma {:induction false} GroupsStayWithin(p: Progress, present: set<string>, groups: seq<seq<Entry>>,
      ok: Entry -> bool)
    requires UpdatesWithin(p.updates, ok) && GroupsWithin(groups, ok)
    ensures UpdatesWithin(GroupsRanked(p, present, groups).updates, ok)
  {
    if groups != [] {
      GroupsStayWithin(p, present, groups[..|groups| - 1], ok);
      var before := GroupsRanked(p, present, groups[..|groups| - 1]);
      GroupStaysWithin(before.updates, before.next, present, groups[|groups| - 1], ok);
    }
  }

  lemma {:induction false} ModelsStayWithin(p: Progress, list: seq<Model>, ok: Entry -> bool)
    requires UpdatesWithin(p.updates, ok) && ModelsWithin(list, ok) && forall k | 0 <= k < |list| :: list[k].enabled
    ensures UpdatesWithin(ModelsRanked(p, list).updates, ok)
  {
    if list != [] {
      var init, m := list[..|list| - 1], list[|list| - 1];
      ModelsStayWithin(p, init, ok);
      var before := ModelsRanked(p, init);
      RankedWithin(before.updates, before.next, NameOf(m), ok);
    }
  }

  lemma {:induction false} WithinAt(updates: seq<Update>, ok: Entry -> bool, i: nat)
    requires UpdatesWithin(updates, ok) && i < |updates|
    ensures ok(EntryOf(updates[i]))
  {
    if i < |updates| - 1 {
      WithinAt(updates[..|updates| - 1], ok, i);
    }
  }

  lemma {:induction false} KeyAt(updates: seq<Update>, key: string) returns (i: nat)
    requires key in Keys(updates)
    ensures i < |updates| && KeyOf(updates[i]) == key
  {
    i := |updates| - 1;
    if KeyOf(updates[i]) != key {
      i := KeyAt(updates[..i], key);
    }
  }

  lemma {:induction false} SortedWithin(models: seq<Model>, leq: (Model, Model) -> bool, ok: Entry -> bool)
    requires ModelsWithin(models, ok)
    ensures var sorted := SortBy(leq, EnabledOf(models));
            ModelsWithin(sorted, ok) && forall k | 0 <= k < |sorted| :: sorted[k].enabled
  {
    var sorted := SortBy(leq, EnabledOf(models));
    EnabledAre(models);
    forall k | 0 <= k < |sorted|
      ensures sorted[k].enabled && ok(NameOf(sorted[k]))
    {
      assert sorted[k] in multiset(sorted) && sorted[k] in multiset(EnabledOf(models));
      assert sorted[k] in models;
    }
  }

  lemma {:induction false} SnapshotWithin(models: seq<Model>, leq: (Model, Model) -> bool, first: seq<seq<Entry>>,
      second: seq<seq<Entry>>, ok: Entry -> bool)
    requires ModelsWithin(models, ok) && GroupsWithin(first, ok) && GroupsWithin(second, ok)
    ensures UpdatesWithin(Snapshot(models, leq, first, second), ok)
  {
    var present, start := Present(models), Progress([], 1);
    GroupsStayWithin(start, present, first, ok);
    GroupsStayWithin(GroupsRanked(start, present, first), present, second, ok);
    SortedWithin(models, leq, ok);
    ModelsStayWithin(Grouped(models, first, second), SortBy(leq, EnabledOf(models)), ok);
  }

  predicate Names(u: Update, m: Model) {
    u.platform == m.platform && u.modelId == m.modelId
  }

  /** In every catalog and with all groups the key of an enabled model is ranked once. */
  lemma {:induction false} KeyRankedOnce(models: seq<Model>, leq: (Model, Model) -> bool, first: seq<seq<Entry>>,
      second: seq<seq<Entry>>, m: Model) returns (i: nat)
    requires m in models && m.enabled
    ensures var updates := Snapshot(models, leq, first, second);
            && i < |updates| && KeyOf(updates[i]) == Key(m.platform, m.modelId)
            && forall j | 0 <= j < |updates| && j != i :: KeyOf(updates[j]) != Key(m.platform, m.modelId)
  {
    var updates := Snapshot(models, leq, first, second);
    SnapshotIsDense(models, leq, first, second);
    i := KeyAt(updates, Key(m.platform, m.modelId));
    forall j | 0 <= j < |updates| && j != i
      ensures KeyOf(updates[j]) != KeyOf(updates[i])
    {
      RankedOnce(updates, if i < j then i else j, if i < j then j else i);
    }
  }

  function Among(platforms: set<string>): Entry -> bool {
    (e: Entry) => e.platform in platforms
  }

  /** Among platforms that the keys tell apart every enabled model is ranked, and only once. */
  lemma {:induction false} EnabledRankedOnce(models: seq<Model>, leq: (Model, Model) -> bool,
      first: seq<seq<Entry>>, second: seq<seq<Entry>>, platforms: set<string>, m: Model) returns (i: nat)
    requires Distinguishes(platforms)
    requires forall k | 0 <= k < |models| :: models[k].platform in platforms
    requires GroupsWithin(first, Among(platforms)) && GroupsWithin(second, Among(platforms))
    requires m in models && m.enabled
    ensures var updates := Snapshot(models, leq, first, second);
            && i < |updates| && Names(updates[i], m)
            && forall j | 0 <= j < |updates| && j != i :: !Names(updates[j], m)
  {
    var updates := Snapshot(models, leq, first, second);
    i := KeyRankedOnce(models, leq, first, second, m);
    SnapshotWithin(models, leq, first, second, Among(platforms));
    WithinAt(updates, Among(platforms), i);
    KeysTellApart(platforms, EntryOf(updates[i]), NameOf(m));
  }

  predicate IsRanked(updates: seq<Update>, m: Model) {
    exists j :: 0 <= j < |updates| && Names(updates[j], m)
  }

  /** Only enabled models of the same name share a key. */
  predicate ToldApart(models: seq<Model>) {
    forall a, b | a in models && b in models && a.enabled && b.enabled && SameKey(NameOf(a), NameOf(b)) ::
      NameOf(a) == NameOf(b)
  }

  /** An entry with the key of an enabled model names that model. */
  predicate NamesModels(models: seq<Model>, e: Entry) {
    forall m | m in models && m.enabled && SameKey(e, NameOf(m)) :: e == NameOf(m)
  }

  function NamingOf(models: seq<Model>): Entry -> bool {
    (e: Entry) => NamesModels(models, e)
  }

  /** If two enabled models share a key, one at least is not ranked, whatever the groups are. */
  lemma {:induction false} SharedKeyUnranked(models: seq<Model>, leq: (Model, Model) -> bool,
      first: seq<seq<Entry>>, second: seq<seq<Entry>>, a: Model, b: Model)
    requires a in models && a.enabled && b in models && b.enabled
    requires SameKey(NameOf(a), NameOf(b)) && NameOf(a) != NameOf(b)
    ensures var updates := Snapshot(models, leq, first, second); !(IsRanked(updates, a) && IsRanked(updates, b))
  {
    var i := KeyRankedOnce(models, leq, first, second, a);
  }

  /** With groups that name models of the catalog by their keys, every enabled model is
      ranked exactly if no two of different names share a key. */
  lemma {:induction false} AllRankedIff(models: seq<Model>, leq: (Model, Model) -> bool, first: seq<seq<Entry>>,
      second: seq<seq<Entry>>)
    requires ToldApart(models) ==>
               GroupsWithin(first, NamingOf(models)) && GroupsWithin(second, NamingOf(models))
    ensures (forall m | m in models && m.enabled :: IsRanked(Snapshot(models, leq, first, second), m))
            <==> ToldApart(models)
  {
    var updates := Snapshot(models, leq, first, second);
    if ToldApart(models) {
      SnapshotWithin(models, leq, first, second, NamingOf(models));
      forall m | m in models && m.enabled
        ensures IsRanked(updates, m)
      {
        var i := KeyRankedOnce(models, leq, first, second, m);
        WithinAt(updates, NamingOf(models), i);
        assert Names(updates[i], m);
      }
    } else {
      var a, b :| a in models && b in models && a.enabled && b.enabled && SameKey(NameOf(a), NameOf(b)) &&
        NameOf(a) != NameOf(b);
      SharedKeyUnranked(models, leq, first, second, a, b);
    }
  }

  lemma {:induction false} RankTwo(first: Model, second: Model)
    requires Key(first.platform, first.modelId) == Key(second.platform, second.modelId)
    ensures ModelsRanked(Progress([], 1), [first, second]).updates == [Update(1, first.platform, first.modelId)]
  {
    var one := [first];
    assert [first, second][..1] == one && one[..0] == [];
    assert ModelsRanked(Progress([], 1), one) == Progress([Update(1, first.platform, first.modelId)], 2);
    KeysHave([Update(1, first.platform, first.modelId)], 0);
  }

  lemma {:induction false} SortOne(leq: (Model, Model) -> bool, a: Model)
    requires a.enabled
    ensures EnabledOf([a]) == [a] && SortBy(leq, [a]) == [a]
  {
    assert [a][..0] == [];
  }

  lemma {:induction false} SortTwo(leq: (Model, Model) -> bool, a: Model, b: Model)
    requires a.enabled && b.enabled && leq(a, b)
    ensures EnabledOf([a, b]) == [a, b] && SortBy(leq, [a, b]) == [a, b]
  {
    var two := [a, b];
    assert two[..1] == [a] && two[1] == b;
    SortOne(leq, a);
    assert EnabledOf(two) == EnabledOf(two[..1]) + [b];
    assert SortBy(leq, two) == InsertBy(leq, SortBy(leq, two[..1]), b);
    assert InsertBy(leq, [a], b) == [a] + [b];
  }

  /** Without groups the first of two in sort order is the one ranked. */
  lemma {:induction false} FirstOfTwoRanked(a: Model, b: Model, leq: (Model, Model) -> bool)
    requires a.enabled && b.enabled && leq(a, b) && (a.platform != b.platform || a.modelId != b.modelId)
    requires Key(a.platform, a.modelId) == Key(b.platform, b.modelId)
    ensures Snapshot([a, b], leq, [], []) == [Update(1, a.platform, a.modelId)]
    ensures forall u | u in Snapshot([a, b], leq, [], []) :: !Names(u, b)
  {
    SortTwo(leq, a, b);
    RankTwo(a, b);
    assert Grouped([a, b], [], []) == Progress([], 1);
  }

  /** Such a catalog, outside the names the registry admits. */
  lemma {:induction false} ColonUnranked(leq: (Model, Model) -> bool)
    requires Total(leq)
    ensures var a, b := Model("a:b", "c", true), Model("a", "b:c", true);
            !IsPlatform(a.platform) &&
            if leq(a, b) then |Snapshot([a, b], leq, [], [])| == 1 else |Snapshot([b, a], leq, [], [])| == 1
  {
    var a, b := Model("a:b", "c", true), Model("a", "b:c", true);
    assert a.platform[1] == ':';
    assert Key("a:b", "c") == "a:b:c" == Key("a", "b:c");
    if leq(a, b) {
      FirstOfTwoRanked(a, b, leq);
    } else {
      FirstOfTwoRanked(b, a, leq);
    }
  }
}
