/** The rows of a route: models with distinct ids and a priority each. */
module Members {

  datatype Member = Member(priority: int, enabled: bool)
  type Rows = map<nat, Member>

  datatype Input = Input(model: nat, priority: int, enabled: bool)

  /** Priorities are exactly 1..n. */
  ghost predicate Contiguous(rows: Rows) {
    && (forall m | m in rows :: 1 <= rows[m].priority <= |rows|)
    && (forall p | 1 <= p <= |rows| :: HasPriority(rows, p))
  }

  ghost predicate HasPriority(rows: Rows, p: int) {
    exists m :: m in rows && rows[m].priority == p
  }

  /** Rows inserted one by one. */
  function RowsOf(list: seq<Input>): Rows {
    if list == [] then map[]
    else
      var last := list[|list| - 1];
      RowsOf(list[..|list| - 1])[last.model := Member(last.priority, last.enabled)]
  }

  function Priorities(list: seq<Input>): seq<int> {
    seq(|list|, k requires 0 <= k < |list| => list[k].priority)
  }

  predicate DistinctModels(list: seq<Input>) {
    forall i, j | 0 <= i < j < |list| :: list[i].model != list[j].model
  }

  // ---- Sorting ----

  function Insert(x: int, s: seq<int>): (r: seq<int>)
    ensures |r| == |s| + 1
  {
    if s == [] || x <= s[0] then [x] + s else [s[0]] + Insert(x, s[1..])
  }

  function Sort(s: seq<int>): (r: seq<int>)
    ensures |r| == |s|
  {
    if s == [] then [] else Insert(s[0], Sort(s[1..]))
  }

  predicate Ascending(s: seq<int>) {
    |s| <= 1 || (s[0] <= s[1] && Ascending(s[1..]))
  }

  lemma {:induction false} InsertSorts(x: int, s: seq<int>)
    requires Ascending(s)
    ensures Ascending(Insert(x, s)) && multiset(Insert(x, s)) == multiset(s) + multiset{x}
  {
    if s == [] || x <= s[0] {
      assert ([x] + s)[1..] == s;
    } else {
      InsertSorts(x, s[1..]);
      assert s == [s[0]] + s[1..];
      assert ([s[0]] + Insert(x, s[1..]))[1..] == Insert(x, s[1..]);
    }
  }

  lemma {:induction false} AscendingAt(s: seq<int>, i: nat, j: nat)
    requires Ascending(s) && i <= j < |s|
    ensures s[i] <= s[j]
    decreases j
  {
    if i > 0 {
      AscendingAt(s[1..], i - 1, j - 1);
    } else if j > 0 {
      AscendingAt(s[1..], 0, j - 1);
    }
  }

  lemma {:induction false} AscendingInit(s: seq<int>)
    requires Ascending(s) && s != []
    ensures Ascending(s[..|s| - 1])
  {
    if |s| > 2 {
      AscendingInit(s[1..]);
      assert s[..|s| - 1][1..] == s[1..][..|s| - 2];
    }
  }

  lemma {:induction false} SortSorts(s: seq<int>)
    ensures Ascending(Sort(s)) && multiset(Sort(s)) == multiset(s) && |Sort(s)| == |s|
  {
    if s != [] {
      SortSorts(s[1..]);
      InsertSorts(s[0], Sort(s[1..]));
      ContentsFirst(s);
    }
  }

  lemma {:induction false} ContentsFirst(s: seq<int>)
    requires s != []
    ensures multiset(s) == multiset(s[1..]) + multiset{s[0]}
  {
    assert s == [s[0]] + s[1..];
  }

  predicate OneTo(s: seq<int>) {
    forall k | 0 <= k < |s| :: s[k] == k + 1
  }

  /** Sorted, with as many elements as numbers to cover: then it is 1..n. */
  lemma {:induction false} CoversOneTo(s: seq<int>)
    requires Ascending(s) && forall p | 1 <= p <= |s| :: p in s
    ensures OneTo(s)
  {
    if s != [] {
      var n := |s|;
      var init := s[..n - 1];
      assert n in s;
      var j :| 0 <= j < n && s[j] == n;
      AscendingAt(s, j, n - 1);
      AscendingInit(s);
      forall p | 1 <= p <= n - 1
        ensures p in init
      {
        assert p in s;
        var k :| 0 <= k < n && s[k] == p;
        assert init[k] == p;
      }
      CoversOneTo(init);
      assert j < n - 1 ==> init[j] == n;
    }
  }

  /** The check on a list of members. */
  predicate Numbered(list: seq<Input>) {
    OneTo(Sort(Priorities(list)))
  }

  lemma {:induction false} RowsAt(list: seq<Input>, k: nat)
    requires DistinctModels(list) && k < |list|
    ensures list[k].model in RowsOf(list) && RowsOf(list)[list[k].model] == Member(list[k].priority, list[k].enabled)
    decreases |list|
  {
    if k < |list| - 1 {
      RowsAt(list[..|list| - 1], k);
    }
  }

  lemma {:induction false} RowsFrom(list: seq<Input>, m: nat) returns (k: nat)
    requires m in RowsOf(list)
    ensures k < |list| && list[k].model == m && RowsOf(list)[m] == Member(list[k].priority, list[k].enabled)
  {
    if list[|list| - 1].model == m {
      k := |list| - 1;
    } else {
      k := RowsFrom(list[..|list| - 1], m);
    }
  }

  lemma {:induction false} RowsCount(list: seq<Input>)
    requires DistinctModels(list)
    ensures |RowsOf(list)| == |list|
  {
    if list != [] {
      var init, last := list[..|list| - 1], list[|list| - 1];
      RowsCount(init);
      if last.model in RowsOf(init) {
        var k := RowsFrom(init, last.model);
        assert false;
      }
    }
  }

  lemma {:induction false} PrioritiesAt(list: seq<Input>, p: int)
    requires DistinctModels(list)
    ensures p in Sort(Priorities(list)) <==> HasPriority(RowsOf(list), p)
  {
    SortSorts(Priorities(list));
    var sorted, rows := Sort(Priorities(list)), RowsOf(list);
    if p in sorted {
      assert p in multiset(Priorities(list));
      var k :| 0 <= k < |list| && Priorities(list)[k] == p;
      RowsAt(list, k);
    }
    if HasPriority(rows, p) {
      var m :| m in rows && rows[m].priority == p;
      var k := RowsFrom(list, m);
      assert Priorities(list)[k] == p;
      assert p in multiset(Priorities(list));
      assert p in multiset(sorted);
    }
  }

  /** The check accepts exactly the lists whose rows are numbered 1..n. */
  lemma {:induction false} NumberedIff(list: seq<Input>)
    requires DistinctModels(list)
    ensures Numbered(list) <==> Contiguous(RowsOf(list))
  {
    var sorted, rows := Sort(Priorities(list)), RowsOf(list);
    SortSorts(Priorities(list));
    RowsCount(list);
    if Numbered(list) {
      forall p | 1 <= p <= |rows|
        ensures HasPriority(rows, p)
      {
        assert sorted[p - 1] == p;
        PrioritiesAt(list, p);
      }
      forall m | m in rows
        ensures 1 <= rows[m].priority <= |rows|
      {
        PrioritiesAt(list, rows[m].priority);
      }
    }
    if Contiguous(rows) {
      forall p | 1 <= p <= |sorted|
        ensures p in sorted
      {
        assert HasPriority(rows, p);
        PrioritiesAt(list, p);
      }
      CoversOneTo(sorted);
    }
  }

  // ---- The highest priority ----

  /** `COALESCE(MAX(priority), 0)` */
  ghost predicate IsMax(rows: Rows, p: int) {
    if rows == map[] then p == 0
    else HasPriority(rows, p) && forall m | m in rows :: rows[m].priority <= p
  }

  lemma {:induction false} MaxExists(rows: Rows)
    ensures exists p :: IsMax(rows, p)
    decreases |rows|
  {
    if rows == map[] {
      assert IsMax(rows, 0);
    } else {
      var m :| m in rows;
      var rest := rows - {m};
      assert |rest.Keys| < |rows.Keys| by {
        assert rest.Keys == rows.Keys - {m};
      }
      MaxExists(rest);
      var q :| IsMax(rest, q);
      var p := if rest == map[] || rows[m].priority > q then rows[m].priority else q;
      assert HasPriority(rows, p) by {
        if p == q && rest != map[] {
          var k :| k in rest && rest[k].priority == q;
          assert k in rows && rows[k].priority == p;
        } else {
          assert rows[m].priority == p;
        }
      }
      forall k | k in rows
        ensures rows[k].priority <= p
      {
        assert k != m ==> k in rest;
      }
      assert IsMax(rows, p);
    }
  }

  ghost function MaxOf(rows: Rows): (p: int)
    ensures IsMax(rows, p)
  {
    MaxExists(rows);
    var p :| IsMax(rows, p);
    p
  }

  ghost predicate MaxOver(rows: Rows, seen: set<nat>, p: int)
    requires seen <= rows.Keys
  {
    if seen == {} then p == 0
    else (exists m :: m in seen && rows[m].priority == p) && forall m | m in seen :: rows[m].priority <= p
  }

  lemma {:induction false} MaxStep(rows: Rows, seen: set<nat>, p: int, m: nat)
    requires seen <= rows.Keys && m in rows && MaxOver(rows, seen, p)
    ensures MaxOver(rows, seen + {m}, if seen == {} || rows[m].priority > p then rows[m].priority else p)
  {
    assert m in seen + {m};
  }

  method MaxPriority(rows: Rows) returns (p: int)
    ensures p == MaxOf(rows)
  {
    p := 0;
    var seen: set<nat>, todo := {}, rows.Keys;
    while todo != {}
      invariant seen + todo == rows.Keys && MaxOver(rows, seen, p)
      decreases |todo|
    {
      var m :| m in todo;
      MaxStep(rows, seen, p, m);
      if seen == {} || rows[m].priority > p {
        p := rows[m].priority;
      }
      seen, todo := seen + {m}, todo - {m};
    }
    assert seen == rows.Keys;
    MaxDone(rows, p);
  }

  lemma {:induction false} MaxDone(rows: Rows, p: int)
    requires MaxOver(rows, rows.Keys, p)
    ensures p == MaxOf(rows)
  {
    assert rows != map[] ==> HasPriority(rows, p);
    MaxIsOne(rows, p, MaxOf(rows));
  }

  lemma {:induction false} MaxIsOne(rows: Rows, p: int, q: int)
    requires IsMax(rows, p) && IsMax(rows, q)
    ensures p == q
  {
  }

  lemma {:induction false} MaxIsSize(rows: Rows)
    requires Contiguous(rows)
    ensures MaxOf(rows) == |rows|
  {
    if rows != map[] {
      assert |rows| >= 1;
      assert HasPriority(rows, |rows|);
    }
  }

  /** Behind the last row a new one keeps the numbering. */
  lemma {:induction false} AppendContiguous(rows: Rows, m: nat, enabled: bool)
    requires Contiguous(rows) && m !in rows
    ensures Contiguous(rows[m := Member(MaxOf(rows) + 1, enabled)])
  {
    MaxIsSize(rows);
    var more := rows[m := Member(|rows| + 1, enabled)];
    assert more.Keys == rows.Keys + {m};
    assert |more.Keys| == |rows.Keys| + 1;
    forall q | 1 <= q <= |more|
      ensures HasPriority(more, q)
    {
      if q <= |rows| {
        assert HasPriority(rows, q);
        var k :| k in rows && rows[k].priority == q;
        assert k in more && more[k].priority == q;
      } else {
        assert m in more && more[m].priority == q;
      }
    }
  }

  /** A row with priority 1 joins: the numbering holds only if there was no row before. */
  lemma {:induction false} FirstContiguousIff(rows: Rows, m: nat, enabled: bool)
    requires m !in rows && Contiguous(rows)
    ensures Contiguous(rows[m := Member(1, enabled)]) <==> rows == map[]
  {
    var more := rows[m := Member(1, enabled)];
    assert more.Keys == rows.Keys + {m};
    assert |more| == |rows.Keys| + 1 == |rows| + 1;
    if rows == map[] {
      assert more[m].priority == 1;
      assert HasPriority(more, 1);
    } else {
      assert |rows| >= 1;
      assert !HasPriority(more, |more|);
    }
  }

  lemma {:induction false} SamePriorities(a: Rows, b: Rows)
    requires Contiguous(a) && a.Keys == b.Keys && forall m | m in a :: a[m].priority == b[m].priority
    ensures Contiguous(b)
  {
    assert |a| == |a.Keys| == |b|;
    forall p | 1 <= p <= |b|
      ensures HasPriority(b, p)
    {
      assert HasPriority(a, p);
      var m :| m in a && a[m].priority == p;
      assert m in b && b[m].priority == p;
    }
  }
}
