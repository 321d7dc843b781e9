/** The JavaScript Map: a list of records in insertion order, where deleting a key only
    empties its record (section 24.1 of ECMA-262). */
module OrderedMap {
  import opened Common

  datatype Slot<K, V> = Slot(key: K, value: V)

  /** The live records, in order. */
  function Live<K, V>(records: seq<Option<Slot<K, V>>>): seq<Slot<K, V>> {
    if records == [] then []
    else Live(records[..|records| - 1]) + (match records[|records| - 1] case None => [] case Some(s) => [s])
  }

  /** The slots other than the key's. */
  function Without<K(==), V>(slots: seq<Slot<K, V>>, key: K): (r: seq<Slot<K, V>>)
    ensures |r| <= |slots|
  {
    if slots == [] then []
    else
      var last := slots[|slots| - 1];
      Without(slots[..|slots| - 1], key) + (if last.key == key then [] else [last])
  }

  function Find<K(==), V>(slots: seq<Slot<K, V>>, key: K): Option<V> {
    if slots == [] then None
    else if slots[|slots| - 1].key == key then Some(slots[|slots| - 1].value)
    else Find(slots[..|slots| - 1], key)
  }

  predicate Distinct<K(==), V>(slots: seq<Slot<K, V>>) {
    slots == [] ||
    (Distinct(slots[..|slots| - 1]) && Find(slots[..|slots| - 1], slots[|slots| - 1].key).None?)
  }

  lemma {:induction false} InitOf<T>(s: seq<T>, x: T)
    ensures (s + [x])[..|s + [x]| - 1] == s
  {
  }

  lemma {:induction false} WithoutAbsent<K, V>(slots: seq<Slot<K, V>>, key: K)
    ensures Find(slots, key).None? <==> Without(slots, key) == slots
    ensures Find(slots, key).Some? ==> |Without(slots, key)| < |slots|
  {
    if slots != [] {
      WithoutAbsent(slots[..|slots| - 1], key);
    }
  }

  lemma {:induction false} WithoutFinds<K, V>(slots: seq<Slot<K, V>>, key: K, other: K)
    ensures Find(Without(slots, key), other) == if other == key then None else Find(slots, other)
  {
    if slots != [] {
      var init, last := slots[..|slots| - 1], slots[|slots| - 1];
      WithoutFinds(init, key, other);
      if last.key != key {
        InitOf(Without(init, key), last);
      } else {
        assert Without(slots, key) == Without(init, key);
      }
    }
  }

  lemma {:induction false} WithoutDistinct<K, V>(slots: seq<Slot<K, V>>, key: K)
    requires Distinct(slots)
    ensures Distinct(Without(slots, key))
  {
    if slots != [] {
      var init, last := slots[..|slots| - 1], slots[|slots| - 1];
      WithoutDistinct(init, key);
      WithoutFinds(init, key, last.key);
      if last.key != key {
        InitOf(Without(init, key), last);
      } else {
        assert Without(slots, key) == Without(init, key);
      }
    }
  }

  lemma {:induction false} DistinctPush<K, V>(slots: seq<Slot<K, V>>, s: Slot<K, V>)
    requires Distinct(slots) && Find(slots, s.key).None?
    ensures Distinct(slots + [s])
  {
    InitOf(slots, s);
  }

  lemma {:induction false} FindIn<K, V>(slots: seq<Slot<K, V>>, k: nat)
    requires Distinct(slots) && k < |slots|
    ensures Find(slots, slots[k].key) == Some(slots[k].value)
    decreases |slots|
  {
    if k < |slots| - 1 {
      FindIn(slots[..|slots| - 1], k);
    }
  }

  lemma {:induction false} FindCons<K, V>(s: Slot<K, V>, slots: seq<Slot<K, V>>, key: K)
    ensures Find([s] + slots, key) ==
              if Find(slots, key).Some? then Find(slots, key) else if s.key == key then Some(s.value) else None
  {
    if slots == [] {
      assert [s] + slots == [s];
    } else {
      FindCons(s, slots[..|slots| - 1], key);
      assert ([s] + slots)[..|slots|] == [s] + slots[..|slots| - 1];
    }
  }

  lemma {:induction false} WithoutCons<K, V>(s: Slot<K, V>, slots: seq<Slot<K, V>>, key: K)
    ensures Without([s] + slots, key) == (if s.key == key then [] else [s]) + Without(slots, key)
  {
    if slots == [] {
      assert [s] + slots == [s];
    } else {
      WithoutCons(s, slots[..|slots| - 1], key);
      assert ([s] + slots)[..|slots|] == [s] + slots[..|slots| - 1];
    }
  }

  lemma {:induction false} DistinctTail<K, V>(s: Slot<K, V>, slots: seq<Slot<K, V>>)
    requires Distinct([s] + slots)
    ensures Distinct(slots) && Find(slots, s.key).None?
  {
    if slots != [] {
      assert ([s] + slots)[..|slots|] == [s] + slots[..|slots| - 1];
      DistinctTail(s, slots[..|slots| - 1]);
      FindCons(s, slots[..|slots| - 1], slots[|slots| - 1].key);
    }
  }

  /** Deleting the first key leaves the rest. */
  lemma {:induction false} WithoutFirst<K, V>(slots: seq<Slot<K, V>>)
    requires slots != [] && Distinct(slots)
    ensures Without(slots, slots[0].key) == slots[1..]
    ensures Distinct(slots[1..])
  {
    assert [slots[0]] + slots[1..] == slots;
    DistinctTail(slots[0], slots[1..]);
    WithoutCons(slots[0], slots[1..], slots[0].key);
    WithoutAbsent(slots[1..], slots[0].key);
  }

  lemma {:induction false} DistinctSuffix<K, V>(list: seq<Slot<K, V>>, k: nat)
    requires k <= |list| && Distinct(list)
    ensures Distinct(list[k..])
    decreases |list|
  {
    if k > 0 {
      WithoutFirst(list);
      DistinctSuffix(list[1..], k - 1);
      assert list[1..][k - 1..] == list[k..];
    } else {
      assert list[0..] == list;
    }
  }

  class Map<K(==), V(==)> {
    var records: seq<Option<Slot<K, V>>>

    ghost function Entries(): seq<Slot<K, V>>
      reads this
    {
      Live(records)
    }

    ghost predicate Valid()
      reads this
    {
      Distinct(Entries())
    }

    constructor ()
      ensures Valid() && Entries() == []
    {
      records := [];
    }

    /** The record of a key. */
    method Locate(key: K) returns (at: Option<nat>)
      requires Valid()
      ensures at.None? <==> Find(Entries(), key).None?
      ensures at.Some? ==>
                && at.value < |records| && records[at.value].Some? && records[at.value].value.key == key
                && Find(Entries(), key) == Some(records[at.value].value.value)
    {
      at := None;
      for k := 0 to |records|
        invariant at.None? <==> Find(Live(records[..k]), key).None?
        invariant at.Some? ==>
                    && at.value < k && records[at.value].Some? && records[at.value].value.key == key
                    && Find(Live(records[..k]), key) == Some(records[at.value].value.value)
      {
        assert records[..k + 1][..k] == records[..k];
        if records[k].Some? {
          InitOf(Live(records[..k]), records[k].value);
          if records[k].value.key == key {
            at := Some(k);
          }
        } else {
          assert Live(records[..k + 1]) == Live(records[..k]);
        }
      }
      assert records[..|records|] == records;
    }

    method Get(key: K) returns (value: Option<V>)
      requires Valid()
      ensures value == Find(Entries(), key)
    {
      var at := Locate(key);
      value := if at.Some? then Some(records[at.value].value.value) else None;
    }

    method Delete(key: K)
      requires Valid()
      modifies this
      ensures Valid() && Entries() == Without(old(Entries()), key)
    {
      var at := Locate(key);
      WithoutAbsent(Entries(), key);
      WithoutDistinct(Entries(), key);
      if at.Some? {
        RecordChanged(records, at.value, records[at.value].value.value);
        records := records[at.value := None];
      }
    }

    /** A new key goes to the end; a present one is overwritten where it stands. */
    method Set(key: K, value: V)
      requires Valid()
      modifies this
      ensures Valid()
      ensures Find(old(Entries()), key).None? ==> Entries() == old(Entries()) + [Slot(key, value)]
      ensures Find(old(Entries()), key).Some? ==> Entries() == Overwritten(old(Entries()), key, value)
    {
      var at := Locate(key);
      if at.None? {
        DistinctPush(Entries(), Slot(key, value));
        InitOf(records, Some(Slot(key, value)));
        records := records + [Some(Slot(key, value))];
      } else {
        OverwrittenDistinct(Entries(), key, value);
        RecordChanged(records, at.value, value);
        records := records[at.value := Some(Slot(key, value))];
      }
    }

    /** The oldest key. */
    method FirstKey() returns (key: Option<K>)
      requires Valid()
      ensures key == if Entries() == [] then None else Some(Entries()[0].key)
    {
      for k := 0 to |records|
        invariant Live(records[..k]) == []
      {
        assert records[..k + 1][..k] == records[..k];
        if records[k].Some? {
          LiveStarts(records, k + 1);
          return Some(records[k].value.key);
        }
      }
      assert records[..|records|] == records;
      return None;
    }

    method Size() returns (n: nat)
      ensures n == |Entries()|
    {
      n := 0;
      for k := 0 to |records|
        invariant n == |Live(records[..k])|
      {
        assert records[..k + 1][..k] == records[..k];
        if records[k].Some? {
          n := n + 1;
        }
      }
      assert records[..|records|] == records;
    }
  }

  lemma {:induction false} LiveStarts<K, V>(records: seq<Option<Slot<K, V>>>, n: nat)
    requires n <= |records|
    ensures Live(records[..n]) <= Live(records)
    decreases |records|
  {
    if n < |records| {
      assert records[..|records| - 1][..n] == records[..n];
      LiveStarts(records[..|records| - 1], n);
    } else {
      assert records[..n] == records;
    }
  }

  function Overwritten<K(==), V>(slots: seq<Slot<K, V>>, key: K, value: V): seq<Slot<K, V>> {
    if slots == [] then []
    else
      var last := slots[|slots| - 1];
      Overwritten(slots[..|slots| - 1], key, value) + [if last.key == key then Slot(key, value) else last]
  }

  lemma {:induction false} OverwrittenAbsent<K, V>(slots: seq<Slot<K, V>>, key: K, value: V)
    requires Find(slots, key).None?
    ensures Overwritten(slots, key, value) == slots
  {
    if slots != [] {
      OverwrittenAbsent(slots[..|slots| - 1], key, value);
    }
  }

  lemma {:induction false} OverwrittenDistinct<K, V>(slots: seq<Slot<K, V>>, key: K, value: V)
    requires Distinct(slots)
    ensures Distinct(Overwritten(slots, key, value))
  {
    if slots != [] {
      var init, last := slots[..|slots| - 1], slots[|slots| - 1];
      OverwrittenDistinct(init, key, value);
      OverwrittenFinds(init, key, value, last.key);
      InitOf(Overwritten(init, key, value), if last.key == key then Slot(key, value) else last);
    }
  }

  lemma {:induction false} OverwrittenFinds<K, V>(slots: seq<Slot<K, V>>, key: K, value: V, other: K)
    ensures Find(Overwritten(slots, key, value), other) ==
              if other == key && Find(slots, key).Some? then Some(value) else Find(slots, other)
  {
    if slots != [] {
      var init, last := slots[..|slots| - 1], slots[|slots| - 1];
      OverwrittenFinds(init, key, value, other);
      InitOf(Overwritten(init, key, value), if last.key == key then Slot(key, value) else last);
    }
  }

  // ---- Slots in front of and behind one slot ----

  lemma {:induction false} LiveAppend<K, V>(a: seq<Option<Slot<K, V>>>, b: seq<Option<Slot<K, V>>>)
    ensures Live(a + b) == Live(a) + Live(b)
  {
    if b == [] {
      assert a + b == a;
    } else {
      LiveAppend(a, b[..|b| - 1]);
      assert (a + b)[..|a + b| - 1] == a + b[..|b| - 1];
    }
  }

  lemma {:induction false} WithoutAppend<K, V>(a: seq<Slot<K, V>>, b: seq<Slot<K, V>>, key: K)
    ensures Without(a + b, key) == Without(a, key) + Without(b, key)
  {
    if b == [] {
      assert a + b == a;
    } else {
      WithoutAppend(a, b[..|b| - 1], key);
      assert (a + b)[..|a + b| - 1] == a + b[..|b| - 1];
    }
  }

  lemma {:induction false} OverwrittenAppend<K, V>(a: seq<Slot<K, V>>, b: seq<Slot<K, V>>, key: K, value: V)
    ensures Overwritten(a + b, key, value) == Overwritten(a, key, value) + Overwritten(b, key, value)
  {
    if b == [] {
      assert a + b == a;
    } else {
      OverwrittenAppend(a, b[..|b| - 1], key, value);
      assert (a + b)[..|a + b| - 1] == a + b[..|b| - 1];
    }
  }

  lemma {:induction false} FindAppend<K, V>(a: seq<Slot<K, V>>, b: seq<Slot<K, V>>, key: K)
    ensures Find(a + b, key) == if Find(b, key).Some? then Find(b, key) else Find(a, key)
  {
    if b == [] {
      assert a + b == a;
    } else {
      FindAppend(a, b[..|b| - 1], key);
      assert (a + b)[..|a + b| - 1] == a + b[..|b| - 1];
    }
  }

  lemma {:induction false} DistinctMiddle<K, V>(a: seq<Slot<K, V>>, s: Slot<K, V>, b: seq<Slot<K, V>>)
    requires Distinct(a + [s] + b)
    ensures Find(a, s.key).None? && Find(b, s.key).None? && Find(a + [s] + b, s.key) == Some(s.value)
  {
    FindAppend(a, [s], s.key);
    if b == [] {
      assert a + [s] + b == a + [s];
      InitOf(a, s);
    } else {
      var init, last := b[..|b| - 1], b[|b| - 1];
      assert (a + [s] + b)[..|a + [s] + b| - 1] == a + [s] + init;
      DistinctMiddle(a, s, init);
    }
    FindAppend(a + [s], b, s.key);
  }

  lemma {:induction false} Around<T>(s: seq<T>, at: nat, x: T)
    requires at < |s|
    ensures s == s[..at] + [s[at]] + s[at + 1..] && s[at := x] == s[..at] + [x] + s[at + 1..]
  {
  }

  lemma {:induction false} LiveAround<K, V>(a: seq<Option<Slot<K, V>>>, s: Slot<K, V>, b: seq<Option<Slot<K, V>>>)
    ensures Live(a + [Some(s)] + b) == Live(a) + [s] + Live(b)
    ensures Live(a + [None] + b) == Live(a) + Live(b)
  {
    LiveAppend(a + [Some(s)], b);
    LiveAppend(a, [Some(s)]);
    LiveAppend(a + [None], b);
    LiveAppend(a, [None]);
  }

  lemma {:induction false} WithoutMiddle<K, V>(a: seq<Slot<K, V>>, s: Slot<K, V>, b: seq<Slot<K, V>>)
    requires Distinct(a + [s] + b)
    ensures Without(a + [s] + b, s.key) == a + b
  {
    DistinctMiddle(a, s, b);
    WithoutAbsent(a, s.key);
    WithoutAbsent(b, s.key);
    WithoutAppend(a + [s], b, s.key);
    WithoutAppend(a, [s], s.key);
  }

  lemma {:induction false} OverwrittenMiddle<K, V>(a: seq<Slot<K, V>>, s: Slot<K, V>, b: seq<Slot<K, V>>, value: V)
    requires Distinct(a + [s] + b)
    ensures Overwritten(a + [s] + b, s.key, value) == a + [Slot(s.key, value)] + b
  {
    DistinctMiddle(a, s, b);
    OverwrittenAbsent(a, s.key, value);
    OverwrittenAbsent(b, s.key, value);
    OverwrittenAppend(a + [s], b, s.key, value);
    OverwrittenAppend(a, [s], s.key, value);
  }

  /** Emptying a record takes its slot out, rewriting it changes its value; no other slot moves. */
  lemma {:induction false} RecordChanged<K, V>(records: seq<Option<Slot<K, V>>>, at: nat, value: V)
    requires Distinct(Live(records)) && at < |records| && records[at].Some?
    ensures Live(records[at := None]) == Without(Live(records), records[at].value.key)
    ensures Live(records[at := Some(Slot(records[at].value.key, value))]) ==
        Overwritten(Live(records), records[at].value.key, value)
  {
    var a, s, b := records[..at], records[at].value, records[at + 1..];
    Around(records, at, None);
    Around(records, at, Some(Slot(s.key, value)));
    LiveAround(a, s, b);
    LiveAround(a, Slot(s.key, value), b);
    WithoutMiddle(Live(a), s, Live(b));
    OverwrittenMiddle(Live(a), s, Live(b), value);
  }
}
