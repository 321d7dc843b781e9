/** Edits of the fallback table by migrations: rows appended, put first, moved, or removed. */
module Fallback {
  import opened Common
  import opened Members

  /** No two rows share a priority, and all are positive. */
  ghost predicate Sound(rows: Rows) {
    && (forall m | m in rows :: rows[m].priority >= 1)
    && (forall m, k | m in rows && k in rows && m != k :: rows[m].priority != rows[k].priority)
  }

  /** The rows where `shifted` holds move one place back. */
  function Shifted(rows: Rows, low: int, high: int): Rows {
    map m | m in rows :: if low <= rows[m].priority < high then rows[m].(priority := rows[m].priority + 1) else rows[m]
  }

  function ShiftedBut(rows: Rows, model: nat): Rows {
    map m | m in rows :: if m != model then rows[m].(priority := rows[m].priority + 1) else rows[m]
  }

  /** New rows behind the base, each in its own place of the list; an entry that names no
      model, or one that has a row, leaves its place empty. */
  function Appended(rows: Rows, base: int, list: seq<Option<nat>>): Rows {
    if list == [] then rows
    else
      var before, m := Appended(rows, base, list[..|list| - 1]), list[|list| - 1];
      if m.Some? && m.value !in before then before[m.value := Member(base + |list|, true)] else before
  }

  function PlacedBefore(rows: Rows, model: nat, predecessor: nat): Rows {
    if model !in rows || predecessor !in rows || rows[model].priority <= rows[predecessor].priority then rows
    else
      var place := rows[predecessor].priority;
      Shifted(rows, place, rows[model].priority)[model := rows[model].(priority := place)]
  }

  /** A model without a row gets the first place; `moves`: one with a row moves there. */
  function PutFirst(rows: Rows, model: nat, moves: bool): Rows {
    if model !in rows then ShiftedBut(rows, model)[model := Member(1, true)]
    else if moves && rows[model].priority != 1 then ShiftedBut(rows, model)[model := rows[model].(priority := 1)]
    else rows
  }

  predicate SameOrder(a: Rows, b: Rows, but: nat)
    requires a.Keys <= b.Keys
  {
    forall m, k | m in a && k in a && m != but && k != but ::
      a[m].priority < a[k].priority <==> b[m].priority < b[k].priority
  }

  /** The move is called for: the model stands behind its predecessor. */
  predicate StandsBehind(rows: Rows, model: nat, predecessor: nat) {
    model in rows && predecessor in rows && rows[model].priority > rows[predecessor].priority
  }

  /** The model has the place of its predecessor, which comes next; all others keep their order,
      and rows outside the range their priority. */
  ghost predicate MovedBefore(before: Rows, after: Rows, model: nat, predecessor: nat)
    requires StandsBehind(before, model, predecessor)
  {
    && after.Keys == before.Keys
    && after[model].priority == before[predecessor].priority
    && after[predecessor].priority == after[model].priority + 1
    && SameOrder(before, after, model)
    && (forall m | m in before :: after[m].enabled == before[m].enabled)
    && (forall m | m in before && !(before[predecessor].priority <= before[m].priority <= before[model].priority) ::
          after[m] == before[m])
  }

  predicate FirstNamed(list: seq<Option<nat>>, k: nat)
    requires k < |list|
  {
    list[k].Some? && forall j | 0 <= j < k :: list[j] != list[k]
  }

  /** Old rows stay; each model that is new gets the place of its first mention, counted from
      the highest priority. */
  ghost predicate AppendedBehind(before: Rows, after: Rows, list: seq<Option<nat>>) {
    && before.Keys <= after.Keys
    && (forall m | m in before :: after[m] == before[m])
    && (forall m | m in after && m !in before :: Some(m) in list)
    && (forall k | 0 <= k < |list| && FirstNamed(list, k) && list[k].value !in before ::
          list[k].value in after && after[list[k].value] == Member(MaxOf(before) + k + 1, true))
  }

  /** The model has the first place; all others keep their order behind it. */
  ghost predicate MovedFirst(before: Rows, after: Rows, model: nat) {
    && after.Keys == before.Keys + {model}
    && after[model].priority == 1
    && after[model].enabled == (model in before ==> before[model].enabled)
    && SameOrder(before, after, model)
    && (forall m | m in before && m != model :: after[m].priority > 1 && after[m].enabled == before[m].enabled)
  }

  class Table {
    var rows: Rows

    constructor (rows: Rows)
      ensures this.rows == rows
    {
      this.rows := rows;
    }

    method Append(list: seq<Option<nat>>)
      modifies this
      ensures rows == Appended(old(rows), MaxOf(old(rows)), list)
      ensures AppendedBehind(old(rows), rows, list) && (Sound(old(rows)) ==> Sound(rows))
    {
      AppendedPlaces(rows, list);
      AppendRows(list);
    }

    method AppendRows(list: seq<Option<nat>>)
      modifies this
      ensures rows == Appended(old(rows), MaxOf(old(rows)), list)
    {
      var priority := MaxPriority(rows);
      for k := 0 to |list|
        invariant rows == Appended(old(rows), priority, list[..k])
      {
        assert list[..k + 1][..k] == list[..k];
        if list[k].Some? && list[k].value !in rows {
          rows := rows[list[k].value := Member(priority + k + 1, true)];
        }
      }
      assert list[..|list|] == list;
    }

    method PlaceBefore(model: nat, predecessor: nat)
      modifies this
      ensures rows == PlacedBefore(old(rows), model, predecessor)
      ensures Sound(old(rows)) ==> Sound(rows)
      ensures if StandsBehind(old(rows), model, predecessor)
              then Sound(old(rows)) ==> MovedBefore(old(rows), rows, model, predecessor)
              else rows == old(rows)
    {
      ghost var before := rows;
      if Sound(before) {
        PlacedSound(before, model, predecessor);
        if StandsBehind(before, model, predecessor) {
          PlacedKeepsOrder(before, model, predecessor);
        }
      }
      if model !in rows || predecessor !in rows || rows[model].priority <= rows[predecessor].priority {
        return;
      }
      var place, from := rows[predecessor].priority, rows[model].priority;
      rows := map m | m in rows ::
        if place <= rows[m].priority < from then rows[m].(priority := rows[m].priority + 1) else rows[m];
      rows := rows[model := rows[model].(priority := place)];
    }

    method First(model: nat, moves: bool)
      modifies this
      ensures rows == PutFirst(old(rows), model, moves)
      ensures Sound(old(rows)) ==> Sound(rows)
      ensures if model !in old(rows) || moves then Sound(old(rows)) ==> MovedFirst(old(rows), rows, model)
              else rows == old(rows)
    {
      ghost var before := rows;
      if Sound(before) {
        FirstSound(before, model, moves);
        if model !in before || moves {
          FirstKeepsOrder(before, model, moves);
        }
      }
      if model !in rows {
        rows := map m | m in rows :: rows[m].(priority := rows[m].priority + 1);
        rows := rows[model := Member(1, true)];
      } else if moves && rows[model].priority != 1 {
        rows := map m | m in rows :: if m != model then rows[m].(priority := rows[m].priority + 1) else rows[m];
        rows := rows[model := rows[model].(priority := 1)];
      }
    }

    method Remove(models: set<nat>)
      modifies this
      ensures rows == old(rows) - models
    {
      rows := rows - models;
    }
  }

  // ---- Any sequence of edits ----

  datatype Edit =
    | Append(list: seq<Option<nat>>)
    | Place(model: nat, predecessor: nat)
    | First(model: nat, moves: bool)
    | Remove(models: set<nat>)

  ghost function Edited(rows: Rows, e: Edit): Rows {
    match e
    case Append(list) => Appended(rows, MaxOf(rows), list)
    case Place(model, predecessor) => PlacedBefore(rows, model, predecessor)
    case First(model, moves) => PutFirst(rows, model, moves)
    case Remove(models) => rows - models
  }

  ghost function EditedAll(rows: Rows, edits: seq<Edit>): Rows {
    if edits == [] then rows else Edited(EditedAll(rows, edits[..|edits| - 1]), edits[|edits| - 1])
  }

  lemma {:induction false} AppendedSound(rows: Rows, base: int, list: seq<Option<nat>>)
    requires Sound(rows) && base >= 0 && forall m | m in rows :: rows[m].priority <= base
    ensures Sound(Appended(rows, base, list))
    ensures forall m | m in Appended(rows, base, list) :: Appended(rows, base, list)[m].priority <= base + |list|
    ensures forall m | m in rows :: m in Appended(rows, base, list) && Appended(rows, base, list)[m] == rows[m]
  {
    if list != [] {
      AppendedSound(rows, base, list[..|list| - 1]);
    }
  }

  lemma {:induction false} AppendedAt(rows: Rows, base: int, list: seq<Option<nat>>)
    ensures var after := Appended(rows, base, list);
            && rows.Keys <= after.Keys && (forall m | m in rows :: after[m] == rows[m])
            && (forall m | m in after && m !in rows :: Some(m) in list)
            && (forall k | 0 <= k < |list| && FirstNamed(list, k) && list[k].value !in rows ::
                  list[k].value in after && after[list[k].value] == Member(base + k + 1, true))
  {
    if list != [] {
      var init, n := list[..|list| - 1], |list| - 1;
      AppendedAt(rows, base, init);
      var before, after := Appended(rows, base, init), Appended(rows, base, list);
      assert list == init + [list[n]];
      forall k | 0 <= k < |list| && FirstNamed(list, k) && list[k].value !in rows
        ensures list[k].value in after && after[list[k].value] == Member(base + k + 1, true)
      {
        if k < n {
          assert init[k] == list[k] && FirstNamed(init, k);
        } else {
          NotYet(init, list[n], before, rows);
        }
      }
    }
  }

  lemma {:induction false} NotYet(list: seq<Option<nat>>, m: Option<nat>, before: Rows, rows: Rows)
    requires m.Some? && m.value !in rows && (forall j | 0 <= j < |list| :: list[j] != m)
    requires forall k | k in before && k !in rows :: Some(k) in list
    ensures m.value !in before
  {
  }

  lemma {:induction false} AppendedPlaces(rows: Rows, list: seq<Option<nat>>)
    ensures var after := Appended(rows, MaxOf(rows), list);
            AppendedBehind(rows, after, list) && (Sound(rows) ==> Sound(after))
  {
    AppendedAt(rows, MaxOf(rows), list);
    if Sound(rows) {
      AppendedSound(rows, MaxOf(rows), list);
    }
  }

  lemma {:induction false} PlacedSound(rows: Rows, model: nat, predecessor: nat)
    requires Sound(rows)
    ensures Sound(PlacedBefore(rows, model, predecessor))
  {
    if PlacedBefore(rows, model, predecessor) != rows {
      ShiftedSound(rows, model, predecessor);
    }
  }

  lemma {:induction false} ShiftedSound(rows: Rows, model: nat, predecessor: nat)
    requires Sound(rows) && model in rows && predecessor in rows
    requires rows[model].priority > rows[predecessor].priority
    ensures var place := rows[predecessor].priority;
            Sound(Shifted(rows, place, rows[model].priority)[model := rows[model].(priority := place)])
  {
  }

  lemma {:induction false} FirstSound(rows: Rows, model: nat, moves: bool)
    requires Sound(rows)
    ensures Sound(PutFirst(rows, model, moves))
    ensures model in PutFirst(rows, model, moves)
    ensures (model !in rows || moves) ==> PutFirst(rows, model, moves)[model].priority == 1
  {
  }

  /** From distinct positive priorities, any sequence of edits keeps them so. */
  lemma {:induction false} EditsSound(rows: Rows, edits: seq<Edit>)
    requires Sound(rows)
    ensures Sound(EditedAll(rows, edits))
  {
    if edits != [] {
      var before, e := EditedAll(rows, edits[..|edits| - 1]), edits[|edits| - 1];
      EditsSound(rows, edits[..|edits| - 1]);
      match e {
        case Append(list) => AppendedSound(before, MaxOf(before), list);
        case Place(model, predecessor) => PlacedSound(before, model, predecessor);
        case First(model, moves) => FirstSound(before, model, moves);
        case Remove(_) =>
      }
    }
  }

  // ---- Order ----

  lemma {:induction false} FirstKeepsOrder(rows: Rows, model: nat, moves: bool)
    requires Sound(rows) && (model !in rows || moves)
    ensures MovedFirst(rows, PutFirst(rows, model, moves), model)
  {
    var after := PutFirst(rows, model, moves);
    var d := if model in rows && rows[model].priority == 1 then 0 else 1;
    forall m | m in rows && m != model
      ensures after[m] == rows[m].(priority := rows[m].priority + d) && after[m].priority > 1
    {
      FirstAt(rows, model, moves, m, d);
    }
  }

  lemma {:induction false} FirstAt(rows: Rows, model: nat, moves: bool, m: nat, d: int)
    requires Sound(rows) && (model !in rows || moves) && m in rows && m != model
    requires d == if model in rows && rows[model].priority == 1 then 0 else 1
    ensures PutFirst(rows, model, moves)[m] == rows[m].(priority := rows[m].priority + d)
    ensures rows[m].priority + d > 1
  {
  }

  lemma {:induction false} PlacedKeepsOrder(rows: Rows, model: nat, predecessor: nat)
    requires Sound(rows) && StandsBehind(rows, model, predecessor)
    ensures MovedBefore(rows, PlacedBefore(rows, model, predecessor), model, predecessor)
  {
    var after := PlacedBefore(rows, model, predecessor);
    var low, high := rows[predecessor].priority, rows[model].priority;
    forall m | m in rows && m != model
      ensures after[m].enabled == rows[m].enabled
      ensures after[m].priority == rows[m].priority + if low <= rows[m].priority < high then 1 else 0
      ensures rows[m].priority != high
    {
    }
  }

  // ---- The set of priorities ----

  ghost predicate SameSet(a: Rows, b: Rows) {
    forall p: int :: HasPriority(a, p) <==> HasPriority(b, p)
  }

  ghost predicate NoGap(rows: Rows, low: int, high: int) {
    forall p | low <= p <= high :: HasPriority(rows, p)
  }

  lemma {:induction false} ShiftedUp(rows: Rows, model: nat, predecessor: nat, p: int)
    requires Sound(rows) && model in rows && predecessor in rows
    requires rows[predecessor].priority <= p < rows[model].priority && HasPriority(rows, p)
    ensures HasPriority(PlacedBefore(rows, model, predecessor), p + 1)
  {
    var m :| m in rows && rows[m].priority == p;
    assert PlacedBefore(rows, model, predecessor)[m].priority == p + 1;
  }

  lemma {:induction false} KeptThenFilled(rows: Rows, model: nat, predecessor: nat, p: int)
    requires Sound(rows) && model in rows && predecessor in rows
    requires rows[predecessor].priority <= p <= rows[model].priority
    requires SameSet(rows, PlacedBefore(rows, model, predecessor))
    ensures HasPriority(rows, p)
    decreases p - rows[predecessor].priority
  {
    if p > rows[predecessor].priority {
      KeptThenFilled(rows, model, predecessor, p - 1);
      ShiftedUp(rows, model, predecessor, p - 1);
    }
  }

  lemma {:induction false} FilledThenKept(rows: Rows, model: nat, predecessor: nat, p: int)
    requires Sound(rows) && StandsBehind(rows, model, predecessor)
    requires NoGap(rows, rows[predecessor].priority, rows[model].priority)
    ensures HasPriority(rows, p) <==> HasPriority(PlacedBefore(rows, model, predecessor), p)
  {
    var after := PlacedBefore(rows, model, predecessor);
    var low, high := rows[predecessor].priority, rows[model].priority;
    if HasPriority(rows, p) {
      if low < p <= high {
        assert HasPriority(rows, p - 1);
        ShiftedUp(rows, model, predecessor, p - 1);
      } else if p == low {
        assert after[model].priority == p;
      } else {
        var m :| m in rows && rows[m].priority == p;
        assert after[m].priority == p;
      }
    }
    if HasPriority(after, p) && !(low <= p <= high) {
      var m :| m in after && after[m].priority == p;
      assert rows[m].priority == p;
    }
  }

  /** A move keeps the set of priorities exactly when it has no gap between the two places. */
  lemma {:induction false} PlacedKeepsSetIff(rows: Rows, model: nat, predecessor: nat)
    requires Sound(rows) && StandsBehind(rows, model, predecessor)
    ensures SameSet(rows, PlacedBefore(rows, model, predecessor)) <==>
              NoGap(rows, rows[predecessor].priority, rows[model].priority)
  {
    if SameSet(rows, PlacedBefore(rows, model, predecessor)) {
      forall p | rows[predecessor].priority <= p <= rows[model].priority
        ensures HasPriority(rows, p)
      {
        KeptThenFilled(rows, model, predecessor, p);
      }
    }
    if NoGap(rows, rows[predecessor].priority, rows[model].priority) {
      forall p: int
        ensures HasPriority(rows, p) <==> HasPriority(PlacedBefore(rows, model, predecessor), p)
      {
        FilledThenKept(rows, model, predecessor, p);
      }
    }
  }

  /** With a gap the set changes: priorities 1 and 3 become 2 and 1. */
  lemma {:induction false} GapCloses()
    ensures var rows := map[7 := Member(1, true), 8 := Member(3, true)];
            PlacedBefore(rows, 8, 7) == map[7 := Member(2, true), 8 := Member(1, true)]
            && !SameSet(rows, PlacedBefore(rows, 8, 7))
  {
    var rows := map[7 := Member(1, true), 8 := Member(3, true)];
    var after := PlacedBefore(rows, 8, 7);
    assert after[7].priority == 2;
    assert HasPriority(after, 2) && !HasPriority(rows, 2);
  }
}
