/** Picker ids: the names under which the bridge's client sees the models of its catalog. */
module Picker {
  import opened Common

  /** A catalog entry of the bridge; `slug` is the model's own id, from the joined models table.
      Tables stand in the order of their sort key. */
  datatype Row = Row(owner: Option<nat>, picker: Option<string>, visible: bool, slug: Option<string>)
  type Table = seq<Row>

  const MAX_LENGTH := 128
  const MAX_SUFFIX := 999

  predicate PickerChar(c: char) {
    'A' <= c <= 'Z' || 'a' <= c <= 'z' || '0' <= c <= '9' || c == '.' || c == '_' || c == ':' || c == '/' || c == '-'
  }

  predicate IsPickerId(s: string) {
    1 <= |s| <= MAX_LENGTH && forall k | 0 <= k < |s| :: PickerChar(s[k])
  }

  function Decimal(n: nat): string {
    (if n < 10 then "" else Decimal(n / 10)) + ["0123456789"[n % 10]]
  }

  /** The k-th name to try: the base itself, then base-2, base-3, ... */
  function Candidate(base: string, k: nat): string {
    if k <= 1 then base else base + "-" + Decimal(k)
  }

  /** Rows other than the excluded model's, and rows without a model, block their ids. */
  predicate Blocks(row: Row, excluded: Option<nat>, id: string) {
    row.picker == Some(id) && (excluded.None? || row.owner.None? || row.owner != excluded)
  }

  predicate Used(rows: Table, excluded: Option<nat>, id: string) {
    exists row | row in rows :: Blocks(row, excluded, id)
  }

  predicate Free(rows: Table, excluded: Option<nat>, id: string) {
    |id| <= MAX_LENGTH && !Used(rows, excluded, id)
  }

  predicate FreeAt(rows: Table, excluded: Option<nat>, base: string, k: nat) {
    Free(rows, excluded, Candidate(base, k))
  }

  /** The number of the first free candidate from k on. */
  function FirstFree(rows: Table, excluded: Option<nat>, base: string, k: nat): (r: nat)
    requires k <= MAX_SUFFIX + 1
    ensures k <= r <= MAX_SUFFIX + 1
    ensures r <= MAX_SUFFIX ==> FreeAt(rows, excluded, base, r)
    ensures forall j | k <= j < r :: !FreeAt(rows, excluded, base, j)
    decreases |rows|, MAX_SUFFIX + 1 - k
  {
    if k > MAX_SUFFIX || FreeAt(rows, excluded, base, k) then k else FirstFree(rows, excluded, base, k + 1)
  }

  function Allocated(rows: Table, excluded: Option<nat>, preferred: Option<string>): Option<string> {
    if preferred.None? || !IsPickerId(preferred.value) then None
    else
      var k := FirstFree(rows, excluded, preferred.value, 1);
      if k > MAX_SUFFIX then None else Some(Candidate(preferred.value, k))
  }

  lemma {:induction false} DecimalChars(n: nat)
    ensures |Decimal(n)| >= 1 && forall k | 0 <= k < |Decimal(n)| :: PickerChar(Decimal(n)[k])
  {
    if n >= 10 {
      DecimalChars(n / 10);
    }
  }

  /** Whatever is allocated is a valid id that no other row uses. */
  lemma {:induction false} AllocatedIsFree(rows: Table, excluded: Option<nat>, preferred: Option<string>)
    ensures var r := Allocated(rows, excluded, preferred);
            r.Some? ==> IsPickerId(r.value) && !Used(rows, excluded, r.value)
  {
    var r := Allocated(rows, excluded, preferred);
    if r.Some? {
      var k := FirstFree(rows, excluded, preferred.value, 1);
      assert FreeAt(rows, excluded, preferred.value, k);
      DecimalChars(k);
    }
  }

  /** Nothing is allocated only if no candidate is free. */
  lemma {:induction false} NothingFree(rows: Table, excluded: Option<nat>, preferred: Option<string>, k: nat)
    requires Allocated(rows, excluded, preferred).None? && preferred.Some? && IsPickerId(preferred.value)
    requires 1 <= k <= MAX_SUFFIX
    ensures !FreeAt(rows, excluded, preferred.value, k)
  {
    assert FirstFree(rows, excluded, preferred.value, 1) == MAX_SUFFIX + 1;
  }

  method UsedPickerIds(rows: Table, excluded: Option<nat>) returns (used: set<string>)
    ensures forall id :: id in used <==> Used(rows, excluded, id)
  {
    used := {};
    for k := 0 to |rows|
      invariant forall id :: id in used <==> Used(rows[..k], excluded, id)
    {
      assert rows[..k + 1] == rows[..k] + [rows[k]];
      var row := rows[k];
      if row.picker.Some? && (excluded.None? || row.owner.None? || row.owner != excluded) {
        used := used + {row.picker.value};
        assert Blocks(row, excluded, row.picker.value);
      }
      forall id
        ensures Used(rows[..k + 1], excluded, id) <==> Used(rows[..k], excluded, id) || Blocks(row, excluded, id)
      {
        assert row in rows[..k + 1];
      }
    }
    assert rows[..|rows|] == rows;
  }

  method AllocatePickerId(rows: Table, excluded: Option<nat>, preferred: Option<string>) returns (r: Option<string>)
    ensures r == Allocated(rows, excluded, preferred)
  {
    var used := UsedPickerIds(rows, excluded);
    if preferred.None? || !IsPickerId(preferred.value) {
      return None;
    }
    var base := preferred.value;
    if base !in used {
      return Some(base);
    }
    assert !FreeAt(rows, excluded, base, 1);
    for suffix := 2 to MAX_SUFFIX + 1
      invariant FirstFree(rows, excluded, base, 1) == FirstFree(rows, excluded, base, suffix)
    {
      var candidate := base + "-" + Decimal(suffix);
      assert candidate == Candidate(base, suffix);
      if |candidate| <= MAX_LENGTH && candidate !in used {
        return Some(candidate);
      }
    }
    return None;
  }

  // ---- The unique index on picker ids ----

  /** No two rows share an id. */
  ghost predicate Unique(rows: Table) {
    forall i, j | 0 <= i < j < |rows| :: rows[i].picker.Some? ==> rows[i].picker != rows[j].picker
  }

  /** The id written to every entry of a model. */
  function SetPicker(rows: Table, owner: nat, picker: Option<string>): (r: Table)
    ensures |r| == |rows|
    ensures forall k | 0 <= k < |rows| ::
              r[k] == if rows[k].owner == Some(owner) then rows[k].(picker := picker) else rows[k]
  {
    if rows == [] then []
    else
      SetPicker(rows[..|rows| - 1], owner, picker) +
      [if rows[|rows| - 1].owner == Some(owner) then rows[|rows| - 1].(picker := picker) else rows[|rows| - 1]]
  }

  /** The model has at most one entry. */
  ghost predicate OneEntry(rows: Table, owner: nat) {
    forall i, j | 0 <= i < j < |rows| :: !(rows[i].owner == rows[j].owner == Some(owner))
  }

  predicate HasEntry(rows: Table, owner: nat) {
    exists row | row in rows :: row.owner == Some(owner)
  }

  /** An entry without a model, such as Auto's, has the id. */
  predicate TakenByAuto(rows: Table, id: string) {
    exists row | row in rows :: row.owner.None? && row.picker == Some(id)
  }

  /** The check before an update: no entry of another model has the id. */
  predicate OtherOwner(rows: Table, owner: nat, id: string) {
    exists row | row in rows :: row.picker == Some(id) && row.owner.Some? && row.owner != Some(owner)
  }

  /** An id that passes the check of an update meets the index exactly when the model has no
      second entry and no entry without a model has that id. */
  lemma {:induction false} SetKeepsUniqueIff(rows: Table, owner: nat, id: string)
    requires Unique(rows) && !OtherOwner(rows, owner, id)
    ensures Unique(SetPicker(rows, owner, Some(id))) <==>
              !HasEntry(rows, owner) || (OneEntry(rows, owner) && !TakenByAuto(rows, id))
  {
    var after := SetPicker(rows, owner, Some(id));
    if HasEntry(rows, owner) && TakenByAuto(rows, id) {
      AutoClashes(rows, owner, id);
    }
    if !HasEntry(rows, owner) {
      assert after == rows by {
        assert forall k | 0 <= k < |rows| :: rows[k] in rows;
      }
    } else if OneEntry(rows, owner) && !TakenByAuto(rows, id) {
      SetOneUnique(rows, owner, id);
    }
  }

  lemma {:induction false} AutoClashes(rows: Table, owner: nat, id: string)
    requires HasEntry(rows, owner) && TakenByAuto(rows, id)
    ensures !Unique(SetPicker(rows, owner, Some(id)))
  {
    var after := SetPicker(rows, owner, Some(id));
    var row :| row in rows && row.owner == Some(owner);
    var i :| 0 <= i < |rows| && rows[i] == row;
    var auto :| auto in rows && auto.owner.None? && auto.picker == Some(id);
    var j :| 0 <= j < |rows| && rows[j] == auto;
    assert i != j && after[i].picker == Some(id) == after[j].picker;
  }

  lemma {:induction false} SetOneUnique(rows: Table, owner: nat, id: string)
    requires Unique(rows) && OneEntry(rows, owner) && !OtherOwner(rows, owner, id) && !TakenByAuto(rows, id)
    ensures Unique(SetPicker(rows, owner, Some(id)))
  {
    var after := SetPicker(rows, owner, Some(id));
    forall i, j | 0 <= i < j < |after| && after[i].picker.Some?
      ensures after[i].picker != after[j].picker
    {
      assert rows[i] in rows && rows[j] in rows;
    }
  }

  lemma {:induction false} SetNoneUnique(rows: Table, owner: nat)
    requires Unique(rows)
    ensures Unique(SetPicker(rows, owner, None))
  {
  }

  lemma {:induction false} PushUnique(rows: Table, row: Row)
    requires Unique(rows) && (row.picker.Some? ==> !Used(rows, None, row.picker.value))
    ensures Unique(rows + [row])
  {
    forall i, j | 0 <= i < j < |rows + [row]| && (rows + [row])[i].picker.Some?
      ensures (rows + [row])[i].picker != (rows + [row])[j].picker
    {
      assert j == |rows| ==> !Blocks(rows[i], None, rows[i].picker.value) || rows[i] in rows;
    }
  }

  /** An allocated id always meets the index for a model with one entry. */
  lemma {:induction false} SetAllocatedUnique(rows: Table, owner: nat, preferred: Option<string>)
    requires Unique(rows) && OneEntry(rows, owner)
    ensures Unique(SetPicker(rows, owner, Allocated(rows, Some(owner), preferred)))
  {
    AllocatedIsFree(rows, Some(owner), preferred);
    match Allocated(rows, Some(owner), preferred) {
      case None => SetNoneUnique(rows, owner);
      case Some(id) =>
        forall row | row in rows && row.picker == Some(id)
          ensures row.owner == Some(owner)
        {
          assert !Blocks(row, Some(owner), id);
        }
        SetOneUnique(rows, owner, id);
    }
  }

  // ---- Repair of visible entries without a valid id ----

  predicate NeedsId(row: Row) {
    row.owner.Some? && row.visible && !(row.picker.Some? && IsPickerId(row.picker.value))
  }

  function Pending(rows: Table): seq<Row> {
    if rows == [] then [] else (if NeedsId(rows[0]) then [rows[0]] else []) + Pending(rows[1..])
  }

  function RepairOne(rows: Table, row: Row): Table {
    if row.owner.None? then rows else SetPicker(rows, row.owner.value, Allocated(rows, row.owner, row.slug))
  }

  /** The rows to do, one after the other; None when an update breaks the index. */
  ghost function Repaired(rows: Table, todo: seq<Row>): Option<Table>
    decreases |todo|
  {
    if todo == [] then Some(rows)
    else
      var next := RepairOne(rows, todo[0]);
      if Unique(next) then Repaired(next, todo[1..]) else None
  }

  ghost function Reconciled(rows: Table): Option<Table> {
    Repaired(rows, Pending(rows))
  }

  lemma {:induction false} PendingFrom(rows: Table, n: nat)
    requires n < |rows|
    ensures Pending(rows[n..]) == (if NeedsId(rows[n]) then [rows[n]] else []) + Pending(rows[n + 1..])
  {
    assert rows[n..][1..] == rows[n + 1..];
  }

  lemma {:induction false} PendingIs(rows: Table)
    ensures forall row | row in Pending(rows) :: row in rows && NeedsId(row)
  {
    if rows != [] {
      PendingIs(rows[1..]);
    }
  }

  method ReconcileBridgePickerIds(rows: Table) returns (r: Option<Table>)
    ensures r == Reconciled(rows)
  {
    var pending := PendingRows(rows);
    PendingIs(rows);
    r := RepairAll(rows, pending);
  }

  lemma {:induction false} PendingNext(rows: Table, k: nat, pending: seq<Row>)
    requires k < |rows|
    ensures pending + Pending(rows[k..]) ==
        pending + (if NeedsId(rows[k]) then [rows[k]] else []) + Pending(rows[k + 1..])
  {
    PendingFrom(rows, k);
  }

  method PendingRows(rows: Table) returns (pending: seq<Row>)
    ensures pending == Pending(rows)
  {
    pending := [];
    assert rows[0..] == rows;
    for k := 0 to |rows|
      invariant pending + Pending(rows[k..]) == Pending(rows)
    {
      PendingNext(rows, k, pending);
      pending := pending + (if NeedsId(rows[k]) then [rows[k]] else []);
    }
  }

  method RepairAll(rows: Table, pending: seq<Row>) returns (r: Option<Table>)
    requires forall row | row in pending :: row.owner.Some?
    ensures r == Repaired(rows, pending)
  {
    var now := rows;
    for k := 0 to |pending|
      invariant Repaired(now, pending[k..]) == Repaired(rows, pending)
    {
      var row := pending[k];
      assert pending[k..][1..] == pending[k + 1..];
      var alias := AllocatePickerId(now, row.owner, row.slug);
      now := SetPicker(now, row.owner.value, alias);
      var clash := FindClash(now);
      if clash {
        return None;
      }
    }
    r := Some(now);
  }

  /** The index check of the table. */
  method FindClash(rows: Table) returns (clash: bool)
    ensures clash <==> !Unique(rows)
  {
    for i := 0 to |rows|
      invariant forall a, b | 0 <= a < b < |rows| && a < i :: rows[a].picker.Some? ==> rows[a].picker != rows[b].picker
    {
      for j := i + 1 to |rows|
        invariant forall b | i < b < j :: rows[i].picker.Some? ==> rows[i].picker != rows[b].picker
      {
        if rows[i].picker.Some? && rows[i].picker == rows[j].picker {
          return true;
        }
      }
    }
    return false;
  }
}
