/** Which operations can be committed a second time. */
module Repetition {
  import opened Common
  import opened Picker
  import opened Configuration

  // ---- What cannot be committed twice ----

  /** The request can only be meant for one state of the tables, or only once. */
  predicate Once(op: Operation) {
    Expected(op).Some? || op.CreateModel? || op.Materialize?
  }

  /** The mark that a commit leaves: a revision past the expected one, or the models created. */
  predicate Marked(t: Tables, op: Operation) {
    || (Expected(op).Some? && t.revision > Expected(op).value)
    || (op.CreateModel? && Exists(t, op.create.model))
    || (op.Materialize? && op.list != [] && Exists(t, op.list[0]))
  }

  predicate IdsBelow(t: Tables) {
    forall m | m in t.models :: m < t.nextId
  }

  /** Models stay, under their names. */
  ghost predicate KeepsModels(t: Tables, s: Tables) {
    t.models.Keys <= s.models.Keys && IdsBelow(s) &&
    forall m | m in t.models ::
      t.models[m].platform == s.models[m].platform && t.models[m].modelId == s.models[m].modelId
  }

  lemma {:induction false} AddedAllKeepsModels(t: Tables, digest: Digest, list: seq<NewModel>)
    requires IdsBelow(t)
    ensures KeepsModels(t, AddedAll(t, digest, list))
    ensures list != [] ==> Exists(AddedAll(t, digest, list), list[0])
  {
    if list != [] {
      var init, last := list[..|list| - 1], list[|list| - 1];
      AddedAllKeepsModels(t, digest, init);
      var s := AddedAll(t, digest, init);
      var picker := Allocated(s.catalog, None, Some(last.modelId));
      AddedKeepsModels(s, digest, last, picker, picker.Some?);
      if init != [] {
        StillExists(s, AddedAll(t, digest, list), list[0]);
      }
    }
  }

  lemma {:induction false} AddedKeepsModels(t: Tables, digest: Digest, m: NewModel, picker: Option<string>,
      visible: bool)
    requires IdsBelow(t)
    ensures var s := Added(t, digest, m, picker, visible); KeepsModels(t, s) && Exists(s, m)
  {
    var s := Added(t, digest, m, picker, visible);
    assert t.nextId in s.models;
  }

  lemma {:induction false} StillExists(t: Tables, s: Tables, m: NewModel)
    requires KeepsModels(t, s) && Exists(t, m)
    ensures Exists(s, m)
  {
    var id :| id in t.models && t.models[id].platform == m.platform && t.models[id].modelId == m.modelId;
    assert id in s.models;
  }

  lemma {:induction false} PerformKeepsModels(t: Tables, digest: Digest, op: Operation)
    requires IdsBelow(t) && Perform(t, digest, op).Done?
    ensures KeepsModels(t, Perform(t, digest, op).tables)
  {
    match op {
      case CreateModel(o) => AddedKeepsModels(t, digest, o.model, CreatedPicker(t, o), CreatedVisible(t, o));
      case Materialize(list, _) => AddedAllKeepsModels(t, digest, list);
      case _ =>
    }
  }

  /** A commit leaves its mark, under which it cannot be repeated, and no write removes it. */
  lemma {:induction false} CommitMarks(t: Tables, digest: Digest, op: Operation)
    requires IdsBelow(t) && Once(op) && Perform(t, digest, op).Done?
    ensures !Marked(t, op) && Marked(Perform(t, digest, op).tables, op)
  {
    PerformRaises(t, digest, op);
    match op {
      case CreateModel(o) => AddedKeepsModels(t, digest, o.model, CreatedPicker(t, o), CreatedVisible(t, o));
      case Materialize(list, _) => AddedAllKeepsModels(t, digest, list);
      case _ =>
    }
  }

  lemma {:induction false} MarkStays(t: Tables, digest: Digest, op: Operation, other: Operation)
    requires IdsBelow(t) && Marked(t, op) && Perform(t, digest, other).Done?
    ensures Marked(Perform(t, digest, other).tables, op)
  {
    PerformRaises(t, digest, other);
    PerformKeepsModels(t, digest, other);
    if op.CreateModel? && Exists(t, op.create.model) {
      StillExists(t, Perform(t, digest, other).tables, op.create.model);
    }
    if op.Materialize? && op.list != [] && Exists(t, op.list[0]) {
      StillExists(t, Perform(t, digest, other).tables, op.list[0]);
    }
  }

  // ---- What can be committed twice ----

  lemma {:induction false} SameBlocks(rows: Table, model: nat, picker: Option<string>, visible: bool, id: string)
    ensures Used(Published(rows, model, picker, visible), Some(model), id) <==> Used(rows, Some(model), id)
  {
    var now := Published(rows, model, picker, visible);
    if Used(rows, Some(model), id) {
      var row :| row in rows && Blocks(row, Some(model), id);
      var k :| 0 <= k < |rows| && rows[k] == row;
      assert now[k] in now && now[k] == row;
    }
    if Used(now, Some(model), id) {
      var row :| row in now && Blocks(row, Some(model), id);
      var k :| 0 <= k < |now| && now[k] == row;
      assert rows[k] in rows && rows[k] == row;
    }
  }

  lemma {:induction false} SameFirstFree(rows: Table, model: nat, picker: Option<string>, visible: bool,
      base: string, k: nat)
    requires k <= MAX_SUFFIX + 1
    ensures FirstFree(Published(rows, model, picker, visible), Some(model), base, k)
            == FirstFree(rows, Some(model), base, k)
    decreases MAX_SUFFIX + 1 - k
  {
    if k <= MAX_SUFFIX {
      SameBlocks(rows, model, picker, visible, Candidate(base, k));
      SameFirstFree(rows, model, picker, visible, base, k + 1);
    }
  }

  lemma {:induction false} SameAllocated(rows: Table, model: nat, picker: Option<string>, visible: bool,
      slug: Option<string>)
    ensures Allocated(Published(rows, model, picker, visible), Some(model), slug) == Allocated(rows, Some(model), slug)
  {
    if slug.Some? && IsPickerId(slug.value) {
      SameFirstFree(rows, model, picker, visible, slug.value, 1);
    }
  }

  predicate HasEntry(rows: Table, model: nat) {
    exists row | row in rows :: row.owner == Some(model)
  }

  lemma {:induction false} PublishedPicker(rows: Table, model: nat, picker: Option<string>, visible: bool)
    ensures CurrentPicker(Published(rows, model, picker, visible), model) ==
              if HasEntry(rows, model) then picker else None
  {
    if rows != [] {
      var init, last := rows[..|rows| - 1], rows[|rows| - 1];
      PublishedPicker(init, model, picker, visible);
      var now := Published(rows, model, picker, visible);
      assert now[..|rows| - 1] == Published(init, model, picker, visible);
      assert HasEntry(rows, model) <==> HasEntry(init, model) || last.owner == Some(model) by {
        assert rows == init + [last];
      }
    }
  }

  lemma {:induction false} PublishedVisible(rows: Table, model: nat, picker: Option<string>, visible: bool)
    ensures AnyVisible(Published(rows, model, picker, visible), model) <==> HasEntry(rows, model) && visible
  {
    var now := Published(rows, model, picker, visible);
    if HasEntry(rows, model) && visible {
      var row :| row in rows && row.owner == Some(model);
      var k :| 0 <= k < |rows| && rows[k] == row;
      assert now[k] in now;
    }
    if AnyVisible(now, model) {
      var row :| row in now && row.owner == Some(model) && row.visible;
      var k :| 0 <= k < |now| && now[k] == row;
      assert rows[k] in rows && rows[k].owner == Some(model);
    }
  }

  lemma {:induction false} PublishedAgain(rows: Table, model: nat, picker: Option<string>, visible: bool)
    ensures var now := Published(rows, model, picker, visible); Published(now, model, picker, visible) == now
  {
    var now := Published(rows, model, picker, visible);
    var again := Published(now, model, picker, visible);
    forall k | 0 <= k < |now|
      ensures again[k] == now[k]
    {
    }
  }

  lemma {:induction false} PublishedNothing(rows: Table, model: nat, picker: Option<string>, visible: bool)
    requires !HasEntry(rows, model)
    ensures Published(rows, model, picker, visible) == rows
  {
    assert forall k | 0 <= k < |rows| :: rows[k] in rows;
  }

  lemma {:induction false} SameOtherOwner(rows: Table, model: nat, picker: Option<string>, visible: bool, id: string)
    requires OtherOwner(Published(rows, model, picker, visible), model, id)
    ensures OtherOwner(rows, model, id)
  {
    var now := Published(rows, model, picker, visible);
    var row :| row in now && row.picker == Some(id) && row.owner.Some? && row.owner != Some(model);
    var k :| 0 <= k < |now| && now[k] == row;
    assert rows[k] in rows && rows[k] == row;
  }

  /** A second update of a model finds the entries as it would leave them. */
  lemma {:induction false} ModelRepeats(t: Tables, op: ModelUpdate)
    requires op.expected.None? && ModelUpdated(t, op).Done?
    ensures ModelUpdated(ModelUpdated(t, op).tables, op).Done?
  {
    var s := ModelUpdated(t, op).tables;
    var visible := if op.visible.Some? then op.visible.value else AnyVisible(t.catalog, op.model);
    var picker := PickerFor(t, op, visible);
    PublishedAgain(t.catalog, op.model, picker, visible);
    SameVisible(t, s, op, picker, visible);
    SamePicker(t, s, op, picker, visible);
    if Named(picker) && OtherOwner(s.catalog, op.model, picker.value) {
      SameOtherOwner(t.catalog, op.model, picker, visible, picker.value);
    }
  }

  lemma {:induction false} SameVisible(t: Tables, s: Tables, op: ModelUpdate, picker: Option<string>, visible: bool)
    requires visible == if op.visible.Some? then op.visible.value else AnyVisible(t.catalog, op.model)
    requires s.catalog == Published(t.catalog, op.model, picker, visible)
    ensures visible == if op.visible.Some? then op.visible.value else AnyVisible(s.catalog, op.model)
  {
    PublishedVisible(t.catalog, op.model, picker, visible);
    if op.visible.None? && visible {
      var row :| row in t.catalog && row.owner == Some(op.model) && row.visible;
      assert HasEntry(t.catalog, op.model);
    }
  }

  lemma {:induction false} SamePicker(t: Tables, s: Tables, op: ModelUpdate, picker: Option<string>, visible: bool)
    requires op.model in t.models && op.model in s.models
    requires s.models[op.model].modelId == t.models[op.model].modelId
    requires picker == PickerFor(t, op, visible) && (visible ==> Named(picker))
    requires s.catalog == Published(t.catalog, op.model, picker, visible)
    ensures PickerFor(s, op, visible) == picker
  {
    PublishedPicker(t.catalog, op.model, picker, visible);
    SameAllocated(t.catalog, op.model, picker, visible, Some(t.models[op.model].modelId));
    if !HasEntry(t.catalog, op.model) {
      PublishedNothing(t.catalog, op.model, picker, visible);
    }
  }

  lemma {:induction false} ApplyRepeats(t: Tables, op: Application)
    requires op.expected.None? && Applied(t, op).Done?
    ensures Applied(Applied(t, op).tables, op).Done?
  {
    var s := Applied(t, op).tables;
    assert EntryRows(s, op.document.catalog) == EntryRows(t, op.document.catalog);
  }

  /** Directly after its commit an operation can be committed again exactly if it neither names
      the revision it expects nor creates models. */
  lemma {:induction false} RepeatsIff(t: Tables, digest: Digest, op: Operation)
    requires IdsBelow(t) && Perform(t, digest, op).Done?
    ensures Perform(Perform(t, digest, op).tables, digest, op).Done? <==> !Once(op)
  {
    var s := Perform(t, digest, op).tables;
    if Once(op) {
      PerformKeepsModels(t, digest, op);
      CommitMarks(t, digest, op);
      if Perform(s, digest, op).Done? {
        CommitMarks(s, digest, op);
      }
    } else {
      match op {
        case UpdateRoute(o) =>
        case UpdateModel(o) => ModelRepeats(t, o);
        case Apply(o) => ApplyRepeats(t, o);
      }
    }
  }
}
