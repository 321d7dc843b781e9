/** The operations as they run: each rewrites its tables step by step in one transaction. */
module ConfigurationStore {
  import opened Common
  import opened Members
  import opened Picker
  import opened Configuration

  datatype Result = Ok | Error(error: Configuration.Error)

  class Store {
    const digest: Digest
    var t: Tables

    constructor (digest: Digest, t: Tables)
      ensures this.digest == digest && this.t == t
    {
      this.digest, this.t := digest, t;
    }

    /** The operation either commits in full or leaves every table as it was. */
    twostate predicate Performs(outcome: Outcome, r: Result)
      reads this
    {
      match outcome
      case Done(s) => r.Ok? && t == s
      case Failed(e) => r == Error(e) && t == old(t)
    }

    // ---- Rows ----

    method ReplaceMembers(route: string, list: seq<Input>)
      modifies this
      ensures t == old(t).(members := old(t).members[route := RowsOf(list)])
    {
      t := t.(members := t.members[route := map[]]);
      for k := 0 to |list|
        invariant t == old(t).(members := old(t).members[route := RowsOf(list[..k])])
      {
        assert list[..k + 1][..k] == list[..k];
        InsertMember(route, list[k].model, Member(list[k].priority, list[k].enabled));
      }
      assert list[..|list|] == list;
    }

    method InsertMember(route: string, model: nat, member: Member)
      modifies this
      ensures t == old(t).(members := old(t).members[route := RowsIn(old(t), route)[model := member]])
    {
      t := t.(members := t.members[route := RowsIn(t, route)[model := member]]);
    }

    /** A trigger copies a new fallback row to the Auto route, if there is one. */
    method InsertFallback(model: nat, member: Member)
      modifies this
      ensures t == old(t).(fallback := old(t).fallback[model := member],
                           members := if AUTO in old(t).routes
                               then old(t).members[AUTO := RowsIn(old(t), AUTO)[model := member]]
                                      else old(t).members)
    {
      t := t.(fallback := t.fallback[model := member]);
      if AUTO in t.routes {
        InsertMember(AUTO, model, member);
      }
    }

    /** The fallback table is written anew; the Auto route already has these rows. */
    method MirrorList(list: seq<Input>)
      requires DistinctModels(list) && AUTO in t.members && t.members[AUTO] == RowsOf(list)
      modifies this
      ensures t == old(t).(fallback := RowsOf(list))
    {
      t := t.(fallback := map[]);
      for k := 0 to |list|
        invariant t == old(t).(fallback := RowsOf(list[..k]))
      {
        assert list[..k + 1][..k] == list[..k];
        RowsAt(list, k);
        var member := Member(list[k].priority, list[k].enabled);
        SameRow(t, list[k].model, member);
        InsertFallback(list[k].model, member);
      }
      assert list[..|list|] == list;
    }

    lemma {:induction false} SameRow(s: Tables, model: nat, member: Member)
      requires AUTO in s.members && model in s.members[AUTO] && s.members[AUTO][model] == member
      ensures var rows: Rows := s.members[AUTO][model := member]; s.members[AUTO := rows] == s.members
    {
      var rows: Rows := s.members[AUTO][model := member];
      assert rows == s.members[AUTO];
    }

    method MirrorRows(rows: Rows)
      requires rows == RowsIn(t, AUTO)
      modifies this
      ensures t == old(t).(fallback := rows)
    {
      t := t.(fallback := map[]);
      var todo := rows.Keys;
      while todo != {}
        invariant todo <= rows.Keys
        invariant t == old(t).(fallback := map m | m in rows && m !in todo :: rows[m])
        decreases |todo|
      {
        var m :| m in todo;
        SameRow(t, m, rows[m]);
        InsertFallback(m, rows[m]);
        todo := todo - {m};
        assert t.fallback == map k | k in rows && k !in todo :: rows[k];
      }
      assert (map m | m in rows && m !in todo :: rows[m]) == rows;
    }

    // ---- Operations ----

    method UpdateConfigurationRoute(op: RouteUpdate) returns (r: Result)
      modifies this
      ensures Performs(RouteUpdated(old(t), op), r)
    {
      if op.route !in t.routes { return Error(NoRoute); }
      if |op.members| == 0 { return Error(NoMembers); }
      if !DistinctModels(op.members) { return Error(DuplicateModel); }
      if !Numbered(op.members) { return Error(NotNumbered); }
      if Conflicts(t, op.expected) { return Error(Conflict(t.revision)); }
      if !AllKnown(t, op.members) { return Error(UnknownModel); }
      var saved := t;
      t := t.(routes := t.routes[op.route := Patched(t.routes[op.route], op)]);
      ReplaceMembers(op.route, op.members);
      if op.route == AUTO {
        MirrorList(op.members);
      }
      t := t.(revision := t.revision + 1);
      if op.refused {
        t := saved;
        return Error(Refused);
      }
      r := Ok;
    }

    /** The fallback row, the trigger on it, and the Auto row. */
    method SetEnabled(model: nat, enabled: bool)
      modifies this
      ensures t == WithEnabled(old(t), model, enabled)
    {
      if model in t.fallback {
        var member := t.fallback[model].(enabled := enabled);
        t := t.(fallback := t.fallback[model := member]);
        InsertMember(AUTO, model, member);
        assert Enabled(t.members[AUTO], model, enabled) == t.members[AUTO];
      }
      if AUTO in t.members {
        t := t.(members := t.members[AUTO := Enabled(t.members[AUTO], model, enabled)]);
      }
    }

    method ChoosePicker(op: ModelUpdate, visible: bool) returns (picker: Option<string>)
      requires op.model in t.models
      ensures picker == PickerFor(t, op, visible)
    {
      picker := if op.picker.None? then CurrentPicker(t.catalog, op.model) else op.picker.value;
      if visible && !Named(picker) {
        picker := AllocatePickerId(t.catalog, Some(op.model), Some(t.models[op.model].modelId));
      }
    }

    method UpdateConfigurationModel(op: ModelUpdate) returns (r: Result)
      modifies this
      ensures Performs(ModelUpdated(old(t), op), r)
    {
      if Conflicts(t, op.expected) { return Error(Conflict(t.revision)); }
      if op.model !in t.models { return Error(UnknownModel); }
      if op.picker.Some? && op.picker.value.Some? && !IsPickerId(op.picker.value.value) { return Error(BadPicker); }
      var visible := if op.visible.Some? then op.visible.value else AnyVisible(t.catalog, op.model);
      var picker := ChoosePicker(op, visible);
      if visible && !Named(picker) { return Error(NoFreePicker); }
      if Named(picker) && OtherOwner(t.catalog, op.model, picker.value) { return Error(PickerTaken); }
      r := WriteModel(op, picker, visible);
    }

    method WriteModel(op: ModelUpdate, picker: Option<string>, visible: bool) returns (r: Result)
      requires op.model in t.models
      modifies this
      ensures var catalog := Published(old(t).catalog, op.model, picker, visible);
              if op.refused || !Unique(catalog) then r == Error(Refused) && t == old(t)
              else r.Ok? && t == Rewritten(old(t), op, catalog)
    {
      var saved := t;
      var catalog := Published(t.catalog, op.model, picker, visible);
      var clash := FindClash(catalog);
      if clash || op.refused {
        t := saved;
        return Error(Refused);
      }
      WriteFields(op, catalog);
      r := Ok;
    }

    method WriteFields(op: ModelUpdate, catalog: Table)
      requires op.model in t.models
      modifies this
      ensures t == Rewritten(old(t), op, catalog)
    {
      var model := t.models[op.model];
      t := t.(models := t.models[op.model := if op.enabled.Some? then model.(enabled := op.enabled.value) else model]);
      t := t.(catalog := catalog);
      if op.enabled.Some? {
        SetEnabled(op.model, op.enabled.value);
      }
      t := t.(revision := t.revision + 1);
    }

    method AddModel(m: NewModel, picker: Option<string>, visible: bool)
      modifies this
      ensures t == Added(old(t), digest, m, picker, visible)
    {
      var id, route := t.nextId, PinnedRoute(digest, m);
      t := t.(models := t.models[id := Model(m.platform, m.modelId, true)], nextId := id + 1);
      t := t.(routes := t.routes[route := RouteFor(t, route, m.name)]);
      InsertMember(route, id, Member(1, true));
      t := t.(catalog := t.catalog + [Row(Some(id), picker, visible, Some(m.modelId))]);
    }

    method JoinAuto(model: nat)
      requires AUTO in t.routes
      modifies this
      ensures t == Joined(old(t), model)
    {
      var priority := MaxPriority(RowsIn(t, AUTO));
      var member := Member(priority + 1, true);
      InsertMember(AUTO, model, member);
      SameRow(t, model, member);
      InsertFallback(model, member);
    }

    method CreateConfigurationModel(op: ModelCreate) returns (r: Result)
      modifies this
      ensures Performs(ModelCreated(old(t), digest, op), r)
    {
      if Exists(t, op.model) { return Error(DuplicateModel); }
      if Conflicts(t, op.expected) { return Error(Conflict(t.revision)); }
      if op.picker.Some? && !IsPickerId(op.picker.value) { return Error(BadPicker); }
      var picker := op.picker;
      if op.picker.None? {
        picker := AllocatePickerId(t.catalog, None, Some(op.model.modelId));
      }
      var visible := if op.visible.None? then picker.Some? else op.visible.value;
      if visible && picker.None? { return Error(NoFreePicker); }
      if picker.Some? && Used(t.catalog, None, picker.value) { return Error(PickerTaken); }
      var saved := t;
      AddModel(op.model, picker, visible);
      if op.addToAuto {
        if AUTO !in t.routes {
          t := saved;
          return Error(Refused);
        }
        JoinAuto(saved.nextId);
      }
      t := t.(revision := saved.revision + 1);
      if op.refused {
        t := saved;
        return Error(Refused);
      }
      r := Ok;
    }

    method MaterializeConfigurationModels(pending: seq<NewModel>, refused: bool) returns (r: Result)
      modifies this
      ensures Performs(Perform(old(t), digest, Materialize(pending, refused)), r)
    {
      if |pending| == 0 || !AllNew(t, pending) || refused { return Error(Refused); }
      for k := 0 to |pending|
        invariant t == AddedAll(old(t), digest, pending[..k])
      {
        assert pending[..k + 1][..k] == pending[..k];
        var picker := AllocatePickerId(t.catalog, None, Some(pending[k].modelId));
        AddModel(pending[k], picker, picker.Some?);
      }
      assert pending[..|pending|] == pending;
      AddedAllRevision(old(t), digest, pending);
      t := t.(revision := t.revision + 1);
      r := Ok;
    }

    method ReplaceRoutes(list: seq<DocumentRoute>)
      modifies this
      ensures t == old(t).(routes := RoutesOf(list), members := MembersIn(list))
    {
      t := t.(routes := map[], members := map[]);
      for k := 0 to |list|
        invariant t == old(t).(routes := RoutesOf(list[..k]), members := MembersIn(list[..k]))
      {
        assert list[..k + 1][..k] == list[..k];
        t := t.(routes := t.routes[list[k].id := Route(list[k].name, list[k].enabled, list[k].visible)]);
        ReplaceMembers(list[k].id, list[k].members);
      }
      assert list[..|list|] == list;
    }

    method ReplaceModels(doc: Document)
      modifies this
      ensures t == old(t).(models := map id | id in old(t).models :: old(t).models[id].(enabled := EnabledIn(doc, id)))
    {
      t := t.(models := map id | id in t.models :: t.models[id].(enabled := EnabledIn(doc, id)));
    }

    method ApplyConfigurationDocument(op: Application) returns (r: Result)
      modifies this
      ensures Performs(Applied(old(t), op), r)
    {
      var doc := op.document;
      if !ValidDocument(doc) { return Error(InvalidDocument); }
      if Conflicts(t, op.expected) { return Error(Conflict(t.revision)); }
      if exists k :: 0 <= k < |doc.models| && doc.models[k].id !in t.models { return Error(UnknownModel); }
      var saved := t;
      var rows := EntryRows(t, doc.catalog);
      ReplaceModels(doc);
      if !KeysHold(saved, doc) {
        t := saved;
        return Error(Refused);
      }
      ReplaceRoutes(doc.routes);
      var catalog := InsertCatalog(rows);
      if catalog.None? || op.refused {
        t := saved;
        return Error(Refused);
      }
      t := t.(catalog := catalog.value);
      MirrorRows(RowsIn(t, AUTO));
      t := t.(revision := t.revision + 1);
      r := Ok;
    }

    /** The new entries, with missing ids supplied. */
    method InsertCatalog(rows: Table) returns (catalog: Option<Table>)
      ensures catalog == if Unique(rows) then Reconciled(rows) else None
    {
      var clash := FindClash(rows);
      if clash {
        return None;
      }
      catalog := ReconcileBridgePickerIds(rows);
    }
  }
}
