/** The configuration tables and the operations that rewrite them. */
module Configuration {
  import opened Common
  import opened Members
  import opened Picker

  const AUTO := "route:auto"
  const MAX_MEMBERS := 256

  datatype Route = Route(name: string, enabled: bool, visible: bool)
  datatype Model = Model(platform: string, modelId: string, enabled: bool)

  /** `members` maps a route to its rows; `fallback` is the table older clients still read. */
  datatype Tables = Tables(
    routes: map<string, Route>,
    members: map<string, Rows>,
    fallback: Rows,
    models: map<nat, Model>,
    nextId: nat,
    catalog: Table,
    revision: nat)

  datatype Error =
    | Conflict(current: nat)
    | NoRoute | NoMembers | DuplicateModel | NotNumbered | UnknownModel
    | BadPicker | NoFreePicker | PickerTaken | InvalidDocument
    | Refused    // a check on fields outside this model, or a failure of the database itself

  datatype Outcome = Done(tables: Tables) | Failed(error: Error)

  function RowsIn(t: Tables, route: string): Rows {
    if route in t.members then t.members[route] else map[]
  }

  predicate Conflicts(t: Tables, expected: Option<nat>) {
    expected.Some? && expected.value != t.revision
  }

  predicate AllKnown(t: Tables, list: seq<Input>) {
    forall k | 0 <= k < |list| :: list[k].model in t.models
  }

  // ---- What the operations come to ----

  datatype RouteUpdate = RouteUpdate(
    route: string, expected: Option<nat>, name: Option<string>, enabled: Option<bool>, visible: Option<bool>,
    members: seq<Input>, refused: bool)

  function Patched(r: Route, op: RouteUpdate): Route {
    Route(if op.name.Some? then op.name.value else r.name,
          if op.enabled.Some? then op.enabled.value else r.enabled,
          if op.visible.Some? then op.visible.value else r.visible)
  }

  function RouteUpdated(t: Tables, op: RouteUpdate): Outcome {
    if op.route !in t.routes then Failed(NoRoute)
    else if op.members == [] then Failed(NoMembers)
    else if !DistinctModels(op.members) then Failed(DuplicateModel)
    else if !Numbered(op.members) then Failed(NotNumbered)
    else if Conflicts(t, op.expected) then Failed(Conflict(t.revision))
    else if !AllKnown(t, op.members) then Failed(UnknownModel)
    else if op.refused then Failed(Refused)
    else
      Done(t.(routes := t.routes[op.route := Patched(t.routes[op.route], op)],
              members := t.members[op.route := RowsOf(op.members)],
              fallback := if op.route == AUTO then RowsOf(op.members) else t.fallback,
              revision := t.revision + 1))
  }

  /** `picker`: None leaves it, Some(None) clears it. */
  datatype ModelUpdate = ModelUpdate(
    model: nat, expected: Option<nat>, enabled: Option<bool>, visible: Option<bool>,
    picker: Option<Option<string>>, refused: bool)

  /** An empty string counts as no id. */
  predicate Named(picker: Option<string>) {
    picker.Some? && picker.value != ""
  }

  predicate Less(a: string, b: string) {
    b != "" && (a == "" || a[0] < b[0] || (a[0] == b[0] && Less(a[1..], b[1..])))
  }

  /** `MAX` over the model's entries. */
  function CurrentPicker(rows: Table, model: nat): Option<string> {
    if rows == [] then None
    else
      var rest, last := CurrentPicker(rows[..|rows| - 1], model), rows[|rows| - 1];
      if last.owner != Some(model) || last.picker.None? then rest
      else if rest.None? || Less(rest.value, last.picker.value) then last.picker else rest
  }

  predicate AnyVisible(rows: Table, model: nat) {
    exists row | row in rows :: row.owner == Some(model) && row.visible
  }

  /** Id and visibility written to every entry of a model. */
  function Published(rows: Table, model: nat, picker: Option<string>, visible: bool): (r: Table)
    ensures |r| == |rows|
    ensures forall k | 0 <= k < |rows| ::
              r[k] == if rows[k].owner == Some(model) then rows[k].(picker := picker, visible := visible) else rows[k]
  {
    if rows == [] then []
    else
      var last := rows[|rows| - 1];
      Published(rows[..|rows| - 1], model, picker, visible) +
      [if last.owner == Some(model) then last.(picker := picker, visible := visible) else last]
  }

  function PickerFor(t: Tables, op: ModelUpdate, visible: bool): Option<string>
    requires op.model in t.models
  {
    var asked := if op.picker.None? then CurrentPicker(t.catalog, op.model) else op.picker.value;
    if visible && !Named(asked) then Allocated(t.catalog, Some(op.model), Some(t.models[op.model].modelId)) else asked
  }

  function Enabled(rows: Rows, model: nat, enabled: bool): Rows {
    if model in rows then rows[model := rows[model].(enabled := enabled)] else rows
  }

  /** The Auto rows after the update of the fallback row, whose trigger copies it over, and
      of the Auto row itself. */
  function MembersEnabled(fallback: Rows, members: map<string, Rows>, model: nat, enabled: bool): map<string, Rows> {
    var auto: Rows := if AUTO in members then members[AUTO] else map[];
    if model in fallback then members[AUTO := auto[model := fallback[model].(enabled := enabled)]]
    else if AUTO in members then members[AUTO := Enabled(auto, model, enabled)]
    else members
  }

  function WithEnabled(t: Tables, model: nat, enabled: bool): Tables {
    t.(fallback := Enabled(t.fallback, model, enabled),
        members := MembersEnabled(t.fallback, t.members, model, enabled))
  }

  function Rewritten(t: Tables, op: ModelUpdate, catalog: Table): Tables
    requires op.model in t.models
  {
    var s := if op.enabled.Some? then WithEnabled(t, op.model, op.enabled.value) else t;
    var model := t.models[op.model];
    s.(catalog := catalog,
       models := t.models[op.model := if op.enabled.Some? then model.(enabled := op.enabled.value) else model],
       revision := t.revision + 1)
  }

  ghost function ModelUpdated(t: Tables, op: ModelUpdate): Outcome {
    if Conflicts(t, op.expected) then Failed(Conflict(t.revision))
    else if op.model !in t.models then Failed(UnknownModel)
    else if op.picker.Some? && op.picker.value.Some? && !IsPickerId(op.picker.value.value) then Failed(BadPicker)
    else
      var visible := if op.visible.Some? then op.visible.value else AnyVisible(t.catalog, op.model);
      var picker := PickerFor(t, op, visible);
      if visible && !Named(picker) then Failed(NoFreePicker)
      else if Named(picker) && OtherOwner(t.catalog, op.model, picker.value) then Failed(PickerTaken)
      else
        var catalog := Published(t.catalog, op.model, picker, visible);
        if op.refused || !Unique(catalog) then Failed(Refused) else Done(Rewritten(t, op, catalog))
  }

  /** A new model with its pinned route and catalog entry. The route id is derived from
      platform and model id by a digest. */
  datatype NewModel = NewModel(platform: string, modelId: string, name: string)

  type Digest = (string, string) -> string

  function PinnedRoute(digest: Digest, m: NewModel): (r: string)
    ensures r != AUTO
  {
    var r := "route:model:" + digest(m.platform, m.modelId);
    assert r[6] == 'm' && AUTO[6] == 'a';
    r
  }

  predicate Exists(t: Tables, m: NewModel) {
    exists id | id in t.models :: t.models[id].platform == m.platform && t.models[id].modelId == m.modelId
  }

  function RouteFor(t: Tables, route: string, name: string): Route {
    if route in t.routes then t.routes[route].(name := name) else Route(name, true, true)
  }

  function Added(t: Tables, digest: Digest, m: NewModel, picker: Option<string>, visible: bool): Tables {
    var id, route := t.nextId, PinnedRoute(digest, m);
    t.(models := t.models[id := Model(m.platform, m.modelId, true)],
       nextId := id + 1,
       routes := t.routes[route := RouteFor(t, route, m.name)],
       members := t.members[route := RowsIn(t, route)[id := Member(1, true)]],
       catalog := t.catalog + [Row(Some(id), picker, visible, Some(m.modelId))])
  }

  datatype ModelCreate = ModelCreate(
    model: NewModel, expected: Option<nat>, picker: Option<string>, visible: Option<bool>, addToAuto: bool,
        refused: bool)

  ghost function Joined(t: Tables, model: nat): Tables {
    var member := Member(MaxOf(RowsIn(t, AUTO)) + 1, true);
    t.(members := t.members[AUTO := RowsIn(t, AUTO)[model := member]], fallback := t.fallback[model := member])
  }

  function CreatedPicker(t: Tables, op: ModelCreate): Option<string> {
    if op.picker.None? then Allocated(t.catalog, None, Some(op.model.modelId)) else op.picker
  }

  function CreatedVisible(t: Tables, op: ModelCreate): bool {
    if op.visible.None? then CreatedPicker(t, op).Some? else op.visible.value
  }

  ghost function ModelCreated(t: Tables, digest: Digest, op: ModelCreate): Outcome {
    if Exists(t, op.model) then Failed(DuplicateModel)
    else if Conflicts(t, op.expected) then Failed(Conflict(t.revision))
    else if op.picker.Some? && !IsPickerId(op.picker.value) then Failed(BadPicker)
    else
      var picker, visible := CreatedPicker(t, op), CreatedVisible(t, op);
      if visible && picker.None? then Failed(NoFreePicker)
      else if picker.Some? && Used(t.catalog, None, picker.value) then Failed(PickerTaken)
      // Auto's rows need the Auto route to exist.
      else if op.refused || (op.addToAuto && AUTO !in t.routes) then Failed(Refused)
      else
        var s := Added(t, digest, op.model, picker, visible);
        Done((if op.addToAuto then Joined(s, t.nextId) else s).(revision := t.revision + 1))
  }

  /** Models of a provider, each added unless it exists. */
  function AddedAll(t: Tables, digest: Digest, list: seq<NewModel>): Tables {
    if list == [] then t
    else
      var s, m := AddedAll(t, digest, list[..|list| - 1]), list[|list| - 1];
      var picker := Allocated(s.catalog, None, Some(m.modelId));
      Added(s, digest, m, picker, picker.Some?)
  }

  predicate AllNew(t: Tables, list: seq<NewModel>) {
    && (forall i | 0 <= i < |list| :: !Exists(t, list[i]))
    && (forall i, j | 0 <= i < j < |list| :: list[i].modelId != list[j].modelId)
    && (forall i, j | 0 <= i < j < |list| :: list[i].platform == list[j].platform)
  }

  // ---- A whole document ----

  datatype DocumentModel = DocumentModel(id: nat, enabled: bool)
  datatype DocumentRoute = DocumentRoute(id: string, name: string, enabled: bool, visible: bool, members: seq<Input>)
  datatype DocumentEntry = DocumentEntry(owner: Option<nat>, route: string, picker: Option<string>, visible: bool)

  /** Catalog entries stand in the order of their sort key. */
  datatype Document = Document(models: seq<DocumentModel>, routes: seq<DocumentRoute>, catalog: seq<DocumentEntry>)

  predicate Mentions(doc: Document, model: nat) {
    exists k | 0 <= k < |doc.models| :: doc.models[k].id == model
  }

  predicate ValidRoute(doc: Document, route: DocumentRoute) {
    && 1 <= |route.members| <= MAX_MEMBERS
    && (forall k | 0 <= k < |route.members| :: Mentions(doc, route.members[k].model))
    && Numbered(route.members)
  }

  predicate ValidDocument(doc: Document) {
    && (forall k | 0 <= k < |doc.models| :: doc.models[k].id > 0)
    && (forall i, j | 0 <= i < j < |doc.models| :: doc.models[i].id != doc.models[j].id)
    && (forall k | 0 <= k < |doc.routes| :: ValidRoute(doc, doc.routes[k]))
  }

  function RoutesOf(list: seq<DocumentRoute>): map<string, Route> {
    if list == [] then map[]
    else
      var r := list[|list| - 1];
      RoutesOf(list[..|list| - 1])[r.id := Route(r.name, r.enabled, r.visible)]
  }

  function MembersIn(list: seq<DocumentRoute>): map<string, Rows> {
    if list == [] then map[]
    else
      var r := list[|list| - 1];
      MembersIn(list[..|list| - 1])[r.id := RowsOf(r.members)]
  }

  function EntryRow(t: Tables, e: DocumentEntry): Row {
    Row(e.owner, e.picker, e.visible,
        if e.owner.Some? && e.owner.value in t.models then Some(t.models[e.owner.value].modelId) else None)
  }

  function EntryRows(t: Tables, entries: seq<DocumentEntry>): Table {
    seq(|entries|, k requires 0 <= k < |entries| => EntryRow(t, entries[k]))
  }

  /** Primary and foreign keys that a valid document can still violate. */
  predicate KeysHold(t: Tables, doc: Document) {
    && (forall i, j | 0 <= i < j < |doc.routes| :: doc.routes[i].id != doc.routes[j].id)
    && (forall k | 0 <= k < |doc.routes| :: DistinctModels(doc.routes[k].members))
    && (forall k | 0 <= k < |doc.catalog| :: doc.catalog[k].route in RoutesOf(doc.routes))
    && (forall k | 0 <= k < |doc.catalog| :: doc.catalog[k].owner.Some? ==> doc.catalog[k].owner.value in t.models)
  }

  predicate EnabledIn(doc: Document, model: nat) {
    exists k | 0 <= k < |doc.models| :: doc.models[k] == DocumentModel(model, true)
  }

  datatype Application = Application(document: Document, expected: Option<nat>, refused: bool)

  ghost function Applied(t: Tables, op: Application): Outcome {
    var doc := op.document;
    if !ValidDocument(doc) then Failed(InvalidDocument)
    else if Conflicts(t, op.expected) then Failed(Conflict(t.revision))
    else if exists k :: 0 <= k < |doc.models| && doc.models[k].id !in t.models then Failed(UnknownModel)
    else
      var rows := EntryRows(t, doc.catalog);
      if op.refused || !KeysHold(t, doc) || !Unique(rows) || Reconciled(rows).None? then Failed(Refused)
      else
        var members := MembersIn(doc.routes);
        Done(Tables(
          RoutesOf(doc.routes), members, if AUTO in members then members[AUTO] else map[],
          map id | id in t.models :: t.models[id].(enabled := EnabledIn(doc, id)),
          t.nextId, Reconciled(rows).value, t.revision + 1))
  }

  // ---- What every operation keeps ----

  /** The fallback table mirrors the Auto route. */
  predicate Mirrored(t: Tables) {
    t.fallback == RowsIn(t, AUTO)
  }

  /** Besides, picker ids are unique, members refer to routes and models that exist, and new
      ids are new. */
  ghost predicate Linked(t: Tables) {
    && Mirrored(t)
    && Unique(t.catalog)
    && (forall r | r in t.members :: r in t.routes)
    && (forall r, m | r in t.members && m in t.members[r] :: m in t.models)
    && (forall m | m in t.models :: m < t.nextId)
  }

  /** Auto's priorities are 1..n too, which a migration that deletes rows need not leave. */
  ghost predicate Consistent(t: Tables) {
    Linked(t) && Contiguous(t.fallback)
  }

  /** The order of Auto is not broken. */
  ghost predicate KeepsAuto(t: Tables, s: Tables) {
    Contiguous(t.fallback) ==> Contiguous(s.fallback)
  }

  lemma {:induction false} RouteUpdateKeeps(t: Tables, op: RouteUpdate)
    requires Linked(t) && RouteUpdated(t, op).Done?
    ensures var s := RouteUpdated(t, op).tables;
            && Linked(s) && KeepsAuto(t, s) && s.revision == t.revision + 1
            && Contiguous(RowsIn(s, op.route))
            && s.catalog == t.catalog && s.models == t.models
            && forall r | r != op.route :: RowsIn(s, r) == RowsIn(t, r)
  {
    NumberedIff(op.members);
    forall m | m in RowsOf(op.members)
      ensures m in t.models
    {
      var k := RowsFrom(op.members, m);
    }
  }

  predicate SamePrioritiesIn(a: Rows, b: Rows) {
    a.Keys == b.Keys && forall m | m in a :: a[m].priority == b[m].priority
  }

  lemma {:induction false} EnabledKeeps(t: Tables, model: nat, enabled: bool)
    requires Linked(t)
    ensures var s := WithEnabled(t, model, enabled);
            && Linked(s) && KeepsAuto(t, s)
            && s == t.(fallback := s.fallback, members := s.members)
            && (forall r :: SamePrioritiesIn(RowsIn(t, r), RowsIn(s, r)))
            && (forall r | r != AUTO :: RowsIn(s, r) == RowsIn(t, r))
            && (model in s.fallback ==> s.fallback[model].enabled == enabled)
  {
    var s := WithEnabled(t, model, enabled);
    assert s.fallback == RowsIn(s, AUTO);
    if Contiguous(t.fallback) {
      SamePriorities(t.fallback, s.fallback);
    }
  }

  lemma {:induction false} ModelUpdateKeeps(t: Tables, op: ModelUpdate)
    requires Linked(t) && ModelUpdated(t, op).Done?
    ensures var s := ModelUpdated(t, op).tables;
            && Linked(s) && KeepsAuto(t, s) && s.revision == t.revision + 1 && s.routes == t.routes
            && (forall r :: SamePrioritiesIn(RowsIn(t, r), RowsIn(s, r)))
            && (op.enabled.Some? && op.model in s.fallback ==> s.fallback[op.model].enabled == op.enabled.value)
  {
    if op.enabled.Some? {
      EnabledKeeps(t, op.model, op.enabled.value);
    }
  }

  lemma {:induction false} AddedKeeps(t: Tables, digest: Digest, m: NewModel, picker: Option<string>, visible: bool)
    requires Linked(t) && (picker.Some? ==> !Used(t.catalog, None, picker.value))
    ensures var s := Added(t, digest, m, picker, visible);
            && Linked(s) && s.revision == t.revision && s.fallback == t.fallback && t.nextId !in t.fallback
            && (forall r | r != PinnedRoute(digest, m) :: RowsIn(s, r) == RowsIn(t, r))
  {
    PushUnique(t.catalog, Row(Some(t.nextId), picker, visible, Some(m.modelId)));
    var s := Added(t, digest, m, picker, visible);
    assert RowsIn(s, AUTO) == RowsIn(t, AUTO);
    assert t.nextId !in t.fallback by {
      assert t.nextId in RowsIn(t, AUTO) ==> t.nextId in t.models;
    }
    forall r, k | r in s.members && k in s.members[r]
      ensures k in s.models
    {
      assert k in RowsIn(t, r) || k == t.nextId;
    }
  }

  lemma {:induction false} JoinedKeeps(t: Tables, model: nat)
    requires Linked(t) && model in t.models && model !in t.fallback && AUTO in t.routes
    ensures var s := Joined(t, model);
            && Linked(s) && KeepsAuto(t, s) && |s.fallback| == |t.fallback| + 1
            && s.fallback[model].priority == MaxOf(t.fallback) + 1
            && (Contiguous(t.fallback) ==> s.fallback[model].priority == |t.fallback| + 1)
            && (forall r | r != AUTO :: RowsIn(s, r) == RowsIn(t, r))
  {
    if Contiguous(t.fallback) {
      AppendContiguous(t.fallback, model, true);
      MaxIsSize(t.fallback);
    }
    var s := Joined(t, model);
    assert s.fallback.Keys == t.fallback.Keys + {model};
    assert |s.fallback.Keys| == |t.fallback.Keys| + 1;
    forall r, k | r in s.members && k in s.members[r]
      ensures k in s.models
    {
      assert k in RowsIn(t, r) || k == model;
    }
  }

  lemma {:induction false} NewIdAbsent(t: Tables, route: string)
    requires Linked(t)
    ensures t.nextId !in RowsIn(t, route)
  {
    assert t.nextId !in t.models;
  }

  /** The pinned route of a new model is numbered 1..n exactly if it had no rows before. */
  lemma {:induction false} PinnedIff(t: Tables, digest: Digest, m: NewModel, picker: Option<string>, visible: bool)
    requires Linked(t) && Contiguous(RowsIn(t, PinnedRoute(digest, m)))
    ensures var route := PinnedRoute(digest, m);
            Contiguous(RowsIn(Added(t, digest, m, picker, visible), route)) <==> RowsIn(t, route) == map[]
  {
    var route := PinnedRoute(digest, m);
    NewIdAbsent(t, route);
    FirstContiguousIff(RowsIn(t, route), t.nextId, true);
  }

  /** A created model comes last in Auto, if it joins it, and changes only its pinned route
      besides. */
  lemma {:induction false} ModelCreateKeeps(t: Tables, digest: Digest, op: ModelCreate)
    requires Linked(t) && ModelCreated(t, digest, op).Done?
    ensures var s := ModelCreated(t, digest, op).tables;
            && Linked(s) && KeepsAuto(t, s) && s.revision == t.revision + 1
            && (op.addToAuto ==> t.nextId in s.fallback && s.fallback[t.nextId].priority == MaxOf(t.fallback) + 1)
            && (op.addToAuto && Contiguous(t.fallback) ==> s.fallback[t.nextId].priority == |t.fallback| + 1)
            && (!op.addToAuto ==> s.fallback == t.fallback)
            && (forall r | r != AUTO ::
                  RowsIn(s, r) == RowsIn(Added(t, digest, op.model, CreatedPicker(t, op), CreatedVisible(t, op)), r))
            && (forall r | r != PinnedRoute(digest, op.model) && r != AUTO :: RowsIn(s, r) == RowsIn(t, r))
  {
    AllocatedIsFree(t.catalog, None, Some(op.model.modelId));
    AddedKeeps(t, digest, op.model, CreatedPicker(t, op), CreatedVisible(t, op));
    if op.addToAuto {
      JoinedKeeps(Added(t, digest, op.model, CreatedPicker(t, op), CreatedVisible(t, op)), t.nextId);
    }
  }

  lemma {:induction false} AddedAllKeeps(t: Tables, digest: Digest, list: seq<NewModel>)
    requires Linked(t)
    ensures Linked(AddedAll(t, digest, list)) && AddedAll(t, digest, list).revision == t.revision
    ensures AddedAll(t, digest, list).fallback == t.fallback
  {
    if list != [] {
      var m := list[|list| - 1];
      AddedAllKeeps(t, digest, list[..|list| - 1]);
      var s := AddedAll(t, digest, list[..|list| - 1]);
      AllocatedIsFree(s.catalog, None, Some(m.modelId));
      var picker := Allocated(s.catalog, None, Some(m.modelId));
      AddedKeeps(s, digest, m, picker, picker.Some?);
    }
  }

  lemma {:induction false} MembersInAt(list: seq<DocumentRoute>, r: string) returns (k: nat)
    requires r in MembersIn(list)
    ensures k < |list| && list[k].id == r && MembersIn(list)[r] == RowsOf(list[k].members) && r in RoutesOf(list)
  {
    if list[|list| - 1].id == r {
      k := |list| - 1;
    } else {
      k := MembersInAt(list[..|list| - 1], r);
    }
  }

  /** Every route of an applied document is numbered 1..n, and the fallback table follows. */
  lemma {:induction false} ApplicationKeeps(t: Tables, op: Application)
    requires (forall m | m in t.models :: m < t.nextId) && Applied(t, op).Done?
    ensures var s := Applied(t, op).tables;
            && Consistent(s) && s.revision == t.revision + 1 && s.models.Keys == t.models.Keys
            && (forall r | r in s.members :: Contiguous(s.members[r]))
  {
    var doc, s := op.document, Applied(t, op).tables;
    forall r | r in s.members
      ensures Contiguous(s.members[r]) && r in s.routes && forall m | m in s.members[r] :: m in s.models
    {
      ApplicationRoute(t, op, r);
    }
    assert Contiguous(map[]);
    ReconciledUnique(EntryRows(t, doc.catalog), Pending(EntryRows(t, doc.catalog)));
  }

  lemma {:induction false} ApplicationRoute(t: Tables, op: Application, r: string)
    requires Applied(t, op).Done? && r in MembersIn(op.document.routes)
    ensures Contiguous(MembersIn(op.document.routes)[r]) && r in RoutesOf(op.document.routes)
    ensures forall m | m in MembersIn(op.document.routes)[r] :: m in t.models
  {
    var doc := op.document;
    var k := MembersInAt(doc.routes, r);
    var list := doc.routes[k].members;
    assert ValidRoute(doc, doc.routes[k]);
    NumberedIff(list);
    forall m | m in RowsOf(list)
      ensures m in t.models
    {
      var j := RowsFrom(list, m);
      assert Mentions(doc, m);
    }
  }

  lemma {:induction false} ReconciledUnique(rows: Table, todo: seq<Row>)
    requires Unique(rows)
    ensures Repaired(rows, todo).Some? ==> Unique(Repaired(rows, todo).value)
    decreases |todo|
  {
    if todo != [] && Unique(RepairOne(rows, todo[0])) {
      ReconciledUnique(RepairOne(rows, todo[0]), todo[1..]);
    }
  }

  // ---- Runs of operations ----

  datatype Operation =
    | UpdateRoute(route: RouteUpdate)
    | UpdateModel(model: ModelUpdate)
    | CreateModel(create: ModelCreate)
    | Materialize(list: seq<NewModel>, refused: bool)
    | Apply(application: Application)

  function Expected(op: Operation): Option<nat> {
    match op
    case UpdateRoute(o) => o.expected
    case UpdateModel(o) => o.expected
    case CreateModel(o) => o.expected
    case Materialize(_, _) => None
    case Apply(o) => o.expected
  }

  ghost function Perform(t: Tables, digest: Digest, op: Operation): Outcome {
    match op
    case UpdateRoute(o) => RouteUpdated(t, o)
    case UpdateModel(o) => ModelUpdated(t, o)
    case CreateModel(o) => ModelCreated(t, digest, o)
    case Materialize(list, refused) =>
      if refused || list == [] || !AllNew(t, list) then Failed(Refused)
      else Done(AddedAll(t, digest, list).(revision := t.revision + 1))
    case Apply(o) => Applied(t, o)
  }

  ghost function After(t: Tables, digest: Digest, ops: seq<Operation>): Tables {
    if ops == [] then t
    else
      var before := After(t, digest, ops[..|ops| - 1]);
      match Perform(before, digest, ops[|ops| - 1])
      case Failed(_) => before
      case Done(s) => s
  }

  /** The k-th operation of the run commits. */
  ghost predicate Commits(t: Tables, digest: Digest, ops: seq<Operation>, k: nat)
    requires k < |ops|
  {
    Perform(After(t, digest, ops[..k]), digest, ops[k]).Done?
  }

  lemma {:induction false} AddedAllRevision(t: Tables, digest: Digest, list: seq<NewModel>)
    ensures AddedAll(t, digest, list).revision == t.revision
  {
    if list != [] {
      AddedAllRevision(t, digest, list[..|list| - 1]);
    }
  }

  lemma {:induction false} PerformRaises(t: Tables, digest: Digest, op: Operation)
    requires Perform(t, digest, op).Done?
    ensures Perform(t, digest, op).tables.revision == t.revision + 1
    ensures Expected(op).Some? ==> Expected(op).value == t.revision
  {
    if op.Materialize? {
      AddedAllRevision(t, digest, op.list);
    }
  }

  lemma {:induction false} PerformKeeps(t: Tables, digest: Digest, op: Operation)
    requires Linked(t) && Perform(t, digest, op).Done?
    ensures var s := Perform(t, digest, op).tables; Linked(s) && KeepsAuto(t, s)
  {
    match op {
      case UpdateRoute(o) => RouteUpdateKeeps(t, o);
      case UpdateModel(o) => ModelUpdateKeeps(t, o);
      case CreateModel(o) => ModelCreateKeeps(t, digest, o);
      case Materialize(list, _) => AddedAllKeeps(t, digest, list);
      case Apply(o) => ApplicationKeeps(t, o);
    }
  }

  /** Over any run the tables stay linked, and Auto's priorities stay 1..n if they were. */
  lemma {:induction false} RunKeeps(t: Tables, digest: Digest, ops: seq<Operation>)
    requires Linked(t)
    ensures Linked(After(t, digest, ops)) && KeepsAuto(t, After(t, digest, ops))
    ensures Consistent(t) ==> Consistent(After(t, digest, ops))
  {
    if ops != [] {
      var before := After(t, digest, ops[..|ops| - 1]);
      RunKeeps(t, digest, ops[..|ops| - 1]);
      if Perform(before, digest, ops[|ops| - 1]).Done? {
        PerformKeeps(before, digest, ops[|ops| - 1]);
      }
    }
  }

  // ---- The mirror on its own ----

  /** The operations that write the fallback table anew. */
  predicate Rebuilds(op: Operation) {
    op.Apply? || (op.UpdateRoute? && op.route.route == AUTO)
  }

  lemma {:induction false} AddedAllMirrors(t: Tables, digest: Digest, list: seq<NewModel>)
    ensures var s := AddedAll(t, digest, list); s.fallback == t.fallback && RowsIn(s, AUTO) == RowsIn(t, AUTO)
  {
    if list != [] {
      AddedAllMirrors(t, digest, list[..|list| - 1]);
    }
  }

  /** Whatever else holds of the tables, every operation keeps the mirror, and the operations
      that rebuild it establish it. */
  lemma {:induction false} MirrorKept(t: Tables, digest: Digest, op: Operation)
    requires Perform(t, digest, op).Done?
    ensures Mirrored(t) || Rebuilds(op) ==> Mirrored(Perform(t, digest, op).tables)
  {
    if op.Materialize? {
      AddedAllMirrors(t, digest, op.list);
    }
  }

  /** One of the commits of a run rebuilds the fallback table. */
  ghost predicate RebuiltIn(t: Tables, digest: Digest, ops: seq<Operation>) {
    ops != [] &&
    (RebuiltIn(t, digest, ops[..|ops| - 1]) || (Rebuilds(ops[|ops| - 1]) && Commits(t, digest, ops, |ops| - 1)))
  }

  /** From any tables: mirrored at the end if so at the start, or since a rebuild. */
  lemma {:induction false} RunMirrors(t: Tables, digest: Digest, ops: seq<Operation>)
    requires Mirrored(t) || RebuiltIn(t, digest, ops)
    ensures Mirrored(After(t, digest, ops))
  {
    if ops != [] {
      var init, last := ops[..|ops| - 1], ops[|ops| - 1];
      var before := After(t, digest, init);
      if Mirrored(t) || RebuiltIn(t, digest, init) {
        RunMirrors(t, digest, init);
      }
      if Perform(before, digest, last).Done? {
        MirrorKept(before, digest, last);
      }
    }
  }

  // ---- The revision ----

  /** The revision counts the commits. */
  ghost function CommitsIn(t: Tables, digest: Digest, ops: seq<Operation>): nat {
    if ops == [] then 0
    else CommitsIn(t, digest, ops[..|ops| - 1]) + if Commits(t, digest, ops, |ops| - 1) then 1 else 0
  }

  lemma {:induction false} RevisionCounts(t: Tables, digest: Digest, ops: seq<Operation>)
    ensures After(t, digest, ops).revision == t.revision + CommitsIn(t, digest, ops)
  {
    if ops != [] {
      RevisionCounts(t, digest, ops[..|ops| - 1]);
      LastRaises(t, digest, ops);
    }
  }

  lemma {:induction false} RevisionGrows(t: Tables, digest: Digest, ops: seq<Operation>, k: nat)
    requires k <= |ops|
    ensures After(t, digest, ops[..k]).revision <= After(t, digest, ops).revision
    decreases |ops|
  {
    if k < |ops| {
      var init := ops[..|ops| - 1];
      assert init[..k] == ops[..k];
      RevisionGrows(t, digest, init, k);
      LastRaises(t, digest, ops);
    } else {
      assert ops[..k] == ops;
    }
  }

  lemma {:induction false} LastRaises(t: Tables, digest: Digest, ops: seq<Operation>)
    requires ops != []
    ensures After(t, digest, ops).revision ==
              After(t, digest, ops[..|ops| - 1]).revision + (if Commits(t, digest, ops, |ops| - 1) then 1 else 0)
  {
    var before := After(t, digest, ops[..|ops| - 1]);
    if Perform(before, digest, ops[|ops| - 1]).Done? {
      PerformRaises(before, digest, ops[|ops| - 1]);
    }
  }

  lemma {:induction false} CommitRaises(t: Tables, digest: Digest, ops: seq<Operation>, k: nat)
    requires k < |ops| && Commits(t, digest, ops, k)
    ensures After(t, digest, ops[..k + 1]).revision == After(t, digest, ops[..k]).revision + 1
    ensures Expected(ops[k]).Some? ==> Expected(ops[k]).value == After(t, digest, ops[..k]).revision
  {
    assert ops[..k + 1][..k] == ops[..k];
    PerformRaises(After(t, digest, ops[..k]), digest, ops[k]);
  }

  /** Of several writers that expect the same revision at most one commits. */
  lemma {:induction false} OneWriterCommits(t: Tables, digest: Digest, ops: seq<Operation>, i: nat, j: nat)
    requires i < j < |ops|
    requires Expected(ops[i]).Some? && Expected(ops[i]) == Expected(ops[j])
    ensures !(Commits(t, digest, ops, i) && Commits(t, digest, ops, j))
  {
    if Commits(t, digest, ops, i) && Commits(t, digest, ops, j) {
      CommitRaises(t, digest, ops, i);
      CommitRaises(t, digest, ops, j);
      assert ops[..j][..i + 1] == ops[..i + 1];
      RevisionGrows(t, digest, ops[..j], i + 1);
    }
  }

  // ---- A pinned route with rows ----

  /** A document whose one route is that pinned for m, with one model in it. */
  function PinnedDocument(digest: Digest, model: nat, m: NewModel): Document {
    var route := DocumentRoute(PinnedRoute(digest, m), m.name, true, true, [Input(model, 1, true)]);
    Document([DocumentModel(model, true)], [route], [])
  }

  lemma {:induction false} OneRow(input: Input)
    requires input.priority == 1
    ensures Numbered([input]) && DistinctModels([input])
    ensures RowsOf([input]) == map[input.model := Member(1, input.enabled)]
  {
    var none: Rows := map[];
    assert [input][..0] == [];
    assert RowsOf([input]) == none[input.model := Member(1, input.enabled)];
    FirstContiguousIff(map[], input.model, input.enabled);
    NumberedIff([input]);
  }

  predicate SameNames(t: Tables, s: Tables)
    requires s.models.Keys == t.models.Keys
  {
    forall id | id in s.models ::
      s.models[id].platform == t.models[id].platform && s.models[id].modelId == t.models[id].modelId
  }

  /** The document is applied to every configuration that has its model. */
  lemma {:induction false} PinnedDocumentApplies(t: Tables, digest: Digest, model: nat, m: NewModel)
    requires Linked(t) && model in t.models && model > 0
    ensures var op := Application(PinnedDocument(digest, model, m), None, false);
            && Applied(t, op).Done?
            && var s := Applied(t, op).tables;
               && RowsIn(s, PinnedRoute(digest, m)) == map[model := Member(1, true)]
               && s.models.Keys == t.models.Keys && s.catalog == []
               && SameNames(t, s)
  {
    var doc := PinnedDocument(digest, model, m);
    var route := doc.routes[0];
    OneRow(Input(model, 1, true));
    assert doc.models[0].id == model && Mentions(doc, model);
    assert ValidRoute(doc, route) && ValidDocument(doc);
    assert [route][..0] == [];
    assert EntryRows(t, doc.catalog) == [];
    assert Reconciled([]) == Some([]);
    assert KeysHold(t, doc);
  }

  /** From every configuration with a model, two operations that commit leave the pinned
      route of any new model with rows that are not numbered 1..n. */
  lemma {:induction false} PinnedRowsReached(t: Tables, digest: Digest, model: nat, m: NewModel)
    returns (ops: seq<Operation>)
    requires Linked(t) && model in t.models && model > 0 && !Exists(t, m)
    ensures |ops| == 2 && ops[0].Apply? && ops[1].CreateModel? && ops[1].create.model == m
    ensures Commits(t, digest, ops, 0) && Commits(t, digest, ops, 1)
    ensures !Contiguous(RowsIn(After(t, digest, ops), PinnedRoute(digest, m)))
  {
    var apply := Application(PinnedDocument(digest, model, m), None, false);
    var create := ModelCreate(m, None, None, Some(false), false, false);
    ops := [Apply(apply), CreateModel(create)];
    var s := ReadyToCreate(t, digest, model, m);
    var u := CreatedOutOfOrder(s, digest, model, create);
    TwoCommit(t, digest, ops[0], ops[1], s, u);
  }

  lemma {:induction false} ReadyToCreate(t: Tables, digest: Digest, model: nat, m: NewModel) returns (s: Tables)
    requires Linked(t) && model in t.models && model > 0 && !Exists(t, m)
    ensures Perform(t, digest, Apply(Application(PinnedDocument(digest, model, m), None, false))) == Done(s)
    ensures Consistent(s) && !Exists(s, m) && s.catalog == []
    ensures RowsIn(s, PinnedRoute(digest, m)) == map[model := Member(1, true)]
  {
    var apply := Application(PinnedDocument(digest, model, m), None, false);
    PinnedDocumentApplies(t, digest, model, m);
    ApplicationKeeps(t, apply);
    s := Applied(t, apply).tables;
    StillNew(t, s, m);
  }

  lemma {:induction false} StillNew(t: Tables, s: Tables, m: NewModel)
    requires !Exists(t, m) && s.models.Keys == t.models.Keys && SameNames(t, s)
    ensures !Exists(s, m)
  {
  }

  lemma {:induction false} TwoCommit(t: Tables, digest: Digest, a: Operation, b: Operation, s: Tables, u: Tables)
    requires Perform(t, digest, a) == Done(s) && Perform(s, digest, b) == Done(u)
    ensures Commits(t, digest, [a, b], 0) && Commits(t, digest, [a, b], 1) && After(t, digest, [a, b]) == u
  {
    assert [a, b][..0] == [] && [a, b][..1] == [a] && [a][..0] == [];
    assert After(t, digest, []) == t;
    assert After(t, digest, [a]) == s;
  }

  lemma {:induction false} CreatedOutOfOrder(s: Tables, digest: Digest, model: nat, op: ModelCreate)
    returns (u: Tables)
    requires Consistent(s) && !Exists(s, op.model) && s.catalog == []
    requires op == ModelCreate(op.model, None, None, Some(false), false, false)
    requires RowsIn(s, PinnedRoute(digest, op.model)) == map[model := Member(1, true)]
    ensures Perform(s, digest, CreateModel(op)) == Done(u)
    ensures !Contiguous(RowsIn(u, PinnedRoute(digest, op.model)))
  {
    u := ModelCreated(s, digest, op).tables;
    AllocatedIsFree(s.catalog, None, Some(op.model.modelId));
    FirstContiguousIff(map[], model, true);
    PinnedIff(s, digest, op.model, CreatedPicker(s, op), false);
  }
}
