/**
 The tenant tables with their foreign keys (server/src/db/migrations) and the routes that
 insert and delete rows (sites, zones, cameras and everything below them). Foreign keys act
 on all rows, whatever the row policies say; only the routes' lookups are bound to one
 organization. One row of the model stands for one row of the database, reduced to its
 organization and its references; row ids are the UUIDs the database draws.
 */
module Tables {
  import opened Wrappers

  type Id = string

  datatype Table =
    | Sites | Zones | Cameras | Credentials | AiModels | AiRules | Events | Detections | Evidence
    | NotificationRules | Notifications | Schedules | MonitoredObjects | Notes | Cooldowns
    | HealthEvents | InferenceStats

  datatype Column = SiteId | ZoneId | CameraId | RuleId | ModelId | EventId | NotifyRuleId

  datatype OnDelete = Cascade | SetNull

  datatype ForeignKey = ForeignKey(target: Table, onDelete: OnDelete)

  /** The references between tenant tables. A CASCADE column is NOT NULL except in `notifications`. */
  function Schema(t: Table): map<Column, ForeignKey> {
    match t
    case Sites | AiModels | NotificationRules => map[]
    case Zones => map[SiteId := ForeignKey(Sites, Cascade)]
    case Cameras => map[SiteId := ForeignKey(Sites, Cascade), ZoneId := ForeignKey(Zones, SetNull)]
    case Credentials | HealthEvents | InferenceStats => map[CameraId := ForeignKey(Cameras, Cascade)]
    case AiRules => map[CameraId := ForeignKey(Cameras, Cascade), ZoneId := ForeignKey(Zones, SetNull),
                        ModelId := ForeignKey(AiModels, SetNull)]
    case Events => map[SiteId := ForeignKey(Sites, Cascade), CameraId := ForeignKey(Cameras, Cascade),
                       RuleId := ForeignKey(AiRules, SetNull)]
    case Detections | Evidence | Notes => map[EventId := ForeignKey(Events, Cascade)]
    case Notifications => map[EventId := ForeignKey(Events, Cascade),
                              NotifyRuleId := ForeignKey(NotificationRules, SetNull)]
    case Schedules => map[ZoneId := ForeignKey(Zones, Cascade)]
    case MonitoredObjects => map[CameraId := ForeignKey(Cameras, Cascade), ZoneId := ForeignKey(Zones, SetNull)]
    case Cooldowns => map[EventId := ForeignKey(Events, SetNull)]
  }

  predicate Required(t: Table, c: Column) {
    c in Schema(t) && Schema(t)[c].onDelete == Cascade && !(t == Notifications && c == EventId)
  }

  /** A missing column is NULL; the key is an event's correlation id. */
  datatype Row = Row(table: Table, org: Id, refs: map<Column, Id>, key: Option<string> := None)

  type Rows = map<Id, Row>

  // ---------------------------------------------------------------- the invariant

  /** A reference points at a row of the right table and of the same organization. */
  ghost predicate GoodRef(rows: Rows, row: Row, c: Column) {
    c in row.refs ==>
      && c in Schema(row.table) && row.refs[c] in rows
      && rows[row.refs[c]].table == Schema(row.table)[c].target && rows[row.refs[c]].org == row.org
  }

  ghost predicate GoodRow(rows: Rows, row: Row) {
    && (forall c :: GoodRef(rows, row, c))
    && (forall c :: Required(row.table, c) ==> c in row.refs)
    && (row.table == Events ==> SiteOfCamera(rows, row.refs[CameraId]) == Some(row.refs[SiteId]))
  }

  function SiteOfCamera(rows: Rows, camera: Id): Option<Id> {
    if camera in rows && SiteId in rows[camera].refs then Some(rows[camera].refs[SiteId]) else None
  }

  /** The events of an organization with a correlation id. */
  function Keyed(rows: Rows, org: Id, key: string): set<Id> {
    set id | id in rows && rows[id].table == Events && rows[id].org == org && rows[id].key == Some(key)
  }

  /** The unique index on organization and correlation id. */
  ghost predicate UniqueKeys(rows: Rows) {
    forall org, key, a, b :: a in Keyed(rows, org, key) && b in Keyed(rows, org, key) ==> a == b
  }

  ghost predicate Consistent(rows: Rows) {
    UniqueKeys(rows) && forall id :: id in rows ==> GoodRow(rows, rows[id])
  }

  // ---------------------------------------------------------------- cascades

  predicate Cascades(row: Row, c: Column) {
    c in row.refs && c in Schema(row.table) && Schema(row.table)[c].onDelete == Cascade
  }

  /** A delete of the rows in s takes this row along. */
  predicate TakenBy(row: Row, s: set<Id>) {
    exists c :: Cascades(row, c) && row.refs[c] in s
  }

  function Grow(rows: Rows, s: set<Id>): set<Id> {
    s + set id | id in rows && TakenBy(rows[id], s)
  }

  /** The fixpoint the database deletes: row policies play no part in it. */
  function Doomed(rows: Rows, s: set<Id>): set<Id>
    requires s <= rows.Keys
    decreases |rows.Keys - s|
  {
    var t := Grow(rows, s);
    if t == s then s
    else
      Smaller(rows.Keys, s, t);
      Doomed(rows, t)
  }

  lemma Smaller(all: set<Id>, s: set<Id>, t: set<Id>)
    requires s <= t <= all && s != t
    ensures |all - t| < |all - s|
  {
    var x :| x in t && x !in s;
    assert all - t <= (all - s) - {x};
    SubsetSize(all - t, (all - s) - {x});
  }

  /** Columns that lose their target become NULL. */
  function NullOut(row: Row, gone: set<Id>): Row {
    row.(refs := map c | c in row.refs && row.refs[c] !in gone :: row.refs[c])
  }

  function Remove(rows: Rows, gone: set<Id>): Rows {
    map id | id in rows && id !in gone :: NullOut(rows[id], gone)
  }

  ghost predicate Closed(rows: Rows, s: set<Id>) {
    forall id :: id in rows && TakenBy(rows[id], s) ==> id in s
  }

  /** The doomed rows are the least closed set around the deleted ones. */
  lemma {:induction false} DoomedIsLeast(rows: Rows, s: set<Id>)
    requires s <= rows.Keys
    ensures s <= Doomed(rows, s) <= rows.Keys && Closed(rows, Doomed(rows, s))
    ensures forall u :: s <= u && Closed(rows, u) ==> Doomed(rows, s) <= u
    decreases |rows.Keys - s|
  {
    var t := Grow(rows, s);
    forall u | s <= u && Closed(rows, u) ensures t <= u {
      forall id | id in t ensures id in u {
        if id !in s { assert TakenBy(rows[id], u); }
      }
    }
    if t == s {
      assert forall id :: id in rows && TakenBy(rows[id], s) ==> id in t;
    } else {
      Smaller(rows.Keys, s, t);
      DoomedIsLeast(rows, t);
    }
  }

  ghost function OrgRows(rows: Rows, org: Id): Rows {
    map id | id in rows && rows[id].org == org :: rows[id]
  }

  ghost predicate RefsInOrg(rows: Rows) {
    forall id, c :: id in rows && Cascades(rows[id], c) && rows[id].refs[c] in rows ==>
      rows[rows[id].refs[c]].org == rows[id].org
  }

  /** A cascade never leaves the organization, whatever row it starts from, if and only if no cascading
      reference crosses organizations. The row policies do not help: the parent checks of the routes must. */
  lemma {:induction false} CascadeStaysInOrgIff(rows: Rows)
    ensures RefsInOrg(rows)
       <==> forall root :: root in rows ==> Doomed(rows, {root}) <= OrgRows(rows, rows[root].org).Keys
  {
    hide Doomed;
    if RefsInOrg(rows) {
      forall root | root in rows ensures Doomed(rows, {root}) <= OrgRows(rows, rows[root].org).Keys {
        DoomedInOrg(rows, {root}, rows[root].org);
      }
    } else {
      var id, c :| id in rows && Cascades(rows[id], c) && rows[id].refs[c] in rows
        && rows[rows[id].refs[c]].org != rows[id].org;
      var root := rows[id].refs[c];
      DoomedIsLeast(rows, {root});
      assert TakenBy(rows[id], Doomed(rows, {root}));
    }
  }

  lemma {:induction false} DoomedInOrg(rows: Rows, s: set<Id>, org: Id)
    requires RefsInOrg(rows) && s <= OrgRows(rows, org).Keys
    ensures Doomed(rows, s) <= OrgRows(rows, org).Keys
  {
    DoomedIsLeast(rows, s);
    var own := OrgRows(rows, org).Keys;
    forall id | id in rows && TakenBy(rows[id], own) ensures id in own {
      var c :| Cascades(rows[id], c) && rows[id].refs[c] in own;
    }
    assert Closed(rows, own);
  }

  lemma ConsistentRefsInOrg(rows: Rows)
    requires Consistent(rows)
    ensures RefsInOrg(rows)
  {
    forall id, c | id in rows && Cascades(rows[id], c) ensures GoodRef(rows, rows[id], c) {
      assert GoodRow(rows, rows[id]);
    }
  }

  // ---------------------------------------------------------------- routes

  datatype Error = NotFound | Forbidden | NotCreated

  /** What a route does, with the ids its inserts will draw. */
  datatype Op =
    | Create(org: Id, table: Table, id: Id, refs: map<Column, Id>)
    | CreateEvent(org: Id, id: Id, camera: Id, rule: Option<Id>, key: Option<string>)
    | Relink(org: Id, id: Id, event: Id)
    | Delete(org: Id, table: Table, id: Id)

  /** requireTenantResource under the row policies: only a row of the caller's organization is found. */
  predicate Visible(rows: Rows, org: Id, table: Table, id: Id) {
    id in rows && rows[id].table == table && rows[id].org == org
  }

  /** Every parent named by the request is looked up first. */
  predicate ParentsVisible(rows: Rows, org: Id, table: Table, refs: map<Column, Id>) {
    forall c :: c in refs ==> c in Schema(table) && Visible(rows, org, Schema(table)[c].target, refs[c])
  }

  function CamerasOf(rows: Rows, org: Id): set<Id> {
    set id | id in rows && Visible(rows, org, Cameras, id)
  }

  /** The plan's camera limit; an organization without a subscription row has none. */
  predicate LimitReached(rows: Rows, limits: map<Id, nat>, org: Id) {
    org in limits && |CamerasOf(rows, org)| >= limits[org]
  }

  function EventRow(rows: Rows, org: Id, camera: Id, rule: Option<Id>, key: Option<string>): Row
    requires SiteOfCamera(rows, camera).Some?
  {
    var refs := map[SiteId := SiteOfCamera(rows, camera).value, CameraId := camera];
    Row(Events, org, if rule.Some? then refs[RuleId := rule.value] else refs, key)
  }

  /** Any element; the sets it is asked about hold one at most. */
  ghost function Pick(s: set<Id>): (id: Id)
    requires s != {}
    ensures id in s
  {
    var id :| id in s; id
  }

  ghost function Step(rows: Rows, limits: map<Id, nat>, op: Op): (Rows, Result<Id, Error>) {
    match op
    case Create(org, table, id, refs) =>
      if !ParentsVisible(rows, org, table, refs) then (rows, Err(NotFound))
      else if table == Cameras && LimitReached(rows, limits, org) then (rows, Err(Forbidden))
      else (rows[id := Row(table, org, refs)], Ok(id))
    case CreateEvent(org, id, camera, rule, key) =>
      if !Visible(rows, org, Cameras, camera) || SiteOfCamera(rows, camera).None? then (rows, Err(NotFound))
      else if rule.Some? && !Visible(rows, org, AiRules, rule.value) then (rows, Err(NotFound))
      else if key.Some? && Keyed(rows, org, key.value) != {} then
        (rows, if key.value == "" then Err(NotCreated) else Ok(Pick(Keyed(rows, org, key.value))))
      else (rows[id := EventRow(rows, org, camera, rule, key)], Ok(id))
    case Relink(org, id, event) =>
      if !Visible(rows, org, Cooldowns, id) || !Visible(rows, org, Events, event) then (rows, Err(NotFound))
      else (rows[id := rows[id].(refs := rows[id].refs[EventId := event])], Ok(id))
    case Delete(org, table, id) =>
      if !Visible(rows, org, table, id) then (rows, Err(NotFound))
      else (Remove(rows, Doomed(rows, {id})), Ok(id))
  }

  /** The handlers, over one set of tables. */
  class TenantStore {
    var rows: Rows
    const limits: map<Id, nat>

    constructor (limits: map<Id, nat>)
      ensures rows == map[] && this.limits == limits
    {
      rows := map[];
      this.limits := limits;
    }

    /** requireTenantResource: the row, or 404. */
    method RequireTenantResource(org: Id, table: Table, id: Id) returns (r: Result<Row, Error>)
      ensures r == if Visible(rows, org, table, id) then Ok(rows[id]) else Err(NotFound)
    {
      if id in rows {
        var row := rows[id];
        if row.table == table && row.org == org { return Ok(row); }
      }
      return Err(NotFound);
    }

    method CreateSite(org: Id, id: Id) returns (r: Result<Id, Error>)
      modifies this
      ensures (rows, r) == Step(old(rows), limits, Create(org, Sites, id, map[]))
    {
      rows := rows[id := Row(Sites, org, map[])];
      r := Ok(id);
    }

    method CreateZone(org: Id, id: Id, site: Id) returns (r: Result<Id, Error>)
      modifies this
      ensures (rows, r) == Step(old(rows), limits, Create(org, Zones, id, map[SiteId := site]))
    {
      var parent := RequireTenantResource(org, Sites, site);
      if parent.Err? {
        assert !ParentsVisible(rows, org, Zones, map[SiteId := site]) by { assert SiteId in map[SiteId := site]; }
        return Err(NotFound);
      }
      rows := rows[id := Row(Zones, org, map[SiteId := site])];
      r := Ok(id);
    }

    method CreateCamera(org: Id, id: Id, site: Id, zone: Option<Id>) returns (r: Result<Id, Error>)
      modifies this
      ensures (rows, r) == Step(old(rows), limits, Create(org, Cameras, id,
        if zone.Some? then map[SiteId := site, ZoneId := zone.value] else map[SiteId := site]))
    {
      var refs := if zone.Some? then map[SiteId := site, ZoneId := zone.value] else map[SiteId := site];
      assert SiteId in refs && (zone.Some? ==> ZoneId in refs);
      var parent := RequireTenantResource(org, Sites, site);
      if parent.Err? { return Err(NotFound); }
      if zone.Some? {
        var z := RequireTenantResource(org, Zones, zone.value);
        if z.Err? { return Err(NotFound); }
      }
      if org in limits {
        var used := |CamerasOf(rows, org)|;
        if used >= limits[org] { return Err(Forbidden); }
      }
      rows := rows[id := Row(Cameras, org, refs)];
      r := Ok(id);
    }

    /** Event ingestion: the site comes from the camera row that was found, and a correlation id already in use brings
        back the event that has it (none is looked up for an empty one). */
    method IngestEvent(org: Id, id: Id, camera: Id, rule: Option<Id>, key: Option<string>)
      returns (r: Result<Id, Error>)
      requires Consistent(rows)
      modifies this
      ensures (rows, r) == Step(old(rows), limits, CreateEvent(org, id, camera, rule, key))
    {
      var cam := RequireTenantResource(org, Cameras, camera);
      if cam.Err? { return Err(NotFound); }
      if rule.Some? {
        var found := RequireTenantResource(org, AiRules, rule.value);
        if found.Err? { return Err(NotFound); }
      }
      assert Required(Cameras, SiteId) && GoodRow(rows, rows[camera]);
      if key.Some? {
        var existing := Keyed(rows, org, key.value);
        if existing != {} {
          if key.value == "" { return Err(NotCreated); }
          var event :| event in existing;
          assert Pick(existing) in existing;
          return Ok(event);
        }
      }
      var site := cam.value.refs[SiteId];
      var refs := map[SiteId := site, CameraId := camera];
      if rule.Some? { refs := refs[RuleId := rule.value]; }
      rows := rows[id := Row(Events, org, refs, key)];
      r := Ok(id);
    }

    /** The delete routes of sites, zones and cameras; the loop is the database following its cascades. */
    method DeleteRow(org: Id, table: Table, id: Id) returns (r: Result<Id, Error>)
      modifies this
      ensures (rows, r) == Step(old(rows), limits, Delete(org, table, id))
    {
      var found := RequireTenantResource(org, table, id);
      if found.Err? { return Err(NotFound); }
      var gone, next := {id}, Grow(rows, {id});
      while next != gone
        invariant gone <= rows.Keys && next == Grow(rows, gone)
        invariant rows == old(rows) && Doomed(rows, gone) == Doomed(rows, {id})
        decreases |rows.Keys - gone|
      {
        Smaller(rows.Keys, gone, next);
        gone := next;
        next := Grow(rows, gone);
      }
      rows := Remove(rows, gone);
      r := Ok(id);
    }
  }

  // ---------------------------------------------------------------- every step keeps the invariant

  /** What request validation guarantees about an insert. */
  ghost predicate LegalOp(rows: Rows, op: Op) {
    match op
    case Create(org, table, id, refs) => table != Events && id !in rows && forall c :: Required(table, c) ==> c in refs
    case CreateEvent(_, id, _, _, _) => id !in rows
    case _ => true
  }

  lemma KeysAfterInsert(rows: Rows, id: Id, row: Row)
    requires UniqueKeys(rows) && id !in rows && (row.key.Some? ==> Keyed(rows, row.org, row.key.value) == {})
    ensures UniqueKeys(rows[id := row])
  {
    var after := rows[id := row];
    forall org, key, a, b | a in Keyed(after, org, key) && b in Keyed(after, org, key) ensures a == b {
      assert a != id ==> a in Keyed(rows, org, key);
      assert b != id ==> b in Keyed(rows, org, key);
    }
  }

  /** Changing references or dropping rows brings no key in twice. */
  lemma KeysAmong(rows: Rows, after: Rows)
    requires UniqueKeys(rows) && after.Keys <= rows.Keys
    requires forall id :: id in after ==> after[id].table == rows[id].table && after[id].org == rows[id].org
                                          && after[id].key == rows[id].key
    ensures UniqueKeys(after)
  {
    forall org, key, a, b | a in Keyed(after, org, key) && b in Keyed(after, org, key) ensures a == b {
      assert a in Keyed(rows, org, key) && b in Keyed(rows, org, key);
    }
  }

  lemma {:induction false} InsertKeeps(rows: Rows, id: Id, row: Row)
    requires Consistent(rows) && id !in rows && GoodRow(rows, row)
    requires row.key.Some? ==> Keyed(rows, row.org, row.key.value) == {}
    ensures Consistent(rows[id := row])
  {
    var after := rows[id := row];
    KeysAfterInsert(rows, id, row);
    hide UniqueKeys, Keyed;
    forall k | k in after ensures GoodRow(after, after[k]) {
      assert GoodRow(rows, after[k]);
      forall c ensures GoodRef(after, after[k], c) { assert GoodRef(rows, after[k], c); }
      if after[k].table == Events {
        assert Required(Events, CameraId) && Required(Events, SiteId);
        assert GoodRef(rows, after[k], CameraId);
      }
    }
  }

  /** Rows may get other references as long as these are good and the NOT NULL ones stay. */
  lemma {:induction false} RewriteKeeps(rows: Rows, after: Rows)
    requires Consistent(rows) && after.Keys == rows.Keys
    requires forall k :: k in after ==> after[k].table == rows[k].table && after[k].org == rows[k].org
                                        && after[k].key == rows[k].key
    requires forall k, c :: k in after && Required(rows[k].table, c) && c in rows[k].refs ==>
                              c in after[k].refs && after[k].refs[c] == rows[k].refs[c]
    requires forall k, c :: k in after ==> GoodRef(rows, after[k], c)
    ensures Consistent(after)
  {
    KeysAmong(rows, after);
    hide UniqueKeys, Keyed;
    forall k | k in after ensures GoodRow(after, after[k]) {
      assert GoodRow(rows, rows[k]);
      forall c ensures GoodRef(after, after[k], c) { assert GoodRef(rows, after[k], c); }
      forall c | Required(after[k].table, c) ensures c in after[k].refs { }
      if after[k].table == Events { CameraStays(rows, after, k); }
    }
  }

  lemma CameraStays(rows: Rows, after: Rows, k: Id)
    requires Consistent(rows) && after.Keys == rows.Keys && k in rows && rows[k].table == Events
    requires forall id, c :: id in after && Required(rows[id].table, c) && c in rows[id].refs ==>
                               c in after[id].refs && after[id].refs[c] == rows[id].refs[c]
    ensures CameraId in after[k].refs && SiteId in after[k].refs
    ensures SiteOfCamera(after, after[k].refs[CameraId]) == Some(after[k].refs[SiteId])
  {
    assert Required(Events, CameraId) && Required(Events, SiteId) && Required(Cameras, SiteId);
    assert GoodRow(rows, rows[k]) && GoodRef(rows, rows[k], CameraId);
    var camera := rows[k].refs[CameraId];
    assert GoodRow(rows, rows[camera]);
    hide UniqueKeys;
  }

  lemma {:induction false} RelinkKeeps(rows: Rows, id: Id, event: Id)
    requires Consistent(rows) && id in rows && rows[id].table == Cooldowns
    requires Visible(rows, rows[id].org, Events, event)
    ensures Consistent(rows[id := rows[id].(refs := rows[id].refs[EventId := event])])
  {
    var after := rows[id := rows[id].(refs := rows[id].refs[EventId := event])];
    forall k, c | k in after ensures GoodRef(rows, after[k], c) {
      assert GoodRow(rows, rows[k]) && GoodRef(rows, rows[k], c);
    }
    hide UniqueKeys, Keyed;
    RewriteKeeps(rows, after);
  }

  /** Removing a closed set leaves no dangling reference and no row without its required parents. */
  lemma {:induction false} RemoveKeeps(rows: Rows, gone: set<Id>)
    requires Consistent(rows) && Closed(rows, gone)
    ensures Consistent(Remove(rows, gone))
  {
    var after := Remove(rows, gone);
    KeysAmong(rows, after);
    hide UniqueKeys, Keyed;
    forall k | k in after ensures GoodRow(after, after[k]) {
      assert GoodRow(rows, rows[k]) && !TakenBy(rows[k], gone);
      forall c ensures GoodRef(after, after[k], c) { assert GoodRef(rows, rows[k], c); }
      forall c | Required(after[k].table, c) ensures c in after[k].refs {
        assert c in rows[k].refs && rows[k].refs[c] !in gone;
      }
      if after[k].table == Events {
        assert Required(Events, CameraId) && Required(Events, SiteId);
        var camera := rows[k].refs[CameraId];
        assert GoodRef(rows, rows[k], CameraId) && GoodRow(rows, rows[camera]) && camera in after;
        assert Required(Cameras, SiteId);
        assert after[camera].refs[SiteId] == rows[camera].refs[SiteId];
      }
    }
  }

  lemma CreateKeeps(rows: Rows, org: Id, table: Table, id: Id, refs: map<Column, Id>)
    requires Consistent(rows) && LegalOp(rows, Create(org, table, id, refs)) && ParentsVisible(rows, org, table, refs)
    ensures Consistent(rows[id := Row(table, org, refs)])
  {
    forall c ensures GoodRef(rows, Row(table, org, refs), c) { }
    InsertKeeps(rows, id, Row(table, org, refs));
  }

  lemma EventKeeps(rows: Rows, org: Id, id: Id, camera: Id, rule: Option<Id>, key: Option<string>)
    requires Consistent(rows) && id !in rows && SiteOfCamera(rows, camera).Some?
    requires Visible(rows, org, Cameras, camera) && (rule.Some? ==> Visible(rows, org, AiRules, rule.value))
    requires key.Some? ==> Keyed(rows, org, key.value) == {}
    ensures Consistent(rows[id := EventRow(rows, org, camera, rule, key)])
  {
    var row := EventRow(rows, org, camera, rule, key);
    assert GoodRow(rows, rows[camera]) && Required(Cameras, SiteId);
    assert GoodRef(rows, rows[camera], SiteId);
    forall c ensures GoodRef(rows, row, c) { }
    forall c | Required(Events, c) ensures c in row.refs { }
    InsertKeeps(rows, id, row);
  }

  /** Every route keeps every reference inside the organization and every event at its camera's site. */
  lemma {:induction false} StepKeepsConsistent(rows: Rows, limits: map<Id, nat>, op: Op)
    requires Consistent(rows) && LegalOp(rows, op)
    ensures Consistent(Step(rows, limits, op).0)
  {
    match op
    case Create(org, table, id, refs) =>
      if ParentsVisible(rows, org, table, refs) { CreateKeeps(rows, org, table, id, refs); }
    case CreateEvent(org, id, camera, rule, key) =>
      if Visible(rows, org, Cameras, camera) && (rule.Some? ==> Visible(rows, org, AiRules, rule.value))
         && SiteOfCamera(rows, camera).Some? && (key.Some? ==> Keyed(rows, org, key.value) == {}) {
        EventKeeps(rows, org, id, camera, rule, key);
      }
    case Relink(org, id, event) =>
      if Visible(rows, org, Cooldowns, id) && Visible(rows, org, Events, event) { RelinkKeeps(rows, id, event); }
    case Delete(org, table, id) =>
      if Visible(rows, org, table, id) {
        DoomedIsLeast(rows, {id});
        RemoveKeeps(rows, Doomed(rows, {id}));
      }
  }

  /** Ingesting the same correlation id again inserts nothing and answers with the same event. */
  lemma {:induction false} IngestTwice(rows: Rows, limits: map<Id, nat>, org: Id, id: Id, again: Id, camera: Id,
                                       rule: Option<Id>, key: string)
    requires Consistent(rows) && id !in rows && key != ""
    requires Step(rows, limits, CreateEvent(org, id, camera, rule, Some(key))).1.Ok?
    ensures var (after, r) := Step(rows, limits, CreateEvent(org, id, camera, rule, Some(key)));
            Step(after, limits, CreateEvent(org, again, camera, rule, Some(key))) == (after, r)
  {
    var (after, r) := Step(rows, limits, CreateEvent(org, id, camera, rule, Some(key)));
    if Keyed(rows, org, key) == {} { assert Keyed(after, org, key) == {id}; }
  }

  /** A delete removes only rows of the caller's organization and leaves every other row exactly as it was. */
  lemma {:induction false} DeleteStaysInOrg(rows: Rows, limits: map<Id, nat>, org: Id, table: Table, id: Id)
    requires Consistent(rows)
    ensures var after := Step(rows, limits, Delete(org, table, id)).0;
            && (forall k :: k in rows && rows[k].org != org ==> k in after && after[k] == rows[k])
            && after.Keys <= rows.Keys && Consistent(after)
  {
    var after := Step(rows, limits, Delete(org, table, id)).0;
    if Visible(rows, org, table, id) {
      StepKeepsConsistent(rows, limits, Delete(org, table, id));
      ForeignUntouched(rows, {id}, org);
    }
  }

  lemma {:induction false} ForeignUntouched(rows: Rows, s: set<Id>, org: Id)
    requires Consistent(rows) && s <= OrgRows(rows, org).Keys
    ensures s <= rows.Keys
    ensures var after := Remove(rows, Doomed(rows, s));
            forall k :: k in rows && rows[k].org != org ==> k in after && after[k] == rows[k]
  {
    ConsistentRefsInOrg(rows);
    DoomedInOrg(rows, s, org);
    var gone := Doomed(rows, s);
    forall k | k in rows && rows[k].org != org ensures NullOut(rows[k], gone) == rows[k] {
      assert GoodRow(rows, rows[k]);
      forall c | c in rows[k].refs ensures rows[k].refs[c] !in gone { assert GoodRef(rows, rows[k], c); }
      assert NullOut(rows[k], gone).refs == rows[k].refs;
    }
  }

  /** Without the parent check the cascade does cross: a zone of B under a site of A goes when A deletes the site. */
  lemma CascadeCrossesUnchecked() returns (rows: Rows)
    ensures rows.Keys == {"s", "z"} && rows["s"].org == "A" && rows["z"].org == "B"
    ensures Step(rows, map[], Delete("A", Sites, "s")).0 == map[]
  {
    rows := map["s" := Row(Sites, "A", map[]), "z" := Row(Zones, "B", map[SiteId := "s"])];
    DoomedIsLeast(rows, {"s"});
    assert Cascades(rows["z"], SiteId);
    assert TakenBy(rows["z"], Doomed(rows, {"s"}));
  }

  // ---------------------------------------------------------------- what each route answers

  /** A row of this table and organization is there. */
  predicate Has(rows: Rows, id: Id, table: Table, org: Id) {
    id in rows && rows[id].org == org && rows[id].table == table
  }

  /** Creating a row: not found without all its parents in the organization, forbidden for a camera when the plan's
      number is reached, and done otherwise. */
  lemma CreateAnswers(rows: Rows, limits: map<Id, nat>, org: Id, table: Table, id: Id, refs: map<Column, Id>)
    ensures var (after, r) := Step(rows, limits, Create(org, table, id, refs));
            var parents :=
              forall c :: c in refs ==> c in Schema(table) && Has(rows, refs[c], Schema(table)[c].target, org);
            var used := set k | k in rows && Has(rows, k, Cameras, org);
            var full := table == Cameras && org in limits && limits[org] <= |used|;
            && (r == Err(NotFound) <==> !parents) && (r == Err(Forbidden) <==> parents && full)
            && (r == Ok(id) <==> parents && !full)
            && after == if parents && !full then rows[id := Row(table, org, refs)] else rows
  {
    assert CamerasOf(rows, org) == set k | k in rows && Has(rows, k, Cameras, org);
  }

  /** Ingesting an event into consistent tables: not found without the camera, or the rule if one is named; otherwise
      the answer is an event of the organization with the correlation id that was sent, if one was. A new one is at the
      camera, at its site and under the rule. Only an empty correlation id in use is an error. */
  lemma {:induction false} IngestAnswers(rows: Rows, limits: map<Id, nat>, org: Id, id: Id, camera: Id,
                                         rule: Option<Id>, key: Option<string>)
    requires Consistent(rows) && id !in rows
    ensures var (after, r) := Step(rows, limits, CreateEvent(org, id, camera, rule, key));
            var parents := Has(rows, camera, Cameras, org) && (rule.Some? ==> Has(rows, rule.value, AiRules, org));
            var used := key.Some? && exists k :: Has(rows, k, Events, org) && rows[k].key == key;
            && (r == Err(NotFound) <==> !parents)
            && (r == Err(NotCreated) <==> parents && used && key == Some(""))
            && (r.Ok? ==> Has(after, r.value, Events, org) && after[r.value].key == key)
            && (r.Ok? && used ==> after == rows)
            && (r.Ok? && !used ==>
                  && r.value == id && after == rows[id := after[id]]
                  && SiteId in rows[camera].refs && after[id].refs.Keys - {RuleId} == {CameraId, SiteId}
                  && after[id].refs[CameraId] == camera && after[id].refs[SiteId] == rows[camera].refs[SiteId]
                  && (RuleId in after[id].refs <==> rule.Some?)
                  && (rule.Some? ==> after[id].refs[RuleId] == rule.value))
            && (r.Err? ==> after == rows)
  {
    if Has(rows, camera, Cameras, org) { assert GoodRow(rows, rows[camera]) && Required(Cameras, SiteId); }
    if key.Some? {
      assert forall k :: k in Keyed(rows, org, key.value) <==> Has(rows, k, Events, org) && rows[k].key == key;
    }
    hide GoodRow, Keyed, UniqueKeys, Schema, Required, GoodRef;
  }

  /** Deleting answers not found for a row that is not the organization's, and otherwise removes it. */
  lemma {:induction false} DeleteAnswers(rows: Rows, limits: map<Id, nat>, org: Id, table: Table, id: Id)
    ensures var (after, r) := Step(rows, limits, Delete(org, table, id));
            if Has(rows, id, table, org) then r == Ok(id) && id !in after else r == Err(NotFound) && after == rows
  {
    if Has(rows, id, table, org) { DoomedIsLeast(rows, {id}); }
    hide Doomed;
  }

  // ---------------------------------------------------------------- what a delete takes along

  /** The row refers to the other one in this column. */
  predicate RefersTo(rows: Rows, k: Id, c: Column, id: Id) {
    k in rows && c in rows[k].refs && rows[k].refs[c] == id
  }

  /** An event's detections, evidence, notes and notifications. */
  predicate OfEvent(rows: Rows, k: Id, event: Id) {
    RefersTo(rows, k, EventId, event) && rows[k].table in {Detections, Evidence, Notes, Notifications}
  }

  /** A camera's credentials, rules, events, monitored objects, health events and statistics, and what its events
      have. */
  ghost predicate OfCamera(rows: Rows, k: Id, camera: Id) {
    || (RefersTo(rows, k, CameraId, camera)
        && rows[k].table in {Credentials, AiRules, Events, MonitoredObjects, HealthEvents, InferenceStats})
    || exists e :: RefersTo(rows, e, CameraId, camera) && rows[e].table == Events && OfEvent(rows, k, e)
  }

  ghost predicate OfZone(rows: Rows, k: Id, zone: Id) {
    RefersTo(rows, k, ZoneId, zone) && rows[k].table == Schedules
  }

  ghost predicate OfSite(rows: Rows, k: Id, site: Id) {
    || (RefersTo(rows, k, SiteId, site) && rows[k].table in {Zones, Cameras, Events})
    || (exists z :: RefersTo(rows, z, SiteId, site) && rows[z].table == Zones && OfZone(rows, k, z))
    || exists c :: RefersTo(rows, c, SiteId, site) && rows[c].table == Cameras && OfCamera(rows, k, c)
  }

  /** The references that cascade, table by table. */
  lemma CascadingColumns(t: Table, c: Column)
    ensures c in Schema(t) && Schema(t)[c].onDelete == Cascade
       <==> || (c == SiteId && t in {Zones, Cameras, Events}) || (c == ZoneId && t == Schedules)
            || (c == CameraId && t in {Credentials, AiRules, Events, MonitoredObjects, HealthEvents, InferenceStats})
            || (c == EventId && t in {Detections, Evidence, Notes, Notifications})
    ensures c in Schema(t) && Schema(t)[c].onDelete == Cascade ==>
              Schema(t)[c].target
              == match c case SiteId => Sites case ZoneId => Zones case CameraId => Cameras case _ => Events
  {
  }

  /** A row goes with the one it refers to when the reference cascades. */
  lemma GoesAlong(rows: Rows, s: set<Id>, k: Id, c: Column)
    requires Closed(rows, s) && k in rows && Cascades(rows[k], c) && rows[k].refs[c] in s
    ensures k in s
  {
    assert TakenBy(rows[k], s);
  }

  /** The doomed rows are x when x has the deleted one, is closed, and lies within every closed set that has it. */
  lemma {:induction false} DoomedIs(rows: Rows, id: Id, x: set<Id>)
    requires id in rows && id in x && x <= rows.Keys && Closed(rows, x)
    requires forall u :: id in u && Closed(rows, u) ==> x <= u
    ensures Doomed(rows, {id}) == x
  {
    DoomedIsLeast(rows, {id});
    hide Doomed, Closed;
  }

  lemma {:induction false} EventGoesAlong(rows: Rows, u: set<Id>, event: Id)
    requires Closed(rows, u) && event in u
    ensures forall k :: OfEvent(rows, k, event) ==> k in u
  {
    forall k | OfEvent(rows, k, event) ensures k in u {
      CascadingColumns(rows[k].table, EventId);
      GoesAlong(rows, u, k, EventId);
    }
  }

  lemma {:induction false} CameraGoesAlong(rows: Rows, u: set<Id>, camera: Id)
    requires Closed(rows, u) && camera in u
    ensures forall k :: OfCamera(rows, k, camera) ==> k in u
  {
    hide Schema, Closed, OfEvent;
    forall k | RefersTo(rows, k, CameraId, camera)
               && rows[k].table in {Credentials, AiRules, Events, MonitoredObjects, HealthEvents, InferenceStats}
      ensures k in u {
      CascadingColumns(rows[k].table, CameraId);
      GoesAlong(rows, u, k, CameraId);
    }
    forall k, e | RefersTo(rows, e, CameraId, camera) && rows[e].table == Events && OfEvent(rows, k, e) ensures k in u {
      EventGoesAlong(rows, u, e);
    }
  }

  lemma {:induction false} ZoneGoesAlong(rows: Rows, u: set<Id>, zone: Id)
    requires Closed(rows, u) && zone in u
    ensures forall k :: OfZone(rows, k, zone) ==> k in u
  {
    forall k | OfZone(rows, k, zone) ensures k in u {
      CascadingColumns(rows[k].table, ZoneId);
      GoesAlong(rows, u, k, ZoneId);
    }
  }

  lemma {:induction false} SiteGoesAlong(rows: Rows, u: set<Id>, site: Id)
    requires Closed(rows, u) && site in u
    ensures forall k :: OfSite(rows, k, site) ==> k in u
  {
    hide Schema, Closed, OfCamera, OfZone;
    forall k | RefersTo(rows, k, SiteId, site) && rows[k].table in {Zones, Cameras, Events} ensures k in u {
      CascadingColumns(rows[k].table, SiteId);
      GoesAlong(rows, u, k, SiteId);
    }
    forall k, z | RefersTo(rows, z, SiteId, site) && rows[z].table == Zones && OfZone(rows, k, z) ensures k in u {
      ZoneGoesAlong(rows, u, z);
    }
    forall k, c | RefersTo(rows, c, SiteId, site) && rows[c].table == Cameras && OfCamera(rows, k, c) ensures k in u {
      CameraGoesAlong(rows, u, c);
    }
  }

  /** What a cascading reference points at. */
  lemma CascadeTarget(rows: Rows, id: Id, c: Column)
    requires Consistent(rows) && id in rows && Cascades(rows[id], c)
    ensures rows[id].refs[c] in rows && RefersTo(rows, id, c, rows[id].refs[c])
    ensures var target, t := rows[rows[id].refs[c]].table, rows[id].table;
            && (target == Sites <==> c == SiteId && t in {Zones, Cameras, Events})
            && (target == Zones <==> c == ZoneId && t == Schedules)
            && (target == Cameras <==>
                  c == CameraId && t in {Credentials, AiRules, Events, MonitoredObjects, HealthEvents, InferenceStats})
            && (target == Events <==> c == EventId && t in {Detections, Evidence, Notes, Notifications})
            && target in {Sites, Zones, Cameras, Events}
  {
    CascadingColumns(rows[id].table, c);
    assert GoodRow(rows, rows[id]) && GoodRef(rows, rows[id], c);
    hide Schema, UniqueKeys;
  }

  /** Deleting a zone takes its schedules along and nothing else. */
  lemma {:induction false} ZoneDeleteTakes(rows: Rows, zone: Id)
    requires Consistent(rows) && zone in rows && rows[zone].table == Zones
    ensures forall k :: k in Doomed(rows, {zone}) <==> k == zone || OfZone(rows, k, zone)
  {
    var x := set k | k in rows && (k == zone || OfZone(rows, k, zone));
    forall id | id in rows && TakenBy(rows[id], x) ensures id in x {
      var c :| Cascades(rows[id], c) && rows[id].refs[c] in x;
      CascadeTarget(rows, id, c);
    }
    forall u | zone in u && Closed(rows, u) ensures x <= u { ZoneGoesAlong(rows, u, zone); }
    DoomedIs(rows, zone, x);
  }

  lemma {:induction false} OfCameraClosed(rows: Rows, camera: Id, id: Id, c: Column)
    requires Consistent(rows) && id in rows && Cascades(rows[id], c) && camera in rows && rows[camera].table == Cameras
    requires rows[id].refs[c] == camera || OfCamera(rows, rows[id].refs[c], camera)
    ensures OfCamera(rows, id, camera)
  {
    CascadeTarget(rows, id, c);
    hide Consistent, Schema, Cascades, TakenBy;
  }

  /** Deleting a camera takes along what hangs on it, and on its events, and nothing else. */
  lemma {:induction false} CameraDeleteTakes(rows: Rows, camera: Id)
    requires Consistent(rows) && camera in rows && rows[camera].table == Cameras
    ensures forall k :: k in Doomed(rows, {camera}) <==> k == camera || OfCamera(rows, k, camera)
  {
    assert forall k :: OfCamera(rows, k, camera) ==> k in rows;
    hide OfCamera, Consistent, Schema, Doomed;
    var x := set k | k in rows && (k == camera || OfCamera(rows, k, camera));
    forall id | id in rows && TakenBy(rows[id], x) ensures id in x {
      var c :| Cascades(rows[id], c) && rows[id].refs[c] in x;
      OfCameraClosed(rows, camera, id, c);
    }
    forall u | camera in u && Closed(rows, u) ensures x <= u { CameraGoesAlong(rows, u, camera); }
    DoomedIs(rows, camera, x);
  }

  /** Deleting a site takes along its zones with their schedules, and its cameras with all that hangs on them. */
  lemma {:induction false} SiteDeleteTakes(rows: Rows, site: Id)
    requires Consistent(rows) && site in rows && rows[site].table == Sites
    ensures forall k :: k in Doomed(rows, {site}) <==> k == site || OfSite(rows, k, site)
  {
    assert forall k :: OfSite(rows, k, site) ==> k in rows;
    hide OfSite, Consistent, Schema, Doomed;
    var x := set k | k in rows && (k == site || OfSite(rows, k, site));
    forall id | id in rows && TakenBy(rows[id], x) ensures id in x {
      var c :| Cascades(rows[id], c) && rows[id].refs[c] in x;
      CascadeTarget(rows, id, c);
      OfSiteClosed(rows, site, id, c);
    }
    forall u | site in u && Closed(rows, u) ensures x <= u { SiteGoesAlong(rows, u, site); }
    DoomedIs(rows, site, x);
  }

  lemma {:induction false} OfSiteClosed(rows: Rows, site: Id, id: Id, c: Column)
    requires Consistent(rows) && id in rows && Cascades(rows[id], c) && site in rows && rows[site].table == Sites
    requires rows[id].refs[c] == site || OfSite(rows, rows[id].refs[c], site)
    ensures OfSite(rows, id, site)
  {
    CascadeTarget(rows, id, c);
    var target := rows[id].refs[c];
    if rows[target].table == Events { EventsSitAtCamera(rows, target); }
    hide Consistent, Schema, Cascades, TakenBy;
  }

  /** An event is at the site of its camera. */
  lemma {:induction false} EventsSitAtCamera(rows: Rows, event: Id)
    requires Consistent(rows) && event in rows && rows[event].table == Events
    ensures CameraId in rows[event].refs && SiteId in rows[event].refs
    ensures var camera := rows[event].refs[CameraId];
            && camera in rows && rows[camera].table == Cameras && SiteId in rows[camera].refs
            && rows[camera].refs[SiteId] == rows[event].refs[SiteId]
  {
    assert Required(Events, CameraId) && Required(Events, SiteId);
    assert GoodRow(rows, rows[event]) && GoodRef(rows, rows[event], CameraId);
  }

  // ---------------------------------------------------------------- whole runs

  ghost function Exec(ops: seq<Op>, limits: map<Id, nat>): Rows {
    if ops == [] then map[] else Step(Exec(ops[..|ops| - 1], limits), limits, ops[|ops| - 1]).0
  }

  function IdOf(op: Op): Option<Id> {
    match op
    case Create(_, _, id, _) => Some(id)
    case CreateEvent(_, id, _, _, _) => Some(id)
    case _ => None
  }

  /** The database never draws the same id twice, and inserts name their required parents. */
  ghost predicate Legal(ops: seq<Op>) {
    && (forall i, j :: 0 <= i < j < |ops| && IdOf(ops[i]).Some? ==> IdOf(ops[i]) != IdOf(ops[j]))
    && (forall i :: 0 <= i < |ops| ==> WellFormed(ops[i]))
  }

  ghost predicate WellFormed(op: Op) {
    op.Create? ==> op.table != Events && forall c :: Required(op.table, c) ==> c in op.refs
  }

  ghost predicate Drawn(ops: seq<Op>, id: Id) {
    exists i :: 0 <= i < |ops| && IdOf(ops[i]) == Some(id)
  }

  lemma LegalInit(ops: seq<Op>)
    requires Legal(ops) && ops != []
    ensures Legal(ops[..|ops| - 1]) && WellFormed(ops[|ops| - 1])
    ensures IdOf(ops[|ops| - 1]).Some? ==> !Drawn(ops[..|ops| - 1], IdOf(ops[|ops| - 1]).value)
  {
  }

  /** Ids in use were drawn by the run. */
  lemma {:induction false} IdsAreDrawn(ops: seq<Op>, limits: map<Id, nat>, id: Id)
    requires id in Exec(ops, limits)
    ensures Drawn(ops, id)
  {
    hide Doomed, ParentsVisible, LimitReached;
    assert ops != [];
    var init, op := ops[..|ops| - 1], ops[|ops| - 1];
    if id in Exec(init, limits) {
      IdsAreDrawn(init, limits, id);
      var i :| 0 <= i < |init| && IdOf(init[i]) == Some(id);
      assert IdOf(ops[i]) == Some(id);
    } else {
      assert IdOf(ops[|ops| - 1]) == Some(id);
    }
  }

  lemma LastIsLegal(ops: seq<Op>, limits: map<Id, nat>)
    requires Legal(ops) && ops != []
    ensures Legal(ops[..|ops| - 1]) && LegalOp(Exec(ops[..|ops| - 1], limits), ops[|ops| - 1])
  {
    hide Exec, Step;
    LegalInit(ops);
    var init, op := ops[..|ops| - 1], ops[|ops| - 1];
    if IdOf(op).Some? && IdOf(op).value in Exec(init, limits) { IdsAreDrawn(init, limits, IdOf(op).value); }
  }

  /** In all reachable states references stay inside their organization and events stay at their camera's site. */
  lemma {:induction false} ReachableIsConsistent(ops: seq<Op>, limits: map<Id, nat>)
    requires Legal(ops)
    ensures Consistent(Exec(ops, limits))
  {
    if ops != [] {
      LastIsLegal(ops, limits);
      ReachableIsConsistent(ops[..|ops| - 1], limits);
      StepKeepsConsistent(Exec(ops[..|ops| - 1], limits), limits, ops[|ops| - 1]);
    }
  }

  // ---------------------------------------------------------------- non-interference of the routes

  /** The operations of one organization, in order. */
  function Only(ops: seq<Op>, org: Id): seq<Op> {
    if ops == [] then []
    else
      var n := |ops| - 1;
      Only(ops[..n], org) + if ops[n].org == org then [ops[n]] else []
  }

  /** Another organization's operation changes nothing of this one. */
  lemma {:induction false} ForeignStep(rows: Rows, limits: map<Id, nat>, op: Op, org: Id)
    requires Consistent(rows) && LegalOp(rows, op) && op.org != org
    ensures OrgRows(Step(rows, limits, op).0, org) == OrgRows(rows, org)
  {
    hide Doomed, ParentsVisible, LimitReached, Consistent;
    if op.Delete? {
      DeleteStaysInOrg(rows, limits, op.org, op.table, op.id);
      RemovedKeepOrg(rows, limits, op);
    }
  }

  lemma RemovedKeepOrg(rows: Rows, limits: map<Id, nat>, op: Op)
    requires op.Delete?
    ensures var after := Step(rows, limits, op).0; forall k :: k in after ==> k in rows && after[k].org == rows[k].org
  {
  }

  lemma VisibleInOwn(rows: Rows, org: Id, table: Table, id: Id)
    ensures Visible(rows, org, table, id) <==> Visible(OrgRows(rows, org), org, table, id)
  {
  }

  lemma ParentsInOwn(rows: Rows, org: Id, table: Table, refs: map<Column, Id>)
    ensures ParentsVisible(rows, org, table, refs) <==> ParentsVisible(OrgRows(rows, org), org, table, refs)
  {
  }

  /** Within one organization a cascade is the same with and without everybody else's rows. */
  lemma {:induction false} DoomedInOwn(rows: Rows, s: set<Id>, org: Id)
    requires RefsInOrg(rows) && s <= OrgRows(rows, org).Keys
    ensures s <= rows.Keys && Doomed(rows, s) == Doomed(OrgRows(rows, org), s)
  {
    var own := OrgRows(rows, org);
    DoomedIsLeast(rows, s);
    DoomedIsLeast(own, s);
    DoomedInOrg(rows, s, org);
    hide Doomed;
    var all, few := Doomed(rows, s), Doomed(own, s);
    assert Closed(own, all);
    forall id | id in rows && TakenBy(rows[id], few) ensures id in few {
      var c :| Cascades(rows[id], c) && rows[id].refs[c] in few;
      assert rows[id].org == org;
      assert own[id] == rows[id] && TakenBy(own[id], few);
    }
    assert Closed(rows, few);
  }

  /** op does the same to the organization's own rows alone as to all rows. */
  ghost predicate ActsOnOwn(rows: Rows, limits: map<Id, nat>, op: Op) {
    var own := OrgRows(rows, op.org);
    && Step(own, limits, op).0 == OrgRows(Step(rows, limits, op).0, op.org)
    && Step(own, limits, op).1 == Step(rows, limits, op).1
  }

  /** An organization's own operation depends on and changes only its own rows. */
  lemma {:induction false} OwnStep(rows: Rows, limits: map<Id, nat>, op: Op)
    requires Consistent(rows) && LegalOp(rows, op)
    ensures ActsOnOwn(rows, limits, op)
  {
    hide ActsOnOwn, Consistent;
    match op
    case Create(_, _, _, _) => OwnCreate(rows, limits, op);
    case CreateEvent(_, _, _, _, _) => OwnEvent(rows, limits, op);
    case Relink(_, _, _) => OwnRelink(rows, limits, op);
    case Delete(_, _, _) => OwnDelete(rows, limits, op);
  }

  lemma OwnCreate(rows: Rows, limits: map<Id, nat>, op: Op)
    requires op.Create? && op.id !in rows
    ensures ActsOnOwn(rows, limits, op)
  {
    var own := OrgRows(rows, op.org);
    ParentsInOwn(rows, op.org, op.table, op.refs);
    assert CamerasOf(own, op.org) == CamerasOf(rows, op.org);
    hide ParentsVisible, CamerasOf, OrgRows;
    OwnInsert(rows, op.id, Row(op.table, op.org, op.refs));
  }

  lemma OwnEvent(rows: Rows, limits: map<Id, nat>, op: Op)
    requires op.CreateEvent? && op.id !in rows
    ensures ActsOnOwn(rows, limits, op)
  {
    var own := OrgRows(rows, op.org);
    VisibleInOwn(rows, op.org, Cameras, op.camera);
    if op.rule.Some? { VisibleInOwn(rows, op.org, AiRules, op.rule.value); }
    if op.key.Some? { assert Keyed(own, op.org, op.key.value) == Keyed(rows, op.org, op.key.value); }
    assert Visible(rows, op.org, Cameras, op.camera) ==> SiteOfCamera(rows, op.camera) == SiteOfCamera(own, op.camera);
    hide Visible, SiteOfCamera, OrgRows, Keyed;
    if Step(rows, limits, op).1 == Ok(op.id) && op.id in Step(rows, limits, op).0 {
      OwnInsert(rows, op.id, Step(rows, limits, op).0[op.id]);
    }
  }

  lemma OwnRelink(rows: Rows, limits: map<Id, nat>, op: Op)
    requires op.Relink?
    ensures ActsOnOwn(rows, limits, op)
  {
    VisibleInOwn(rows, op.org, Cooldowns, op.id);
    VisibleInOwn(rows, op.org, Events, op.event);
  }

  lemma OwnDelete(rows: Rows, limits: map<Id, nat>, op: Op)
    requires op.Delete? && Consistent(rows)
    ensures ActsOnOwn(rows, limits, op)
  {
    VisibleInOwn(rows, op.org, op.table, op.id);
    if Visible(rows, op.org, op.table, op.id) {
      ConsistentRefsInOrg(rows);
      DoomedInOwn(rows, {op.id}, op.org);
      RemoveInOwn(rows, Doomed(rows, {op.id}), op.org);
    }
    hide Doomed, Remove, OrgRows, Consistent;
  }

  lemma OwnInsert(rows: Rows, id: Id, row: Row)
    requires id !in rows
    ensures OrgRows(rows[id := row], row.org) == OrgRows(rows, row.org)[id := row]
  {
  }

  lemma RemoveInOwn(rows: Rows, gone: set<Id>, org: Id)
    ensures Remove(OrgRows(rows, org), gone) == OrgRows(Remove(rows, gone), org)
  {
  }

  /** Non-interference: an organization's final rows, and the answer to its next operation, are those of a run
      in which only its own operations happen. */
  lemma {:induction false} RouteNonInterference(ops: seq<Op>, limits: map<Id, nat>, org: Id)
    requires Legal(ops)
    ensures Exec(Only(ops, org), limits) == OrgRows(Exec(ops, limits), org)
    ensures ops != [] && ops[|ops| - 1].org == org ==>
      var n := |ops| - 1;
      Step(Exec(Only(ops[..n], org), limits), limits, ops[n]).1 == Step(Exec(ops[..n], limits), limits, ops[n]).1
  {
    hide Step, OrgRows, Legal, LegalOp, Consistent;
    if ops == [] {
      NoRows(org);
    } else {
      var n := |ops| - 1;
      var rows := Exec(ops[..n], limits);
      LastIsLegal(ops, limits);
      RouteNonInterference(ops[..n], limits, org);
      ReachableIsConsistent(ops[..n], limits);
      if ops[n].org == org {
        OwnStep(rows, limits, ops[n]);
        var p := Only(ops[..n], org);
        assert (p + [ops[n]])[..|p|] == p;
      } else {
        ForeignStep(rows, limits, ops[n], org);
        assert Only(ops[..n], org) + [] == Only(ops[..n], org);
      }
    }
  }

  lemma NoRows(org: Id)
    ensures OrgRows(map[], org) == map[]
  {
  }

  /** No organization ever has more cameras than its plan allows. */
  lemma {:induction false} CameraLimitHolds(ops: seq<Op>, limits: map<Id, nat>, org: Id)
    requires org in limits
    ensures |CamerasOf(Exec(ops, limits), org)| <= limits[org]
  {
    if ops != [] {
      var n := |ops| - 1;
      CameraLimitHolds(ops[..n], limits, org);
      CameraStep(Exec(ops[..n], limits), limits, ops[n], org);
    }
  }

  lemma CameraStep(rows: Rows, limits: map<Id, nat>, op: Op, org: Id)
    requires org in limits && |CamerasOf(rows, org)| <= limits[org]
    ensures |CamerasOf(Step(rows, limits, op).0, org)| <= limits[org]
  {
    hide Doomed;
    var after := Step(rows, limits, op).0;
    if op.Create? && op.table == Cameras && op.org == org && after != rows {
      assert CamerasOf(after, org) <= CamerasOf(rows, org) + {op.id};
      SubsetSize(CamerasOf(after, org), CamerasOf(rows, org) + {op.id});
    } else {
      assert CamerasOf(after, org) <= CamerasOf(rows, org);
      SubsetSize(CamerasOf(after, org), CamerasOf(rows, org));
    }
  }
}
