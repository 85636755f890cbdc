/**
 Tenant isolation by row policies over a reused connection pool (server/src/db/pool.ts and the
 policies of server/src/db/migrations/0001_init.sql). Requests are interleaved step by step;
 a transaction's writes stay with its connection until COMMIT, as under READ COMMITTED. Foreign
 keys and their cascades act on all rows, past the policies.
 */
module Pool {
  import opened Wrappers
  import Tables

  type Id = Tables.Id

  const ORG := "app.current_org"
  const USER := "app.current_user"
  const PLATFORM := "app.is_platform_admin"

  /** A row of a tenant table: its table, organization and references, and its other columns. */
  datatype Row = Row(link: Tables.Row, data: string) {
    function Org(): Id { link.org }
  }

  type Rows = map<Id, Row>

  datatype Ctx = Ctx(user: Id, org: Id, platform: bool)

  /** How far withTenant has come on a connection. */
  datatype Phase = Idle | Acquired | Begun | Bound | Ended

  /** A connection and its transaction; found holds the ids the handler has been given in this transaction. */
  datatype Conn = Conn(
    phase: Phase, holder: Option<Ctx>,
    session: map<string, string>, local: map<string, string>,
    inTx: bool, failed: bool, pending: map<Id, Option<Row>>, found: set<Id>)

  const NEW_CONN := Conn(Idle, None, map[], map[], false, false, map[], {})

  datatype World = World(rows: Rows, conns: seq<Conn>)

  // ---------------------------------------------------------------- settings and policies

  /** current_setting(name, true) with NULLIF(.., ''): transaction-local first, then session, empty is NULL. */
  function Setting(c: Conn, name: string): Option<string> {
    var value := if name in c.local then c.local[name] else if name in c.session then c.session[name] else "";
    if value == "" then None else Some(value)
  }

  function CurrentOrg(c: Conn): Option<Id> {
    Setting(c, ORG)
  }

  predicate IsPlatformAdmin(c: Conn) {
    Setting(c, PLATFORM).GetOr("off") == "on"
  }

  /** app.org_visible, the predicate of all four policies of every tenant table. */
  predicate OrgVisible(c: Conn, org: Id) {
    IsPlatformAdmin(c) || CurrentOrg(c) == Some(org)
  }

  /** A connection that may see no organization but this one. */
  ghost predicate SeesOnly(c: Conn, org: Id) {
    forall o :: OrgVisible(c, o) ==> o == org
  }

  // ---------------------------------------------------------------- statements

  /** Statements compute with all the rows they may see, so joins, subqueries and aggregates are among them.
      Lookup is requireTenantResource, which throws when there is no such row. */
  datatype Stmt =
    | Select(query: Rows -> Rows)
    | Lookup(table: Tables.Table, id: Id)
    | Insert(id: Id, make: Rows -> Row)
    | Update(where: (Rows, Id, Row) -> bool, set_: (Rows, Id, Row) -> Row)
    | Delete(where: (Rows, Id, Row) -> bool)

  datatype Answer = Returned(rows: Rows) | Denied | Done

  /** Rows with uncommitted writes on top: what a COMMIT leaves, and what the writing connection sees before. */
  function Flush(rows: Rows, pending: map<Id, Option<Row>>): Rows {
    map id | id in rows.Keys + pending.Keys && (if id in pending then pending[id].Some? else true)
      :: if id in pending then pending[id].value else rows[id]
  }

  function View(rows: Rows, c: Conn): Rows {
    Flush(rows, c.pending)
  }

  /** The rows the policies let through. */
  function Visible(view: Rows, c: Conn): Rows {
    map id | id in view && OrgVisible(c, view[id].Org()) :: view[id]
  }

  function Matching(seen: Rows, where: (Rows, Id, Row) -> bool): Rows {
    map id | id in seen && where(seen, id, seen[id]) :: seen[id]
  }

  /** An update leaves a row in its table, and its correlation id and NOT NULL references as they are: no statement of
      the source sets them. */
  function Rewritten(was: Tables.Row, to: Tables.Row): Tables.Row {
    was.(org := to.org,
         refs := (map c | c in to.refs && !Tables.Required(was.table, c) :: to.refs[c])
                 + map c | c in was.refs && Tables.Required(was.table, c) :: was.refs[c])
  }

  function Changed(seen: Rows, m: Rows, f: (Rows, Id, Row) -> Row): Rows {
    map id | id in m :: var row := f(seen, id, m[id]); row.(link := Rewritten(m[id].link, row.link))
  }

  function Written(m: Rows): map<Id, Option<Row>> {
    map id | id in m :: Some(m[id])
  }

  /** The ids of the given rows and the ids they refer to. */
  function Shown(seen: Rows, ids: set<Id>): set<Id> {
    ids * seen.Keys + set id, c | id in ids * seen.Keys && c in seen[id].link.refs :: seen[id].link.refs[c]
  }

  // ---------------------------------------------------------------- references

  /** The reference is the one the row had before. */
  predicate Kept(before: map<Tables.Column, Id>, row: Row, c: Tables.Column) {
    c in row.link.refs && c in before && before[c] == row.link.refs[c]
  }

  predicate PointsAt(view: Rows, row: Row, c: Tables.Column) {
    c in row.link.refs ==>
      && c in Tables.Schema(row.link.table) && row.link.refs[c] in view
      && view[row.link.refs[c]].link.table == Tables.Schema(row.link.table)[c].target
  }

  /** The foreign keys: every new reference points at a row of the right table, whatever the policies let through. */
  predicate ReferencesExist(view: Rows, before: map<Tables.Column, Id>, row: Row) {
    forall c :: Kept(before, row, c) || PointsAt(view, row, c)
  }

  /** What the handlers see to: a new reference is an id that the transaction has been given. */
  predicate ReferencesFound(found: set<Id>, before: map<Tables.Column, Id>, row: Row) {
    forall c :: c in row.link.refs && !Kept(before, row, c) ==> row.link.refs[c] in found
  }

  /** What the database checks of a row to be written: WITH CHECK, the foreign keys and the NOT NULL references. */
  predicate Accepted(view: Rows, c: Conn, before: map<Tables.Column, Id>, row: Row) {
    && OrgVisible(c, row.Org()) && ReferencesExist(view, before, row)
    && forall k :: Tables.Required(row.link.table, k) ==> k in row.link.refs
  }

  predicate MayWrite(view: Rows, c: Conn, before: map<Tables.Column, Id>, row: Row) {
    ReferencesFound(c.found, before, row) && Accepted(view, c, before, row)
  }

  /** The handlers give a new event the site of the camera they have been shown. */
  predicate AtCamerasSite(seen: Rows, row: Row) {
    row.link.table == Tables.Events && Tables.CameraId in row.link.refs && Tables.SiteId in row.link.refs ==>
      Tables.SiteOfCamera(Links(seen), row.link.refs[Tables.CameraId]) == Some(row.link.refs[Tables.SiteId])
  }

  /** The unique index on organization and correlation id holds the row's already. */
  predicate KeyTaken(view: Rows, row: Row) {
    row.link.key.Some? && Tables.Keyed(Links(view), row.Org(), row.link.key.value) != {}
  }

  function Links(rows: Rows): Tables.Rows {
    map id | id in rows :: rows[id].link
  }

  predicate Refers(row: Row, gone: set<Id>) {
    exists c :: c in row.link.refs && row.link.refs[c] in gone
  }

  /** A delete takes along what its cascades reach, and clears the other references to it, whatever the policies say. */
  function Swept(view: Rows, gone: set<Id>): map<Id, Option<Row>> {
    map id | id in view && (id in gone || Refers(view[id], gone))
      :: if id in gone then None else Some(view[id].(link := Tables.NullOut(view[id].link, gone)))
  }

  function Gone(view: Rows, ids: set<Id>): set<Id> {
    Tables.Doomed(Links(view), ids * view.Keys)
  }

  // ---------------------------------------------------------------- executing a statement

  function Fail(c: Conn): (Conn, Answer) {
    (c.(failed := true), Denied)
  }

  function Answered(c: Conn, seen: Rows, rows: Rows): (Conn, Answer) {
    (c.(found := c.found + Shown(seen, rows.Keys)), Returned(rows))
  }

  /** What is checked of a new row before its keys are: the handler's part, WITH CHECK and the NOT NULL references. */
  predicate MayStart(c: Conn, seen: Rows, row: Row) {
    && ReferencesFound(c.found, map[], row) && AtCamerasSite(seen, row) && OrgVisible(c, row.Org())
    && forall k :: Tables.Required(row.link.table, k) ==> k in row.link.refs
  }

  /** An insert with a correlation id that is in use does nothing, as its ON CONFLICT clause says. */
  function InsertRow(view: Rows, c: Conn, seen: Rows, id: Id, row: Row): (Conn, Answer) {
    if !MayStart(c, seen, row) then Fail(c)
    else if KeyTaken(view, row) then (c, Returned(map[]))
    else if id !in view && ReferencesExist(view, map[], row) then
      (c.(pending := c.pending[id := Some(row)], found := c.found + {id}), Returned(map[id := row]))
    else Fail(c)
  }

  function RefsOf(view: Rows, id: Id): map<Tables.Column, Id> {
    if id in view then view[id].link.refs else map[]
  }

  function UpdateRows(view: Rows, c: Conn, after: Rows): (Conn, Answer) {
    if forall id :: id in after ==> MayWrite(view, c, RefsOf(view, id), after[id])
    then (c.(pending := c.pending + Written(after)), Returned(after))
    else Fail(c)
  }

  function DeleteRows(view: Rows, c: Conn, m: Rows): (Conn, Answer) {
    (c.(pending := c.pending + Swept(view, Gone(view, m.Keys))), Returned(m))
  }

  /** USING for what a statement may touch; an error of the database or of the handler aborts the transaction. */
  function ExecView(view: Rows, c: Conn, s: Stmt): (Conn, Answer) {
    var seen := Visible(view, c);
    if c.failed then (c, Denied)
    else
      match s
      case Select(query) => Answered(c, seen, query(seen))
      case Lookup(table, id) =>
        if id in seen && seen[id].link.table == table then Answered(c, seen, map[id := seen[id]]) else Fail(c)
      case Insert(id, make) => InsertRow(view, c, seen, id, make(seen))
      case Update(where, set_) => UpdateRows(view, c, Changed(seen, Matching(seen, where), set_))
      case Delete(where) => DeleteRows(view, c, Matching(seen, where))
  }

  function ExecStmt(rows: Rows, c: Conn, s: Stmt): (Conn, Answer) {
    ExecView(View(rows, c), c, s)
  }

  // ---------------------------------------------------------------- the steps of withTenant

  datatype Act = Connect | Begin | SetConfig | Query(stmt: Stmt) | Commit | Rollback | Release

  datatype Event = Event(conn: nat, ctx: Ctx, act: Act)

  function LocalOf(ctx: Ctx): map<string, string> {
    map[ORG := ctx.org, USER := ctx.user, PLATFORM := if ctx.platform then "on" else "off"]
  }

  /** The end of a transaction drops its local settings; a name never set in the session is left blank. */
  function EndTx(c: Conn): Conn {
    c.(phase := Ended, inTx := false, failed := false, pending := map[], found := {}, local := map[],
       session := (map name | name in c.local :: "") + c.session)
  }

  /** withTenant runs its steps in order on the connection it holds. */
  predicate Enabled(w: World, e: Event) {
    && e.conn < |w.conns|
    && var c := w.conns[e.conn];
       match e.act
       case Connect => c.phase == Idle
       case Begin => c.phase == Acquired && c.holder == Some(e.ctx)
       case SetConfig => c.phase == Begun && c.holder == Some(e.ctx)
       case Query(_) => c.phase == Bound && c.holder == Some(e.ctx)
       case Commit => c.phase == Bound && c.holder == Some(e.ctx)
       case Rollback => c.phase in {Acquired, Begun, Bound} && c.holder == Some(e.ctx)
       case Release => c.phase == Ended && c.holder == Some(e.ctx)
  }

  function Step(w: World, e: Event): (World, Answer)
    requires Enabled(w, e)
  {
    var c := w.conns[e.conn];
    match e.act
    case Connect => (w.(conns := w.conns[e.conn := c.(phase := Acquired, holder := Some(e.ctx))]), Done)
    case Begin => (w.(conns := w.conns[e.conn := c.(phase := Begun, inTx := true)]), Done)
    case SetConfig => (w.(conns := w.conns[e.conn := c.(phase := Bound, local := LocalOf(e.ctx))]), Done)
    case Query(s) =>
      var (c', answer) := ExecStmt(w.rows, c, s);
      (w.(conns := w.conns[e.conn := c']), answer)
    case Commit =>
      (World(if c.failed then w.rows else Flush(w.rows, c.pending), w.conns[e.conn := EndTx(c)]), Done)
    case Rollback => (w.(conns := w.conns[e.conn := EndTx(c)]), Done)
    case Release => (w.(conns := w.conns[e.conn := c.(phase := Idle, holder := None)]), Done)
  }

  /** A run that keeps to the order of steps, from a given world. */
  predicate EnabledRun(w: World, run: seq<Event>)
    decreases |run|
  {
    run == [] || (Enabled(w, run[0]) && EnabledRun(Step(w, run[0]).0, run[1..]))
  }

  function Exec(w: World, run: seq<Event>): World
    requires EnabledRun(w, run)
    decreases |run|
  {
    if run == [] then w else Exec(Step(w, run[0]).0, run[1..])
  }

  class AppPool {
    var rows: Rows
    var conns: seq<Conn>

    ghost function Contents(): World
      reads this
    {
      World(rows, conns)
    }

    constructor (rows: Rows, size: nat)
      ensures Contents() == World(rows, seq(size, _ => NEW_CONN))
    {
      this.rows := rows;
      conns := seq(size, _ => NEW_CONN);
    }

    /** One step of one request. */
    method Perform(e: Event) returns (answer: Answer)
      requires Enabled(Contents(), e)
      modifies this
      ensures (Contents(), answer) == Step(old(Contents()), e)
    {
      hide ExecStmt, Flush, EndTx;
      var c := conns[e.conn];
      answer := Done;
      match e.act {
        case Connect => conns := conns[e.conn := c.(phase := Acquired, holder := Some(e.ctx))];
        case Begin => conns := conns[e.conn := c.(phase := Begun, inTx := true)];
        case SetConfig => conns := conns[e.conn := c.(phase := Bound, local := LocalOf(e.ctx))];
        case Query(s) =>
          var (c', a) := ExecStmt(rows, c, s);
          conns := conns[e.conn := c'];
          answer := a;
        case Commit =>
          if !c.failed { rows := Flush(rows, c.pending); }
          conns := conns[e.conn := EndTx(c)];
        case Rollback => conns := conns[e.conn := EndTx(c)];
        case Release => conns := conns[e.conn := c.(phase := Idle, holder := None)];
      }
    }

    /** The callback's statements, up to the first that fails. */
    method RunStatements(conn: nat, ctx: Ctx, script: seq<Stmt>) returns (answers: seq<Answer>)
      requires conn < |conns| && conns[conn].phase == Bound && conns[conn].holder == Some(ctx)
      modifies this
      ensures var ran := RunScript(old(rows), old(conns)[conn], script);
              Contents() == World(old(rows), old(conns)[conn := ran.0]) && (!ran.0.failed ==> answers == ran.1)
    {
      hide ExecStmt, Flush, EndTx, LocalOf;
      var bound, i := conns[conn], 0;
      answers := [];
      while i < |script| && !conns[conn].failed
        invariant i <= |script|
        invariant RunScript(rows, bound, script[..i]).1 == answers
        invariant Contents() == World(old(rows), old(conns)[conn := RunScript(rows, bound, script[..i]).0])
      {
        ScriptPhase(rows, bound, script[..i]);
        var a := Perform(Event(conn, ctx, Query(script[i])));
        assert script[..i + 1][..i] == script[..i];
        answers := answers + [a];
        i := i + 1;
      }
      if conns[conn].failed { ScriptFails(rows, bound, script, i); }
      assert script[..|script|] == script;
    }

    /** Connect, BEGIN and set_config. */
    method Open(conn: nat, ctx: Ctx)
      requires conn < |conns| && conns[conn].phase == Idle
      modifies this
      ensures Contents() == World(old(rows), old(conns)[conn := BoundConn(old(conns)[conn], ctx)])
    {
      hide LocalOf;
      var a := Perform(Event(conn, ctx, Connect));
      a := Perform(Event(conn, ctx, Begin));
      a := Perform(Event(conn, ctx, SetConfig));
    }

    /** COMMIT or ROLLBACK, and release. */
    method Close(conn: nat, ctx: Ctx, commit: bool)
      requires conn < |conns| && conns[conn].phase == Bound && conns[conn].holder == Some(ctx)
      modifies this
      ensures var c := old(conns)[conn];
              Contents() == World(if commit && !c.failed then Flush(old(rows), c.pending) else old(rows),
                                  old(conns)[conn := EndTx(c).(phase := Idle, holder := None)])
    {
      hide Flush;
      var a;
      if commit { a := Perform(Event(conn, ctx, Commit)); } else { a := Perform(Event(conn, ctx, Rollback)); }
      a := Perform(Event(conn, ctx, Release));
    }

    /** withTenant when nobody interferes: take a connection, begin, bind, run the statements, commit or roll back,
        release. A failed statement throws, and so may the callback after its statements. */
    method WithTenant(conn: nat, ctx: Ctx, script: seq<Stmt>, throws: bool) returns (r: Result<seq<Answer>, string>)
      requires conn < |conns| && conns[conn].phase == Idle
      modifies this
      ensures Contents() == Transacted(old(Contents()), conn, ctx, script, throws).0
      ensures r == Transacted(old(Contents()), conn, ctx, script, throws).1
    {
      ScriptPhase(rows, BoundConn(conns[conn], ctx), script);
      hide Flush, LocalOf, RunScript, EndTx;
      Open(conn, ctx);
      var answers := RunStatements(conn, ctx, script);
      var aborted := conns[conn].failed || throws;
      Close(conn, ctx, !aborted);
      r := if aborted then Err("aborted") else Ok(answers);
    }
  }

  function BoundConn(c: Conn, ctx: Ctx): Conn {
    c.(phase := Bound, holder := Some(ctx), inTx := true, local := LocalOf(ctx))
  }

  function RunScript(rows: Rows, c: Conn, script: seq<Stmt>): (Conn, seq<Answer>) {
    if script == [] then (c, [])
    else
      var n := |script| - 1;
      var (c', answers) := RunScript(rows, c, script[..n]);
      var (c'', a) := ExecStmt(rows, c', script[n]);
      (c'', answers + [a])
  }

  /** All or nothing: the whole script's writes with its answers, or no change and an error. */
  function Transacted(w: World, conn: nat, ctx: Ctx, script: seq<Stmt>, throws: bool):
      (World, Result<seq<Answer>, string>)
    requires conn < |w.conns|
  {
    var (c, answers) := RunScript(w.rows, BoundConn(w.conns[conn], ctx), script);
    var aborted := throws || c.failed;
    (World(if aborted then w.rows else Flush(w.rows, c.pending),
           w.conns[conn := EndTx(c).(phase := Idle, holder := None)]),
     if aborted then Err("aborted") else Ok(answers))
  }

  /** What a transaction gathers is put aside. */
  function Bare(c: Conn): Conn {
    c.(pending := map[], found := {}, failed := false)
  }

  /** A statement touches only the pending writes, the ids given out and the failure mark. */
  lemma ExecShape(rows: Rows, c: Conn, s: Stmt)
    ensures var c' := ExecStmt(rows, c, s).0; Bare(c') == Bare(c) && (c.failed ==> c' == c)
  {
    var view := View(rows, c);
    var seen := Visible(view, c);
    hide Matching, Changed, View, Visible, InsertRow, UpdateRows, DeleteRows, Shown;
    match s {
      case Insert(id, make) => InsertShape(view, c, seen, id, make(seen));
      case Update(where, set_) => WriteShape(view, c, Changed(seen, Matching(seen, where), set_));
      case Delete(where) => WriteShape(view, c, Matching(seen, where));
      case _ =>
    }
  }

  lemma InsertShape(view: Rows, c: Conn, seen: Rows, id: Id, row: Row)
    ensures Bare(InsertRow(view, c, seen, id, row).0) == Bare(c)
  {
    hide MayStart, KeyTaken, ReferencesExist;
  }

  lemma WriteShape(view: Rows, c: Conn, m: Rows)
    ensures Bare(UpdateRows(view, c, m).0) == Bare(c) == Bare(DeleteRows(view, c, m).0)
  {
    hide MayWrite, Swept, Gone, Written, RefsOf;
  }

  lemma {:induction false} ScriptPhase(rows: Rows, c: Conn, script: seq<Stmt>)
    ensures var c' := RunScript(rows, c, script).0; Bare(c') == Bare(c)
  {
    hide ExecStmt;
    if script != [] {
      var c' := RunScript(rows, c, script[..|script| - 1]).0;
      ScriptPhase(rows, c, script[..|script| - 1]);
      ExecShape(rows, c', script[|script| - 1]);
    }
  }

  /** Once a statement has failed nothing more is written. */
  lemma {:induction false} ScriptFails(rows: Rows, c: Conn, script: seq<Stmt>, n: nat)
    requires n <= |script| && RunScript(rows, c, script[..n]).0.failed
    ensures RunScript(rows, c, script).0 == RunScript(rows, c, script[..n]).0
    decreases |script|
  {
    hide ExecStmt;
    if n < |script| {
      var m := |script| - 1;
      assert script[..m][..n] == script[..n];
      ScriptFails(rows, c, script[..m], n);
      ExecShape(rows, RunScript(rows, c, script[..m]).0, script[m]);
    } else {
      assert script[..n] == script;
    }
  }

  // ---------------------------------------------------------------- what every step keeps

  /** Which organization an id was made for; ids are globally unique, so it never changes. */
  type Owner = Id -> Id

  /** A row of the organization, with references to ids of the organization only. */
  predicate RowOwned(row: Row, owner: Owner, org: Id) {
    row.Org() == org && forall c :: c in row.link.refs ==> owner(row.link.refs[c]) == org
  }

  predicate Owned(rows: Rows, owner: Owner) {
    forall id :: id in rows ==> RowOwned(rows[id], owner, owner(id))
  }

  predicate PendingOwned(pending: map<Id, Option<Row>>, owner: Owner, org: Id) {
    forall id :: id in pending ==>
      owner(id) == org && org != "" && (pending[id].Some? ==> RowOwned(pending[id].value, owner, org))
  }

  predicate IdsOwned(ids: set<Id>, owner: Owner, org: Id) {
    forall id :: id in ids ==> owner(id) == org
  }

  /** The event is a tenant's (platform flag off), and the ids it draws for inserts are its organization's. */
  predicate TenantEvent(e: Event, owner: Owner) {
    && !e.ctx.platform
    && (e.act.Query? && e.act.stmt.Insert? ==> owner(e.act.stmt.id) == e.ctx.org)
  }

  predicate TenantRun(run: seq<Event>, owner: Owner) {
    forall i :: 0 <= i < |run| ==> TenantEvent(run[i], owner)
  }

  /** A connection without the blank session values that past transactions leave behind. */
  function Strip(c: Conn): Conn {
    c.(session := map[])
  }

  predicate Blank(session: map<string, string>) {
    forall name :: name in session ==> session[name] == ""
  }

  /** What the phase of a connection says about its settings and its uncommitted writes. */
  predicate ConnOk(c: Conn, owner: Owner) {
    && Blank(c.session)
    && (c.phase == Idle <==> c.holder.None?)
    && (c.holder.Some? ==> !c.holder.value.platform)
    && (c.phase in {Idle, Acquired, Ended} ==> Strip(c) == NEW_CONN.(phase := c.phase, holder := c.holder))
    && (c.phase == Begun ==> Strip(c) == NEW_CONN.(phase := Begun, holder := c.holder, inTx := true))
    && (c.phase == Bound ==>
          && c.inTx && c.local == LocalOf(c.holder.value)
          && PendingOwned(c.pending, owner, c.holder.value.org) && IdsOwned(c.found, owner, c.holder.value.org))
  }

  ghost predicate Inv(w: World, owner: Owner) {
    && Owned(w.rows, owner)
    && forall n :: 0 <= n < |w.conns| ==> ConnOk(w.conns[n], owner)
  }

  /** A statement on a bound connection runs under its holder's organization, and under none if that is empty. */
  lemma BoundContext(c: Conn, owner: Owner)
    requires ConnOk(c, owner)
    ensures !IsPlatformAdmin(c)
    ensures CurrentOrg(c) == (if c.phase == Bound && c.holder.value.org != "" then Some(c.holder.value.org) else None)
    ensures forall org :: OrgVisible(c, org) <==> c.phase == Bound && org != "" && org == c.holder.value.org
    ensures c.phase == Bound ==> SeesOnly(c, c.holder.value.org)
  {
    assert ORG != PLATFORM && ORG != USER && USER != PLATFORM by {
      assert ORG[4] == 'c' && USER[4] == 'c' && PLATFORM[4] == 'i' && ORG[12] == 'o' && USER[12] == 'u';
    }
  }

  function OrgRows(rows: Rows, org: Id): Rows {
    map id | id in rows && rows[id].Org() == org :: rows[id]
  }

  /** A connection that sees one organization at most, over rows that are all where they belong, and whose gathered
      writes and ids are of that organization. */
  ghost predicate Settled(view: Rows, c: Conn, owner: Owner, org: Id) {
    && Owned(view, owner) && PendingOwned(c.pending, owner, org) && IdsOwned(c.found, owner, org)
    && SeesOnly(c, org) && !OrgVisible(c, "")
  }

  lemma VisibleOwned(view: Rows, c: Conn, owner: Owner, org: Id)
    requires Owned(view, owner) && SeesOnly(c, org) && !OrgVisible(c, "")
    ensures forall id :: id in Visible(view, c) ==>
              id in view && owner(id) == org && org != "" && RowOwned(view[id], owner, org)
  {
    hide OrgVisible;
  }

  /** A row that passes the checks of handler and database is one of the organization. */
  lemma WrittenOwned(view: Rows, c: Conn, id: Id, row: Row, owner: Owner, org: Id)
    requires Owned(view, owner) && IdsOwned(c.found, owner, org) && SeesOnly(c, org) && owner(id) == org
    requires MayWrite(view, c, RefsOf(view, id), row)
    ensures RowOwned(row, owner, org)
  {
    hide OrgVisible, ReferencesExist;
    forall k | k in row.link.refs ensures owner(row.link.refs[k]) == org {
      if Kept(RefsOf(view, id), row, k) { assert id in view && RowOwned(view[id], owner, owner(id)); }
    }
  }

  lemma PendingPlus(p: map<Id, Option<Row>>, m: map<Id, Option<Row>>, owner: Owner, org: Id)
    requires PendingOwned(p, owner, org) && PendingOwned(m, owner, org)
    ensures PendingOwned(p + m, owner, org)
  {
    hide RowOwned;
  }

  lemma InsertPending(p: map<Id, Option<Row>>, id: Id, row: Row, owner: Owner, org: Id)
    requires PendingOwned(p, owner, org) && owner(id) == org && org != "" && RowOwned(row, owner, org)
    ensures PendingOwned(p[id := Some(row)], owner, org)
  {
    hide RowOwned;
  }

  /** The writes and ids gathered by a statement are of the organization. */
  ghost predicate Gathers(c: Conn, owner: Owner, org: Id) {
    PendingOwned(c.pending, owner, org) && IdsOwned(c.found, owner, org)
  }

  lemma FailGathers(view: Rows, c: Conn, owner: Owner, org: Id)
    requires Settled(view, c, owner, org)
    ensures Gathers(c, owner, org) && Gathers(Fail(c).0, owner, org)
  {
  }

  lemma AnsweredGathers(view: Rows, c: Conn, rows: Rows, owner: Owner, org: Id)
    requires Settled(view, c, owner, org)
    ensures Gathers(Answered(c, Visible(view, c), rows).0, owner, org)
  {
    VisibleOwned(view, c, owner, org);
    var seen := Visible(view, c);
    assert forall id :: id in seen ==> owner(id) == org && RowOwned(seen[id], owner, org);
    hide PendingOwned, Owned, SeesOnly, Visible, OrgVisible;
  }

  lemma InsertGathers(view: Rows, c: Conn, seen: Rows, id: Id, row: Row, owner: Owner, org: Id)
    requires Settled(view, c, owner, org) && owner(id) == org
    ensures Gathers(InsertRow(view, c, seen, id, row).0, owner, org)
  {
    hide ReferencesFound, ReferencesExist, Owned, PendingOwned, KeyTaken, AtCamerasSite;
    if MayStart(c, seen, row) && id !in view && ReferencesExist(view, map[], row) {
      WrittenOwned(view, c, id, row, owner, org);
      InsertPending(c.pending, id, row, owner, org);
    }
  }

  lemma UpdateGathers(view: Rows, c: Conn, after: Rows, owner: Owner, org: Id)
    requires Settled(view, c, owner, org) && forall id :: id in after ==> owner(id) == org && org != ""
    ensures Gathers(UpdateRows(view, c, after).0, owner, org)
  {
    hide OrgVisible, SeesOnly, Owned, IdsOwned, RowOwned, MayWrite, RefsOf;
    if forall id :: id in after ==> MayWrite(view, c, RefsOf(view, id), after[id]) {
      forall id | id in after ensures RowOwned(after[id], owner, org) {
        WrittenOwned(view, c, id, after[id], owner, org);
      }
      PendingPlus(c.pending, Written(after), owner, org);
    }
  }

  lemma LinksInOrg(view: Rows, owner: Owner)
    requires Owned(view, owner)
    ensures Tables.RefsInOrg(Links(view))
  {
    var links := Links(view);
    forall id, c | id in links && Tables.Cascades(links[id], c) && links[id].refs[c] in links
      ensures links[links[id].refs[c]].org == links[id].org {
      assert RowOwned(view[id], owner, owner(id));
      assert RowOwned(view[links[id].refs[c]], owner, owner(links[id].refs[c]));
    }
  }

  lemma LinksOfOwn(view: Rows, org: Id)
    ensures Links(OrgRows(view, org)) == Tables.OrgRows(Links(view), org)
  {
  }

  /** What a delete reaches are rows of its own organization, and the others have no part in it. */
  lemma {:induction false} GoneOwned(view: Rows, ids: set<Id>, owner: Owner, org: Id)
    requires Owned(view, owner) && forall id :: id in ids ==> id in view && view[id].Org() == org
    ensures Gone(view, ids) <= OrgRows(view, org).Keys
    ensures Gone(view, ids) == Gone(OrgRows(view, org), ids)
  {
    LinksInOrg(view, owner);
    LinksOfOwn(view, org);
    assert ids * view.Keys == ids && ids * OrgRows(view, org).Keys == ids;
    assert Tables.OrgRows(Links(view), org).Keys == OrgRows(view, org).Keys;
    hide Tables.Doomed, Tables.OrgRows, Links, OrgRows, Owned;
    Tables.DoomedInOrg(Links(view), ids, org);
    Tables.DoomedInOwn(Links(view), ids, org);
  }

  lemma {:induction false} NothingGone(view: Rows)
    ensures Gone(view, {}) == {} && Swept(view, {}) == map[]
  {
    var links := Links(view);
    assert {} * view.Keys == {};
    Tables.DoomedIsLeast(links, {});
    assert Tables.Closed(links, {});
  }

  lemma SweptOwned(view: Rows, gone: set<Id>, owner: Owner, org: Id)
    requires Owned(view, owner) && gone <= OrgRows(view, org).Keys && org != ""
    ensures PendingOwned(Swept(view, gone), owner, org)
    ensures Swept(view, gone) == Swept(OrgRows(view, org), gone)
  {
    forall id | id in Swept(view, gone)
      ensures owner(id) == org && view[id].Org() == org && RowOwned(view[id], owner, org) {
      assert RowOwned(view[id], owner, owner(id));
      if id !in gone {
        var c :| c in view[id].link.refs && view[id].link.refs[c] in gone;
        assert RowOwned(view[view[id].link.refs[c]], owner, owner(view[id].link.refs[c]));
      }
    }
  }

  /** A delete gathers what it does over the organization's own rows alone. */
  lemma DeleteGathers(view: Rows, c: Conn, m: Rows, owner: Owner, org: Id)
    requires Settled(view, c, owner, org)
    requires forall id :: id in m ==> id in view && org != "" && view[id].Org() == org
    ensures Gathers(DeleteRows(view, c, m).0, owner, org)
    ensures DeleteRows(OrgRows(view, org), c, m) == DeleteRows(view, c, m)
  {
    hide OrgVisible, SeesOnly, Owned, IdsOwned, PendingOwned, Gone, Swept;
    if m == map[] {
      assert m.Keys == {};
      NothingGone(view);
      NothingGone(OrgRows(view, org));
      assert c.pending + map[] == c.pending;
    } else {
      assert exists id :: id in m;
      GoneOwned(view, m.Keys, owner, org);
      SweptOwned(view, Gone(view, m.Keys), owner, org);
      PendingPlus(c.pending, Swept(view, Gone(view, m.Keys)), owner, org);
    }
  }

  /** A statement touches only rows of the organization. */
  lemma Touched(view: Rows, c: Conn, where: (Rows, Id, Row) -> bool, f: (Rows, Id, Row) -> Row, owner: Owner, org: Id)
    requires Settled(view, c, owner, org)
    ensures var m := Matching(Visible(view, c), where);
            && (forall id :: id in m ==> id in view && org != "" && view[id].Org() == org)
            && forall id :: id in Changed(Visible(view, c), m, f) ==> owner(id) == org && org != ""
  {
    hide PendingOwned, IdsOwned, Owned;
    VisibleOwned(view, c, owner, org);
    hide SeesOnly, OrgVisible, Visible;
  }

  /** A statement gathers writes and ids of its own organization only. */
  lemma {:induction false} StatementGathers(view: Rows, c: Conn, s: Stmt, owner: Owner, org: Id)
    requires Settled(view, c, owner, org) && (s.Insert? ==> owner(s.id) == org)
    ensures Gathers(ExecView(view, c, s).0, owner, org)
  {
    hide Settled, Gathers, Visible, Matching, Changed, Fail, Answered, InsertRow, UpdateRows, DeleteRows;
    var seen := Visible(view, c);
    FailGathers(view, c, owner, org);
    match s {
      case Select(query) => AnsweredGathers(view, c, query(seen), owner, org);
      case Lookup(_, id) => if id in seen { AnsweredGathers(view, c, map[id := seen[id]], owner, org); }
      case Insert(id, make) => InsertGathers(view, c, seen, id, make(seen), owner, org);
      case Update(where, set_) =>
        Touched(view, c, where, set_, owner, org);
        UpdateGathers(view, c, Changed(seen, Matching(seen, where), set_), owner, org);
      case Delete(where) =>
        Touched(view, c, where, (_, _, row) => row, owner, org);
        DeleteGathers(view, c, Matching(seen, where), owner, org);
    }
  }

  /** A bound connection is settled over what it views. */
  lemma BoundIsSettled(rows: Rows, c: Conn, owner: Owner)
    requires Owned(rows, owner) && ConnOk(c, owner) && c.phase == Bound
    ensures Settled(View(rows, c), c, owner, c.holder.value.org)
  {
    BoundContext(c, owner);
    hide OrgVisible, Owned, PendingOwned, IdsOwned, Flush;
    FlushKeepsOwned(rows, c.pending, owner, c.holder.value.org);
  }

  lemma StatementKeepsOk(rows: Rows, c: Conn, s: Stmt, owner: Owner)
    requires Owned(rows, owner) && ConnOk(c, owner) && c.phase == Bound
    requires s.Insert? ==> owner(s.id) == c.holder.value.org
    ensures ConnOk(ExecStmt(rows, c, s).0, owner)
  {
    BoundIsSettled(rows, c, owner);
    ExecShape(rows, c, s);
    StatementGathers(View(rows, c), c, s, owner, c.holder.value.org);
    hide ExecView, PendingOwned, IdsOwned, Settled, Owned, LocalOf, View;
  }

  lemma FlushKeepsOwned(rows: Rows, pending: map<Id, Option<Row>>, owner: Owner, org: Id)
    requires Owned(rows, owner) && PendingOwned(pending, owner, org)
    ensures Owned(Flush(rows, pending), owner)
  {
    hide RowOwned;
  }

  lemma EmptyIsOwned(owner: Owner)
    ensures forall org :: PendingOwned(map[], owner, org)
  {
  }

  lemma StepKeepsInv(w: World, e: Event, owner: Owner)
    requires Inv(w, owner) && Enabled(w, e) && TenantEvent(e, owner)
    ensures Inv(Step(w, e).0, owner)
  {
    hide ExecStmt, Flush, PendingOwned, Owned, LocalOf;
    var c := w.conns[e.conn];
    EmptyIsOwned(owner);
    if e.act.Query? { StatementKeepsOk(w.rows, c, e.act.stmt, owner); ExecShape(w.rows, c, e.act.stmt); }
    if e.act.Commit? { FlushKeepsOwned(w.rows, c.pending, owner, c.holder.value.org); }
  }

  lemma {:induction false} RunKeepsInv(w: World, run: seq<Event>, owner: Owner)
    requires Inv(w, owner) && EnabledRun(w, run) && TenantRun(run, owner)
    ensures Inv(Exec(w, run), owner)
    decreases |run|
  {
    hide Inv, Step, Enabled;
    if run != [] {
      assert TenantEvent(run[0], owner);
      StepKeepsInv(w, run[0], owner);
      assert TenantRun(run[1..], owner);
      RunKeepsInv(Step(w, run[0]).0, run[1..], owner);
    }
  }

  /** A fresh pool over rows whose ids each belong to one organization. */
  lemma FreshPoolIsOk(rows: Rows, size: nat, owner: Owner)
    requires Owned(rows, owner)
    ensures Inv(World(rows, seq(size, _ => NEW_CONN)), owner)
  {
  }

  /** Rows whose references are consistent are where they belong, when every id was made for its row's organization. */
  lemma {:induction false} ConsistentIsOwned(rows: Rows, owner: Owner)
    requires Tables.Consistent(Links(rows)) && forall id :: id in rows ==> rows[id].Org() == owner(id)
    ensures Owned(rows, owner)
  {
    var links := Links(rows);
    hide Tables.Schema, Tables.UniqueKeys;
    forall id, c | id in rows && c in rows[id].link.refs ensures owner(rows[id].link.refs[c]) == owner(id) {
      assert Tables.GoodRow(links, links[id]);
      assert Tables.GoodRef(links, links[id], c);
    }
  }

  /** However transactions interleave, no cascading reference leaves its organization. */
  lemma {:induction false} InterleavedRefsInOrg(w: World, run: seq<Event>, owner: Owner)
    requires Inv(w, owner) && EnabledRun(w, run) && TenantRun(run, owner)
    ensures Tables.RefsInOrg(Links(Exec(w, run).rows))
  {
    RunKeepsInv(w, run, owner);
    hide Tables.RefsInOrg, Links, Owned, ConnOk;
    LinksInOrg(Exec(w, run).rows, owner);
  }

  /** After any run, whatever statement comes next runs under the context of the request that holds the connection,
      and a connection nobody has bound gives no access at all. */
  lemma {:induction false} ContextIsHolders(w: World, run: seq<Event>, owner: Owner, e: Event)
    requires Inv(w, owner) && EnabledRun(w, run) && TenantRun(run, owner)
    requires Enabled(Exec(w, run), e)
    ensures var c := Exec(w, run).conns[e.conn];
            && !IsPlatformAdmin(c)
            && (e.act.Query? ==> CurrentOrg(c) == if e.ctx.org == "" then None else Some(e.ctx.org))
            && (e.act in {Connect, Begin, SetConfig, Release} ==> CurrentOrg(c).None?)
  {
    RunKeepsInv(w, run, owner);
    BoundContext(Exec(w, run).conns[e.conn], owner);
    hide IsPlatformAdmin, CurrentOrg;
  }

  /** A request without an organization sees no rows, is answered as if there were none, and writes nothing. */
  lemma {:induction false} EmptyOrgSeesNothing(rows: Rows, c: Conn, s: Stmt, owner: Owner)
    requires ConnOk(c, owner) && c.phase == Bound && c.holder.value.org == ""
    ensures Visible(View(rows, c), c) == map[]
    ensures ExecStmt(rows, c, s).0.pending == map[]
    ensures ExecStmt(rows, c, s).1 ==
            if c.failed || s.Insert? || s.Lookup? then Denied
            else if s.Select? then Returned(s.query(map[]))
            else Returned(map[])
  {
    BoundContext(c, owner);
    var view := View(rows, c);
    assert Visible(view, c) == map[];
    hide Visible, View, InsertRow, UpdateRows, DeleteRows, OrgVisible, PendingOwned, IdsOwned, Matching, Changed, Shown;
    match s {
      case Insert(id, make) => NotInserted(view, c, map[], id, make(map[]));
      case Update(where, set_) =>
        NothingMatches(where, set_);
        NothingWritten(view, c);
      case Delete(where) =>
        NothingMatches(where, (_, _, row) => row);
        NothingWritten(view, c);
      case _ =>
    }
  }

  lemma NothingMatches(where: (Rows, Id, Row) -> bool, f: (Rows, Id, Row) -> Row)
    ensures Matching(map[], where) == map[] && Changed(map[], map[], f) == map[]
  {
  }

  lemma {:induction false} NothingWritten(view: Rows, c: Conn)
    ensures UpdateRows(view, c, map[]).0.pending == c.pending && UpdateRows(view, c, map[]).1 == Returned(map[])
    ensures DeleteRows(view, c, map[]).0.pending == c.pending && DeleteRows(view, c, map[]).1 == Returned(map[])
  {
    NothingGone(view);
    hide Gone, Swept, MayWrite;
    var none: Rows := map[];
    assert none.Keys == {} && Written(none) == map[] && c.pending + map[] == c.pending;
  }

  lemma NotInserted(view: Rows, c: Conn, seen: Rows, id: Id, row: Row)
    requires forall o :: !OrgVisible(c, o)
    ensures InsertRow(view, c, seen, id, row) == Fail(c)
  {
  }

  // ---------------------------------------------------------------- non-interference

  /** The events of one organization's requests. */
  function Project(run: seq<Event>, org: Id): seq<Event> {
    if run == [] then [] else (if run[0].ctx.org == org then [run[0]] else []) + Project(run[1..], org)
  }

  /** What one organization's requests are answered along a run. */
  function Answers(w: World, run: seq<Event>, org: Id): seq<Answer>
    requires EnabledRun(w, run)
    decreases |run|
  {
    if run == [] then []
    else (if run[0].ctx.org == org then [Step(w, run[0]).1] else []) + Answers(Step(w, run[0]).0, run[1..], org)
  }

  predicate HeldBy(c: Conn, org: Id) {
    c.holder.Some? && c.holder.value.org == org
  }

  /** What one connection looks like to the organization. */
  function Seen(c: Conn, org: Id): Conn {
    if HeldBy(c, org) then Strip(c) else NEW_CONN
  }

  /** v looks to the organization as w does: its rows and the connections it holds; the others are idle in v. */
  ghost predicate Alike(w: World, v: World, org: Id) {
    && OrgRows(w.rows, org) == OrgRows(v.rows, org)
    && |w.conns| == |v.conns|
    && forall n :: 0 <= n < |w.conns| ==> Strip(v.conns[n]) == Seen(w.conns[n], org)
  }

  lemma OrgRowsAgree(rows: Rows, rows': Rows, org: Id, id: Id)
    requires OrgRows(rows, org) == OrgRows(rows', org)
    ensures id in rows && rows[id].Org() == org ==> id in rows' && rows'[id] == rows[id]
  {
    if id in rows && rows[id].Org() == org {
      assert id in OrgRows(rows, org) && OrgRows(rows, org)[id] == rows[id];
      assert OrgRows(rows', org)[id] == rows[id];
    }
  }

  lemma VisibleInOwn(view: Rows, c: Conn, org: Id)
    requires SeesOnly(c, org)
    ensures Visible(OrgRows(view, org), c) == Visible(view, c)
  {
    hide OrgVisible;
  }

  /** Whether a row may be written does not depend on other organizations' rows. */
  lemma MayWriteInOwn(view: Rows, c: Conn, before: map<Tables.Column, Id>, row: Row, owner: Owner, org: Id)
    requires Owned(view, owner) && IdsOwned(c.found, owner, org)
    ensures MayWrite(view, c, before, row) <==> MayWrite(OrgRows(view, org), c, before, row)
  {
    hide OrgVisible, Tables.Schema, Tables.Required;
    if ReferencesFound(c.found, before, row) {
      forall k | k in row.link.refs && !Kept(before, row, k)
        ensures row.link.refs[k] in view <==> row.link.refs[k] in OrgRows(view, org) {
        KeyInOwn(view, row.link.refs[k], owner, org);
      }
    }
  }

  lemma KeyInOwn(view: Rows, id: Id, owner: Owner, org: Id)
    requires Owned(view, owner) && owner(id) == org
    ensures id in view <==> id in OrgRows(view, org)
    ensures RefsOf(view, id) == RefsOf(OrgRows(view, org), id)
  {
    if id in view { assert RowOwned(view[id], owner, owner(id)); }
  }

  /** Left to the database alone, the foreign keys of a row it accepts tell an organization whether another's row
      exists: without the others' rows it would still accept it if and only if every reference stays inside. */
  lemma {:induction false} ReferencesTellIff(view: Rows, c: Conn, row: Row, org: Id)
    requires Accepted(view, c, map[], row)
    ensures Accepted(OrgRows(view, org), c, map[], row)
       <==> forall k :: k in row.link.refs ==> row.link.refs[k] in view && view[row.link.refs[k]].Org() == org
  {
    assert forall k :: k in row.link.refs ==> !Kept(map[], row, k);
    hide OrgVisible, Tables.Schema, Tables.Required, Kept;
  }

  /** A zone under another organization's site: the database takes it when the site exists, the handlers never ask. */
  lemma UnfoundReferenceExample() returns (view: Rows, c: Conn, row: Row)
    ensures Settled(view, c, id => if id == "s" then "B" else "A", "A") && OrgRows(view, "A") == map[]
    ensures Accepted(view, c, map[], row) && !Accepted(map[], c, map[], row)
    ensures !MayWrite(view, c, map[], row)
  {
    view := map["s" := Row(Tables.Row(Tables.Sites, "B", map[]), "")];
    c := BoundConn(NEW_CONN, Ctx("u", "A", false));
    row := Row(Tables.Row(Tables.Zones, "A", map[Tables.SiteId := "s"]), "");
    BoundContext(c, id => if id == "s" then "B" else "A");
    assert Tables.SiteId in row.link.refs && !Kept(map[], row, Tables.SiteId);
  }

  lemma InsertInOwn(view: Rows, c: Conn, seen: Rows, id: Id, row: Row, owner: Owner, org: Id)
    requires Settled(view, c, owner, org) && owner(id) == org
    ensures InsertRow(OrgRows(view, org), c, seen, id, row) == InsertRow(view, c, seen, id, row)
  {
    KeyInOwn(view, id, owner, org);
    MayWriteInOwn(view, c, map[], row, owner, org);
    if row.Org() == org { CorrelationInOwn(view, row, org); }
    assert MayStart(c, seen, row) ==> row.Org() == org;
    hide RefsOf, OrgRows, Owned, PendingOwned, IdsOwned, SeesOnly, OrgVisible, KeyTaken, ReferencesExist,
         ReferencesFound, AtCamerasSite, Tables.Required;
  }

  lemma CorrelationInOwn(view: Rows, row: Row, org: Id)
    requires row.Org() == org
    ensures KeyTaken(OrgRows(view, org), row) == KeyTaken(view, row)
  {
    if row.link.key.Some? {
      assert Tables.Keyed(Links(OrgRows(view, org)), org, row.link.key.value)
          == Tables.Keyed(Links(view), org, row.link.key.value);
    }
  }

  lemma UpdateInOwn(view: Rows, c: Conn, after: Rows, owner: Owner, org: Id)
    requires Settled(view, c, owner, org) && forall id :: id in after ==> owner(id) == org
    ensures UpdateRows(OrgRows(view, org), c, after) == UpdateRows(view, c, after)
  {
    hide MayWrite, RefsOf, OrgRows, Owned, PendingOwned, IdsOwned, SeesOnly, OrgVisible, Written;
    forall id | id in after
      ensures MayWrite(view, c, RefsOf(view, id), after[id])
         <==> MayWrite(OrgRows(view, org), c, RefsOf(OrgRows(view, org), id), after[id]) {
      KeyInOwn(view, id, owner, org);
      MayWriteInOwn(view, c, RefsOf(view, id), after[id], owner, org);
    }
  }

  /** A statement does the same over its own organization's rows alone as over all rows: the policies hide the others,
      and the handlers' lookups keep them out of what foreign keys check and cascades reach. */
  lemma {:induction false} OwnViewSuffices(view: Rows, c: Conn, s: Stmt, owner: Owner, org: Id)
    requires Settled(view, c, owner, org) && (s.Insert? ==> owner(s.id) == org)
    ensures ExecView(OrgRows(view, org), c, s) == ExecView(view, c, s)
  {
    VisibleInOwn(view, c, org);
    hide Settled, Visible, Matching, Changed, Fail, Answered, InsertRow, UpdateRows, DeleteRows, OrgRows;
    var seen := Visible(view, c);
    match s {
      case Select(_) =>
      case Lookup(_, _) =>
      case Insert(id, make) => InsertInOwn(view, c, seen, id, make(seen), owner, org);
      case Update(where, set_) =>
        Touched(view, c, where, set_, owner, org);
        UpdateInOwn(view, c, Changed(seen, Matching(seen, where), set_), owner, org);
      case Delete(where) =>
        Touched(view, c, where, (_, _, row) => row, owner, org);
        DeleteGathers(view, c, Matching(seen, where), owner, org);
    }
  }

  lemma MayWriteStripped(view: Rows, c: Conn, c': Conn)
    requires Strip(c) == Strip(c') && forall o :: OrgVisible(c, o) <==> OrgVisible(c', o)
    ensures forall before, row :: MayWrite(view, c, before, row) <==> MayWrite(view, c', before, row)
  {
    hide OrgVisible, ReferencesExist, ReferencesFound, Tables.Required;
  }

  lemma VisibleStripped(view: Rows, c: Conn, c': Conn)
    requires forall o :: OrgVisible(c, o) <==> OrgVisible(c', o)
    ensures Visible(view, c) == Visible(view, c')
  {
    hide OrgVisible;
  }

  lemma InsertStripped(view: Rows, c: Conn, c': Conn, seen: Rows, id: Id, row: Row)
    requires Strip(c) == Strip(c') && forall o :: OrgVisible(c, o) <==> OrgVisible(c', o)
    ensures Same(InsertRow(view, c, seen, id, row), InsertRow(view, c', seen, id, row))
  {
    hide OrgVisible, KeyTaken, ReferencesExist, ReferencesFound, AtCamerasSite, Tables.Required;
  }

  lemma UpdateStripped(view: Rows, c: Conn, c': Conn, after: Rows)
    requires Strip(c) == Strip(c') && forall o :: OrgVisible(c, o) <==> OrgVisible(c', o)
    ensures Same(UpdateRows(view, c, after), UpdateRows(view, c', after))
  {
    MayWriteStripped(view, c, c');
    hide MayWrite, OrgVisible, Written;
  }

  /** The same answer, and the same connection but for blank session values. */
  predicate Same(x: (Conn, Answer), y: (Conn, Answer)) {
    Strip(x.0) == Strip(y.0) && x.1 == y.1
  }

  lemma StripAlike(view: Rows, c: Conn, c': Conn, s: Stmt)
    requires Strip(c) == Strip(c') && forall o :: OrgVisible(c, o) <==> OrgVisible(c', o)
    ensures Same(ExecView(view, c, s), ExecView(view, c', s))
  {
    VisibleStripped(view, c, c');
    hide OrgVisible, Visible, Matching, Changed, InsertRow, UpdateRows, Gone, Swept, Shown;
    var seen := Visible(view, c);
    match s {
      case Insert(id, make) => InsertStripped(view, c, c', seen, id, make(seen));
      case Update(where, set_) => UpdateStripped(view, c, c', Changed(seen, Matching(seen, where), set_));
      case _ =>
    }
  }

  /** A statement cannot tell apart two worlds that agree on its own organization. */
  lemma {:induction false} StatementAlike(rows: Rows, rows': Rows, c: Conn, c': Conn, s: Stmt, owner: Owner)
    requires Owned(rows, owner) && Owned(rows', owner) && ConnOk(c, owner) && ConnOk(c', owner)
    requires c.phase == Bound && Strip(c) == Strip(c')
    requires OrgRows(rows, c.holder.value.org) == OrgRows(rows', c.holder.value.org)
    requires s.Insert? ==> owner(s.id) == c.holder.value.org
    ensures Same(ExecStmt(rows, c, s), ExecStmt(rows', c', s))
  {
    var org := c.holder.value.org;
    BoundContext(c, owner);
    BoundContext(c', owner);
    BoundIsSettled(rows, c, owner);
    BoundIsSettled(rows', c', owner);
    FlushAlike(rows, rows', c.pending, org, owner);
    hide ExecView, OrgVisible, Owned, OrgRows, SeesOnly, Flush, Settled, PendingOwned, IdsOwned;
    OwnViewSuffices(View(rows, c), c, s, owner, org);
    OwnViewSuffices(View(rows', c'), c', s, owner, org);
    StripAlike(OrgRows(View(rows, c), org), c, c', s);
  }

  lemma FlushAlike(rows: Rows, rows': Rows, pending: map<Id, Option<Row>>, org: Id, owner: Owner)
    requires Owned(rows, owner) && Owned(rows', owner) && PendingOwned(pending, owner, org)
    requires OrgRows(rows, org) == OrgRows(rows', org)
    ensures OrgRows(Flush(rows, pending), org) == OrgRows(Flush(rows', pending), org)
  {
    forall id ensures id in rows && rows[id].Org() == org <==> id in rows' && rows'[id].Org() == org
              ensures id in rows && rows[id].Org() == org ==> rows'[id] == rows[id] {
      OrgRowsAgree(rows, rows', org, id);
      OrgRowsAgree(rows', rows, org, id);
    }
  }

  /** A commit leaves the rows of every other organization as they are. */
  lemma FlushLeavesOthers(rows: Rows, pending: map<Id, Option<Row>>, owner: Owner, org: Id, other: Id)
    requires Owned(rows, owner) && PendingOwned(pending, owner, org) && org != other
    ensures OrgRows(Flush(rows, pending), other) == OrgRows(rows, other)
  {
    assert forall id :: id in rows && rows[id].Org() == other ==> id !in pending;
    assert forall id :: id in pending && pending[id].Some? ==> pending[id].value.Org() != other;
  }

  lemma ChangeAlike(w: World, v: World, rows: Rows, rows': Rows, n: nat, d: Conn, d': Conn, org: Id)
    requires Alike(w, v, org) && n < |w.conns| && OrgRows(rows, org) == OrgRows(rows', org)
    requires Strip(d') == Seen(d, org)
    ensures Alike(World(rows, w.conns[n := d]), World(rows', v.conns[n := d']), org)
  {
    hide Strip, HeldBy, OrgRows;
  }

  /** The organization's own step has the same answer in both worlds and keeps them alike. */
  lemma OwnStepAlike(w: World, v: World, e: Event, owner: Owner)
    requires Inv(w, owner) && Inv(v, owner) && Alike(w, v, e.ctx.org) && Enabled(w, e) && TenantEvent(e, owner)
    ensures Enabled(v, e) && Alike(Step(w, e).0, Step(v, e).0, e.ctx.org) && Step(w, e).1 == Step(v, e).1
  {
    var c, c' := w.conns[e.conn], v.conns[e.conn];
    assert ConnOk(c, owner) && ConnOk(c', owner) && Strip(c') == Seen(c, e.ctx.org);
    hide ExecStmt, Flush, OrgRows, PendingOwned, LocalOf, Blank, Owned, Alike;
    match e.act {
      case Query(s) =>
        AlikeRows(w, v, e.ctx.org);
        StatementAlike(w.rows, v.rows, c, c', s, owner);
        ExecShape(w.rows, c, s);
        ExecShape(v.rows, c', s);
      case Commit =>
        AlikeRows(w, v, e.ctx.org);
        FlushAlike(w.rows, v.rows, c.pending, e.ctx.org, owner);
      case _ => AlikeRows(w, v, e.ctx.org);
    }
    var w', v' := Step(w, e).0, Step(v, e).0;
    ChangeAlike(w, v, w'.rows, v'.rows, e.conn, w'.conns[e.conn], v'.conns[e.conn], e.ctx.org);
  }

  lemma AlikeRows(w: World, v: World, org: Id)
    requires Alike(w, v, org)
    ensures OrgRows(w.rows, org) == OrgRows(v.rows, org)
  {
  }

  /** A step of another organization is invisible. */
  lemma OtherStepAlike(w: World, v: World, e: Event, org: Id, owner: Owner)
    requires Inv(w, owner) && Alike(w, v, org) && Enabled(w, e) && TenantEvent(e, owner) && e.ctx.org != org
    ensures Alike(Step(w, e).0, v, org)
  {
    var c, c' := w.conns[e.conn], v.conns[e.conn];
    assert ConnOk(c, owner) && Strip(c') == Seen(c, org);
    AlikeRows(w, v, org);
    hide ExecStmt, Flush, OrgRows, PendingOwned, LocalOf, Blank, Owned, Alike;
    if e.act.Query? { ExecShape(w.rows, c, e.act.stmt); }
    if e.act.Commit? { FlushLeavesOthers(w.rows, c.pending, owner, c.holder.value.org, org); }
    var w' := Step(w, e).0;
    ChangeAlike(w, v, w'.rows, v.rows, e.conn, w'.conns[e.conn], c', org);
    assert v.conns[e.conn := c'] == v.conns;
  }

  lemma {:induction false} AlikeRuns(w: World, v: World, run: seq<Event>, org: Id, owner: Owner)
    requires Inv(w, owner) && Inv(v, owner) && Alike(w, v, org) && EnabledRun(w, run) && TenantRun(run, owner)
    ensures EnabledRun(v, Project(run, org))
    ensures Answers(w, run, org) == Answers(v, Project(run, org), org)
    ensures Alike(Exec(w, run), Exec(v, Project(run, org)), org)
    decreases |run|
  {
    hide Inv, Step, Enabled, Alike;
    if run != [] {
      var e := run[0];
      assert TenantEvent(e, owner) && TenantRun(run[1..], owner);
      StepKeepsInv(w, e, owner);
      if e.ctx.org == org {
        OwnStepAlike(w, v, e, owner);
        StepKeepsInv(v, e, owner);
        AlikeRuns(Step(w, e).0, Step(v, e).0, run[1..], org, owner);
        assert Project(run, org)[1..] == Project(run[1..], org);
      } else {
        OtherStepAlike(w, v, e, org, owner);
        AlikeRuns(Step(w, e).0, v, run[1..], org, owner);
        assert Project(run, org) == Project(run[1..], org);
      }
    }
  }

  /** Whatever the other organizations do in between, one organization's requests on a fresh pool get the answers, and
      leave the rows, that they would alone. */
  lemma {:induction false} NonInterference(rows: Rows, size: nat, run: seq<Event>, org: Id, owner: Owner)
    requires Owned(rows, owner) && TenantRun(run, owner)
    requires EnabledRun(World(rows, seq(size, _ => NEW_CONN)), run)
    ensures var w := World(rows, seq(size, _ => NEW_CONN));
            var alone := Project(run, org);
            && EnabledRun(w, alone)
            && Answers(w, run, org) == Answers(w, alone, org)
            && OrgRows(Exec(w, run).rows, org) == OrgRows(Exec(w, alone).rows, org)
  {
    var w := World(rows, seq(size, _ => NEW_CONN));
    FreshPoolIsOk(rows, size, owner);
    AlikeRuns(w, w, run, org, owner);
  }

  /** An organization that sends nothing keeps its rows. */
  lemma {:induction false} SilentOrgKeepsRows(rows: Rows, size: nat, run: seq<Event>, org: Id, owner: Owner)
    requires Owned(rows, owner) && TenantRun(run, owner)
    requires EnabledRun(World(rows, seq(size, _ => NEW_CONN)), run)
    requires forall i :: 0 <= i < |run| ==> run[i].ctx.org != org
    ensures OrgRows(Exec(World(rows, seq(size, _ => NEW_CONN)), run).rows, org) == OrgRows(rows, org)
  {
    NonInterference(rows, size, run, org, owner);
    NothingToProject(run, org);
  }

  lemma {:induction false} NothingToProject(run: seq<Event>, org: Id)
    requires forall i :: 0 <= i < |run| ==> run[i].ctx.org != org
    ensures Project(run, org) == []
  {
    if run != [] { NothingToProject(run[1..], org); }
  }

  /** With the platform flag on, the policies let every row through. */
  lemma PlatformSeesEveryRow(rows: Rows, ctx: Ctx)
    requires ctx.platform
    ensures ExecStmt(rows, BoundConn(NEW_CONN, ctx), Select(seen => seen)).1 == Returned(rows)
  {
    var c := BoundConn(NEW_CONN, ctx);
    assert IsPlatformAdmin(c);
    assert View(rows, c) == rows;
    assert Visible(rows, c) == rows;
  }
}
