/**
 What statements do to the rows, foreign keys and cascades included, and what transactions leave
 (server/src/db/pool.ts over server/src/db/migrations/0001_init.sql).
 */
module Statements {
  import opened Wrappers
  import opened Pool
  import Tables

  // ---------------------------------------------------------------- what statements do to the rows

  lemma FlushPlus(rows: Rows, p: map<Id, Option<Row>>, m: map<Id, Option<Row>>)
    ensures Flush(rows, p + m) == Flush(Flush(rows, p), m)
  {
  }

  lemma FlushInsert(rows: Rows, p: map<Id, Option<Row>>, id: Id, row: Row)
    ensures Flush(rows, p[id := Some(row)]) == Flush(rows, p)[id := row]
  {
  }

  lemma FlushWritten(view: Rows, after: Rows)
    ensures Flush(view, Written(after)) == view + after
  {
  }

  lemma FlushSwept(view: Rows, gone: set<Id>)
    ensures Links(Flush(view, Swept(view, gone))) == Tables.Remove(Links(view), gone)
  {
    var after := Flush(view, Swept(view, gone));
    forall id ensures id in after <==> id in view && id !in gone
              ensures id in after ==> after[id].link == Tables.NullOut(view[id].link, gone) {
      if id in view && id !in gone && !Refers(view[id], gone) {
        assert Tables.NullOut(view[id].link, gone).refs == view[id].link.refs;
      }
    }
  }

  /** A bound connection's own organization's rows are what it sees. */
  lemma SeesItsOwn(view: Rows, c: Conn, owner: Owner)
    requires ConnOk(c, owner) && c.phase == Bound && c.holder.value.org != ""
    ensures Visible(view, c) == OrgRows(view, c.holder.value.org)
  {
    BoundContext(c, owner);
    hide OrgVisible;
  }

  /** A tenant's connection, bound to an organization and not failed. */
  ghost predicate Ready(c: Conn, owner: Owner) {
    ConnOk(c, owner) && c.phase == Bound && c.holder.value.org != "" && !c.failed
  }

  lemma ReadySees(view: Rows, c: Conn, owner: Owner)
    requires Ready(c, owner)
    ensures Visible(view, c) == OrgRows(view, c.holder.value.org) && !c.failed
  {
    SeesItsOwn(view, c, owner);
  }

  /** What the statements of such a connection come down to. */
  lemma ReadyReads(rows: Rows, c: Conn, query: Rows -> Rows, table: Tables.Table, id: Id, owner: Owner)
    requires Ready(c, owner)
    ensures c.holder.Some?
    ensures var own := OrgRows(View(rows, c), c.holder.value.org);
            && ExecStmt(rows, c, Select(query)) == Answered(c, own, query(own))
            && ExecStmt(rows, c, Lookup(table, id))
               == if id in own && own[id].link.table == table then Answered(c, own, map[id := own[id]]) else Fail(c)
  {
    ReadySees(View(rows, c), c, owner);
    hide Ready, Visible, OrgRows, View, Answered, Fail;
  }

  lemma ReadyInserts(rows: Rows, c: Conn, id: Id, make: Rows -> Row, owner: Owner)
    requires Ready(c, owner)
    ensures c.holder.Some?
    ensures var own := OrgRows(View(rows, c), c.holder.value.org);
            ExecStmt(rows, c, Insert(id, make)) == InsertRow(View(rows, c), c, own, id, make(own))
  {
    ReadySees(View(rows, c), c, owner);
    hide Ready, Visible, OrgRows, View, InsertRow;
  }

  lemma ReadyUpdates(rows: Rows, c: Conn, where: (Rows, Id, Row) -> bool, set_: (Rows, Id, Row) -> Row, owner: Owner)
    requires Ready(c, owner)
    ensures c.holder.Some?
    ensures var own := OrgRows(View(rows, c), c.holder.value.org);
            ExecStmt(rows, c, Update(where, set_))
            == UpdateRows(View(rows, c), c, Changed(own, Matching(own, where), set_))
  {
    ReadySees(View(rows, c), c, owner);
    hide Ready, Visible, OrgRows, View, UpdateRows, Changed, Matching;
  }

  lemma ReadyDeletes(rows: Rows, c: Conn, where: (Rows, Id, Row) -> bool, owner: Owner)
    requires Ready(c, owner)
    ensures c.holder.Some?
    ensures var own := OrgRows(View(rows, c), c.holder.value.org);
            ExecStmt(rows, c, Delete(where)) == DeleteRows(View(rows, c), c, Matching(own, where))
  {
    ReadySees(View(rows, c), c, owner);
    hide Ready, Visible, OrgRows, View, DeleteRows, Matching;
  }

  /** A query computes with the rows of its own organization and changes nothing; a lookup finds the row exactly if it
      is one of them, of that table. */
  lemma ReadMeans(rows: Rows, c: Conn, query: Rows -> Rows, table: Tables.Table, id: Id, owner: Owner)
    requires Ready(c, owner)
    ensures var view := View(rows, c); var own := OrgRows(view, c.holder.value.org);
            var (c1, a1) := ExecStmt(rows, c, Select(query));
            var (c2, a2) := ExecStmt(rows, c, Lookup(table, id));
            && !c1.failed && c1.pending == c.pending && a1 == Returned(query(own))
            && (!c2.failed <==> id in own && own[id].link.table == table) && c2.pending == c.pending
            && (c2.failed ==> a2 == Denied) && (!c2.failed ==> a2 == Returned(map[id := own[id]]))
            && (forall k :: k in c1.found <==> k in c.found || GivenBy(own, query(own).Keys, k))
            && (!c2.failed ==> forall k :: k in c2.found <==> k in c.found || k == id || k in own[id].link.refs.Values)
  {
    hide ExecStmt, Visible, OrgRows, View, Shown;
    ReadyReads(rows, c, query, table, id, owner);
    var own := OrgRows(View(rows, c), c.holder.value.org);
    ShownIsGiven(own, query(own).Keys);
    ShownIsGiven(own, {id});
    if id in own { LookupGives(own, id); }
  }

  /** An id that rows shown to the handler give it: one of theirs, or one that they refer to. */
  ghost predicate GivenBy(own: Rows, ids: set<Id>, k: Id) {
    exists id :: id in ids && id in own && (k == id || k in own[id].link.refs.Values)
  }

  lemma LookupGives(own: Rows, id: Id)
    requires id in own
    ensures map[id := own[id]].Keys == {id}
    ensures forall k :: GivenBy(own, {id}, k) <==> k == id || k in own[id].link.refs.Values
  {
    assert forall k :: k == id || k in own[id].link.refs.Values ==> id in {id} && GivenBy(own, {id}, k);
  }

  lemma ShownIsGiven(own: Rows, ids: set<Id>)
    ensures forall k :: k in Shown(own, ids) <==> GivenBy(own, ids, k)
  {
  }

  /** An insert that is not refused puts exactly this row under its new id; one whose correlation id the organization
      has already used puts nothing. */
  lemma InsertMeans(rows: Rows, c: Conn, id: Id, make: Rows -> Row, owner: Owner)
    requires Ready(c, owner)
    ensures var view := View(rows, c); var row := make(OrgRows(view, c.holder.value.org));
            var (c', a) := ExecStmt(rows, c, Insert(id, make));
            && (c'.failed ==> a == Denied && c'.pending == c.pending)
            && (!c'.failed ==>
                  if KeyTaken(view, row) then a == Returned(map[]) && View(rows, c') == view
                  else id !in view && a == Returned(map[id := row]) && View(rows, c') == view[id := row])
  {
    hide ExecStmt, OrgRows, Flush, MayStart, KeyTaken, ReferencesExist, ConnOk;
    ReadyInserts(rows, c, id, make, owner);
    FlushInsert(rows, c.pending, id, make(OrgRows(View(rows, c), c.holder.value.org)));
  }

  /** And a row whose correlation id is not in use is refused exactly if it is not the organization's own, its id is
      taken, it would not be consistent with the organization's rows, or it refers to something the transaction has not
      been shown. */
  lemma {:induction false} InsertAcceptedIff(rows: Rows, c: Conn, id: Id, make: Rows -> Row, owner: Owner)
    requires Owned(rows, owner) && Ready(c, owner) && owner(id) == c.holder.value.org
    requires !KeyTaken(View(rows, c), make(OrgRows(View(rows, c), c.holder.value.org)))
    ensures var own := OrgRows(View(rows, c), c.holder.value.org); var row := make(own);
            !ExecStmt(rows, c, Insert(id, make)).0.failed
            <==> && row.Org() == c.holder.value.org && id !in own && Tables.GoodRow(Links(own), row.link)
                 && forall k :: k in row.link.refs ==> row.link.refs[k] in c.found
  {
    var view, org := View(rows, c), c.holder.value.org;
    var own := OrgRows(view, org);
    var row := make(own);
    BoundIsSettled(rows, c, owner);
    BoundContext(c, owner);
    ReadySees(view, c, owner);
    KeyInOwn(view, id, owner, org);
    hide ConnOk, Visible, OrgRows, View, Owned, Settled, OrgVisible, KeyTaken, InsertRow, Tables.GoodRow, MayStart,
         ReferencesExist;
    InsertIsGood(view, c, row, owner, org);
    InsertSucceeds(view, c, own, id, row);
  }

  lemma InsertSucceeds(view: Rows, c: Conn, seen: Rows, id: Id, row: Row)
    requires !c.failed && !KeyTaken(view, row)
    ensures !InsertRow(view, c, seen, id, row).0.failed
       <==> MayStart(c, seen, row) && id !in view && ReferencesExist(view, map[], row)
  {
    hide MayStart, ReferencesExist, KeyTaken;
  }

  lemma {:induction false} InsertIsGood(view: Rows, c: Conn, row: Row, owner: Owner, org: Id)
    requires Settled(view, c, owner, org) && (OrgVisible(c, row.Org()) <==> row.Org() == org)
    ensures MayStart(c, OrgRows(view, org), row) && ReferencesExist(view, map[], row)
       <==> && row.Org() == org && Tables.GoodRow(Links(OrgRows(view, org)), row.link)
            && forall k :: k in row.link.refs ==> row.link.refs[k] in c.found
  {
    var own := OrgRows(view, org);
    if ReferencesFound(c.found, map[], row) && row.Org() == org { ExistIsGoodNew(view, c, row, owner, org); }
    if forall k :: Tables.Required(row.link.table, k) ==> k in row.link.refs { SiteIsGood(own, row); }
    assert Found(c.found, row) <==> ReferencesFound(c.found, map[], row);
    hide OrgRows, ReferencesExist, ReferencesFound, Links, OrgVisible, Tables.Required, Tables.Schema, Tables.GoodRef,
         AtCamerasSite, Settled;
  }

  predicate Found(found: set<Id>, row: Row) {
    forall k :: k in row.link.refs ==> row.link.refs[k] in found
  }

  lemma ExistIsGood(view: Rows, c: Conn, before: map<Tables.Column, Id>, row: Row, owner: Owner, org: Id)
    requires Settled(view, c, owner, org) && ReferencesFound(c.found, before, row) && row.Org() == org
    ensures ReferencesExist(view, before, row)
       <==> forall k :: Kept(before, row, k) || Tables.GoodRef(Links(OrgRows(view, org)), row.link, k)
  {
    forall k | !Kept(before, row, k)
      ensures PointsAt(view, row, k) <==> Tables.GoodRef(Links(OrgRows(view, org)), row.link, k) {
      if k in row.link.refs { TargetInOwn(view, row.link.refs[k], owner, org); }
    }
    hide Tables.GoodRef, Kept, PointsAt;
  }

  lemma ExistIsGoodNew(view: Rows, c: Conn, row: Row, owner: Owner, org: Id)
    requires Settled(view, c, owner, org) && ReferencesFound(c.found, map[], row) && row.Org() == org
    ensures ReferencesExist(view, map[], row) <==> forall k :: Tables.GoodRef(Links(OrgRows(view, org)), row.link, k)
  {
    ExistIsGood(view, c, map[], row, owner, org);
    assert forall k :: !Kept(map[], row, k);
    hide Tables.GoodRef, Kept, PointsAt;
  }

  lemma TargetInOwn(view: Rows, id: Id, owner: Owner, org: Id)
    requires Owned(view, owner) && owner(id) == org
    ensures id in view <==> id in Links(OrgRows(view, org))
    ensures id in view ==> Links(OrgRows(view, org))[id] == view[id].link && view[id].Org() == org
  {
    if id in view { assert RowOwned(view[id], owner, owner(id)); }
  }

  lemma SiteIsGood(own: Rows, row: Row)
    requires forall k :: Tables.Required(row.link.table, k) ==> k in row.link.refs
    ensures row.link.table == Tables.Events ==> Tables.CameraId in row.link.refs && Tables.SiteId in row.link.refs
    ensures AtCamerasSite(own, row)
       <==> (row.link.table == Tables.Events ==>
               Tables.SiteOfCamera(Links(own), row.link.refs[Tables.CameraId]) == Some(row.link.refs[Tables.SiteId]))
  {
    assert Tables.Required(Tables.Events, Tables.CameraId) && Tables.Required(Tables.Events, Tables.SiteId);
  }

  /** An update that is not refused rewrites the rows of its own organization that match, and no others. */
  lemma UpdateMeans(rows: Rows, c: Conn, where: (Rows, Id, Row) -> bool, set_: (Rows, Id, Row) -> Row, owner: Owner)
    requires Ready(c, owner)
    ensures var view := View(rows, c); var own := OrgRows(view, c.holder.value.org);
            var (c', a) := ExecStmt(rows, c, Update(where, set_));
            && (c'.failed ==> a == Denied && c'.pending == c.pending)
            && (!c'.failed ==>
                  && a.Returned? && View(rows, c') == view + a.rows
                  && (forall id :: id in a.rows <==> id in own && where(own, id, own[id]))
                  && forall id :: id in a.rows ==> SetTo(own[id], set_(own, id, own[id]), a.rows[id]))
  {
    hide ExecStmt, OrgRows, View, UpdateRows, SetTo, Matching, Changed, ConnOk;
    ReadyUpdates(rows, c, where, set_, owner);
    var own := OrgRows(View(rows, c), c.holder.value.org);
    UpdateWrites(rows, c, Changed(own, Matching(own, where), set_));
    ChangedIsSet(own, where, set_);
  }

  /** And it is refused exactly if one of these rows would leave the organization, or lose a NOT NULL reference, or get
      a new one that is not good or that the transaction has not been shown. */
  lemma {:induction false} UpdateAcceptedIff(rows: Rows, c: Conn, where: (Rows, Id, Row) -> bool,
                                             set_: (Rows, Id, Row) -> Row, owner: Owner)
    requires Owned(rows, owner) && Ready(c, owner)
    ensures var own := OrgRows(View(rows, c), c.holder.value.org);
            var after := Changed(own, Matching(own, where), set_);
            !ExecStmt(rows, c, Update(where, set_)).0.failed
            <==> forall id :: id in after ==> id in own && FitsIn(own, c, own[id].link.refs, after[id])
  {
    var view, org := View(rows, c), c.holder.value.org;
    var own := OrgRows(view, org);
    var after := Changed(own, Matching(own, where), set_);
    BoundIsSettled(rows, c, owner);
    BoundContext(c, owner);
    ReadySees(view, c, owner);
    OwnRowsAre(view, org);
    hide ConnOk, Visible, OrgRows, View, Owned, Settled, OrgVisible, MayWrite, FitsIn, Written;
    forall id | id in after ensures id in own && (MayWrite(view, c, RefsOf(view, id), after[id])
                                                  <==> FitsIn(own, c, own[id].link.refs, after[id])) {
      assert RefsOf(view, id) == own[id].link.refs;
      MayWriteIsFit(view, c, own[id].link.refs, after[id], owner, org);
    }
    hide Changed, Matching, RefsOf;
  }

  /** A row that the organization may hold, given what it held before and what the transaction has been shown. */
  ghost predicate FitsIn(own: Rows, c: Conn, before: map<Tables.Column, Id>, row: Row) {
    && c.holder.Some? && row.Org() == c.holder.value.org
    && (forall k :: Tables.Required(row.link.table, k) ==> k in row.link.refs)
    && forall k :: k in row.link.refs ==>
         || (k in before && before[k] == row.link.refs[k])
         || (row.link.refs[k] in c.found && Tables.GoodRef(Links(own), row.link, k))
  }

  lemma {:induction false} MayWriteIsFit(view: Rows, c: Conn, before: map<Tables.Column, Id>, row: Row,
                                         owner: Owner, org: Id)
    requires Settled(view, c, owner, org) && c.holder.Some? && c.holder.value.org == org
    requires OrgVisible(c, row.Org()) <==> row.Org() == org
    ensures MayWrite(view, c, before, row) <==> FitsIn(OrgRows(view, org), c, before, row)
  {
    if ReferencesFound(c.found, before, row) && row.Org() == org { ExistIsGood(view, c, before, row, owner, org); }
    hide OrgVisible, Settled, Owned, OrgRows, Links, Tables.Required, PointsAt;
    assert forall k :: k !in row.link.refs ==> Tables.GoodRef(Links(OrgRows(view, org)), row.link, k);
    hide Tables.GoodRef;
  }

  lemma UpdateWrites(rows: Rows, c: Conn, after: Rows)
    requires !c.failed
    ensures var (c', a) := UpdateRows(View(rows, c), c, after);
            if c'.failed then a == Denied && c'.pending == c.pending
            else a == Returned(after) && View(rows, c') == View(rows, c) + after
  {
    FlushPlus(rows, c.pending, Written(after));
    FlushWritten(View(rows, c), after);
    hide Flush, MayWrite, Written, RefsOf;
  }

  /** The row holds what it was set to, but for its table, its correlation id and its NOT NULL references. */
  ghost predicate SetTo(was: Row, to: Row, row: Row) {
    && row.data == to.data && row.Org() == to.Org()
    && row.link.table == was.link.table && row.link.key == was.link.key
    && forall c ::
         var kept := if Tables.Required(was.link.table, c) then was.link.refs else to.link.refs;
         (c in row.link.refs <==> c in kept) && (c in row.link.refs ==> row.link.refs[c] == kept[c])
  }

  lemma ChangedIsSet(own: Rows, where: (Rows, Id, Row) -> bool, set_: (Rows, Id, Row) -> Row)
    ensures var after := Changed(own, Matching(own, where), set_);
            && (forall id :: id in after <==> id in own && where(own, id, own[id]))
            && forall id :: id in after ==> SetTo(own[id], set_(own, id, own[id]), after[id])
  {
    hide Tables.Required;
  }

  /** A delete is never refused. It removes the rows of its own organization that match, with all that cascades take
      along, and clears the other references to them. */
  lemma {:induction false} DeleteMeans(rows: Rows, c: Conn, where: (Rows, Id, Row) -> bool, owner: Owner)
    requires Ready(c, owner)
    ensures var view := View(rows, c); var own := OrgRows(view, c.holder.value.org);
            var (c', a) := ExecStmt(rows, c, Delete(where));
            && !c'.failed && a.Returned? && a.rows.Keys <= Links(view).Keys
            && (forall id :: id in a.rows <==> id in own && where(own, id, own[id]))
            && Links(View(rows, c')) == Tables.Remove(Links(view), Tables.Doomed(Links(view), a.rows.Keys))
  {
    hide ExecStmt, View, DeleteRows, Links, Tables.Doomed, Tables.Remove, ConnOk;
    ReadyDeletes(rows, c, where, owner);
    var view := View(rows, c);
    var own := OrgRows(view, c.holder.value.org);
    assert forall id :: id in own ==> id in view;
    hide OrgRows;
    var m := Matching(own, where);
    assert forall id :: id in m <==> id in own && where(own, id, own[id]);
    hide Matching;
    DeleteCascades(rows, c, m);
    DeleteAnswers(view, c, m);
  }

  lemma DeleteAnswers(view: Rows, c: Conn, m: Rows)
    ensures DeleteRows(view, c, m).1 == Returned(m) && DeleteRows(view, c, m).0.failed == c.failed
  {
    hide Swept, Gone;
  }

  lemma DeleteCascades(rows: Rows, c: Conn, m: Rows)
    requires m.Keys <= View(rows, c).Keys
    ensures m.Keys <= Links(View(rows, c)).Keys
    ensures Links(View(rows, DeleteRows(View(rows, c), c, m).0))
         == Tables.Remove(Links(View(rows, c)), Tables.Doomed(Links(View(rows, c)), m.Keys))
  {
    var view := View(rows, c);
    assert m.Keys * view.Keys == m.Keys;
    FlushPlus(rows, c.pending, Swept(view, Gone(view, m.Keys)));
    FlushSwept(view, Gone(view, m.Keys));
    hide Tables.Doomed, Tables.Remove, Swept, Flush;
  }

  // ---------------------------------------------------------------- consistency of what a transaction leaves

  /** New references of a row that may be written are good, and so are those it keeps. */
  lemma {:induction false} WrittenIsGood(view: Rows, c: Conn, before: map<Tables.Column, Id>, row: Row,
                                         owner: Owner, org: Id, k: Tables.Column)
    requires Settled(view, c, owner, org) && row.Org() == org
    requires ReferencesFound(c.found, before, row) && ReferencesExist(view, before, row)
    requires Kept(before, row, k) ==> Tables.GoodRef(Links(view), row.link, k)
    ensures Tables.GoodRef(Links(view), row.link, k)
  {
    hide OrgVisible, SeesOnly, PendingOwned, Tables.Schema;
    if k in row.link.refs && !Kept(before, row, k) {
      var target := row.link.refs[k];
      assert owner(target) == org && RowOwned(view[target], owner, owner(target));
    }
  }

  lemma {:induction false} InsertConsistent(view: Rows, c: Conn, seen: Rows, id: Id, row: Row, owner: Owner, org: Id)
    requires Settled(view, c, owner, org) && Tables.Consistent(Links(view))
    requires MayStart(c, seen, row) && !KeyTaken(view, row) && id !in view && ReferencesExist(view, map[], row)
    requires forall k :: k in seen ==> k in view && view[k] == seen[k]
    ensures Tables.Consistent(Links(view[id := row]))
  {
    var links := Links(view);
    assert Links(view[id := row]) == links[id := row.link];
    assert row.Org() == org;
    forall k ensures Tables.GoodRef(links, row.link, k) { WrittenIsGood(view, c, map[], row, owner, org, k); }
    if row.link.table == Tables.Events {
      assert Tables.Required(Tables.Events, Tables.CameraId) && Tables.Required(Tables.Events, Tables.SiteId);
      SameSite(view, seen, row.link.refs[Tables.CameraId]);
    }
    hide Settled, Tables.Consistent, Tables.UniqueKeys, Tables.GoodRef, Tables.Schema, Tables.Required, Links,
         ReferencesExist, ReferencesFound;
    Tables.InsertKeeps(links, id, row.link);
  }

  lemma SameSite(view: Rows, seen: Rows, camera: Id)
    requires forall k :: k in seen ==> k in view && view[k] == seen[k]
    ensures Tables.SiteOfCamera(Links(seen), camera).Some? ==>
              Tables.SiteOfCamera(Links(view), camera) == Tables.SiteOfCamera(Links(seen), camera)
  {
  }

  /** The rows of an update, taken from the rows they replace. */
  ghost predicate Rewrites(view: Rows, after: Rows) {
    forall id :: id in after ==> id in view && exists to :: after[id].link == Rewritten(view[id].link, to)
  }

  lemma RewrittenKeeps(was: Tables.Row, to: Tables.Row, c: Tables.Column)
    ensures Rewritten(was, to).table == was.table && Rewritten(was, to).key == was.key
    ensures Tables.Required(was.table, c) && c in was.refs ==>
              c in Rewritten(was, to).refs && Rewritten(was, to).refs[c] == was.refs[c]
  {
  }

  lemma {:induction false} UpdateConsistent(view: Rows, c: Conn, after: Rows, owner: Owner, org: Id)
    requires Settled(view, c, owner, org) && Tables.Consistent(Links(view)) && Rewrites(view, after)
    requires forall id :: id in after ==> view[id].Org() == org && MayWrite(view, c, RefsOf(view, id), after[id])
    ensures Tables.Consistent(Links(view + after))
  {
    var links, links' := Links(view), Links(view + after);
    forall k | k in links'
      ensures links'[k].table == links[k].table && links'[k].org == links[k].org && links'[k].key == links[k].key
      ensures forall q :: Tables.Required(links[k].table, q) && q in links[k].refs ==>
                            q in links'[k].refs && links'[k].refs[q] == links[k].refs[q]
      ensures forall q :: Tables.GoodRef(links, links'[k], q) {
      assert Tables.GoodRow(links, links[k]);
      if k in after { RowUpdated(view, c, k, after[k], owner, org); }
    }
    hide Settled, Links, Tables.GoodRef, Tables.Schema, Tables.Required, MayWrite, Rewrites;
    Tables.RewriteKeeps(links, links');
  }

  lemma {:induction false} RowUpdated(view: Rows, c: Conn, id: Id, row: Row, owner: Owner, org: Id)
    requires Settled(view, c, owner, org) && id in view && Tables.GoodRow(Links(view), view[id].link)
    requires MayWrite(view, c, RefsOf(view, id), row) && view[id].Org() == org
    requires exists to :: row.link == Rewritten(view[id].link, to)
    ensures row.link.table == view[id].link.table && row.link.org == org && row.link.key == view[id].link.key
    ensures forall q :: Tables.Required(row.link.table, q) && q in view[id].link.refs ==>
                          q in row.link.refs && row.link.refs[q] == view[id].link.refs[q]
    ensures forall q :: Tables.GoodRef(Links(view), row.link, q)
  {
    var to :| row.link == Rewritten(view[id].link, to);
    forall q
      ensures Tables.Required(row.link.table, q) && q in view[id].link.refs ==>
                q in row.link.refs && row.link.refs[q] == view[id].link.refs[q]
      ensures row.link.table == view[id].link.table && row.link.key == view[id].link.key {
      RewrittenKeeps(view[id].link, to, q);
    }
    hide Rewritten;
    assert row.Org() == org;
    forall q ensures Tables.GoodRef(Links(view), row.link, q) {
      assert Tables.GoodRef(Links(view), view[id].link, q);
      WrittenIsGood(view, c, RefsOf(view, id), row, owner, org, q);
    }
  }

  lemma RewritesMatching(view: Rows, seen: Rows, where: (Rows, Id, Row) -> bool, set_: (Rows, Id, Row) -> Row)
    requires forall k :: k in seen ==> k in view && view[k] == seen[k]
    ensures Rewrites(view, Changed(seen, Matching(seen, where), set_))
  {
    hide Rewritten;
    var after := Changed(seen, Matching(seen, where), set_);
    forall id | id in after ensures id in view && exists to :: after[id].link == Rewritten(view[id].link, to) {
      assert after[id].link == Rewritten(view[id].link, set_(seen, id, seen[id]).link);
    }
  }

  /** The rows stay consistent under a new row, under changed rows, and without rows and all that goes with them. */
  lemma {:induction false} InsertStays(rows: Rows, c: Conn, id: Id, make: Rows -> Row, owner: Owner)
    requires Owned(rows, owner) && Ready(c, owner) && owner(id) == c.holder.value.org
    requires Tables.Consistent(Links(View(rows, c)))
    ensures Tables.Consistent(Links(View(rows, ExecStmt(rows, c, Insert(id, make)).0)))
  {
    var view, org := View(rows, c), c.holder.value.org;
    var own := OrgRows(view, org);
    BoundIsSettled(rows, c, owner);
    InsertMeans(rows, c, id, make, owner);
    ReadySees(view, c, owner);
    assert forall k :: k in own ==> k in view && view[k] == own[k];
    hide Ready, OrgRows, View, Settled, Tables.Consistent, Links, MayStart, KeyTaken, ReferencesExist, Visible, Owned;
    var c' := ExecStmt(rows, c, Insert(id, make)).0;
    if !c'.failed && !KeyTaken(view, make(own)) {
      InsertConsistent(view, c, own, id, make(own), owner, org);
    } else if c'.failed {
      SameView(rows, c, c');
    }
  }

  lemma SameView(rows: Rows, c: Conn, c': Conn)
    requires c'.pending == c.pending
    ensures View(rows, c') == View(rows, c)
  {
  }

  lemma {:induction false} UpdatedStay(rows: Rows, c: Conn, after: Rows, owner: Owner, org: Id)
    requires Settled(View(rows, c), c, owner, org) && Tables.Consistent(Links(View(rows, c))) && !c.failed
    requires Rewrites(View(rows, c), after) && forall id :: id in after ==> View(rows, c)[id].Org() == org
    ensures Tables.Consistent(Links(View(rows, UpdateRows(View(rows, c), c, after).0)))
  {
    var view := View(rows, c);
    var c' := UpdateRows(view, c, after).0;
    UpdateWrites(rows, c, after);
    hide View, Settled, Tables.Consistent, Links, MayWrite, RefsOf, Rewrites, Written;
    if c'.failed { SameView(rows, c, c'); } else { UpdateConsistent(view, c, after, owner, org); }
  }

  lemma {:induction false} UpdateStays(rows: Rows, c: Conn, where: (Rows, Id, Row) -> bool,
                                       set_: (Rows, Id, Row) -> Row, owner: Owner)
    requires Owned(rows, owner) && Ready(c, owner) && Tables.Consistent(Links(View(rows, c)))
    ensures Tables.Consistent(Links(View(rows, ExecStmt(rows, c, Update(where, set_)).0)))
  {
    var view, org := View(rows, c), c.holder.value.org;
    hide ExecStmt, OrgRows, View, Settled, Tables.Consistent, Links, Owned, UpdateRows, ConnOk, Rewrites, Matching,
         Changed;
    ReadyUpdates(rows, c, where, set_, owner);
    BoundIsSettled(rows, c, owner);
    OwnRowsAre(view, org);
    var own := OrgRows(view, org);
    RewritesMatching(view, own, where, set_);
    ChangedIsSet(own, where, set_);
    hide SetTo;
    UpdatedStay(rows, c, Changed(own, Matching(own, where), set_), owner, org);
  }

  lemma OwnRowsAre(view: Rows, org: Id)
    ensures forall id :: id in OrgRows(view, org) ==>
              id in view && view[id] == OrgRows(view, org)[id] && view[id].Org() == org
  {
  }

  lemma {:induction false} DeleteStays(rows: Rows, c: Conn, where: (Rows, Id, Row) -> bool, owner: Owner)
    requires Ready(c, owner) && Tables.Consistent(Links(View(rows, c)))
    ensures Tables.Consistent(Links(View(rows, ExecStmt(rows, c, Delete(where)).0)))
  {
    DeleteMeans(rows, c, where, owner);
    var ids := ExecStmt(rows, c, Delete(where)).1.rows.Keys;
    hide Ready, View, Links, Tables.Consistent, ExecStmt;
    Tables.DoomedIsLeast(Links(View(rows, c)), ids);
    Tables.RemoveKeeps(Links(View(rows, c)), Tables.Doomed(Links(View(rows, c)), ids));
  }

  /** An empty organization's statements leave what they view. */
  lemma {:induction false} StatementConsistent(rows: Rows, c: Conn, s: Stmt, owner: Owner)
    requires Owned(rows, owner) && ConnOk(c, owner) && c.phase == Bound
    requires s.Insert? ==> owner(s.id) == c.holder.value.org
    requires Tables.Consistent(Links(View(rows, c)))
    ensures Tables.Consistent(Links(View(rows, ExecStmt(rows, c, s).0)))
  {
    ExecShape(rows, c, s);
    if c.failed { return; }
    if c.holder.value.org == "" {
      StatementKeepsOk(rows, c, s, owner);
      NothingPending(c, owner);
      NothingPending(ExecStmt(rows, c, s).0, owner);
      SameView(rows, c, ExecStmt(rows, c, s).0);
      return;
    }
    hide ConnOk, View, Links, Tables.Consistent, ExecStmt, Owned;
    match s {
      case Select(query) =>
        ReadMeans(rows, c, query, Tables.Sites, "", owner);
        SameView(rows, c, ExecStmt(rows, c, s).0);
      case Lookup(table, id) =>
        ReadMeans(rows, c, seen => seen, table, id, owner);
        SameView(rows, c, ExecStmt(rows, c, s).0);
      case Insert(id, make) => InsertStays(rows, c, id, make, owner);
      case Update(where, set_) => UpdateStays(rows, c, where, set_, owner);
      case Delete(where) => DeleteStays(rows, c, where, owner);
    }
  }

  lemma NothingPending(c: Conn, owner: Owner)
    requires ConnOk(c, owner) && c.phase == Bound && c.holder.value.org == ""
    ensures c.pending == map[]
  {
  }

  lemma {:induction false} ScriptConsistent(rows: Rows, c: Conn, script: seq<Stmt>, owner: Owner)
    requires Owned(rows, owner) && ConnOk(c, owner) && c.phase == Bound && Tables.Consistent(Links(View(rows, c)))
    requires forall s :: s in script && s.Insert? ==> owner(s.id) == c.holder.value.org
    ensures var c' := RunScript(rows, c, script).0;
            && ConnOk(c', owner) && c'.phase == Bound && c'.holder == c.holder
            && Tables.Consistent(Links(View(rows, c')))
  {
    hide ConnOk, View, Links, Tables.Consistent, ExecStmt, Owned;
    if script != [] {
      var n := |script| - 1;
      ScriptConsistent(rows, c, script[..n], owner);
      var c' := RunScript(rows, c, script[..n]).0;
      assert script[n] in script;
      ExecShape(rows, c', script[n]);
      StatementKeepsOk(rows, c', script[n], owner);
      StatementConsistent(rows, c', script[n], owner);
    }
  }

  /** A transaction that nobody disturbs, of any statements, takes consistent tables to consistent tables: every
      reference good and inside its organization, every NOT NULL one present, every event at its camera's site, every
      correlation id used once. */
  lemma {:induction false} TransactionConsistent(w: World, conn: nat, ctx: Ctx, script: seq<Stmt>, throws: bool,
                                                 owner: Owner)
    requires Inv(w, owner) && conn < |w.conns| && w.conns[conn].phase == Idle && !ctx.platform
    requires forall s :: s in script && s.Insert? ==> owner(s.id) == ctx.org
    requires Tables.Consistent(Links(w.rows))
    ensures Tables.Consistent(Links(Transacted(w, conn, ctx, script, throws).0.rows))
  {
    var c := BoundConn(w.conns[conn], ctx);
    EmptyIsOwned(owner);
    assert ConnOk(w.conns[conn], owner);
    assert ConnOk(c, owner) by { hide PendingOwned, LocalOf; }
    assert View(w.rows, c) == w.rows;
    hide ConnOk, Links, Tables.Consistent, Owned, RunScript, BoundConn;
    ScriptConsistent(w.rows, c, script, owner);
  }

  /** A transaction of one delete, committed: the cascade, over all rows, of what was deleted. */
  lemma {:induction false} DeleteCommitted(w: World, conn: nat, ctx: Ctx, where: (Rows, Id, Row) -> bool, owner: Owner)
    requires Inv(w, owner) && conn < |w.conns| && w.conns[conn].phase == Idle && !ctx.platform && ctx.org != ""
    ensures var (w', r) := Transacted(w, conn, ctx, [Delete(where)], false);
            var own := OrgRows(w.rows, ctx.org);
            && r.Ok? && |r.value| == 1 && r.value[0].Returned?
            && var ids := r.value[0].rows.Keys;
               && ids <= Links(w.rows).Keys && (forall id :: id in ids <==> id in own && where(own, id, own[id]))
               && Links(w'.rows) == Tables.Remove(Links(w.rows), Tables.Doomed(Links(w.rows), ids))
  {
    var c := BoundConn(w.conns[conn], ctx);
    EmptyIsOwned(owner);
    assert ConnOk(w.conns[conn], owner);
    assert ConnOk(c, owner) by { hide PendingOwned, LocalOf; }
    assert View(w.rows, c) == w.rows && c.holder.value == ctx;
    assert RunScript(w.rows, c, [Delete(where)]).0 == ExecStmt(w.rows, c, Delete(where)).0
        && RunScript(w.rows, c, [Delete(where)]).1 == [ExecStmt(w.rows, c, Delete(where)).1] by {
      OneStatement(w.rows, c, Delete(where));
    }
    DeleteMeans(w.rows, c, where, owner);
    hide ConnOk, Links, RunScript, BoundConn, ExecStmt, Tables.Remove, Tables.Doomed, OrgRows, Inv;
  }

  lemma {:induction false} OneStatement(rows: Rows, c: Conn, s: Stmt)
    ensures RunScript(rows, c, [s]) == (ExecStmt(rows, c, s).0, [ExecStmt(rows, c, s).1])
  {
    hide ExecStmt;
    assert [s][..0] == [] && [] + [ExecStmt(rows, c, s).1] == [ExecStmt(rows, c, s).1];
  }
}
