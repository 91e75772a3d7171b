// What a statement of a request answers and writes, stated on the rows: a tenant reads, changes and
// removes exactly its own (src/projects/projects.service.ts:24-138), and reads what it has committed.

module StatementAnswers {
  import opened Prelude
  import opened RowSecurity
  import opened Isolation

  // A transaction of t finds this row: its own write of it, or else t's row in the table.
  predicate Finds(committed: Rows, c: Conn, t: string, id: RowId, row: Row) {
    if id in c.writes then c.writes[id] == Some(row) else id in committed && committed[id] == row && row.tenant == t
  }

  // Another transaction has an uncommitted write of the row.
  predicate Waits(s: Sys, cid: ConnId, id: RowId) {
    exists d :: d in s.conns && d != cid && id in s.conns[d].writes
  }

  // The id is in use, by whichever tenant.
  predicate Taken(committed: Rows, c: Conn, id: RowId) {
    if id in c.writes then c.writes[id].Some? else id in committed
  }

  ghost predicate Hits(s: Sys, c: Conn, t: string, where: (RowId, Row) -> bool, id: RowId) {
    exists row :: Finds(s.committed, c, t, id, row) && where(id, row)
  }

  // These are all the rows found, and no other.
  ghost predicate AllFound(s: Sys, c: Conn, t: string, rows: Rows) {
    forall id, row :: id in rows && rows[id] == row <==> Finds(s.committed, c, t, id, row)
  }

  // A read gets exactly the rows found.
  ghost predicate ReadsRows(s: Sys, c: Conn, t: string, query: Rows -> seq<string>, res: Result) {
    exists rows :: AllFound(s, c, t, rows) && res == Output(query(rows))
  }

  // An insert of a row of another tenant violates the policy; it waits for a transaction that writes that
  // id; a taken id is a duplicate; otherwise the row is added.
  ghost predicate InsertsRow(s: Sys, cid: ConnId, c: Conn, c': Conn, t: string, id: RowId, row: Row, res: Result) {
    if row.tenant != t then res == PolicyViolation && c' == c.(aborted := true)
    else if Waits(s, cid, id) then res == Blocked && c' == c
    else if Taken(s.committed, c, id) then res == DuplicateKey && c' == c.(aborted := true)
    else res == Affected({id}) && c' == c.(writes := c.writes[id := Some(row)])
  }

  // An update or delete waits for a transaction that writes a row it hits; an update that would give one
  // away violates the policy; otherwise exactly the rows hit are reported and rewritten, or removed.
  ghost predicate RewritesRows(s: Sys, cid: ConnId, c: Conn, c': Conn, t: string, where: (RowId, Row) -> bool,
                               rewrite: (RowId, Row) -> Option<Row>, res: Result) {
    if exists id :: Hits(s, c, t, where, id) && Waits(s, cid, id) then res == Blocked && c' == c
    else if GivesAway(s, c, t, where, rewrite) then res == PolicyViolation && c' == c.(aborted := true)
    else
      && res.Affected? && (forall id :: id in res.ids <==> Hits(s, c, t, where, id))
      && c' == c.(writes := c'.writes) && c'.writes.Keys == c.writes.Keys + res.ids
      && (forall id, row :: id in res.ids && Finds(s.committed, c, t, id, row) ==> c'.writes[id] == rewrite(id, row))
      && (forall id :: id in c.writes && id !in res.ids ==> c'.writes[id] == c.writes[id])
  }

  ghost predicate GivesAway(s: Sys, c: Conn, t: string, where: (RowId, Row) -> bool, rewrite: (RowId, Row) -> Option<Row>) {
    exists id, row :: Finds(s.committed, c, t, id, row) && where(id, row) && rewrite(id, row).Some? && rewrite(id, row).value.tenant != t
  }

  // A statement on the live transaction of t on connection `cid`.
  ghost predicate StatementAnswers(s: Sys, cid: ConnId, c': Conn, t: string, stmt: Stmt, res: Result)
    requires cid in s.conns
  {
    var c := s.conns[cid];
    match stmt
    case Select(query) => c' == c && ReadsRows(s, c, t, query, res)
    case Insert(id, row) => InsertsRow(s, cid, c, c', t, id, row, res)
    case Update(where, set_) => RewritesRows(s, cid, c, c', t, where, (id: RowId, row: Row) => Some(set_(id, row)), res)
    case Delete(where) => RewritesRows(s, cid, c, c', t, where, (id: RowId, row: Row) => None, res)
  }

  // An unaborted transaction in t's name, with writes of t's rows only.
  ghost predicate LiveFor(c: Conn, t: string) {
    && t != "" && c.setting == Some(t) && !c.aborted
    && forall id :: id in c.writes && c.writes[id].Some? ==> c.writes[id].value.tenant == t
  }

  lemma VisibleIsFound(s: Sys, c: Conn, t: string, id: RowId, row: Row)
    requires LiveFor(c, t)
    ensures id in Visible(s, c) && Visible(s, c)[id] == row <==> Finds(s.committed, c, t, id, row)
  {
  }

  lemma VisibleIsAllFound(s: Sys, c: Conn, t: string)
    requires LiveFor(c, t)
    ensures AllFound(s, c, t, Visible(s, c))
  {
    forall id, row ensures id in Visible(s, c) && Visible(s, c)[id] == row <==> Finds(s.committed, c, t, id, row) {
      VisibleIsFound(s, c, t, id, row);
    }
  }

  lemma SelectOnRows(s: Sys, cid: ConnId, t: string, stmt: Stmt)
    requires cid in s.conns && LiveFor(s.conns[cid], t) && stmt.Select?
    ensures var (c', res) := Execute(s, cid, stmt); StatementAnswers(s, cid, c', t, stmt, res)
  {
    VisibleIsAllFound(s, s.conns[cid], t);
    hide Visible, AllFound;
  }

  lemma WaitsIsLocked(s: Sys, cid: ConnId, ids: set<RowId>)
    ensures Locked(s, cid, ids) <==> exists id :: id in ids && Waits(s, cid, id)
  {
    if Locked(s, cid, ids) {
      var d :| d in s.conns && d != cid && s.conns[d].writes.Keys * ids != {};
      var id :| id in s.conns[d].writes.Keys * ids;
      assert Waits(s, cid, id);
    }
    if id :| id in ids && Waits(s, cid, id) {
      var d :| d in s.conns && d != cid && id in s.conns[d].writes;
      assert id in s.conns[d].writes.Keys * ids;
    }
  }

  lemma InsertOnRows(s: Sys, cid: ConnId, t: string, stmt: Stmt)
    requires cid in s.conns && LiveFor(s.conns[cid], t) && stmt.Insert?
    ensures var (c', res) := Execute(s, cid, stmt); StatementAnswers(s, cid, c', t, stmt, res)
  {
    WaitsIsLocked(s, cid, {stmt.id});
    assert stmt.id in View(s.committed, s.conns[cid].writes) <==> Taken(s.committed, s.conns[cid], stmt.id);
    hide View, Locked, Waits, Taken;
  }

  lemma TargetsAreHit(s: Sys, c: Conn, t: string, where: (RowId, Row) -> bool)
    requires LiveFor(c, t)
    ensures forall id :: id in Targets(Visible(s, c), where) <==> Hits(s, c, t, where, id)
  {
    forall id ensures id in Targets(Visible(s, c), where) <==> Hits(s, c, t, where, id) {
      if id in Targets(Visible(s, c), where) {
        VisibleIsFound(s, c, t, id, Visible(s, c)[id]);
      }
      if Hits(s, c, t, where, id) {
        var row :| Finds(s.committed, c, t, id, row) && where(id, row);
        VisibleIsFound(s, c, t, id, row);
      }
    }
  }

  lemma DeleteOnRows(s: Sys, cid: ConnId, t: string, stmt: Stmt)
    requires cid in s.conns && LiveFor(s.conns[cid], t) && stmt.Delete?
    ensures var (c', res) := Execute(s, cid, stmt); StatementAnswers(s, cid, c', t, stmt, res)
  {
    var c, where := s.conns[cid], stmt.where;
    var ids := Targets(Visible(s, c), where);
    TargetsAreHit(s, c, t, where);
    WaitsIsLocked(s, cid, ids);
    assert !GivesAway(s, c, t, where, (id: RowId, row: Row) => None);
    hide Visible, Locked, Waits, Hits, Finds, Targets, GivesAway;
  }

  lemma GivesAwayIff(s: Sys, c: Conn, t: string, where: (RowId, Row) -> bool, set_: (RowId, Row) -> Row)
    requires LiveFor(c, t)
    ensures GivesAway(s, c, t, where, (id: RowId, row: Row) => Some(set_(id, row)))
            <==> exists id :: id in Targets(Visible(s, c), where) && CurrentTenant(c.setting) != Some(set_(id, Visible(s, c)[id]).tenant)
  {
    var rows, rewrite := Visible(s, c), (id: RowId, row: Row) => Some(set_(id, row));
    VisibleIsAllFound(s, c, t);
    assert CurrentTenant(c.setting) == Some(t);
    hide Visible, Finds;
    if id :| id in Targets(rows, where) && CurrentTenant(c.setting) != Some(set_(id, rows[id]).tenant) {
      assert Finds(s.committed, c, t, id, rows[id]) && where(id, rows[id]) && rewrite(id, rows[id]).value.tenant != t;
    }
  }

  lemma UpdateOnRows(s: Sys, cid: ConnId, t: string, stmt: Stmt)
    requires cid in s.conns && LiveFor(s.conns[cid], t) && stmt.Update?
    ensures var (c', res) := Execute(s, cid, stmt); StatementAnswers(s, cid, c', t, stmt, res)
  {
    var c, where := s.conns[cid], stmt.where;
    var ids := Targets(Visible(s, c), where);
    TargetsAreHit(s, c, t, where);
    WaitsIsLocked(s, cid, ids);
    VisibleIsAllFound(s, c, t);
    GivesAwayIff(s, c, t, where, stmt.set_);
    hide Visible, Locked, Waits, Hits, Finds, GivesAway, LiveFor, CurrentTenant;
  }

  lemma ExecuteOnRows(s: Sys, cid: ConnId, t: string, stmt: Stmt)
    requires cid in s.conns && LiveFor(s.conns[cid], t)
    ensures var (c', res) := Execute(s, cid, stmt); StatementAnswers(s, cid, c', t, stmt, res)
  {
    hide Execute, StatementAnswers, LiveFor;
    match stmt
    case Select(_) => SelectOnRows(s, cid, t, stmt);
    case Insert(_, _) => InsertOnRows(s, cid, t, stmt);
    case Update(_, _) => UpdateOnRows(s, cid, t, stmt);
    case Delete(_) => DeleteOnRows(s, cid, t, stmt);
  }

  lemma HeldIsLive(auth: Auth, idOwner: RowId -> string, s: Sys, r: ReqId)
    requires Inv(auth, idOwner, s) && r in s.held && s.held[r] in s.conns && !s.conns[s.held[r]].aborted
    ensures LiveFor(s.conns[s.held[r]], auth(r.id))
  {
    assert HoldsOwn(auth, idOwner, s, r);
  }

  // Every statement of an open request of t whose transaction is not aborted answers and writes exactly
  // what t's rows say, and touches no other connection and no table.
  lemma StatementOnRows(auth: Auth, idOwner: RowId -> string, s: Sys, r: Req, stmt: Stmt)
    requires Inv(auth, idOwner, s) && HasDb(s, r) && !s.conns[s.held[r]].aborted
    ensures var (s', res) := Step(auth, s, Event(r, Exec(stmt)));
            && s'.held == s.held && s'.committed == s.committed && s'.cancelled == s.cancelled
            && s'.conns.Keys == s.conns.Keys && (forall d :: d in s.conns && d != s.held[r] ==> s'.conns[d] == s.conns[d])
            && StatementAnswers(s, s.held[r], s'.conns[s.held[r]], auth(r.id), stmt, res)
  {
    HeldIsLive(auth, idOwner, s, r);
    ExecuteOnRows(s, s.held[r], auth(r.id), stmt);
    hide Inv, Execute, StatementAnswers;
  }

  // getProject: the row, if the tenant has it, and nothing otherwise.
  lemma ReadById(auth: Auth, idOwner: RowId -> string, s: Sys, r: Req, id: RowId)
    requires Inv(auth, idOwner, s) && HasDb(s, r) && !s.conns[s.held[r]].aborted
    ensures var c, res := s.conns[s.held[r]], Step(auth, s, Event(r, Exec(GetById(id)))).1;
            && (forall row :: Finds(s.committed, c, auth(r.id), id, row) ==> res == Output(row.cells))
            && ((forall row :: !Finds(s.committed, c, auth(r.id), id, row)) ==> res == Output([]))
  {
    StatementOnRows(auth, idOwner, s, r, GetById(id));
    var c, t := s.conns[s.held[r]], auth(r.id);
    var query := GetById(id).query;
    var rows :| AllFound(s, c, t, rows) && Step(auth, s, Event(r, Exec(GetById(id)))).1 == Output(query(rows));
    hide Step, Finds, Inv;
    assert id in rows ==> Finds(s.committed, c, t, id, rows[id]);
    assert forall row :: Finds(s.committed, c, t, id, row) ==> id in rows && rows[id] == row;
  }

  // ----- What a tenant has committed it reads -----

  lemma {:induction false} ForeignRunKeepsRows(auth: Auth, idOwner: RowId -> string, s: Sys, es: seq<Event>, t: string)
    requires Inv(auth, idOwner, s) && AllFresh(auth, idOwner, es)
    requires forall k :: 0 <= k < |es| ==> auth(es[k].req.id) != t
    ensures var s' := Run(auth, s, es).0;
            && Inv(auth, idOwner, s') && OfTenant(s'.committed, Some(t)) == OfTenant(s.committed, Some(t))
    decreases es
  {
    if es != [] {
      var s' := Step(auth, s, es[0]).0;
      assert FreshIds(auth, idOwner, es[0]);
      StepKeepsInv(auth, idOwner, s, es[0]);
      ForeignStepKeepsRows(auth, idOwner, s, es[0], t);
      hide Step, Inv, FreshIds;
      ForeignRunKeepsRows(auth, idOwner, s', es[1..], t);
    }
  }

  lemma ForeignStepKeepsRows(auth: Auth, idOwner: RowId -> string, s: Sys, e: Event, t: string)
    requires Inv(auth, idOwner, s) && auth(e.req.id) != t
    ensures OfTenant(Step(auth, s, e).0.committed, Some(t)) == OfTenant(s.committed, Some(t))
  {
    if e.action.Commit? && HasDb(s, e.req) {
      assert HoldsOwn(auth, idOwner, s, e.req);
      ForeignWritesInvisible(idOwner, s.committed, auth(e.req.id), s.conns[s.held[e.req]].writes, t);
    }
    hide Inv, Execute, View, OfTenant;
  }

  // A success answer whose COMMIT takes effect writes to the table exactly what its transaction wrote.
  lemma CommitOnRows(auth: Auth, s: Sys, r: Req, id: RowId, row: Row)
    requires HasDb(s, r) && !s.conns[s.held[r]].aborted
    ensures var c, after := s.conns[s.held[r]], Step(auth, s, Event(r, Commit(true, false))).0.committed;
            id in after && after[id] == row <==>
              if id in c.writes then c.writes[id] == Some(row) else id in s.committed && s.committed[id] == row
  {
  }

  // A request's writes of a row are in the table once its COMMIT takes effect.
  lemma CommitStores(auth: Auth, s: Sys, r: Req, id: RowId, row: Row)
    requires HasDb(s, r) && !s.conns[s.held[r]].aborted && id in s.conns[s.held[r]].writes && s.conns[s.held[r]].writes[id] == Some(row)
    ensures var s' := Step(auth, s, Event(r, Commit(true, false))).0; id in s'.committed && s'.committed[id] == row
  {
  }

  // A row that one request of t inserts and commits is what the next request of t reads by that id,
  // whatever other tenants' requests do in between.
  lemma InsertedIsReadNext(auth: Auth, idOwner: RowId -> string, s: Sys, r: Req, next: Req, c: ConnId, id: RowId, row: Row, es: seq<Event>)
    requires Inv(auth, idOwner, s) && HasDb(s, r) && !s.conns[s.held[r]].aborted
    requires auth(next.id) == auth(r.id) && FreshIds(auth, idOwner, Event(r, Exec(Insert(id, row))))
    requires Step(auth, s, Event(r, Exec(Insert(id, row)))).1 == Affected({id})
    requires AllFresh(auth, idOwner, es) && forall k :: 0 <= k < |es| ==> auth(es[k].req.id) != auth(r.id)
    requires var s1 := Step(auth, s, Event(r, Exec(Insert(id, row)))).0;
             var s2 := Step(auth, s1, Event(r, Commit(true, false))).0;
             Step(auth, Run(auth, s2, es).0, Event(next, Open(c, false))).1 == Opened
    ensures var s1 := Step(auth, s, Event(r, Exec(Insert(id, row)))).0;
            var s2 := Step(auth, s1, Event(r, Commit(true, false))).0;
            var s4 := Step(auth, Run(auth, s2, es).0, Event(next, Open(c, false))).0;
            Step(auth, s4, Event(next, Exec(GetById(id)))).1 == Output(row.cells)
  {
    var t := auth(r.id);
    StatementOnRows(auth, idOwner, s, r, Insert(id, row));
    StepKeepsInv(auth, idOwner, s, Event(r, Exec(Insert(id, row))));
    var s1 := Step(auth, s, Event(r, Exec(Insert(id, row)))).0;
    assert row.tenant == t && s1.conns[s1.held[r]].writes[id] == Some(row) && !s1.conns[s1.held[r]].aborted;
    CommitStores(auth, s1, r, id, row);
    StepKeepsInv(auth, idOwner, s1, Event(r, Commit(true, false)));
    var s2 := Step(auth, s1, Event(r, Commit(true, false))).0;
    ForeignRunKeepsRows(auth, idOwner, s2, es, t);
    var s3 := Run(auth, s2, es).0;
    assert id in OfTenant(s2.committed, Some(t)) && OfTenant(s2.committed, Some(t))[id] == row;
    assert id in s3.committed && s3.committed[id] == row;
    OpenedAfresh(auth, s3, next, c);
    StepKeepsInv(auth, idOwner, s3, Event(next, Open(c, false)));
    var s4 := Step(auth, s3, Event(next, Open(c, false))).0;
    hide Step, Inv, Run, StatementAnswers;
    assert Finds(s4.committed, s4.conns[s4.held[next]], t, id, row);
    ReadById(auth, idOwner, s4, next, id);
  }

  lemma OpenedAfresh(auth: Auth, s: Sys, r: Req, c: ConnId)
    requires Step(auth, s, Event(r, Open(c, false))).1 == Opened
    ensures var s' := Step(auth, s, Event(r, Open(c, false))).0;
            s'.committed == s.committed && HasDb(s', r) && s'.conns[s'.held[r]] == Conn(Some(auth(r.id)), true, map[], false)
  {
  }

  // A request answered with an error, and one whose handler threw, leaves the table as it was.
  lemma FailureStoresNothing(auth: Auth, s: Sys, r: Req, commitFails: bool)
    ensures Step(auth, s, Event(r, Commit(false, commitFails))).0.committed == s.committed
    ensures Step(auth, s, Event(r, OnError)).0.committed == s.committed
  {
  }
}
