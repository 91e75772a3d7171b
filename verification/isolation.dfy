// Many tenants' requests on one shared connection pool: src/middleware/tenant.ts opens and closes
// the transactions, src/db/rls.ts filters the rows, and the handlers run statements in between.
// Requests interleave statement by statement.

module Isolation {
  import opened Prelude
  import opened RowSecurity

  type RowId = nat
  type ConnId = nat

  // Who holds a connection: a request, or, when a request is opened twice and req.db overwritten, nobody
  // who could ever give the earlier connection back.
  datatype ReqId = Request(id: nat) | Lost(id: nat, conn: ConnId)

  type Req = r: ReqId | r.Request? witness Request(0)

  datatype Row = Row(tenant: string, cells: seq<string>)

  type Rows = map<RowId, Row>

  // A pooled connection: the tenant variable, the uncommitted writes of the open transaction
  // (None is a deleted row) and whether an error has aborted it.
  datatype Conn = Conn(setting: Option<string>, inTx: bool, writes: map<RowId, Option<Row>>, aborted: bool)

  const CLEAN := Conn(None, false, map[], false)

  // committed: the table; held: the connection in each request's req.db.
  datatype Sys = Sys(committed: Rows, cancelled: set<string>, conns: map<ConnId, Conn>, held: map<ReqId, ConnId>)

  // Any statement a handler can run; row security decides which rows the functions get to see.
  datatype Stmt =
    | Select(query: Rows -> seq<string>)
    | Insert(id: RowId, row: Row)
    | Update(where: (RowId, Row) -> bool, set_: (RowId, Row) -> Row)
    | Delete(where: (RowId, Row) -> bool)

  // `success` is statusCode < 400; `commitFails` says that a COMMIT took no effect.
  datatype Action =
    | Open(conn: ConnId, fails: bool)
    | Exec(stmt: Stmt)
    | Die // the connection is lost, and with it the transaction
    | Commit(success: bool, commitFails: bool)
    | OnError
    | Cancel

  datatype Event = Event(req: Req, action: Action)

  datatype Result =
    | Opened | NoTenant | Forbidden | Unavailable | NoDb | Sent
    | Output(rows: seq<string>) | Affected(ids: set<RowId>)
    | PolicyViolation | DuplicateKey | Aborted | Blocked

  // auth(r.id) is the tenant of the verified credential, "" if there is none.
  type Auth = nat -> string

  // ----- Statements -----

  function View(committed: Rows, writes: map<RowId, Option<Row>>): Rows {
    map id | id in committed.Keys + writes.Keys && (id in writes ==> writes[id].Some?) ::
      if id in writes then writes[id].value else committed[id]
  }

  function OfTenant(rows: Rows, t: Option<string>): Rows {
    map id | id in rows && Some(rows[id].tenant) == t :: rows[id]
  }

  // The rows a transaction can see: its own writes over the committed table, filtered by the policy.
  function Visible(s: Sys, c: Conn): Rows {
    OfTenant(View(s.committed, c.writes), CurrentTenant(c.setting))
  }

  // Filtering by the current tenant is what the policies of the migrated table do for the application
  // role: the rows kept are those it may read, change or remove, and a row it may add or put is one of the
  // current tenant.
  lemma FilterIsThePolicy(t: TableSecurity, rows: Rows, setting: Option<string>, id: RowId, a: Access)
    requires t.policies.Keys <= {"tenant_isolation_select", "tenant_isolation_mod"} && id in rows
    ensures id in OfTenant(rows, CurrentTenant(setting)) <==> May(AppRole, Protect(t), a, setting, rows[id].tenant)
  {
    ProtectedTableIsConfinedIff(t, AppRole);
    assert May(AppRole, Protect(t), a, setting, rows[id].tenant) <==> CurrentTenant(setting) == Some(rows[id].tenant);
  }

  // Row locks: another open transaction has written one of these rows.
  predicate Locked(s: Sys, c: ConnId, ids: set<RowId>) {
    exists d :: d in s.conns && d != c && s.conns[d].writes.Keys * ids != {}
  }

  function Targets(rows: Rows, where: (RowId, Row) -> bool): set<RowId> {
    set id | id in rows && where(id, rows[id])
  }

  function Rewrites(rows: Rows, ids: set<RowId>, set_: (RowId, Row) -> Row): map<RowId, Option<Row>>
    requires ids <= rows.Keys
  {
    map id | id in ids :: Some(set_(id, rows[id]))
  }

  function Removals(ids: set<RowId>): map<RowId, Option<Row>> {
    map id | id in ids :: None
  }

  // The transaction after the statement, and the statement's result.
  function Execute(s: Sys, cid: ConnId, stmt: Stmt): (Conn, Result)
    requires cid in s.conns
  {
    var c := s.conns[cid];
    var rows := Visible(s, c);
    if c.aborted then (c, Aborted)
    else match stmt
      case Select(query) => (c, Output(query(rows)))
      case Insert(id, row) =>
        if CurrentTenant(c.setting) != Some(row.tenant) then (c.(aborted := true), PolicyViolation)
        else if Locked(s, cid, {id}) then (c, Blocked)
        else if id in View(s.committed, c.writes) then (c.(aborted := true), DuplicateKey)
        else (c.(writes := c.writes[id := Some(row)]), Affected({id}))
      case Update(where, set_) =>
        var ids := Targets(rows, where);
        if Locked(s, cid, ids) then (c, Blocked)
        else if exists id :: id in ids && CurrentTenant(c.setting) != Some(set_(id, rows[id]).tenant) then
          (c.(aborted := true), PolicyViolation)
        else
          (c.(writes := c.writes + Rewrites(rows, ids, set_)), Affected(ids))
      case Delete(where) =>
        var ids := Targets(rows, where);
        if Locked(s, cid, ids) then (c, Blocked)
        else (c.(writes := c.writes + Removals(ids)), Affected(ids))
  }

  // ----- Requests -----

  // The connection in req.db, about to be overwritten.
  function Orphan(s: Sys, r: ReqId): Sys
    requires r in s.held
  {
    s.(held := (s.held - {r})[Lost(r.id, s.held[r]) := s.held[r]])
  }

  function Acquire(s: Sys, r: ReqId, c: ConnId, tenant: string): Sys {
    s.(conns := s.conns[c := Conn(Some(tenant), true, map[], false)], held := s.held[r := c])
  }

  // COMMIT or ROLLBACK, RESET and release: the connection goes back clean.
  function Release(s: Sys, r: ReqId): Sys
    requires r in s.held
  {
    s.(conns := s.conns[s.held[r] := CLEAN], held := s.held - {r})
  }

  function Store(s: Sys, cid: ConnId, c: Conn): Sys {
    s.(conns := s.conns[cid := c])
  }

  function Publish(s: Sys, writes: map<RowId, Option<Row>>): Sys {
    s.(committed := View(s.committed, writes))
  }

  // The server rolls back when a connection is lost; the client's later commands fail.
  function Killed(c: Conn): Conn {
    c.(writes := map[], aborted := true)
  }

  predicate HasDb(s: Sys, r: ReqId) {
    r in s.held && s.held[r] in s.conns
  }

  function Step(auth: Auth, s: Sys, e: Event): (Sys, Result) {
    var r := e.req;
    match e.action
    case Open(c, fails) =>
      if auth(r.id) == "" then (s, NoTenant)
      else if c !in s.conns || c in s.held.Values then (s, Unavailable)
      else if fails then (s, Unavailable) // ROLLBACK, release, rethrow
      else if auth(r.id) in s.cancelled then (s, Forbidden) // ROLLBACK, release, 403
      else (Acquire(if r in s.held then Orphan(s, r) else s, r, c, auth(r.id)), Opened)
    case Exec(stmt) =>
      if !HasDb(s, r) then (s, NoDb)
      else
        var (c, res) := Execute(s, s.held[r], stmt);
        (Store(s, s.held[r], c), res)
    case Die =>
      (if HasDb(s, r) then Store(s, s.held[r], Killed(s.conns[s.held[r]])) else s, Unavailable)
    case Commit(success, commitFails) =>
      if !HasDb(s, r) then (s, Sent)
      else
        var c := s.conns[s.held[r]];
        var durable := success && !commitFails && !c.aborted;
        (Release(if durable then Publish(s, c.writes) else s, r), Sent)
    case OnError =>
      (if HasDb(s, r) then Release(s, r) else s, Sent)
    case Cancel =>
      if auth(r.id) == "" then (s, NoTenant) else (s.(cancelled := s.cancelled + {auth(r.id)}), Sent)
  }

  function Run(auth: Auth, s: Sys, es: seq<Event>): (Sys, seq<Result>)
    decreases es
  {
    if es == [] then (s, [])
    else
      var (s', r) := Step(auth, s, es[0]);
      var (s'', rs) := Run(auth, s', es[1..]);
      (s'', [r] + rs)
  }

  // The events of one tenant's requests, and the results those requests got.
  function Only(auth: Auth, es: seq<Event>, t: string): seq<Event> {
    if es == [] then []
    else (if auth(es[0].req.id) == t then [es[0]] else []) + Only(auth, es[1..], t)
  }

  function ResultsOf(auth: Auth, s: Sys, es: seq<Event>, t: string): seq<Result>
    decreases es
  {
    if es == [] then []
    else
      var (s', r) := Step(auth, s, es[0]);
      (if auth(es[0].req.id) == t then [r] else []) + ResultsOf(auth, s', es[1..], t)
  }

  // ----- The invariant -----

  // idOwner: which tenant drew a row id from the random generator; no id is drawn by two tenants.
  ghost predicate Inv(auth: Auth, idOwner: RowId -> string, s: Sys) {
    && (forall id :: id in s.committed ==> s.committed[id].tenant == idOwner(id))
    && (forall r :: r in s.held ==> HoldsOwn(auth, idOwner, s, r))
    && (forall r, q :: r in s.held && q in s.held && r != q ==> s.held[r] != s.held[q])
    && (forall r :: r in s.held && r.Lost? ==> s.held[r] == r.conn)
    && (forall c :: c in s.conns && c !in s.held.Values ==> s.conns[c] == CLEAN)
  }

  ghost predicate HoldsOwn(auth: Auth, idOwner: RowId -> string, s: Sys, r: ReqId)
    requires r in s.held
  {
    && auth(r.id) != ""
    && s.held[r] in s.conns
    && s.conns[s.held[r]].setting == Some(auth(r.id))
    && WritesOf(idOwner, auth(r.id), s.conns[s.held[r]].writes)
  }

  ghost predicate WritesOf(idOwner: RowId -> string, t: string, writes: map<RowId, Option<Row>>) {
    forall id :: id in writes ==> idOwner(id) == t && (writes[id].Some? ==> writes[id].value.tenant == t)
  }

  ghost predicate FreshIds(auth: Auth, idOwner: RowId -> string, e: Event) {
    (e.action.Exec? && e.action.stmt.Insert? && e.action.stmt.row.tenant == auth(e.req.id)) ==>
      idOwner(e.action.stmt.id) == auth(e.req.id)
  }

  ghost predicate AllFresh(auth: Auth, idOwner: RowId -> string, es: seq<Event>) {
    forall i :: 0 <= i < |es| ==> FreshIds(auth, idOwner, es[i])
  }

  lemma VisibleIsOwn(auth: Auth, idOwner: RowId -> string, s: Sys, r: ReqId)
    requires Inv(auth, idOwner, s) && r in s.held
    ensures HasDb(s, r) && CurrentTenant(s.conns[s.held[r]].setting) == Some(auth(r.id))
    ensures forall id :: id in Visible(s, s.conns[s.held[r]]) ==> idOwner(id) == auth(r.id)
  {
    assert HoldsOwn(auth, idOwner, s, r);
  }

  lemma WritesStayOwn(idOwner: RowId -> string, t: string, rows: Rows, c: Conn, stmt: Stmt)
    requires WritesOf(idOwner, t, c.writes) && forall id :: id in rows ==> idOwner(id) == t
    ensures stmt.Insert? && stmt.row.tenant == idOwner(stmt.id) == t ==>
      WritesOf(idOwner, t, c.writes[stmt.id := Some(stmt.row)])
    ensures stmt.Update? ==>
      var ids := Targets(rows, stmt.where);
      (forall id :: id in ids ==> stmt.set_(id, rows[id]).tenant == t) ==>
        WritesOf(idOwner, t, c.writes + Rewrites(rows, ids, stmt.set_))
    ensures stmt.Delete? ==> WritesOf(idOwner, t, c.writes + Removals(Targets(rows, stmt.where)))
  {
  }

  // A statement leaves the transaction as it was, aborts it, or adds writes.
  lemma ExecuteShape(s: Sys, cid: ConnId, stmt: Stmt)
    requires cid in s.conns
    ensures var c, c' := s.conns[cid], Execute(s, cid, stmt).0;
            var rows := Visible(s, c);
            && c'.setting == c.setting
            && (c'.writes == c.writes
                || (stmt.Insert? && CurrentTenant(c.setting) == Some(stmt.row.tenant) && c'.writes == c.writes[stmt.id := Some(stmt.row)])
                || (stmt.Update? && (forall id :: id in Targets(rows, stmt.where) ==> CurrentTenant(c.setting) == Some(stmt.set_(id, rows[id]).tenant))
                    && c'.writes == c.writes + Rewrites(rows, Targets(rows, stmt.where), stmt.set_))
                || (stmt.Delete? && c'.writes == c.writes + Removals(Targets(rows, stmt.where))))
  {
    hide Visible, View, Locked, Rewrites, Removals;
  }

  // Whatever statement a handler runs, the transaction's writes are rows of its own tenant, under
  // ids of its own tenant.
  lemma ExecuteKeepsOwnership(auth: Auth, idOwner: RowId -> string, s: Sys, r: Req, stmt: Stmt)
    requires Inv(auth, idOwner, s) && r in s.held
    requires FreshIds(auth, idOwner, Event(r, Exec(stmt)))
    ensures HasDb(s, r)
    ensures var c := Execute(s, s.held[r], stmt).0;
            c.setting == Some(auth(r.id)) && WritesOf(idOwner, auth(r.id), c.writes)
  {
    assert HoldsOwn(auth, idOwner, s, r);
    VisibleIsOwn(auth, idOwner, s, r);
    var c := s.conns[s.held[r]];
    WritesStayOwn(idOwner, auth(r.id), Visible(s, c), c, stmt);
    ExecuteShape(s, s.held[r], stmt);
    hide Inv, Execute, Visible, View, Locked, HoldsOwn, WritesOf, Rewrites, Removals, Targets;
  }

  function GetById(id: RowId): Stmt {
    Select((rows: Rows) => if id in rows then rows[id].cells else [])
  }

  function UpdateById(id: RowId, set_: (RowId, Row) -> Row): Stmt {
    Update((i: RowId, row: Row) => i == id, set_)
  }

  function DeleteById(id: RowId): Stmt {
    Delete((i: RowId, row: Row) => i == id)
  }

  // getProject, updateProject and deleteProject cannot tell another tenant's project from one that
  // does not exist: no row, no effect, and never a wait for its lock.
  lemma ForeignProjectNotRead(auth: Auth, idOwner: RowId -> string, s: Sys, r: ReqId, id: RowId)
    requires Inv(auth, idOwner, s) && r in s.held && idOwner(id) != auth(r.id)
    ensures HasDb(s, r)
    ensures var c := s.conns[s.held[r]];
            !c.aborted ==> Execute(s, s.held[r], GetById(id)) == (c, Output([]))
  {
    VisibleIsOwn(auth, idOwner, s, r);
  }

  lemma ForeignProjectNotWritten(auth: Auth, idOwner: RowId -> string, s: Sys, r: ReqId, id: RowId, stmt: Stmt)
    requires Inv(auth, idOwner, s) && r in s.held && idOwner(id) != auth(r.id)
    requires stmt == DeleteById(id) || exists set_ :: stmt == UpdateById(id, set_)
    ensures HasDb(s, r)
    ensures var c := s.conns[s.held[r]];
            !c.aborted ==> Execute(s, s.held[r], stmt) == (c, Affected({}))
  {
    VisibleIsOwn(auth, idOwner, s, r);
    hide Inv, Visible, View, CurrentTenant;
    var c := s.conns[s.held[r]];
    assert Targets(Visible(s, c), stmt.where) == {};
    assert stmt.Update? ==> c.writes + Rewrites(Visible(s, c), {}, stmt.set_) == c.writes;
    assert c.writes + Removals({}) == c.writes;
  }

  lemma AcquireKeepsInv(auth: Auth, idOwner: RowId -> string, s: Sys, r: Req, c: ConnId)
    requires Inv(auth, idOwner, s) && r !in s.held && c in s.conns && c !in s.held.Values && auth(r.id) != ""
    ensures Inv(auth, idOwner, Acquire(s, r, c, auth(r.id)))
  {
    var s' := Acquire(s, r, c, auth(r.id));
    forall q | q in s.held ensures s'.held[q] == s.held[q] && HoldsOwn(auth, idOwner, s', q) {
      assert HoldsOwn(auth, idOwner, s, q) && s.held[q] in s.held.Values;
    }
    assert s'.held[r] == c && HoldsOwn(auth, idOwner, s', r);
  }

  lemma OrphanValues(s: Sys, r: Req)
    requires r in s.held && Lost(r.id, s.held[r]) !in s.held
    ensures Orphan(s, r).held.Values == s.held.Values
  {
    var held', lost := Orphan(s, r).held, Lost(r.id, s.held[r]);
    forall q | q in s.held ensures s.held[q] in held'.Values {
      assert held'[if q == r then lost else q] == s.held[q];
    }
    forall q | q in held' ensures held'[q] in s.held.Values {
      assert held'[q] == s.held[if q == lost then r else q];
    }
  }

  lemma OrphanHolds(auth: Auth, idOwner: RowId -> string, s: Sys, r: Req, q: ReqId)
    requires r in s.held && q in Orphan(s, r).held
    requires HoldsOwn(auth, idOwner, s, r) && (q in s.held ==> HoldsOwn(auth, idOwner, s, q))
    ensures HoldsOwn(auth, idOwner, Orphan(s, r), q)
  {
  }

  lemma OrphanKeepsInv(auth: Auth, idOwner: RowId -> string, s: Sys, r: Req)
    requires Inv(auth, idOwner, s) && r in s.held
    ensures Inv(auth, idOwner, Orphan(s, r)) && r !in Orphan(s, r).held
    ensures Orphan(s, r).held.Values == s.held.Values && Orphan(s, r).conns == s.conns
  {
    var s', lost := Orphan(s, r), Lost(r.id, s.held[r]);
    assert lost !in s.held;
    OrphanValues(s, r);
    forall q | q in s'.held ensures HoldsOwn(auth, idOwner, s', q) {
      OrphanHolds(auth, idOwner, s, r, q);
    }
    hide HoldsOwn, OfTenant, CurrentTenant;
    forall p, q | p in s'.held && q in s'.held && p != q ensures s'.held[p] != s'.held[q] {
      assert s.held[if p == lost then r else p] != s.held[if q == lost then r else q];
    }
  }

  lemma StoreKeepsInv(auth: Auth, idOwner: RowId -> string, s: Sys, r: ReqId, c: Conn)
    requires Inv(auth, idOwner, s) && HasDb(s, r)
    requires c.setting == Some(auth(r.id)) && WritesOf(idOwner, auth(r.id), c.writes)
    ensures Inv(auth, idOwner, Store(s, s.held[r], c))
  {
    var s' := Store(s, s.held[r], c);
    forall q | q in s.held ensures HoldsOwn(auth, idOwner, s', q) {
      assert HoldsOwn(auth, idOwner, s, q);
    }
  }

  lemma KillKeepsInv(auth: Auth, idOwner: RowId -> string, s: Sys, r: ReqId)
    requires Inv(auth, idOwner, s) && HasDb(s, r)
    ensures Inv(auth, idOwner, Store(s, s.held[r], Killed(s.conns[s.held[r]])))
  {
    assert HoldsOwn(auth, idOwner, s, r);
    StoreKeepsInv(auth, idOwner, s, r, Killed(s.conns[s.held[r]]));
  }

  lemma ReleaseKeepsInv(auth: Auth, idOwner: RowId -> string, s: Sys, r: ReqId)
    requires Inv(auth, idOwner, s) && r in s.held
    ensures Inv(auth, idOwner, Release(s, r))
  {
    var s' := Release(s, r);
    forall q | q in s'.held ensures HoldsOwn(auth, idOwner, s', q) {
      assert HoldsOwn(auth, idOwner, s, q);
    }
    forall q | q in s.held ensures s.held[q] in s'.held.Values + {s.held[r]} {
      if q != r {
        assert s'.held[q] == s.held[q];
      }
    }
  }

  lemma PublishKeepsInv(auth: Auth, idOwner: RowId -> string, s: Sys, r: ReqId)
    requires Inv(auth, idOwner, s) && HasDb(s, r)
    ensures Inv(auth, idOwner, Publish(s, s.conns[s.held[r]].writes))
  {
    var s' := Publish(s, s.conns[s.held[r]].writes);
    forall q | q in s'.held ensures HoldsOwn(auth, idOwner, s', q) {
      assert HoldsOwn(auth, idOwner, s, q);
    }
    assert HoldsOwn(auth, idOwner, s, r);
  }

  lemma StepKeepsInv(auth: Auth, idOwner: RowId -> string, s: Sys, e: Event)
    requires Inv(auth, idOwner, s) && FreshIds(auth, idOwner, e)
    ensures Inv(auth, idOwner, Step(auth, s, e).0)
  {
    hide Inv, Execute, Acquire, Orphan, Store, Release, View;
    var r, s' := e.req, Step(auth, s, e).0;
    match e.action
    case Open(c, _) =>
      if Step(auth, s, e).1 == Opened {
        if r in s.held {
          OrphanKeepsInv(auth, idOwner, s, r);
        }
        AcquireKeepsInv(auth, idOwner, if r in s.held then Orphan(s, r) else s, r, c);
      }
    case Exec(stmt) =>
      if HasDb(s, r) {
        ExecuteKeepsOwnership(auth, idOwner, s, r, stmt);
        StoreKeepsInv(auth, idOwner, s, r, Execute(s, s.held[r], stmt).0);
      }
    case Die =>
      if HasDb(s, r) {
        KillKeepsInv(auth, idOwner, s, r);
      }
    case Commit(_, _) =>
      if HasDb(s, r) {
        PublishKeepsInv(auth, idOwner, s, r);
        ReleaseKeepsInv(auth, idOwner, s, r);
        ReleaseKeepsInv(auth, idOwner, Publish(s, s.conns[s.held[r]].writes), r);
      }
    case OnError =>
      if HasDb(s, r) {
        ReleaseKeepsInv(auth, idOwner, s, r);
      }
    case Cancel =>
      CancelKeepsInv(auth, idOwner, s, s'.cancelled);
  }

  lemma CancelKeepsInv(auth: Auth, idOwner: RowId -> string, s: Sys, cancelled: set<string>)
    requires Inv(auth, idOwner, s)
    ensures Inv(auth, idOwner, s.(cancelled := cancelled))
  {
    forall q | q in s.held ensures HoldsOwn(auth, idOwner, s.(cancelled := cancelled), q) {
      assert HoldsOwn(auth, idOwner, s, q);
    }
  }

  // ----- Noninterference -----

  // s1 and s2 look the same to tenant t, and s2 holds nothing but t's requests.
  ghost predicate Similar(auth: Auth, t: string, s1: Sys, s2: Sys) {
    && OfTenant(s1.committed, Some(t)) == OfTenant(s2.committed, Some(t))
    && (t in s1.cancelled <==> t in s2.cancelled)
    && s1.conns.Keys == s2.conns.Keys
    && (forall r :: r in s2.held ==> auth(r.id) == t)
    && (forall r: ReqId :: auth(r.id) == t ==> SameRequest(s1, s2, r))
  }

  ghost predicate SameRequest(s1: Sys, s2: Sys, r: ReqId) {
    && (r in s1.held <==> r in s2.held)
    && (r in s1.held ==>
          && s1.held[r] == s2.held[r]
          && s1.held[r] in s1.conns && s2.held[r] in s2.conns
          && s1.conns[s1.held[r]] == s2.conns[s2.held[r]])
  }

  lemma ForeignAcquireInvisible(auth: Auth, t: string, s1: Sys, s2: Sys, r: ReqId, c: ConnId)
    requires Similar(auth, t, s1, s2) && auth(r.id) != t && c in s1.conns && c !in s1.held.Values
    ensures Similar(auth, t, Acquire(s1, r, c, auth(r.id)), s2)
  {
    forall q: ReqId | auth(q.id) == t ensures SameRequest(Acquire(s1, r, c, auth(r.id)), s2, q) {
      assert SameRequest(s1, s2, q);
    }
  }

  lemma ForeignOrphanInvisible(auth: Auth, t: string, s1: Sys, s2: Sys, r: Req)
    requires Similar(auth, t, s1, s2) && auth(r.id) != t && r in s1.held
    ensures Similar(auth, t, Orphan(s1, r), s2)
  {
    forall q: ReqId | auth(q.id) == t ensures SameRequest(Orphan(s1, r), s2, q) {
      assert SameRequest(s1, s2, q);
    }
  }

  lemma ForeignStoreInvisible(auth: Auth, idOwner: RowId -> string, t: string, s1: Sys, s2: Sys, r: ReqId, c: Conn)
    requires Inv(auth, idOwner, s1) && Similar(auth, t, s1, s2) && auth(r.id) != t && HasDb(s1, r)
    ensures Similar(auth, t, Store(s1, s1.held[r], c), s2)
  {
    forall q: ReqId | auth(q.id) == t ensures SameRequest(Store(s1, s1.held[r], c), s2, q) {
      assert SameRequest(s1, s2, q);
    }
  }

  lemma ForeignReleaseInvisible(auth: Auth, idOwner: RowId -> string, t: string, s1: Sys, s2: Sys, r: ReqId)
    requires Inv(auth, idOwner, s1) && Similar(auth, t, s1, s2) && auth(r.id) != t && HasDb(s1, r)
    ensures Similar(auth, t, Release(s1, r), s2)
  {
    forall q: ReqId | auth(q.id) == t ensures SameRequest(Release(s1, r), s2, q) {
      assert SameRequest(s1, s2, q);
    }
  }

  lemma ForeignWritesInvisible(idOwner: RowId -> string, committed: Rows, u: string, writes: map<RowId, Option<Row>>, t: string)
    requires forall id :: id in committed ==> committed[id].tenant == idOwner(id)
    requires WritesOf(idOwner, u, writes) && u != t
    ensures OfTenant(View(committed, writes), Some(t)) == OfTenant(committed, Some(t))
  {
  }

  lemma ForeignPublishInvisible(auth: Auth, idOwner: RowId -> string, t: string, s1: Sys, s2: Sys, r: ReqId)
    requires Inv(auth, idOwner, s1) && Similar(auth, t, s1, s2) && auth(r.id) != t && HasDb(s1, r)
    ensures Similar(auth, t, Publish(s1, s1.conns[s1.held[r]].writes), s2)
  {
    var writes := s1.conns[s1.held[r]].writes;
    assert HoldsOwn(auth, idOwner, s1, r);
    ForeignWritesInvisible(idOwner, s1.committed, auth(r.id), writes, t);
    forall q: ReqId | auth(q.id) == t ensures SameRequest(Publish(s1, writes), s2, q) {
      assert SameRequest(s1, s2, q);
    }
  }

  // A request of another tenant leaves t's view alone.
  lemma ForeignStepInvisible(auth: Auth, idOwner: RowId -> string, t: string, s1: Sys, s2: Sys, e: Event)
    requires Inv(auth, idOwner, s1) && Similar(auth, t, s1, s2) && auth(e.req.id) != t
    ensures Similar(auth, t, Step(auth, s1, e).0, s2)
  {
    hide Inv, Execute, Acquire, Orphan, Store, Release, View, SameRequest;
    var r := e.req;
    match e.action
    case Open(c, _) =>
      if Step(auth, s1, e).1 == Opened {
        if r in s1.held {
          ForeignOrphanInvisible(auth, t, s1, s2, r);
          OrphanKeepsInv(auth, idOwner, s1, r);
        }
        ForeignAcquireInvisible(auth, t, if r in s1.held then Orphan(s1, r) else s1, s2, r, c);
      }
    case Exec(stmt) =>
      if HasDb(s1, r) {
        ForeignStoreInvisible(auth, idOwner, t, s1, s2, r, Execute(s1, s1.held[r], stmt).0);
      }
    case Die =>
      if HasDb(s1, r) {
        ForeignStoreInvisible(auth, idOwner, t, s1, s2, r, Killed(s1.conns[s1.held[r]]));
      }
    case Commit(_, _) =>
      if HasDb(s1, r) {
        ForeignReleaseInvisible(auth, idOwner, t, s1, s2, r);
        ForeignPublishInvisible(auth, idOwner, t, s1, s2, r);
        PublishKeepsInv(auth, idOwner, s1, r);
        ForeignReleaseInvisible(auth, idOwner, t, Publish(s1, s1.conns[s1.held[r]].writes), s2, r);
      }
    case OnError =>
      if HasDb(s1, r) {
        ForeignReleaseInvisible(auth, idOwner, t, s1, s2, r);
      }
    case Cancel =>
      ForeignCancelInvisible(auth, t, s1, s2, r);
  }

  lemma ForeignCancelInvisible(auth: Auth, t: string, s1: Sys, s2: Sys, r: ReqId)
    requires Similar(auth, t, s1, s2) && auth(r.id) != t
    ensures Similar(auth, t, s1.(cancelled := s1.cancelled + {auth(r.id)}), s2)
  {
    forall q: ReqId | auth(q.id) == t ensures SameRequest(s1.(cancelled := s1.cancelled + {auth(r.id)}), s2, q) {
      assert SameRequest(s1, s2, q);
    }
  }

  // A connection that t cannot lock against has no write of t's.
  lemma WritesAreOwn(auth: Auth, idOwner: RowId -> string, t: string, s1: Sys, s2: Sys, d: ConnId, ids: set<RowId>)
    requires Inv(auth, idOwner, s1) && Inv(auth, idOwner, s2) && Similar(auth, t, s1, s2) && d in s1.conns
    requires forall id :: id in ids ==> idOwner(id) == t
    ensures s1.conns[d].writes.Keys * ids == s2.conns[d].writes.Keys * ids
  {
    if q :| q in s1.held && s1.held[q] == d && auth(q.id) == t {
      assert SameRequest(s1, s2, q);
    } else {
      assert d !in s2.held.Values by {
        forall q | q in s2.held ensures s2.held[q] != d {
          assert SameRequest(s1, s2, q);
        }
      }
      assert s2.conns[d].writes.Keys == {};
      if q :| q in s1.held && s1.held[q] == d {
        assert HoldsOwn(auth, idOwner, s1, q);
      }
    }
  }

  lemma LocksAreOwn(auth: Auth, idOwner: RowId -> string, t: string, s1: Sys, s2: Sys, c: ConnId, ids: set<RowId>)
    requires Inv(auth, idOwner, s1) && Inv(auth, idOwner, s2) && Similar(auth, t, s1, s2)
    requires forall id :: id in ids ==> idOwner(id) == t
    ensures Locked(s1, c, ids) <==> Locked(s2, c, ids)
  {
    forall d | d in s1.conns ensures s1.conns[d].writes.Keys * ids == s2.conns[d].writes.Keys * ids {
      WritesAreOwn(auth, idOwner, t, s1, s2, d, ids);
    }
  }

  predicate SameAt(a: Rows, b: Rows, t: string, id: RowId) {
    && (id in a && a[id].tenant == t <==> id in b && b[id].tenant == t)
    && (id in a && a[id].tenant == t ==> a[id] == b[id])
  }

  lemma SameRowsAt(a: Rows, b: Rows, t: string, id: RowId)
    requires OfTenant(a, Some(t)) == OfTenant(b, Some(t))
    ensures SameAt(a, b, t, id)
  {
    assert id in OfTenant(a, Some(t)) <==> id in OfTenant(b, Some(t));
    assert id in OfTenant(a, Some(t)) ==> OfTenant(a, Some(t))[id] == OfTenant(b, Some(t))[id];
  }

  lemma SameRows(a: Rows, b: Rows, t: string)
    requires forall id :: SameAt(a, b, t, id)
    ensures OfTenant(a, Some(t)) == OfTenant(b, Some(t))
  {
    forall id ensures id in OfTenant(a, Some(t)) <==> id in OfTenant(b, Some(t)) {
      assert SameAt(a, b, t, id);
    }
    forall id | id in OfTenant(a, Some(t)) ensures OfTenant(a, Some(t))[id] == OfTenant(b, Some(t))[id] {
      assert SameAt(a, b, t, id);
    }
  }

  // Two tables with the same rows of t still have them after the same writes.
  lemma ViewsAgree(a: Rows, b: Rows, t: string, writes: map<RowId, Option<Row>>)
    requires OfTenant(a, Some(t)) == OfTenant(b, Some(t))
    ensures OfTenant(View(a, writes), Some(t)) == OfTenant(View(b, writes), Some(t))
  {
    hide OfTenant;
    forall id ensures SameAt(View(a, writes), View(b, writes), t, id) {
      SameRowsAt(a, b, t, id);
    }
    SameRows(View(a, writes), View(b, writes), t);
  }

  // An id drawn by t is taken in one run iff it is taken in the other.
  lemma SameIdsTaken(auth: Auth, idOwner: RowId -> string, t: string, s1: Sys, s2: Sys, writes: map<RowId, Option<Row>>, id: RowId)
    requires Inv(auth, idOwner, s1) && Inv(auth, idOwner, s2) && Similar(auth, t, s1, s2) && idOwner(id) == t
    ensures id in View(s1.committed, writes) <==> id in View(s2.committed, writes)
  {
    assert id in OfTenant(s1.committed, Some(t)) <==> id in OfTenant(s2.committed, Some(t));
  }

  lemma SameView(auth: Auth, idOwner: RowId -> string, t: string, s1: Sys, s2: Sys, r: ReqId)
    requires Inv(auth, idOwner, s1) && Inv(auth, idOwner, s2) && Similar(auth, t, s1, s2)
    requires auth(r.id) == t && r in s1.held
    ensures HasDb(s1, r) && HasDb(s2, r) && s1.held[r] == s2.held[r]
    ensures var c := s1.conns[s1.held[r]];
            && c == s2.conns[s2.held[r]] && CurrentTenant(c.setting) == Some(t)
            && Visible(s1, c) == Visible(s2, c)
            && (forall id :: id in Visible(s1, c) ==> idOwner(id) == t)
  {
    assert SameRequest(s1, s2, r) && HoldsOwn(auth, idOwner, s1, r);
    ViewsAgree(s1.committed, s2.committed, t, s1.conns[s1.held[r]].writes);
  }

  // A statement of t sees the same rows, meets the same locks and has the same effect.
  lemma SameExecution(auth: Auth, idOwner: RowId -> string, t: string, s1: Sys, s2: Sys, r: Req, stmt: Stmt)
    requires Inv(auth, idOwner, s1) && Inv(auth, idOwner, s2) && Similar(auth, t, s1, s2)
    requires auth(r.id) == t && r in s1.held && FreshIds(auth, idOwner, Event(r, Exec(stmt)))
    ensures HasDb(s1, r) && HasDb(s2, r)
    ensures Execute(s1, s1.held[r], stmt) == Execute(s2, s2.held[r], stmt)
  {
    hide Inv, Similar, Visible, View, Locked;
    SameView(auth, idOwner, t, s1, s2, r);
    var cid, c := s1.held[r], s1.conns[s1.held[r]];
    match stmt
    case Select(_) =>
    case Insert(id, row) =>
      if row.tenant == t {
        LocksAreOwn(auth, idOwner, t, s1, s2, cid, {id});
        SameIdsTaken(auth, idOwner, t, s1, s2, c.writes, id);
      }
    case Update(where, _) =>
      LocksAreOwn(auth, idOwner, t, s1, s2, cid, Targets(Visible(s1, c), where));
    case Delete(where) =>
      LocksAreOwn(auth, idOwner, t, s1, s2, cid, Targets(Visible(s1, c), where));
  }

  // The pool hands out idle connections only.
  ghost predicate OpensIdle(s: Sys, e: Event) {
    e.action.Open? ==> e.action.conn in s.conns && e.action.conn !in s.held.Values
  }

  lemma OwnAcquireSame(auth: Auth, t: string, s1: Sys, s2: Sys, r: ReqId, c: ConnId)
    requires Similar(auth, t, s1, s2) && auth(r.id) == t && c in s1.conns && c !in s1.held.Values
    ensures c in s2.conns && c !in s2.held.Values
    ensures Similar(auth, t, Acquire(s1, r, c, t), Acquire(s2, r, c, t))
  {
    forall q | q in s2.held ensures s2.held[q] != c {
      assert SameRequest(s1, s2, q);
    }
    forall q: ReqId | auth(q.id) == t ensures SameRequest(Acquire(s1, r, c, t), Acquire(s2, r, c, t), q) {
      assert SameRequest(s1, s2, q);
    }
  }

  lemma OwnOrphanSame(auth: Auth, t: string, s1: Sys, s2: Sys, r: Req)
    requires Similar(auth, t, s1, s2) && auth(r.id) == t && r in s1.held
    ensures r in s2.held && Similar(auth, t, Orphan(s1, r), Orphan(s2, r))
  {
    assert SameRequest(s1, s2, r);
    forall q: ReqId | auth(q.id) == t ensures SameRequest(Orphan(s1, r), Orphan(s2, r), q) {
      assert SameRequest(s1, s2, q);
    }
  }

  lemma OwnStoreSame(auth: Auth, t: string, s1: Sys, s2: Sys, cid: ConnId, c: Conn)
    requires Similar(auth, t, s1, s2)
    ensures Similar(auth, t, Store(s1, cid, c), Store(s2, cid, c))
  {
    forall q: ReqId | auth(q.id) == t ensures SameRequest(Store(s1, cid, c), Store(s2, cid, c), q) {
      assert SameRequest(s1, s2, q);
    }
  }

  lemma OwnReleaseSame(auth: Auth, t: string, s1: Sys, s2: Sys, r: ReqId)
    requires Similar(auth, t, s1, s2) && auth(r.id) == t && r in s1.held
    ensures r in s2.held && Similar(auth, t, Release(s1, r), Release(s2, r))
  {
    assert SameRequest(s1, s2, r);
    forall q: ReqId | auth(q.id) == t ensures SameRequest(Release(s1, r), Release(s2, r), q) {
      assert SameRequest(s1, s2, q);
    }
  }

  lemma OwnPublishSame(auth: Auth, t: string, s1: Sys, s2: Sys, writes: map<RowId, Option<Row>>)
    requires Similar(auth, t, s1, s2)
    ensures Similar(auth, t, Publish(s1, writes), Publish(s2, writes))
  {
    ViewsAgree(s1.committed, s2.committed, t, writes);
    forall q: ReqId | auth(q.id) == t ensures SameRequest(Publish(s1, writes), Publish(s2, writes), q) {
      assert SameRequest(s1, s2, q);
    }
  }

  lemma OwnStepSame(auth: Auth, idOwner: RowId -> string, t: string, s1: Sys, s2: Sys, e: Event)
    requires t != "" && Inv(auth, idOwner, s1) && Inv(auth, idOwner, s2) && Similar(auth, t, s1, s2)
    requires auth(e.req.id) == t && FreshIds(auth, idOwner, e) && OpensIdle(s1, e)
    ensures Step(auth, s1, e).1 == Step(auth, s2, e).1
    ensures Similar(auth, t, Step(auth, s1, e).0, Step(auth, s2, e).0)
  {
    hide Inv, Execute, Acquire, Orphan, Store, Release, View;
    var r := e.req;
    assert SameRequest(s1, s2, r);
    match e.action
    case Open(c, _) =>
      OwnAcquireSame(auth, t, s1, s2, r, c);
      if r in s1.held {
        OwnOrphanSame(auth, t, s1, s2, r);
        OrphanKeepsInv(auth, idOwner, s1, r);
        OwnAcquireSame(auth, t, Orphan(s1, r), Orphan(s2, r), r, c);
      }
    case Exec(stmt) =>
      if HasDb(s1, r) {
        SameExecution(auth, idOwner, t, s1, s2, r, stmt);
        OwnStoreSame(auth, t, s1, s2, s1.held[r], Execute(s1, s1.held[r], stmt).0);
      }
    case Die =>
      if HasDb(s1, r) {
        OwnStoreSame(auth, t, s1, s2, s1.held[r], Killed(s1.conns[s1.held[r]]));
      }
    case Commit(_, _) =>
      if HasDb(s1, r) {
        var writes := s1.conns[s1.held[r]].writes;
        OwnReleaseSame(auth, t, s1, s2, r);
        OwnPublishSame(auth, t, s1, s2, writes);
        OwnReleaseSame(auth, t, Publish(s1, writes), Publish(s2, writes), r);
      }
    case OnError =>
      if HasDb(s1, r) {
        OwnReleaseSame(auth, t, s1, s2, r);
      }
    case Cancel =>
      OwnCancelSame(auth, t, s1, s2);
  }

  lemma OwnCancelSame(auth: Auth, t: string, s1: Sys, s2: Sys)
    requires Similar(auth, t, s1, s2)
    ensures Similar(auth, t, s1.(cancelled := s1.cancelled + {t}), s2.(cancelled := s2.cancelled + {t}))
  {
    forall q: ReqId | auth(q.id) == t
      ensures SameRequest(s1.(cancelled := s1.cancelled + {t}), s2.(cancelled := s2.cancelled + {t}), q)
    {
      assert SameRequest(s1, s2, q);
    }
  }

  ghost predicate PoolDiscipline(auth: Auth, s: Sys, es: seq<Event>)
    decreases es
  {
    es == [] || (OpensIdle(s, es[0]) && PoolDiscipline(auth, Step(auth, s, es[0]).0, es[1..]))
  }

  lemma {:induction false} SimulationHolds(auth: Auth, idOwner: RowId -> string, t: string, s1: Sys, s2: Sys, es: seq<Event>)
    requires t != "" && Inv(auth, idOwner, s1) && Inv(auth, idOwner, s2) && Similar(auth, t, s1, s2)
    requires AllFresh(auth, idOwner, es) && PoolDiscipline(auth, s1, es)
    ensures ResultsOf(auth, s1, es, t) == Run(auth, s2, Only(auth, es, t)).1
    ensures Similar(auth, t, Run(auth, s1, es).0, Run(auth, s2, Only(auth, es, t)).0)
    decreases es
  {
    if es != [] {
      var e := es[0];
      assert FreshIds(auth, idOwner, e);
      var s1' := Step(auth, s1, e).0;
      StepKeepsInv(auth, idOwner, s1, e);
      if auth(e.req.id) == t {
        OwnStepSame(auth, idOwner, t, s1, s2, e);
        StepKeepsInv(auth, idOwner, s2, e);
        SimulationHolds(auth, idOwner, t, s1', Step(auth, s2, e).0, es[1..]);
        assert Only(auth, es, t)[1..] == Only(auth, es[1..], t);
      } else {
        ForeignStepInvisible(auth, idOwner, t, s1, s2, e);
        SimulationHolds(auth, idOwner, t, s1', s2, es[1..]);
        assert Only(auth, es, t) == Only(auth, es[1..], t);
      }
    }
  }

  // For any interleaving of any statements, commits, rollbacks and failures of many tenants'
  // requests on one pool, everything tenant t is told and every row t ends up with are as in the
  // run in which the other tenants' requests never happened.
  lemma Noninterference(auth: Auth, idOwner: RowId -> string, t: string, s: Sys, es: seq<Event>)
    requires t != "" && s.held == map[] && Inv(auth, idOwner, s)
    requires AllFresh(auth, idOwner, es) && PoolDiscipline(auth, s, es)
    ensures ResultsOf(auth, s, es, t) == Run(auth, s, Only(auth, es, t)).1
    ensures OfTenant(Run(auth, s, es).0.committed, Some(t)) == OfTenant(Run(auth, s, Only(auth, es, t)).0.committed, Some(t))
  {
    SimulationHolds(auth, idOwner, t, s, s, es);
  }

  // Once a tenant has cancelled, none of its requests is opened again.
  lemma {:induction false} CancelledStaysOut(auth: Auth, s: Sys, es: seq<Event>, t: string)
    requires t in s.cancelled
    ensures |Run(auth, s, es).1| == |es|
    ensures forall k :: 0 <= k < |es| && es[k].action.Open? && auth(es[k].req.id) == t ==> Run(auth, s, es).1[k] != Opened
    decreases es
  {
    if es != [] {
      var (s', res) := Step(auth, s, es[0]);
      assert t in s'.cancelled && (es[0].action.Open? && auth(es[0].req.id) == t ==> res != Opened);
      hide Step;
      CancelledStaysOut(auth, s', es[1..], t);
      forall k | 0 < k < |es| ensures es[k] == es[1..][k - 1] && Run(auth, s, es).1[k] == Run(auth, s', es[1..]).1[k - 1] {
      }
    }
  }
}
