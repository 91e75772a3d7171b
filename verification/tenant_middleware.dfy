// The hooks of makeWithTenant in src/middleware/tenant.ts, command by command with a fault for each,
// proved against the steps of the Isolation module, with the pool's books on acquired and released
// connections.

module TenantMiddleware {
  import opened Prelude
  import opened RowSecurity
  import opened Isolation
  import opened Connection
  import opened StatementAnswers

  // Every acquisition has been followed by one release, except those of the open requests.
  ghost predicate Balanced(acquired: multiset<ConnId>, released: multiset<ConnId>, held: map<ReqId, ConnId>) {
    forall c :: acquired[c] == released[c] + if c in held.Values then 1 else 0
  }

  lemma AddedValue(held: map<ReqId, ConnId>, r: ReqId, c: ConnId)
    requires r !in held
    ensures held[r := c].Values == held.Values + {c}
  {
    forall q | q in held ensures held[r := c][q] == held[q] {
    }
    assert held[r := c][r] == c;
  }

  lemma AcquireBalances(acquired: multiset<ConnId>, released: multiset<ConnId>, held: map<ReqId, ConnId>, r: ReqId, c: ConnId)
    requires Balanced(acquired, released, held) && c !in held.Values
    ensures r !in held ==> Balanced(acquired + multiset{c}, released, held[r := c])
    ensures Balanced(acquired + multiset{c}, released + multiset{c}, held)
  {
    if r !in held {
      AddedValue(held, r, c);
    }
  }

  lemma ReleaseBalances(acquired: multiset<ConnId>, released: multiset<ConnId>, held: map<ReqId, ConnId>, r: ReqId)
    requires Balanced(acquired, released, held) && r in held
    requires forall q :: q in held && q != r ==> held[q] != held[r]
    ensures Balanced(acquired, released + multiset{held[r]}, held - {r})
  {
    var held' := held - {r};
    forall q | q in held' ensures held'[q] == held[q] {
    }
    assert held.Values == held'.Values + {held[r]};
    assert held[r] !in held'.Values;
  }

  function States(links: map<ConnId, Link>): map<ConnId, Conn> {
    map c | c in links :: Abs(links[c])
  }

  // Idle connections are clean, and those in use are in a transaction.
  ghost predicate Kept(links: map<ConnId, Link>, held: map<ReqId, ConnId>) {
    && (forall c :: c in links && c !in held.Values ==> links[c] == FRESH)
    && (forall c :: c in links && c in held.Values ==> InUse(links[c]))
  }

  // The connections in use after req.db = client; one that was there is lost sight of.
  function Bound(held: map<ReqId, ConnId>, r: Req, c: ConnId): map<ReqId, ConnId> {
    (if r in held then (held - {r})[Lost(r.id, held[r]) := held[r]] else held)[r := c]
  }

  // ----- The hooks on values -----

  datatype Books = Books(committed: Rows, cancelled: set<string>, links: map<ConnId, Link>, held: map<ReqId, ConnId>,
                         acquired: multiset<ConnId>, released: multiset<ConnId>)

  function Abstract(b: Books): Sys {
    Sys(b.committed, b.cancelled, States(b.links), b.held)
  }

  ghost predicate Good(auth: Auth, idOwner: RowId -> string, b: Books) {
    Inv(auth, idOwner, Abstract(b)) && Kept(b.links, b.held) && Balanced(b.acquired, b.released, b.held)
  }

  // preHandler, once a tenant is there: `c` is the idle connection the pool hands out.
  function OpenHook(b: Books, r: Req, c: ConnId, tenantId: string, f: OpenFaults): (Books, Result)
    requires c in b.links
  {
    var (l, ok) := Entered(b.links[c], tenantId, f);
    if ok && tenantId !in b.cancelled then
      (b.(links := b.links[c := l], held := Bound(b.held, r, c), acquired := b.acquired + multiset{c}), Opened)
    else
      (b.(links := b.links[c := PutBack(After(l, RollbackTx, f.rollback).0)],
          acquired := b.acquired + multiset{c}, released := b.released + multiset{c}), if ok then Forbidden else Unavailable)
  }

  // onSend and onError of a request that holds a connection.
  function CloseHook(b: Books, r: Req, end: TxCommand, f: CloseFaults): Books
    requires r in b.held && b.held[r] in b.links
  {
    var c := b.held[r];
    b.(committed := if Publishes(b.links[c], end, f.end) then View(b.committed, b.links[c].writes) else b.committed,
       links := b.links[c := Closed(b.links[c], end, f)], held := b.held - {r}, released := b.released + multiset{c})
  }

  function ErrorHook(b: Books, r: Req, f: CloseFaults): Books
    requires r in b.held && b.held[r] in b.links
  {
    var c := b.held[r];
    b.(links := b.links[c := ClosedOnError(b.links[c], f)], held := b.held - {r}, released := b.released + multiset{c})
  }

  lemma StatesUpdate(links: map<ConnId, Link>, c: ConnId, l: Link)
    ensures States(links[c := l]) == States(links)[c := Abs(l)]
  {
  }

  // Which step an open is, seen from the pool.
  lemma OpenSteps(auth: Auth, s: Sys, r: Req, c: ConnId, fails: bool)
    requires auth(r.id) != "" && c in s.conns && c !in s.held.Values
    ensures Step(auth, s, Event(r, Open(c, fails)))
         == if fails then (s, Unavailable)
            else if auth(r.id) in s.cancelled then (s, Forbidden)
            else (Acquire(if r in s.held then Orphan(s, r) else s, r, c, auth(r.id)), Opened)
  {
  }

  lemma OpenKeepsKept(links: map<ConnId, Link>, s0: Sys, values: set<ConnId>, r: Req, c: ConnId, l: Link)
    requires r !in s0.held && s0.held.Values == values && c in links && InUse(l)
    requires forall d :: d in links ==> if d in values then InUse(links[d]) else links[d] == FRESH
    ensures Kept(links[c := l], s0.held[r := c])
  {
    AddedValue(s0.held, r, c);
    hide InUse;
  }

  lemma OpenKeepsValid(auth: Auth, idOwner: RowId -> string, s: Sys, links: map<ConnId, Link>, acquired: multiset<ConnId>,
                       released: multiset<ConnId>, r: Req, c: ConnId)
    requires Inv(auth, idOwner, s) && s.conns == States(links) && Kept(links, s.held) && Balanced(acquired, released, s.held)
    requires c in links && c !in s.held.Values && auth(r.id) != "" && auth(r.id) !in s.cancelled
    ensures var l := Link(None, Some(auth(r.id)), true, map[], false, false);
            var held' := Bound(s.held, r, c);
            var s' := Sys(s.committed, s.cancelled, States(links[c := l]), held');
            && Step(auth, s, Event(r, Open(c, false))) == (s', Opened)
            && Inv(auth, idOwner, s') && Kept(links[c := l], held') && Balanced(acquired + multiset{c}, released, held')
  {
    var s0 := if r in s.held then Orphan(s, r) else s;
    var l := Link(None, Some(auth(r.id)), true, map[], false, false);
    if r in s.held {
      OrphanKeepsInv(auth, idOwner, s, r);
    }
    StepKeepsInv(auth, idOwner, s, Event(r, Open(c, false)));
    OpenSteps(auth, s, r, c, false);
    OpenKeepsKept(links, s0, s.held.Values, r, c, l);
    assert Balanced(acquired, released, s0.held);
    AcquireBalances(acquired, released, s0.held, r, c);
    StatesUpdate(links, c, l);
    assert Abs(l) == Conn(Some(auth(r.id)), true, map[], false);
    hide Inv, Balanced, Kept, Step, States, Abs;
  }

  lemma RefusedOpenRefines(auth: Auth, idOwner: RowId -> string, b: Books, r: Req, c: ConnId, f: OpenFaults)
    requires Good(auth, idOwner, b) && auth(r.id) != "" && c in b.links && c !in b.held.Values
    requires !Entered(FRESH, auth(r.id), f).1 || auth(r.id) in b.cancelled
    ensures var (b', result) := OpenHook(b, r, c, auth(r.id), f);
            && (b'.links[c] == FRESH <==> OpenCleans(auth(r.id), f))
            && (OpenCleans(auth(r.id), f) ==>
                  Good(auth, idOwner, b')
                  && (Abstract(b'), result) == Step(auth, Abstract(b), Event(r, Open(c, !Entered(FRESH, auth(r.id), f).1))))
  {
    var t := auth(r.id);
    OpenSteps(auth, Abstract(b), r, c, !Entered(FRESH, t, f).1);
    FailedOpenCleansIff(t, f);
    AcquireBalances(b.acquired, b.released, b.held, r, c);
    assert b.links[c] == FRESH;
    assert b.links[c := FRESH] == b.links;
    hide Inv, Kept, Balanced, Entered, After, OpenCleans, Step, Acquire, PutBack, States, Orphan;
  }

  // An open that succeeds, or that leaves its connection clean, is a step of the pool; a refused one leaves
  // the connection clean exactly when OpenCleans says so.
  lemma OpenRefines(auth: Auth, idOwner: RowId -> string, b: Books, r: Req, c: ConnId, f: OpenFaults)
    requires Good(auth, idOwner, b) && auth(r.id) != "" && c in b.links && c !in b.held.Values
    ensures var (b', result) := OpenHook(b, r, c, auth(r.id), f);
            && (result == Opened || OpenCleans(auth(r.id), f) ==>
                  Good(auth, idOwner, b')
                  && (Abstract(b'), result) == Step(auth, Abstract(b), Event(r, Open(c, !Entered(FRESH, auth(r.id), f).1))))
            && (result != Opened ==> (b'.links[c] == FRESH <==> OpenCleans(auth(r.id), f)))
  {
    var t := auth(r.id);
    if !Entered(FRESH, t, f).1 || t in b.cancelled {
      RefusedOpenRefines(auth, idOwner, b, r, c, f);
    } else {
      EnteredInUse(t, f);
      OpenKeepsValid(auth, idOwner, Abstract(b), b.links, b.acquired, b.released, r, c);
      hide Inv, Kept, Balanced, Entered, After, OpenCleans, Step, Bound, PutBack, States;
    }
  }

  lemma ReleaseKeepsKept(links: map<ConnId, Link>, held: map<ReqId, ConnId>, r: ReqId)
    requires Kept(links, held) && r in held && forall q :: q in held && q != r ==> held[q] != held[r]
    ensures Kept(links[held[r] := FRESH], held - {r})
  {
    hide InUse;
    var held' := held - {r};
    forall c | c != held[r] ensures c in held'.Values <==> c in held.Values {
      if q :| q in held && held[q] == c {
        assert held'[q] == c;
      }
    }
  }

  // What a request's own connection is when a hook runs.
  lemma HeldInUse(auth: Auth, idOwner: RowId -> string, b: Books, r: ReqId)
    requires Good(auth, idOwner, b) && r in b.held
    ensures b.held[r] in b.links && InUse(b.links[b.held[r]]) && HasDb(Abstract(b), r)
    ensures Abstract(b).conns[b.held[r]] == Abs(b.links[b.held[r]])
    ensures forall q :: q in b.held && q != r ==> b.held[q] != b.held[r]
  {
    assert HoldsOwn(auth, idOwner, Abstract(b), r);
  }

  lemma ReleasedIsGood(auth: Auth, idOwner: RowId -> string, b: Books, b': Books, r: ReqId)
    requires Good(auth, idOwner, b) && r in b.held && Inv(auth, idOwner, Abstract(b'))
    requires b'.links == b.links[b.held[r] := FRESH] && b'.held == b.held - {r}
    requires b'.acquired == b.acquired && b'.released == b.released + multiset{b.held[r]}
    ensures Good(auth, idOwner, b')
  {
    HeldInUse(auth, idOwner, b, r);
    ReleaseKeepsKept(b.links, b.held, r);
    ReleaseBalances(b.acquired, b.released, b.held, r);
    hide Inv, Kept, Balanced;
  }

  // Closing a request is a step of the pool and leaves its connection clean exactly when CloseCleans.
  lemma CloseRefines(auth: Auth, idOwner: RowId -> string, b: Books, r: Req, success: bool, f: CloseFaults)
    requires Good(auth, idOwner, b) && r in b.held
    ensures b.held[r] in b.links
    ensures var end := if success then CommitTx else RollbackTx;
            var b', e := CloseHook(b, r, end, f), Event(r, Commit(success, f.end !in {Fine, LostAfter}));
            && (b'.links[b.held[r]] == FRESH <==> CloseCleans(b.links[b.held[r]], end, f))
            && (CloseCleans(b.links[b.held[r]], end, f) ==>
                  Good(auth, idOwner, b') && (Abstract(b'), Sent) == Step(auth, Abstract(b), e))
  {
    var end := if success then CommitTx else RollbackTx;
    var e := Event(r, Commit(success, f.end !in {Fine, LostAfter}));
    HeldInUse(auth, idOwner, b, r);
    var c, s := b.held[r], Abstract(b);
    var b' := CloseHook(b, r, end, f);
    HooksCleanIff(b.links[c], end, "", OpenFaults(Fine, Fine, Fine, Fine), f);
    StepKeepsInv(auth, idOwner, s, e);
    StatesUpdate(b.links, c, FRESH);
    assert Publishes(b.links[c], end, f.end) <==> success && e.action.commitFails == false && !s.conns[c].aborted;
    hide Inv, Good, Closed, CloseCleans, States, Isolation.View;
    if b'.links[c] == FRESH {
      assert (Abstract(b'), Sent) == Step(auth, s, e);
      ReleasedIsGood(auth, idOwner, b, b', r);
    }
  }

  lemma ErrorRefines(auth: Auth, idOwner: RowId -> string, b: Books, r: Req, f: CloseFaults)
    requires Good(auth, idOwner, b) && r in b.held
    ensures b.held[r] in b.links
    ensures var b' := ErrorHook(b, r, f);
            && (b'.links[b.held[r]] == FRESH <==> ErrorCleans(b.links[b.held[r]], f))
            && (ErrorCleans(b.links[b.held[r]], f) ==>
                  Good(auth, idOwner, b') && (Abstract(b'), Sent) == Step(auth, Abstract(b), Event(r, OnError)))
  {
    HeldInUse(auth, idOwner, b, r);
    var c, s, b' := b.held[r], Abstract(b), ErrorHook(b, r, f);
    HooksCleanIff(b.links[c], RollbackTx, "", OpenFaults(Fine, Fine, Fine, Fine), f);
    StepKeepsInv(auth, idOwner, s, Event(r, OnError));
    StatesUpdate(b.links, c, FRESH);
    hide Inv, Good, ClosedOnError, ErrorCleans, States;
    if b'.links[c] == FRESH {
      assert (Abstract(b'), Sent) == Step(auth, s, Event(r, OnError));
      ReleasedIsGood(auth, idOwner, b, b', r);
    }
  }

  // A statement of a handler, during which the connection may be lost.
  function StatementHook(b: Books, r: Req, stmt: Stmt, lost: bool): (Books, Result)
    requires r in b.held ==> b.held[r] in b.links
  {
    if r !in b.held then (b, if lost then Unavailable else NoDb)
    else
      var c := b.held[r];
      if lost then (b.(links := b.links[c := b.links[c].(dead := true, writes := map[], aborted := true)]), Unavailable)
      else
        var (conn, res) := Execute(Abstract(b), c, stmt);
        (b.(links := b.links[c := b.links[c].(writes := conn.writes, aborted := conn.aborted)]), res)
  }

  function StatementAction(stmt: Stmt, lost: bool): Action {
    if lost then Die else Exec(stmt)
  }

  lemma StatementRefines(auth: Auth, idOwner: RowId -> string, b: Books, r: Req, stmt: Stmt, lost: bool)
    requires Good(auth, idOwner, b) && FreshIds(auth, idOwner, Event(r, StatementAction(stmt, lost)))
    ensures r in b.held ==> b.held[r] in b.links
    ensures var (b', res) := StatementHook(b, r, stmt, lost);
            Good(auth, idOwner, b') && (Abstract(b'), res) == Step(auth, Abstract(b), Event(r, StatementAction(stmt, lost)))
  {
    var s, e := Abstract(b), Event(r, StatementAction(stmt, lost));
    StepKeepsInv(auth, idOwner, s, e);
    if r in b.held {
      HeldInUse(auth, idOwner, b, r);
      var c := b.held[r];
      var b' := StatementHook(b, r, stmt, lost).0;
      StatesUpdate(b.links, c, b'.links[c]);
      ExecuteKeepsUse(s, c, b.links[c], stmt);
      UseKeepsKept(b.links, b.held, c, b'.links[c]);
      hide Inv, Execute, States, Balanced, InUse, Kept;
    }
  }

  lemma UseKeepsKept(links: map<ConnId, Link>, held: map<ReqId, ConnId>, c: ConnId, l: Link)
    requires Kept(links, held) && c in links && c in held.Values
    ensures InUse(l) ==> Kept(links[c := l], held)
  {
  }

  // A statement neither ends a transaction nor changes its tenant; on an aborted one it does nothing.
  lemma ExecuteKeepsUse(s: Sys, c: ConnId, l: Link, stmt: Stmt)
    requires c in s.conns && s.conns[c] == Abs(l) && InUse(l)
    ensures var conn := Execute(s, c, stmt).0;
            && Abs(l.(writes := conn.writes, aborted := conn.aborted)) == conn
            && InUse(l.(writes := conn.writes, aborted := conn.aborted))
  {
    hide Locked, Visible, Targets, Rewrites, Removals, View;
  }

  // ----- The hooks, command by command -----

  class Server {
    const auth: Auth
    ghost const idOwner: RowId -> string
    var committed: Rows
    var cancelled: set<string>
    var links: map<ConnId, Link>
    var held: map<ReqId, ConnId> // req.db
    var acquired: multiset<ConnId>
    var released: multiset<ConnId>

    ghost function Now(): Books
      reads this
    {
      Books(committed, cancelled, links, held, acquired, released)
    }

    ghost function State(): Sys
      reads this
    {
      Abstract(Now())
    }

    ghost predicate Valid()
      reads this
    {
      Good(auth, idOwner, Now())
    }

    constructor (auth: Auth, ghost idOwner: RowId -> string, pool: set<ConnId>)
      ensures Valid() && this.auth == auth && this.idOwner == idOwner
      ensures State() == Sys(map[], {}, map c | c in pool :: CLEAN, map[])
      ensures acquired == released == multiset{}
    {
      this.auth := auth;
      this.idOwner := idOwner;
      committed, cancelled, held := map[], {}, map[];
      links := map c | c in pool :: FRESH;
      acquired, released := multiset{}, multiset{};
    }

    // client.query: a lost connection does nothing any more; no other connection is touched; rows change
    // only when a COMMIT takes effect, and then by the writes of this live, unaborted transaction; a COMMIT or
    // ROLLBACK that succeeds leaves neither transaction nor tenant.
    method Send(c: ConnId, cmd: TxCommand, f: Fault) returns (ok: bool)
      requires c in links
      modifies this`links, this`committed
      ensures ok == After(old(links[c]), cmd, f).1
      ensures links == old(links)[c := After(old(links[c]), cmd, f).0]
      ensures committed == if Publishes(old(links[c]), cmd, f) then View(old(committed), old(links[c]).writes) else old(committed)
      ensures old(links[c]).dead ==> !ok && links == old(links) && committed == old(committed)
      ensures committed != old(committed) ==>
                cmd == CommitTx && old(links[c]).inTx && !old(links[c]).dead && !old(links[c]).aborted && f in {Fine, LostAfter}
      ensures ok ==> f == Fine && !links[c].dead
      ensures ok && (cmd == CommitTx || cmd == RollbackTx) ==>
                !links[c].inTx && links[c].local == None && links[c].writes == map[] && !links[c].aborted
      ensures ok && cmd.SetTenant? && old(links[c]).inTx ==> links[c] == old(links[c]).(local := Some(cmd.tenant))
    {
      if Publishes(links[c], cmd, f) {
        committed := View(committed, links[c].writes);
      }
      var (l, success) := After(links[c], cmd, f);
      links := links[c := l];
      return success;
    }

    // client.release
    method GiveBack(c: ConnId)
      requires c in links
      modifies this`links, this`released
      ensures links == old(links)[c := PutBack(old(links[c]))] && released == old(released) + multiset{c}
    {
      links := links[c := PutBack(links[c])];
      released := released + multiset{c};
    }

    // BEGIN, set_config and the lookup of the organization.
    method EnterTenant(c: ConnId, tenantId: string, f: OpenFaults) returns (ok: bool)
      requires c in links
      modifies this`links, this`committed
      ensures links == old(links)[c := Entered(old(links[c]), tenantId, f).0] && committed == old(committed)
      ensures ok == Entered(old(links[c]), tenantId, f).1
      ensures ok && old(links[c]) == FRESH ==> links[c] == Link(None, Some(tenantId), true, map[], false, false)
    {
      ok := Send(c, Begin, f.begin);
      if ok {
        ok := Send(c, SetTenant(tenantId), f.setTenant);
      }
      if ok {
        ok := Send(c, LookUp, f.lookUp);
      }
    }

    // req.db = client overwrites what is there.
    method Bind(r: Req, c: ConnId)
      modifies this`held
      ensures held == Bound(old(held), r, c)
    {
      if r in held {
        held := (held - {r})[Lost(r.id, held[r]) := held[r]];
      }
      held := held[r := c];
    }

    // The catch block of the open hook.
    method Abandon(c: ConnId, rollback: Fault)
      requires c in links
      modifies this`links, this`committed, this`released
      ensures links == old(links)[c := PutBack(After(old(links[c]), RollbackTx, rollback).0)]
      ensures committed == old(committed) && released == old(released) + multiset{c}
    {
      NotPublished(links[c], rollback);
      hide After, Publishes, PutBack;
      var rolledBack := Send(c, RollbackTx, rollback);
      GiveBack(c);
    }

    // preHandler: `c` is the connection the pool hands out. On an error the transaction is rolled back and
    // the connection released, with no RESET.
    method Open(r: Req, c: ConnId, f: OpenFaults) returns (result: Result)
      requires c in links
      modifies this
      ensures auth(r.id) == "" ==> result == NoTenant && Now() == old(Now())
      ensures auth(r.id) != "" ==> (Now(), result) == OpenHook(old(Now()), r, c, auth(r.id), f)
      ensures result == Forbidden || result == Unavailable ==>
                held == old(held) && committed == old(committed) && released == old(released) + multiset{c} && c in links
      ensures (result == Forbidden || result == Unavailable) && old(links[c]) == FRESH ==> (links[c] == FRESH <==> OpenCleans(auth(r.id), f))
    {
      var tenantId := auth(r.id);
      if tenantId == "" {
        return NoTenant;
      }
      hide Entered, After, Bound, PutBack, Publishes, OpenCleans;
      acquired := acquired + multiset{c};
      var ok := EnterTenant(c, tenantId, f);
      if ok && tenantId !in cancelled {
        Bind(r, c);
        return Opened;
      }
      FailedOpenCleansIff(tenantId, f);
      Abandon(c, f.rollback);
      assert links == old(links)[c := PutBack(After(Entered(old(links[c]), tenantId, f).0, RollbackTx, f.rollback).0)];
      return if ok then Forbidden else Unavailable;
    }

    // COMMIT or ROLLBACK, and ROLLBACK if that was an error.
    method EndTransaction(c: ConnId, end: TxCommand, f: CloseFaults)
      requires c in links
      modifies this`links, this`committed
      ensures links == old(links)[c := Settled(old(links[c]), end, f)]
      ensures committed == if Publishes(old(links[c]), end, f.end) then View(old(committed), old(links[c]).writes) else old(committed)
    {
      hide After, Publishes;
      var ok := Send(c, end, f.end);
      if !ok {
        NotPublished(links[c], f.again);
        ok := Send(c, RollbackTx, f.again);
      }
    }

    // The finally block.
    method ResetAndRelease(c: ConnId, reset: Fault)
      requires c in links
      modifies this`links, this`committed, this`released
      ensures links == old(links)[c := PutBack(After(old(links[c]), ResetTenant, reset).0)]
      ensures committed == old(committed) && released == old(released) + multiset{c}
    {
      NotPublished(links[c], reset);
      hide After, Publishes, PutBack;
      var ok := Send(c, ResetTenant, reset);
      GiveBack(c);
    }

    // The client of onSend: what it commits, and exactly when it goes back clean.
    method CloseClient(c: ConnId, success: bool, f: CloseFaults)
      requires c in links
      modifies this`links, this`committed, this`released
      ensures var l, end := old(links[c]), if success then CommitTx else RollbackTx;
              && links == old(links)[c := Closed(l, end, f)] && released == old(released) + multiset{c}
              && committed == (if Publishes(l, end, f.end) then View(old(committed), l.writes) else old(committed))
              && (InUse(l) ==> (links[c] == FRESH <==> CloseCleans(l, end, f)))
    {
      hide After, PutBack, Publishes, Settled, CloseCleans, InUse;
      if InUse(links[c]) {
        ClosingCleansIff(links[c], if success then CommitTx else RollbackTx, f);
      }
      EndTransaction(c, if success then CommitTx else RollbackTx, f);
      ResetAndRelease(c, f.reset);
    }

    // onSend: COMMIT or ROLLBACK by status code; an error of it is answered with ROLLBACK and swallowed.
    method Commit(r: Req, success: bool, f: CloseFaults) returns (result: Result)
      requires r in held ==> held[r] in links
      modifies this
      ensures result == Sent && r !in held
      ensures Now() == if r in old(held) then CloseHook(old(Now()), r, if success then CommitTx else RollbackTx, f) else old(Now())
    {
      hide Closed, CloseCleans, InUse, Publishes;
      result := Sent;
      if r in held {
        var c := held[r];
        held := held - {r};
        CloseClient(c, success, f);
      }
    }

    // The client of onError: it commits nothing, and goes back clean exactly when ErrorCleans.
    method AbandonClient(c: ConnId, f: CloseFaults) returns (ok: bool)
      requires c in links
      modifies this`links, this`committed, this`released
      ensures var l := old(links[c]);
              && ok == After(l, RollbackTx, f.end).1
              && links == old(links)[c := ClosedOnError(l, f)] && released == old(released) + multiset{c} && committed == old(committed)
              && (InUse(l) ==> (links[c] == FRESH <==> ErrorCleans(l, f)))
    {
      NotPublished(links[c], f.end);
      if InUse(links[c]) {
        HooksCleanIff(links[c], RollbackTx, "", OpenFaults(Fine, Fine, Fine, Fine), f);
      }
      hide After, PutBack, Publishes, ErrorCleans, InUse;
      ok := Send(c, RollbackTx, f.end);
      ResetAndRelease(c, f.reset);
    }

    // onError: an error of the ROLLBACK is thrown on, once the connection has been released.
    method OnError(r: Req, f: CloseFaults) returns (thrown: bool)
      requires r in held ==> held[r] in links
      modifies this
      ensures r !in held && committed == old(committed)
      ensures thrown <==> r in old(held) && !After(old(links[held[r]]), RollbackTx, f.end).1
      ensures Now() == if r in old(held) then ErrorHook(old(Now()), r, f) else old(Now())
    {
      hide After, ClosedOnError, ErrorCleans, InUse;
      if r !in held {
        return false;
      }
      var c := held[r];
      held := held - {r};
      var ok := AbandonClient(c, f);
      return !ok;
    }

    // A statement, during which the connection may be lost.
    method Query(r: Req, stmt: Stmt, lost: bool) returns (result: Result)
      requires r in held ==> held[r] in links
      modifies this`links
      ensures (Now(), result) == StatementHook(old(Now()), r, stmt, lost)
      ensures links.Keys == old(links).Keys
      ensures forall d :: d in links && !(r in held && held[r] == d) ==> links[d] == old(links)[d]
      ensures r in held && InUse(old(links[held[r]])) ==>
                && InUse(links[held[r]]) && links[held[r]].local == old(links[held[r]]).local
                && (lost ==> links[held[r]].dead && links[held[r]].writes == map[])
      ensures forall t :: r in held && !lost && InUse(old(links[held[r]])) && LiveFor(Abs(old(links[held[r]])), t) ==>
                StatementAnswers.StatementAnswers(old(State()), held[r], Abs(links[held[r]]), t, stmt, result)
    {
      if r !in held {
        return if lost then Unavailable else NoDb;
      }
      var c := held[r];
      if lost {
        links := links[c := links[c].(dead := true, writes := map[], aborted := true)];
        return Unavailable;
      }
      QueryOnRows(Now(), c, stmt);
      hide Execute, StatementAnswers.StatementAnswers, LiveFor;
      var (conn, res) := Execute(Sys(committed, cancelled, States(links), held), c, stmt);
      links := links[c := links[c].(writes := conn.writes, aborted := conn.aborted)];
      return res;
    }

    method CancelTenant(r: Req) returns (result: Result)
      modifies this`cancelled
      ensures cancelled == if auth(r.id) == "" then old(cancelled) else old(cancelled) + {auth(r.id)}
      ensures result == if auth(r.id) == "" then NoTenant else Sent
    {
      if auth(r.id) == "" {
        return NoTenant;
      }
      cancelled := cancelled + {auth(r.id)};
      return Sent;
    }
  }

  lemma QueryOnRows(b: Books, c: ConnId, stmt: Stmt)
    requires c in b.links
    ensures var (conn, res) := Execute(Abstract(b), c, stmt);
            && (InUse(b.links[c]) ==> InUse(b.links[c].(writes := conn.writes, aborted := conn.aborted)))
            && forall t :: InUse(b.links[c]) && LiveFor(Abs(b.links[c]), t) ==>
                 StatementAnswers.StatementAnswers(Abstract(b), c, Abs(b.links[c].(writes := conn.writes, aborted := conn.aborted)), t, stmt, res)
  {
    var (conn, res) := Execute(Abstract(b), c, stmt);
    if InUse(b.links[c]) {
      ExecuteKeepsUse(Abstract(b), c, b.links[c], stmt);
      hide Execute, StatementAnswers.StatementAnswers;
      forall t | LiveFor(Abs(b.links[c]), t)
        ensures StatementAnswers.StatementAnswers(Abstract(b), c, Abs(b.links[c].(writes := conn.writes, aborted := conn.aborted)), t, stmt, res)
      {
        ExecuteOnRows(Abstract(b), c, t, stmt);
      }
    }
  }

  lemma NotPublished(l: Link, f: Fault)
    ensures !Publishes(l, RollbackTx, f) && !Publishes(l, ResetTenant, f)
  {
  }

  // ----- Whole runs -----

  datatype Call =
    | OpenCall(conn: ConnId, open: OpenFaults)
    | StatementCall(stmt: Stmt, lost: bool)
    | CommitCall(success: bool, close: CloseFaults)
    | ErrorCall(close: CloseFaults)
    | CancelCall

  datatype HookEvent = HookEvent(req: Req, call: Call)

  function Meaning(auth: Auth, h: HookEvent): Event {
    match h.call
    case OpenCall(c, f) => Event(h.req, Open(c, !Entered(FRESH, auth(h.req.id), f).1))
    case StatementCall(stmt, lost) => Event(h.req, StatementAction(stmt, lost))
    case CommitCall(success, f) => Event(h.req, Commit(success, f.end !in {Fine, LostAfter}))
    case ErrorCall(_) => Event(h.req, OnError)
    case CancelCall => Event(h.req, Cancel)
  }

  function Meanings(auth: Auth, hs: seq<HookEvent>): seq<Event> {
    seq(|hs|, i requires 0 <= i < |hs| => Meaning(auth, hs[i]))
  }

  // Held connections, and one handed out by the pool, are connections.
  predicate Placed(b: Books) {
    forall r :: r in b.held ==> b.held[r] in b.links
  }

  predicate Ready(b: Books, h: HookEvent) {
    Placed(b) && (h.call.OpenCall? ==> h.call.conn in b.links)
  }

  function Handled(auth: Auth, b: Books, h: HookEvent): (Books, Result)
    requires Ready(b, h)
  {
    var r := h.req;
    match h.call
    case OpenCall(c, f) => if auth(r.id) == "" then (b, NoTenant) else OpenHook(b, r, c, auth(r.id), f)
    case StatementCall(stmt, lost) => StatementHook(b, r, stmt, lost)
    case CommitCall(success, f) =>
      (if r in b.held then CloseHook(b, r, if success then CommitTx else RollbackTx, f) else b, Sent)
    case ErrorCall(f) => (if r in b.held then ErrorHook(b, r, f) else b, Sent)
    case CancelCall =>
      if auth(r.id) == "" then (b, NoTenant) else (b.(cancelled := b.cancelled + {auth(r.id)}), Sent)
  }

  // The pool hands out idle connections, and ids drawn by tenants are their own.
  ghost predicate Admissible(auth: Auth, idOwner: RowId -> string, b: Books, h: HookEvent) {
    && FreshIds(auth, idOwner, Meaning(auth, h))
    && (h.call.OpenCall? ==> h.call.conn in b.links && h.call.conn !in b.held.Values)
  }

  // If the hook gives a connection back, it gives it back clean.
  predicate Cleans(auth: Auth, b: Books, h: HookEvent)
    requires Ready(b, h)
  {
    match h.call
    case OpenCall(c, f) =>
      var t := auth(h.req.id);
      t == "" || (Entered(FRESH, t, f).1 && t !in b.cancelled) || OpenCleans(t, f)
    case CommitCall(success, f) =>
      h.req in b.held ==> CloseCleans(b.links[b.held[h.req]], if success then CommitTx else RollbackTx, f)
    case ErrorCall(f) => h.req in b.held ==> ErrorCleans(b.links[b.held[h.req]], f)
    case _ => true
  }

  lemma GoodIsPlaced(auth: Auth, idOwner: RowId -> string, b: Books)
    requires Good(auth, idOwner, b)
    ensures Placed(b)
  {
    forall r | r in b.held ensures b.held[r] in b.links {
      HeldInUse(auth, idOwner, b, r);
    }
  }

  lemma DirtyIsNotGood(auth: Auth, idOwner: RowId -> string, b: Books, c: ConnId)
    requires c in b.links && c !in b.held.Values && b.links[c] != FRESH
    ensures !Good(auth, idOwner, b)
  {
  }

  lemma GivenBack(auth: Auth, idOwner: RowId -> string, b: Books, r: ReqId)
    requires Good(auth, idOwner, b) && r in b.held
    ensures b.held[r] !in (b.held - {r}).Values
  {
    HeldInUse(auth, idOwner, b, r);
  }

  lemma CancelRefines(auth: Auth, idOwner: RowId -> string, b: Books, h: HookEvent)
    requires Good(auth, idOwner, b) && Ready(b, h) && h.call.CancelCall?
    ensures Good(auth, idOwner, Handled(auth, b, h).0)
    ensures (Abstract(Handled(auth, b, h).0), Handled(auth, b, h).1) == Step(auth, Abstract(b), Meaning(auth, h))
  {
    StepKeepsInv(auth, idOwner, Abstract(b), Meaning(auth, h));
    hide Inv, Balanced, Kept, Execute;
  }

  // A hook that cleans is a step of the pool; one that does not leaves a connection with an open
  // transaction among the idle ones.
  lemma HandledRefines(auth: Auth, idOwner: RowId -> string, b: Books, h: HookEvent)
    requires Good(auth, idOwner, b) && Admissible(auth, idOwner, b, h)
    ensures Ready(b, h) && (Good(auth, idOwner, Handled(auth, b, h).0) <==> Cleans(auth, b, h))
    ensures Cleans(auth, b, h) ==>
              (Abstract(Handled(auth, b, h).0), Handled(auth, b, h).1) == Step(auth, Abstract(b), Meaning(auth, h))
  {
    GoodIsPlaced(auth, idOwner, b);
    var r, b' := h.req, Handled(auth, b, h).0;
    hide Good, Step, Closed, ClosedOnError, CloseCleans, ErrorCleans, OpenCleans, StatementHook, Placed;
    match h.call
    case OpenCall(c, f) =>
      if auth(r.id) != "" {
        OpenRefines(auth, idOwner, b, r, c, f);
        if !Cleans(auth, b, h) {
          DirtyIsNotGood(auth, idOwner, b', c);
        }
      } else {
        NoTenantSteps(auth, Abstract(b), r, c, !Entered(FRESH, "", f).1);
      }
    case StatementCall(stmt, lost) =>
      StatementRefines(auth, idOwner, b, r, stmt, lost);
    case CommitCall(success, f) =>
      if r in b.held {
        CloseRefines(auth, idOwner, b, r, success, f);
        GivenBack(auth, idOwner, b, r);
        if !Cleans(auth, b, h) {
          DirtyIsNotGood(auth, idOwner, b', b.held[r]);
        }
      } else {
        NothingToClose(auth, Abstract(b), Meaning(auth, h));
      }
    case ErrorCall(f) =>
      if r in b.held {
        ErrorRefines(auth, idOwner, b, r, f);
        GivenBack(auth, idOwner, b, r);
        if !Cleans(auth, b, h) {
          DirtyIsNotGood(auth, idOwner, b', b.held[r]);
        }
      } else {
        NothingToClose(auth, Abstract(b), Meaning(auth, h));
      }
    case CancelCall =>
      CancelRefines(auth, idOwner, b, h);
  }

  lemma NoTenantSteps(auth: Auth, s: Sys, r: Req, c: ConnId, fails: bool)
    requires auth(r.id) == ""
    ensures Step(auth, s, Event(r, Open(c, fails))) == (s, NoTenant)
  {
  }

  lemma NothingToClose(auth: Auth, s: Sys, e: Event)
    requires e.req !in s.held && (e.action.Commit? || e.action.OnError?)
    ensures Step(auth, s, e) == (s, Sent)
  {
  }

  ghost predicate CleanRun(auth: Auth, idOwner: RowId -> string, b: Books, hs: seq<HookEvent>)
    decreases hs
  {
    hs == [] || (Ready(b, hs[0]) && Admissible(auth, idOwner, b, hs[0]) && Cleans(auth, b, hs[0])
                 && CleanRun(auth, idOwner, Handled(auth, b, hs[0]).0, hs[1..]))
  }

  // The pool hands out connections that are not in use, clean or not.
  predicate HandsOut(b: Books, h: HookEvent) {
    h.call.OpenCall? ==> h.call.conn in b.links && h.call.conn !in b.held.Values
  }

  predicate AnyRun(auth: Auth, b: Books, hs: seq<HookEvent>)
    decreases hs
  {
    hs == [] || (Ready(b, hs[0]) && HandsOut(b, hs[0]) && AnyRun(auth, Handled(auth, b, hs[0]).0, hs[1..]))
  }

  function HandledAll(auth: Auth, b: Books, hs: seq<HookEvent>): (Books, seq<Result>)
    requires AnyRun(auth, b, hs)
    decreases hs
  {
    if hs == [] then (b, [])
    else
      var (b', res) := Handled(auth, b, hs[0]);
      var (final, rest) := HandledAll(auth, b', hs[1..]);
      (final, [res] + rest)
  }

  method Handle(server: Server, h: HookEvent) returns (result: Result)
    requires Ready(server.Now(), h)
    modifies server
    ensures (server.Now(), result) == Handled(server.auth, old(server.Now()), h)
  {
    hide OpenHook, CloseHook, ErrorHook, StatementHook;
    match h.call {
      case OpenCall(c, f) => result := server.Open(h.req, c, f);
      case StatementCall(stmt, lost) => result := server.Query(h.req, stmt, lost);
      case CommitCall(success, f) => result := server.Commit(h.req, success, f);
      case ErrorCall(f) =>
        var thrown := server.OnError(h.req, f);
        result := Sent;
      case CancelCall => result := server.CancelTenant(h.req);
    }
  }

  method Serve(server: Server, hs: seq<HookEvent>) returns (results: seq<Result>)
    requires AnyRun(server.auth, server.Now(), hs)
    modifies server
    ensures (server.Now(), results) == HandledAll(server.auth, old(server.Now()), hs)
    decreases hs
  {
    if hs == [] {
      return [];
    }
    hide Handled, Ready, HandsOut;
    var result := Handle(server, hs[0]);
    var rest := Serve(server, hs[1..]);
    return [result] + rest;
  }

  // Hooks and statements in any order, a request opened twice included, with any fault of any command
  // that is followed by one getting through: what the server computes is a run of the pool of the
  // Isolation module, and every idle connection is clean.
  lemma {:induction false} ServedIsolated(auth: Auth, idOwner: RowId -> string, b: Books, hs: seq<HookEvent>)
    requires Good(auth, idOwner, b) && CleanRun(auth, idOwner, b, hs)
    ensures AnyRun(auth, b, hs)
    ensures var (final, results) := HandledAll(auth, b, hs);
            Good(auth, idOwner, final) && (Abstract(final), results) == Run(auth, Abstract(b), Meanings(auth, hs))
    decreases hs
  {
    if hs != [] {
      HandledRefines(auth, idOwner, b, hs[0]);
      hide Good, Step, Handled, Cleans, Abstract;
      ServedIsolated(auth, idOwner, Handled(auth, b, hs[0]).0, hs[1..]);
      assert Meanings(auth, hs)[1..] == Meanings(auth, hs[1..]);
    }
  }

  // ----- The pool's books -----

  // Every acquisition is matched by one release or a holder, and no two hold the same connection. This
  // needs no fault to be cleaned up.
  ghost predicate Kempt(b: Books) {
    && Placed(b) && Balanced(b.acquired, b.released, b.held)
    && (forall q, r :: q in b.held && r in b.held && q != r ==> b.held[q] != b.held[r])
    && (forall q :: q in b.held && q.Lost? ==> b.held[q] == q.conn)
  }

  lemma BoundValues(held: map<ReqId, ConnId>, r: Req, c: ConnId)
    requires r in held ==> Lost(r.id, held[r]) !in held
    ensures Bound(held, r, c).Values == held.Values + {c}
    ensures forall q :: q in Bound(held, r, c) ==>
              Bound(held, r, c)[q] == if q == r then c else if r in held && q == Lost(r.id, held[r]) then held[r] else if q in held then held[q] else c
  {
    var held' := Bound(held, r, c);
    assert held'[r] == c;
    forall q | q in held ensures held[q] in held'.Values {
      assert held'[if q == r then Lost(r.id, held[r]) else q] == held[q];
    }
    forall q | q in held' ensures held'[q] in held.Values + {c} {
      assert q == r || (r in held && q == Lost(r.id, held[r])) || held'[q] == held[q];
    }
  }

  lemma BindKeepsDistinct(held: map<ReqId, ConnId>, r: Req, c: ConnId)
    requires c !in held.Values
    requires forall q, p :: q in held && p in held && q != p ==> held[q] != held[p]
    requires forall q :: q in held && q.Lost? ==> held[q] == q.conn
    ensures var held' := Bound(held, r, c);
            && (forall q, p :: q in held' && p in held' && q != p ==> held'[q] != held'[p])
            && (forall q :: q in held' && q.Lost? ==> held'[q] == q.conn)
            && held'.Values == held.Values + {c}
  {
    BoundValues(held, r, c);
    assert forall q :: q in held ==> held[q] in held.Values;
  }

  lemma OpenKeepsKempt(b: Books, r: Req, c: ConnId, t: string, f: OpenFaults)
    requires Kempt(b) && c in b.links && c !in b.held.Values
    ensures Kempt(OpenHook(b, r, c, t, f).0)
  {
    hide Entered, After, PutBack, Bound;
    BindKeepsDistinct(b.held, r, c);
    AcquireBalances(b.acquired, b.released, b.held, r, c);
    var b' := OpenHook(b, r, c, t, f).0;
    assert b'.acquired == b.acquired + multiset{c};
    forall q | q in b'.held ensures b'.held[q] in b'.links {
      assert b'.held[q] in b'.held.Values;
      assert b'.held[q] in b.held.Values + {c};
    }
  }

  lemma ReleaseKeepsKempt(b: Books, b': Books, r: Req)
    requires Kempt(b) && r in b.held && b'.held == b.held - {r} && b'.links.Keys == b.links.Keys
    requires b'.acquired == b.acquired && b'.released == b.released + multiset{b.held[r]}
    ensures Kempt(b')
  {
    ReleaseBalances(b.acquired, b.released, b.held, r);
  }

  lemma HandledKeepsKempt(auth: Auth, b: Books, h: HookEvent)
    requires Kempt(b) && HandsOut(b, h)
    ensures Ready(b, h) && Kempt(Handled(auth, b, h).0)
  {
    hide Entered, After, PutBack, Closed, ClosedOnError, Publishes, Execute, Bound;
    match h.call
    case OpenCall(c, f) =>
      if auth(h.req.id) != "" {
        OpenKeepsKempt(b, h.req, c, auth(h.req.id), f);
      }
    case CommitCall(success, f) =>
      if h.req in b.held {
        ReleaseKeepsKempt(b, Handled(auth, b, h).0, h.req);
      }
    case ErrorCall(f) =>
      if h.req in b.held {
        ReleaseKeepsKempt(b, Handled(auth, b, h).0, h.req);
      }
    case _ =>
  }

  // An open that succeeds for a request that already holds a connection.
  predicate Reopens(auth: Auth, b: Books, h: HookEvent)
    requires Ready(b, h)
  {
    h.call.OpenCall? && h.req in b.held && Handled(auth, b, h).1 == Opened
  }

  predicate Reopened(auth: Auth, b: Books, hs: seq<HookEvent>)
    requires AnyRun(auth, b, hs)
    decreases hs
  {
    hs != [] && (Reopens(auth, b, hs[0]) || Reopened(auth, Handled(auth, b, hs[0]).0, hs[1..]))
  }

  predicate HasLost(held: map<ReqId, ConnId>) {
    exists q :: q in held && q.Lost?
  }

  lemma BindLosesIff(held: map<ReqId, ConnId>, r: Req, c: ConnId)
    ensures HasLost(Bound(held, r, c)) <==> HasLost(held) || r in held
  {
    var held' := Bound(held, r, c);
    if r in held {
      assert Lost(r.id, held[r]) in held';
    }
    if q :| q in held && q.Lost? {
      assert q in held';
    }
  }

  lemma HandledLosesIff(auth: Auth, b: Books, h: HookEvent)
    requires Ready(b, h)
    ensures HasLost(Handled(auth, b, h).0.held) <==> HasLost(b.held) || Reopens(auth, b, h)
  {
    hide Entered, After, PutBack, Closed, ClosedOnError, Publishes, Execute, Bound;
    if h.call.OpenCall? {
      BindLosesIff(b.held, h.req, h.call.conn);
    } else if q :| q in b.held && q.Lost? {
      assert q in Handled(auth, b, h).0.held;
    }
  }

  // For every run, whatever fails: each acquisition is matched by one release or a holder, and a holder
  // that can never release appears exactly when a request is opened while it is open.
  lemma {:induction false} BooksKept(auth: Auth, b: Books, hs: seq<HookEvent>)
    requires Kempt(b) && AnyRun(auth, b, hs)
    ensures var final := HandledAll(auth, b, hs).0;
            Kempt(final) && (HasLost(final.held) <==> HasLost(b.held) || Reopened(auth, b, hs))
    decreases hs
  {
    if hs != [] {
      HandledKeepsKempt(auth, b, hs[0]);
      HandledLosesIff(auth, b, hs[0]);
      hide Handled, Kempt, HasLost, Reopens, Ready, HandsOut;
      BooksKept(auth, Handled(auth, b, hs[0]).0, hs[1..]);
    }
  }

  // Once no request holds a connection, all have been released iff none was lost sight of.
  lemma AllReleasedIff(b: Books)
    requires Kempt(b) && forall q :: q in b.held ==> q.Lost?
    ensures b.acquired == b.released <==> !HasLost(b.held)
  {
    if q :| q in b.held && q.Lost? {
      assert b.acquired[b.held[q]] == b.released[b.held[q]] + 1;
    } else {
      assert b.held == map[];
      forall c ensures b.acquired[c] == b.released[c] {
        assert c !in b.held.Values;
      }
    }
  }

  // So from an idle pool, for every run that leaves no request open: some acquired connection is never
  // released exactly when a request was opened while it was open.
  lemma LeaksIff(auth: Auth, b: Books, hs: seq<HookEvent>)
    requires b.held == map[] && b.acquired == b.released && AnyRun(auth, b, hs)
    ensures var final := HandledAll(auth, b, hs).0;
            (forall q :: q in final.held ==> q.Lost?) ==> (final.acquired != final.released <==> Reopened(auth, b, hs))
  {
    var final := HandledAll(auth, b, hs).0;
    BooksKept(auth, b, hs);
    hide HandledAll, Reopened;
    if forall q :: q in final.held ==> q.Lost? {
      AllReleasedIff(final);
    }
  }

  // A request is opened exactly when all three commands succeed and its tenant is not deleted; it then
  // holds the connection, in a fresh transaction of its own tenant.
  lemma OpensIff(b: Books, r: Req, c: ConnId, t: string, f: OpenFaults)
    requires c in b.links && b.links[c] == FRESH
    ensures var (b', result) := OpenHook(b, r, c, t, f);
            && (result == Opened <==> f.begin == f.setTenant == f.lookUp == Fine && t !in b.cancelled)
            && (result == Opened ==> r in b'.held && b'.held[r] == c && b'.links == b.links[c := Link(None, Some(t), true, map[], false, false)])
  {
    EnteredInUse(t, f);
  }

  // A cancelled tenant's request is refused, and holds nothing.
  lemma CancelledIsRefused(b: Books, r: Req, c: ConnId, t: string, f: OpenFaults)
    requires t in b.cancelled && c in b.links
    ensures OpenHook(b, r, c, t, f).1 in {Forbidden, Unavailable} && OpenHook(b, r, c, t, f).0.held == b.held
  {
  }
}
