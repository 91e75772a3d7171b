// One pooled connection under the commands the hooks of src/middleware/tenant.ts send over it. Every
// command can fail on its own, and the connection can be lost under any of them.

module Connection {
  import opened Prelude
  import opened RowSecurity
  import opened Isolation

  // session and local are the two levels of app.current_tenant_id; local ends with the transaction.
  // `dead` is a connection the client has lost: the server has rolled its transaction back.
  datatype Link = Link(session: Option<string>, local: Option<string>, inTx: bool,
                       writes: map<RowId, Option<Row>>, aborted: bool, dead: bool)

  const FRESH := Link(None, None, false, map[], false, false)

  datatype TxCommand = Begin | SetTenant(tenant: string) | LookUp | CommitTx | RollbackTx | ResetTenant

  // Refused: an error before the command has run, which aborts an open transaction. Fails: an error of
  // the command itself; a COMMIT that fails has rolled back. The connection is lost before or after
  // the command took effect at the server.
  datatype Fault = Fine | Refused | Fails | LostBefore | LostAfter

  predicate Loses(f: Fault) {
    f == LostBefore || f == LostAfter
  }

  // The transaction is over, one way or the other, and its local setting with it.
  function Ended(l: Link): Link {
    l.(local := None, inTx := false, writes := map[], aborted := false)
  }

  // The connection after a command, and whether the client saw it succeed.
  function After(l: Link, cmd: TxCommand, f: Fault): (Link, bool) {
    if l.dead then (l, false)
    else if Loses(f) then (l.(dead := true, writes := map[], aborted := true), false)
    else if f == Refused || (f == Fails && cmd != CommitTx) then (if l.inTx then l.(aborted := true) else l, false)
    else
      match cmd
      case Begin => (l.(inTx := true), !l.aborted)
      case SetTenant(t) =>
        if l.aborted then (l, false) else (if l.inTx then l.(local := Some(t)) else l, true)
      case LookUp => (l, !l.aborted)
      case CommitTx => (Ended(l), f == Fine) // COMMIT of an aborted transaction rolls back, without an error
      case RollbackTx => (Ended(l), true)
      case ResetTenant => if l.aborted then (l, false) else (l.(session := None, local := None), true)
  }

  // Does this COMMIT write the transaction's rows?
  predicate Publishes(l: Link, cmd: TxCommand, f: Fault) {
    cmd == CommitTx && !l.dead && l.inTx && !l.aborted && (f == Fine || f == LostAfter)
  }

  // release(): a lost connection is discarded, and a new one takes its slot; any other goes back as it is.
  function PutBack(l: Link): Link {
    if l.dead then FRESH else l
  }

  // The connection as the requests see it.
  function Abs(l: Link): Conn {
    Conn(if l.local.Some? then l.local else l.session, l.inTx, l.writes, l.aborted)
  }

  // ----- The catch and finally blocks, and what they achieve -----

  datatype OpenFaults = OpenFaults(begin: Fault, setTenant: Fault, lookUp: Fault, rollback: Fault)

  datatype CloseFaults = CloseFaults(end: Fault, again: Fault, reset: Fault)

  function Entered(l: Link, t: string, f: OpenFaults): (Link, bool) {
    var (l1, ok1) := After(l, Begin, f.begin);
    if !ok1 then (l1, false)
    else
      var (l2, ok2) := After(l1, SetTenant(t), f.setTenant);
      if !ok2 then (l2, false) else After(l2, LookUp, f.lookUp)
  }

  // The hook that closes: COMMIT or ROLLBACK, ROLLBACK again if that threw, RESET, release.
  function Closed(l: Link, end: TxCommand, f: CloseFaults): Link {
    PutBack(After(Settled(l, end, f), ResetTenant, f.reset).0)
  }

  function Settled(l: Link, end: TxCommand, f: CloseFaults): Link {
    var (l1, ok) := After(l, end, f.end);
    if ok then l1 else After(l1, RollbackTx, f.again).0
  }

  // The error hook has no second ROLLBACK.
  function ClosedOnError(l: Link, f: CloseFaults): Link {
    PutBack(After(After(l, RollbackTx, f.end).0, ResetTenant, f.reset).0)
  }

  // Nothing ever sets the tenant for the whole session.
  predicate InUse(l: Link) {
    l.session.None? && l.inTx && (l.dead ==> l.aborted && l.writes == map[])
  }

  lemma EnteredInUse(t: string, f: OpenFaults)
    ensures Entered(FRESH, t, f).1 <==> f.begin == f.setTenant == f.lookUp == Fine
    ensures Entered(FRESH, t, f).1 ==> Entered(FRESH, t, f).0 == Link(None, Some(t), true, map[], false, false)
  {
  }

  predicate NotRun(f: Fault) {
    f == Refused || f == Fails
  }

  // The ROLLBACK of the catch block got through, or there is nothing to roll back.
  predicate OpenCleans(t: string, f: OpenFaults) {
    !NotRun(f.rollback) || Entered(FRESH, t, f).0.dead || !Entered(FRESH, t, f).0.inTx
  }

  // One of the two attempts to end the transaction got through, or the connection is lost on the way.
  predicate CloseCleans(l: Link, end: TxCommand, f: CloseFaults) {
    l.dead || !NotRun(f.end) || (f.end == Fails && end == CommitTx) || !NotRun(f.again) || Loses(f.reset)
  }

  predicate ErrorCleans(l: Link, f: CloseFaults) {
    l.dead || !NotRun(f.end) || Loses(f.reset)
  }

  lemma FailedOpenCleansIff(t: string, f: OpenFaults)
    ensures PutBack(After(Entered(FRESH, t, f).0, RollbackTx, f.rollback).0) == FRESH <==> OpenCleans(t, f)
  {
  }

  lemma ClosingCleansIff(l: Link, end: TxCommand, f: CloseFaults)
    requires InUse(l) && (end == CommitTx || end == RollbackTx)
    ensures PutBack(After(Settled(l, end, f), ResetTenant, f.reset).0) == FRESH <==> CloseCleans(l, end, f)
  {
  }

  // These are exactly the conditions under which each hook puts back a connection without open
  // transaction and without tenant.
  lemma HooksCleanIff(l: Link, end: TxCommand, t: string, open: OpenFaults, f: CloseFaults)
    requires InUse(l) && (end == CommitTx || end == RollbackTx)
    ensures !Entered(FRESH, t, open).1 ==> (PutBack(After(Entered(FRESH, t, open).0, RollbackTx, open.rollback).0) == FRESH <==> OpenCleans(t, open))
    ensures Closed(l, end, f) == FRESH <==> CloseCleans(l, end, f)
    ensures ClosedOnError(l, f) == FRESH <==> ErrorCleans(l, f)
  {
  }

  // The second ROLLBACK is what a COMMIT that was refused needs: without it the transaction, tenant and
  // row locks included, goes back into the pool.
  lemma SecondRollbackNeeded(l: Link, f: CloseFaults)
    requires InUse(l) && !l.dead && f.end == Refused && !Loses(f.reset)
    ensures f.again == Fine ==> Closed(l, CommitTx, f) == FRESH
    ensures var kept := PutBack(After(After(l, CommitTx, f.end).0, ResetTenant, f.reset).0);
            kept.inTx && kept.local == l.local && kept.writes == l.writes
  {
  }

  // RESET never takes a tenant off a connection: after the transaction there is none, and in the aborted
  // transaction that a refused command leaves it fails like every command but ROLLBACK.
  lemma ResetIsRedundant(l: Link, end: TxCommand, f: CloseFaults)
    requires InUse(l) && (end == CommitTx || end == RollbackTx) && !Loses(f.reset)
    ensures Closed(l, end, f) == Closed(l, end, f.(reset := Refused))
    ensures ClosedOnError(l, f) == ClosedOnError(l, f.(reset := Refused))
  {
  }
}
