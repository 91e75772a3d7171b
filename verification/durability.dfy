// What a success answer is worth. The onSend hook of src/middleware/tenant.ts commits before the answer
// leaves, and answers the same whether or not the COMMIT took effect.

module Durability {
  import opened Prelude
  import opened RowSecurity
  import opened Isolation

  // None of these events opens or closes the request.
  predicate KeepsOpen(es: seq<Event>, r: Req) {
    forall k :: 0 <= k < |es| && es[k].req == r ==> es[k].action.Exec? || es[k].action.Die? || es[k].action.Cancel?
  }

  // A statement of the request failed, or its connection was lost.
  predicate Breaks(e: Event, res: Result, r: Req) {
    e.req == r && (e.action.Die? || (e.action.Exec? && (res == PolicyViolation || res == DuplicateKey)))
  }

  predicate Broken(es: seq<Event>, results: seq<Result>, r: Req)
    requires |es| == |results|
  {
    exists k :: 0 <= k < |es| && Breaks(es[k], results[k], r)
  }

  // What a statement that was done adds to the writes of a transaction of `tenant`, by the rows the
  // tenant sees: its rows in the table, as changed by its own writes.
  function WrittenBy(committed: Rows, writes: map<RowId, Option<Row>>, tenant: string, stmt: Stmt): map<RowId, Option<Row>> {
    var rows := OfTenant(View(committed, writes), Some(tenant));
    match stmt
    case Select(_) => writes
    case Insert(id, row) => writes[id := Some(row)]
    case Update(where, set_) => writes + Rewrites(rows, Targets(rows, where), set_)
    case Delete(where) => writes + Removals(Targets(rows, where))
  }

  // The writes of the request's statements that were answered as done, in order, starting from `done`.
  function Done(auth: Auth, s: Sys, es: seq<Event>, r: Req, done: map<RowId, Option<Row>>): map<RowId, Option<Row>>
    decreases es
  {
    if es == [] then done
    else
      var (s', res) := Step(auth, s, es[0]);
      Done(auth, s', es[1..], r,
           if es[0].req == r && es[0].action.Exec? && res.Affected? then WrittenBy(s.committed, done, auth(r.id), es[0].action.stmt) else done)
  }

  // A statement on a connection of `tenant` adds just that, and only if it is answered as done.
  lemma ExecuteWrites(s: Sys, c: ConnId, tenant: string, stmt: Stmt)
    requires c in s.conns && tenant != "" && s.conns[c].setting == Some(tenant)
    ensures var (conn, res) := Execute(s, c, stmt);
            conn.writes == if res.Affected? then WrittenBy(s.committed, s.conns[c].writes, tenant, stmt) else s.conns[c].writes
  {
    hide View, Locked, Targets, Rewrites, Removals, OfTenant;
  }

  // The table shows these writes.
  predicate InPlace(committed: Rows, writes: map<RowId, Option<Row>>) {
    forall id :: id in writes ==>
      if writes[id].Some? then id in committed && committed[id] == writes[id].value else id !in committed
  }

  lemma RunLength(auth: Auth, s: Sys, es: seq<Event>)
    ensures |Run(auth, s, es).1| == |es|
    decreases es
  {
    if es != [] {
      hide Step;
      RunLength(auth, Step(auth, s, es[0]).0, es[1..]);
    }
  }

  // Another request's event leaves this request's connection alone.
  lemma OthersKeep(auth: Auth, idOwner: RowId -> string, s: Sys, e: Event, r: Req)
    requires Inv(auth, idOwner, s) && HasDb(s, r) && e.req != r
    ensures var s' := Step(auth, s, e).0;
            HasDb(s', r) && s'.held[r] == s.held[r] && s'.conns[s'.held[r]] == s.conns[s.held[r]]
  {
    hide Inv, Execute, View, Orphan, Acquire;
    OwnConnection(auth, idOwner, s, e.req, r);
    if e.action.Open? {
      OthersKeepOpen(auth, s, e, r);
    }
  }

  lemma OwnConnection(auth: Auth, idOwner: RowId -> string, s: Sys, q: Req, r: Req)
    requires Inv(auth, idOwner, s) && HasDb(s, r) && q != r
    ensures s.held[r] in s.held.Values && (q in s.held ==> s.held[q] != s.held[r])
  {
  }

  lemma OthersKeepOpen(auth: Auth, s: Sys, e: Event, r: Req)
    requires HasDb(s, r) && e.req != r && e.action.Open? && s.held[r] in s.held.Values
    ensures var s' := Step(auth, s, e).0;
            HasDb(s', r) && s'.held[r] == s.held[r] && s'.conns[s'.held[r]] == s.conns[s.held[r]]
  {
  }

  // A statement aborts the transaction exactly when it fails, and an aborted one stays aborted.
  lemma ExecuteAborts(s: Sys, c: ConnId, stmt: Stmt)
    requires c in s.conns
    ensures var (conn, res) := Execute(s, c, stmt);
            && (conn.aborted <==> s.conns[c].aborted || res == PolicyViolation || res == DuplicateKey)
            && (s.conns[c].aborted ==> conn == s.conns[c] && res == Aborted)
  {
    hide View, Locked, Targets, Rewrites, Removals;
  }

  lemma OwnKeeps(auth: Auth, idOwner: RowId -> string, s: Sys, e: Event, r: Req)
    requires Inv(auth, idOwner, s) && HasDb(s, r) && e.req == r && KeepsOpen([e], r)
    ensures var (s', res) := Step(auth, s, e);
            && HasDb(s', r) && s'.held[r] == s.held[r]
            && (s'.conns[s'.held[r]].aborted <==> s.conns[s.held[r]].aborted || Breaks(e, res, r))
            && (!s'.conns[s'.held[r]].aborted ==>
                  s'.conns[s'.held[r]].writes == if e.action.Exec? && res.Affected?
                                                 then WrittenBy(s.committed, s.conns[s.held[r]].writes, auth(r.id), e.action.stmt)
                                                 else s.conns[s.held[r]].writes)
  {
    assert [e][0] == e;
    assert HoldsOwn(auth, idOwner, s, r);
    if e.action.Exec? {
      ExecuteAborts(s, s.held[r], e.action.stmt);
      ExecuteWrites(s, s.held[r], auth(r.id), e.action.stmt);
    }
    hide Execute, Inv, WrittenBy;
  }

  lemma BrokenCons(es: seq<Event>, res: Result, rest: seq<Result>, r: Req)
    requires es != [] && |rest| == |es| - 1
    ensures Broken(es, [res] + rest, r) <==> Breaks(es[0], res, r) || Broken(es[1..], rest, r)
  {
    var results := [res] + rest;
    if k :| 0 <= k < |es| && Breaks(es[k], results[k], r) {
      assert k > 0 ==> es[1..][k - 1] == es[k] && rest[k - 1] == results[k];
    }
    if k :| 0 <= k < |rest| && Breaks(es[1..][k], rest[k], r) {
      assert es[k + 1] == es[1..][k] && results[k + 1] == rest[k];
    }
    assert results[0] == res;
  }

  // While a request is open its transaction is aborted exactly when one of its statements has failed or
  // its connection was lost; until then its writes are those of its statements.
  lemma {:induction false} AbortedIff(auth: Auth, idOwner: RowId -> string, s: Sys, es: seq<Event>, r: Req, done: map<RowId, Option<Row>>)
    requires Inv(auth, idOwner, s) && AllFresh(auth, idOwner, es) && HasDb(s, r) && KeepsOpen(es, r)
    requires !s.conns[s.held[r]].aborted ==> done == s.conns[s.held[r]].writes
    ensures |Run(auth, s, es).1| == |es|
    ensures var (s', results) := Run(auth, s, es);
            && HasDb(s', r)
            && (s'.conns[s'.held[r]].aborted <==> s.conns[s.held[r]].aborted || Broken(es, results, r))
            && (!s'.conns[s'.held[r]].aborted ==> Done(auth, s, es, r, done) == s'.conns[s'.held[r]].writes)
    decreases es
  {
    RunLength(auth, s, es);
    if es != [] {
      var (s', res) := Step(auth, s, es[0]);
      assert FreshIds(auth, idOwner, es[0]);
      StepKeepsInv(auth, idOwner, s, es[0]);
      if es[0].req == r {
        OwnKeeps(auth, idOwner, s, es[0], r);
      } else {
        OthersKeep(auth, idOwner, s, es[0], r);
      }
      assert s'.conns[s'.held[r]].aborted <==> s.conns[s.held[r]].aborted || Breaks(es[0], res, r);
      hide Inv, Step, Breaks, FreshIds, WrittenBy;
      var done' := if es[0].req == r && es[0].action.Exec? && res.Affected? then WrittenBy(s.committed, done, auth(r.id), es[0].action.stmt) else done;
      AbortedIff(auth, idOwner, s', es[1..], r, done');
      BrokenCons(es, res, Run(auth, s', es[1..]).1, r);
    }
  }

  lemma PublishedInPlace(committed: Rows, writes: map<RowId, Option<Row>>)
    ensures InPlace(View(committed, writes), writes)
  {
  }

  // Exactly when a success answer is durable. `es` is everything, of all requests, between the opening
  // of a request and its answer: after the hook the table shows the writes of the request's statements iff
  // COMMIT took effect and no statement of the request failed on the way, or the table showed them
  // already. The client gets the same answer either way.
  lemma SuccessIsDurableIff(auth: Auth, idOwner: RowId -> string, s: Sys, es: seq<Event>, r: Req, commitFails: bool)
    requires Inv(auth, idOwner, s) && AllFresh(auth, idOwner, es) && HasDb(s, r) && KeepsOpen(es, r)
    requires s.conns[s.held[r]].writes == map[] && !s.conns[s.held[r]].aborted
    ensures |Run(auth, s, es).1| == |es|
    ensures var (mid, results) := Run(auth, s, es);
            var (final, answer) := Step(auth, mid, Event(r, Commit(true, commitFails)));
            var writes := Done(auth, s, es, r, map[]);
            && answer == Sent
            && (InPlace(final.committed, writes) <==> (!commitFails && !Broken(es, results, r)) || InPlace(mid.committed, writes))
  {
    AbortedIff(auth, idOwner, s, es, r, map[]);
    var mid := Run(auth, s, es).0;
    hide Run, Done, Broken, Inv, InPlace, View;
    PublishedInPlace(mid.committed, mid.conns[mid.held[r]].writes);
  }

  // ----- The two ways to lose the writes of a request answered with success -----

  const REQUEST: Req := Request(1)
  const NEW_ROW := Row("acme", ["alpha"])

  function Ours(id: nat): string {
    "acme"
  }

  const IN_TX := Conn(Some("acme"), true, map[], false)
  const OPEN_TABLE := Sys(map[], {}, map[1 := IN_TX], map[REQUEST := 1])

  lemma FirstInsert()
    ensures Step(Ours, OPEN_TABLE, Event(REQUEST, Exec(Insert(7, NEW_ROW))))
         == (OPEN_TABLE.(conns := map[1 := IN_TX.(writes := map[7 := Some(NEW_ROW)])]), Affected({7}))
  {
    assert !Locked(OPEN_TABLE, 1, {7});
    assert 7 !in View(map[], map[]);
    var x := IN_TX.(writes := map[7 := Some(NEW_ROW)]);
    assert map[1 := IN_TX][1 := x] == map[1 := x];
    assert Execute(OPEN_TABLE, 1, Insert(7, NEW_ROW)) == (IN_TX.(writes := map[7 := Some(NEW_ROW)]), Affected({7}));
  }

  lemma SecondInsert()
    ensures Step(Ours, OPEN_TABLE.(conns := map[1 := IN_TX.(writes := map[7 := Some(NEW_ROW)])]), Event(REQUEST, Exec(Insert(7, NEW_ROW))))
         == (OPEN_TABLE.(conns := map[1 := IN_TX.(writes := map[7 := Some(NEW_ROW)], aborted := true)]), DuplicateKey)
  {
    var written := OPEN_TABLE.(conns := map[1 := IN_TX.(writes := map[7 := Some(NEW_ROW)])]);
    assert !Locked(written, 1, {7});
    assert 7 in View(map[], map[7 := Some(NEW_ROW)]);
    var x := IN_TX.(writes := map[7 := Some(NEW_ROW)], aborted := true);
    assert written.conns[1 := x] == map[1 := x];
    assert Execute(written, 1, Insert(7, NEW_ROW)) == (IN_TX.(writes := map[7 := Some(NEW_ROW)], aborted := true), DuplicateKey);
  }

  // COMMIT fails, and the error is swallowed.
  lemma FailedCommitAnswersSent()
    ensures var (final, results) := Run(Ours, OPEN_TABLE, [Event(REQUEST, Exec(Insert(7, NEW_ROW))), Event(REQUEST, Commit(true, true))]);
            results == [Affected({7}), Sent] && final.committed == map[]
  {
    FirstInsert();
    RunTwo(Ours, OPEN_TABLE, Event(REQUEST, Exec(Insert(7, NEW_ROW))), Event(REQUEST, Commit(true, true)));
  }

  // A statement failed and the handler went on: COMMIT of the aborted transaction reports no error and
  // rolls everything back.
  lemma AbortedCommitAnswersSent()
    ensures var insert := Event(REQUEST, Exec(Insert(7, NEW_ROW)));
            var (final, results) := Run(Ours, OPEN_TABLE, [insert, insert, Event(REQUEST, Commit(true, false))]);
            results == [Affected({7}), DuplicateKey, Sent] && final.committed == map[]
  {
    var insert := Event(REQUEST, Exec(Insert(7, NEW_ROW)));
    FirstInsert();
    SecondInsert();
    var s1 := Step(Ours, OPEN_TABLE, insert).0;
    RunTwo(Ours, s1, insert, Event(REQUEST, Commit(true, false)));
    RunCons(Ours, OPEN_TABLE, insert, [insert, Event(REQUEST, Commit(true, false))]);
  }

  lemma RunCons(auth: Auth, s: Sys, a: Event, rest: seq<Event>)
    ensures var (s1, ra) := Step(auth, s, a);
            var (s2, rs) := Run(auth, s1, rest);
            Run(auth, s, [a] + rest) == (s2, [ra] + rs)
  {
    hide Step;
    assert ([a] + rest)[1..] == rest;
  }

  lemma RunTwo(auth: Auth, s: Sys, a: Event, b: Event)
    ensures var (s1, ra) := Step(auth, s, a);
            var (s2, rb) := Step(auth, s1, b);
            Run(auth, s, [a, b]) == (s2, [ra, rb])
  {
    hide Step;
    RunCons(auth, s, a, [b]);
    RunCons(auth, Step(auth, s, a).0, b, []);
    assert [a] + [b] == [a, b] && [b] + [] == [b];
    var (s2, rb) := Step(auth, Step(auth, s, a).0, b);
    assert Run(auth, s2, []) == (s2, []) && [rb] + [] == [rb] && [Step(auth, s, a).1] + [rb] == [Step(auth, s, a).1, rb];
  }
}
