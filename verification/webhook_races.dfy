// Overlapping webhook handlers: the refetch runs outside the transaction, so handlers interleave
// between the two (src/billing/webhook.service.ts:49-144).

module WebhookRaces {
  import opened Prelude
  import opened Webhooks

  type Handler = nat

  // `stamp` orders the refetches.
  datatype Pending = Pending(id: EventId, remote: Remote, stamp: nat)

  // What a processed delivery wrote: the refetch it worked from, and the plan.
  datatype Written = Written(remote: Remote, plan: string, stamp: nat)

  // One answered delivery.
  datatype Answer = Answer(id: EventId, outcome: Outcome, wrote: Option<Written>)

  datatype Sys = Sys(db: Db, pending: map<Handler, Pending>, log: seq<Answer>, refetches: nat)

  datatype Action =
    | Receive(handler: Handler, event: StripeEvent, fetch: Option<Remote>, fault: Fault)
    | Commit(handler: Handler, now: int, fault: Fault)

  function Start(db: Db): Sys {
    Sys(db, map[], [], 0)
  }

  function Respond(s: Sys, id: EventId, result: (Db, Outcome), wrote: Option<Written>): Sys {
    s.(db := result.0, log := s.log + [Answer(id, result.1, wrote)])
  }

  function Step(rls: bool, s: Sys, a: Action): Sys {
    match a
    case Receive(h, event, fetch, fault) =>
      if !NeedsSync(event) then Respond(s, event.id, RecordOnly(s.db, event.id, fault), None)
      else if fetch.None? then Respond(s, event.id, (s.db, Failed), None)
      else s.(pending := s.pending[h := Pending(event.id, fetch.value, s.refetches)], refetches := s.refetches + 1)
    case Commit(h, now, fault) =>
      if h !in s.pending then s
      else
        var p := s.pending[h];
        var result := SyncTx(rls, s.db, p.id, p.remote, now, fault);
        var wrote := if result.1 == Processed then Some(Written(p.remote, NewPlan(s.db, p.remote), p.stamp)) else None;
        Respond(s.(pending := s.pending - {h}), p.id, result, wrote)
  }

  function Run(rls: bool, s: Sys, actions: seq<Action>): Sys
    decreases actions
  {
    if actions == [] then s else Run(rls, Step(rls, s, actions[0]), actions[1..])
  }

  predicate Committed(o: Outcome) {
    o == Processed || o == Ignored
  }

  // How often an event was answered with a commit, and how often as processed.
  function Commits(log: seq<Answer>, id: EventId): nat {
    if log == [] then 0
    else Commits(log[..|log| - 1], id) + if log[|log| - 1].id == id && Committed(log[|log| - 1].outcome) then 1 else 0
  }

  function Syncs(log: seq<Answer>, id: EventId): nat {
    if log == [] then 0
    else Syncs(log[..|log| - 1], id) + if log[|log| - 1].id == id && log[|log| - 1].outcome == Processed then 1 else 0
  }

  ghost predicate Inv(s: Sys) {
    forall id :: Commits(s.log, id) == if id in s.db.ledger then 1 else 0
  }

  lemma {:induction false} SyncsAreCommits(log: seq<Answer>, id: EventId)
    ensures Syncs(log, id) <= Commits(log, id)
  {
    if log != [] {
      SyncsAreCommits(log[..|log| - 1], id);
    }
  }

  // Each transaction enters its event into the ledger exactly when it answers with a commit.
  lemma ResponseKeepsInv(s: Sys, id: EventId, result: (Db, Outcome), wrote: Option<Written>)
    requires Inv(s)
    requires result.0.ledger == if Committed(result.1) then s.db.ledger + {id} else s.db.ledger
    requires Committed(result.1) ==> id !in s.db.ledger
    ensures Inv(Respond(s, id, result, wrote))
  {
    var log' := Respond(s, id, result, wrote).log;
    assert log'[..|s.log|] == s.log;
    forall e ensures Commits(log', e) == if e in result.0.ledger then 1 else 0 {
      assert Commits(log', e) == Commits(s.log, e) + if e == id && Committed(result.1) then 1 else 0;
    }
  }

  // A step changes subscriptions or plans only by answering its event as processed.
  ghost predicate SyncsOnlyProcessed(s: Sys, s': Sys) {
    s'.db.subs != s.db.subs || s'.db.orgs != s.db.orgs ==>
      |s'.log| == |s.log| + 1 && s'.log[|s.log|].outcome == Processed
  }

  lemma StepKeepsInv(rls: bool, s: Sys, a: Action)
    requires Inv(s)
    ensures Inv(Step(rls, s, a)) && SyncsOnlyProcessed(s, Step(rls, s, a))
  {
    hide Commits;
    match a
    case Receive(h, event, fetch, fault) =>
      if !NeedsSync(event) {
        ResponseKeepsInv(s, event.id, RecordOnly(s.db, event.id, fault), None);
      } else if fetch.None? {
        ResponseKeepsInv(s, event.id, (s.db, Failed), None);
      }
    case Commit(h, now, fault) =>
      if h in s.pending {
        var p := s.pending[h];
        var answer := Step(rls, s, a).log[|s.log|];
        ResponseKeepsInv(s.(pending := s.pending - {h}), p.id, SyncTx(rls, s.db, p.id, p.remote, now, fault), answer.wrote);
      }
  }

  lemma {:induction false} RunKeepsInv(rls: bool, s: Sys, actions: seq<Action>)
    requires Inv(s)
    ensures Inv(Run(rls, s, actions))
    decreases actions
  {
    if actions != [] {
      hide Inv, Step;
      StepKeepsInv(rls, s, actions[0]);
      RunKeepsInv(rls, Step(rls, s, actions[0]), actions[1..]);
    }
  }

  // For any redelivery and any overlap of handlers, with any failures: an event is answered as
  // processed at most once, and it is in the ledger iff exactly one delivery committed it.
  lemma ExactlyOnce(rls: bool, db: Db, actions: seq<Action>, id: EventId)
    requires db.ledger == {}
    ensures var s := Run(rls, Start(db), actions);
            && Syncs(s.log, id) <= 1
            && Commits(s.log, id) == if id in s.db.ledger then 1 else 0
  {
    RunKeepsInv(rls, Start(db), actions);
    SyncsAreCommits(Run(rls, Start(db), actions).log, id);
  }

  // ----- Freshness -----

  // The k-th answer synced this subscription.
  predicate SyncedBy(log: seq<Answer>, k: nat, z: SubId)
    requires k < |log|
  {
    log[k].wrote.Some? && log[k].wrote.value.remote.id == z
  }

  predicate LastOf(log: seq<Answer>, k: nat, z: SubId) {
    k < |log| && SyncedBy(log, k, z) && forall j :: k < j < |log| ==> !SyncedBy(log, j, z)
  }

  // The row says what this delivery wrote.
  predicate Says(db: Db, z: SubId, w: Written) {
    && z in db.subs && db.subs[z].status == MapStatus(w.remote.status).status
    && db.subs[z].plan == w.plan && db.subs[z].periodEnd == PeriodEnd(w.remote)
  }

  // Two deliveries wrote the same.
  predicate SameWritten(v: Written, w: Written) {
    && MapStatus(v.remote.status).status == MapStatus(w.remote.status).status
    && v.plan == w.plan && PeriodEnd(v.remote) == PeriodEnd(w.remote)
  }

  ghost predicate RowsAreLast(s: Sys) {
    forall k: nat, z :: LastOf(s.log, k, z) ==> Says(s.db, z, s.log[k].wrote.value)
  }

  // Refetches in use bear distinct stamps.
  ghost predicate Stamped(s: Sys) {
    && (forall h :: h in s.pending ==> s.pending[h].stamp < s.refetches)
    && (forall h, g :: h in s.pending && g in s.pending && h != g ==> s.pending[h].stamp != s.pending[g].stamp)
    && (forall k :: 0 <= k < |s.log| && s.log[k].wrote.Some? ==> s.log[k].wrote.value.stamp < s.refetches)
    && (forall k, h :: 0 <= k < |s.log| && s.log[k].wrote.Some? && h in s.pending ==> s.log[k].wrote.value.stamp != s.pending[h].stamp)
    && (forall j, k :: 0 <= j < k < |s.log| && s.log[j].wrote.Some? && s.log[k].wrote.Some? ==>
          s.log[j].wrote.value.stamp != s.log[k].wrote.value.stamp)
  }

  lemma ReceiveKeepsStamped(rls: bool, s: Sys, a: Action)
    requires Stamped(s) && a.Receive?
    ensures Stamped(Step(rls, s, a))
  {
    hide RecordOnly, NeedsSync;
    assert forall k :: 0 <= k < |s.log| ==> Step(rls, s, a).log[k] == s.log[k];
  }

  lemma CommitKeepsStamped(rls: bool, s: Sys, a: Action)
    requires Stamped(s) && a.Commit?
    ensures Stamped(Step(rls, s, a))
  {
    hide SyncTx, NewPlan;
    assert forall k :: 0 <= k < |s.log| ==> Step(rls, s, a).log[k] == s.log[k];
  }

  lemma StepKeepsStamped(rls: bool, s: Sys, a: Action)
    requires Stamped(s)
    ensures Stamped(Step(rls, s, a))
  {
    hide Stamped, Step;
    if a.Receive? {
      ReceiveKeepsStamped(rls, s, a);
    } else {
      CommitKeepsStamped(rls, s, a);
    }
  }

  // A step leaves the rows alone, but for the one it says it wrote.
  lemma StepWrites(rls: bool, s: Sys, a: Action, z: SubId)
    ensures var s' := Step(rls, s, a);
            && |s.log| <= |s'.log| <= |s.log| + 1 && s'.log[..|s.log|] == s.log
            && (if |s'.log| > |s.log| && SyncedBy(s'.log, |s.log|, z) then Says(s'.db, z, s'.log[|s.log|].wrote.value)
                else (z in s'.db.subs <==> z in s.db.subs) && (z in s.db.subs ==> s'.db.subs[z] == s.db.subs[z]))
  {
    hide MapStatus, NewPlan, PeriodEnd, NeedsSync;
  }

  lemma StepKeepsRows(rls: bool, s: Sys, a: Action)
    requires RowsAreLast(s)
    ensures RowsAreLast(Step(rls, s, a))
  {
    var s' := Step(rls, s, a);
    hide Step, Says;
    forall k: nat, z | LastOf(s'.log, k, z) ensures Says(s'.db, z, s'.log[k].wrote.value) {
      StepWrites(rls, s, a, z);
      if k < |s.log| {
        SameLast(s.log, s'.log, k, z);
        assert Says(s.db, z, s.log[k].wrote.value);
        SaysStays(s.db, s'.db, z, s.log[k].wrote.value);
      }
    }
  }

  lemma SameLast(log: seq<Answer>, log': seq<Answer>, k: nat, z: SubId)
    requires |log| <= |log'| && log'[..|log|] == log && LastOf(log', k, z) && k < |log|
    ensures LastOf(log, k, z) && log'[k] == log[k]
    ensures |log'| > |log| ==> !SyncedBy(log', |log|, z)
  {
    assert forall j :: 0 <= j < |log| ==> log'[j] == log'[..|log|][j] == log[j];
    assert forall j :: 0 <= j < |log| ==> SyncedBy(log, j, z) == SyncedBy(log', j, z);
  }

  lemma SaysStays(db: Db, db': Db, z: SubId, w: Written)
    requires Says(db, z, w) && (z in db.subs ==> z in db'.subs && db'.subs[z] == db.subs[z])
    ensures Says(db', z, w)
  {
  }

  lemma {:induction false} RunKeepsRows(rls: bool, s: Sys, actions: seq<Action>)
    requires RowsAreLast(s) && Stamped(s)
    ensures RowsAreLast(Run(rls, s, actions)) && Stamped(Run(rls, s, actions))
    decreases actions
  {
    if actions != [] {
      StepKeepsRows(rls, s, actions[0]);
      StepKeepsStamped(rls, s, actions[0]);
      hide Step, RowsAreLast, Stamped;
      RunKeepsRows(rls, Step(rls, s, actions[0]), actions[1..]);
    }
  }

  // However handlers overlap, a stored subscription is what the last handler to answer "processed" for it
  // had refetched.
  lemma StoredIsLastCommitted(rls: bool, db: Db, actions: seq<Action>, k: nat, z: SubId)
    requires LastOf(Run(rls, Start(db), actions).log, k, z)
    ensures var s := Run(rls, Start(db), actions); Says(s.db, z, s.log[k].wrote.value)
  {
    RunKeepsRows(rls, Start(db), actions);
  }

  // The processed delivery with the newest refetch of z.
  predicate NewestOf(log: seq<Answer>, n: nat, z: SubId) {
    && n < |log| && SyncedBy(log, n, z)
    && forall j :: 0 <= j < |log| && SyncedBy(log, j, z) ==> log[j].wrote.value.stamp <= log[n].wrote.value.stamp
  }

  // A handler that refetched z earlier committed later.
  predicate Overtaken(log: seq<Answer>, n: nat, z: SubId)
    requires n < |log| && log[n].wrote.Some?
  {
    exists j :: n < j < |log| && SyncedBy(log, j, z) && log[j].wrote.value.stamp < log[n].wrote.value.stamp
  }

  // Exactly when overlapping handlers leave a subscription fresh: the row says what the newest processed
  // refetch said iff no handler that refetched earlier committed later, or the last of those wrote the
  // same anyway.
  lemma FreshIff(rls: bool, db: Db, actions: seq<Action>, k: nat, n: nat, z: SubId)
    requires LastOf(Run(rls, Start(db), actions).log, k, z) && NewestOf(Run(rls, Start(db), actions).log, n, z)
    ensures var s := Run(rls, Start(db), actions);
            && (Overtaken(s.log, n, z) <==> k != n)
            && (Says(s.db, z, s.log[n].wrote.value) <==> !Overtaken(s.log, n, z) || SameWritten(s.log[k].wrote.value, s.log[n].wrote.value))
  {
    RunKeepsRows(rls, Start(db), actions);
    var s := Run(rls, Start(db), actions);
    hide Run, MapStatus, PeriodEnd;
    assert Says(s.db, z, s.log[k].wrote.value);
    if k != n {
      assert n < k && s.log[k].wrote.value.stamp < s.log[n].wrote.value.stamp;
    }
  }

  const EVENT := StripeEvent("evt_1", "customer.subscription.updated", "sub", "")

  function OneCustomer(customer: Customer): Db {
    Db({}, map[1 := "free"], map[customer := 1], map[])
  }

  // Both handlers have refetched, and the one with the newer state commits.
  lemma NewerCommitsFirst(rls: bool, older: Remote, newer: Remote)
    requires older.id == newer.id == "sub" && older.customer == newer.customer
    ensures var s0 := Start(OneCustomer(older.customer));
            var s2 := Step(rls, Step(rls, s0, Receive(1, EVENT, Some(older), NoFault)), Receive(2, EVENT.(id := "evt_2"), Some(newer), NoFault));
            var s3 := Step(rls, s2, Commit(2, 10, NoFault));
            && s3.db.ledger == {"evt_2"} && s3.db.byCustomer == s0.db.byCustomer && s3.db.orgs.Keys == {1}
            && s3.db.subs.Keys == {"sub"} && s3.db.subs["sub"].tenant == 1
            && s3.pending == map[1 := Pending("evt_1", older, 0)]
            && |s3.log| == 1 && s3.log[0].wrote.Some? && s3.log[0].wrote.value.remote == newer && s3.log[0].wrote.value.stamp == 1
  {
    var s0 := Start(OneCustomer(older.customer));
    assert NeedsSync(EVENT) && NeedsSync(EVENT.(id := "evt_2"));
    var s2 := Step(rls, Step(rls, s0, Receive(1, EVENT, Some(older), NoFault)), Receive(2, EVENT.(id := "evt_2"), Some(newer), NoFault));
    assert s2 == s0.(pending := map[1 := Pending("evt_1", older, 0), 2 := Pending("evt_2", newer, 1)], refetches := 2);
    hide MapStatus, NewPlan, PeriodEnd;
  }

  lemma OlderCommitsLast(rls: bool, s: Sys, older: Remote)
    requires s.db.ledger == {"evt_2"} && Owned(s.db, older) && !(rls && Conflicts(s.db, older))
    requires s.pending == map[1 := Pending("evt_1", older, 0)]
    ensures var s' := Step(rls, s, Commit(1, 20, NoFault));
            && |s'.log| == |s.log| + 1 && s'.log[..|s.log|] == s.log
            && s'.log[|s.log|].wrote.Some? && s'.log[|s.log|].wrote.value.remote == older && s'.log[|s.log|].wrote.value.stamp == 0
            && older.id in s'.db.subs && s'.db.subs[older.id].status == MapStatus(older.status).status
  {
    hide NewPlan, PeriodEnd;
  }

  lemma OvertakenLog(log: seq<Answer>, z: SubId)
    requires |log| == 2 && SyncedBy(log, 0, z) && SyncedBy(log, 1, z)
    requires log[0].wrote.value.stamp == 1 && log[1].wrote.value.stamp == 0
    ensures NewestOf(log, 0, z) && LastOf(log, 1, z)
  {
  }

  // It does happen: the handler that refetched first commits last, and the older status is stored.
  lemma StaleCommitWins(rls: bool, older: Remote, newer: Remote)
    requires older.id == newer.id == "sub" && older.customer == newer.customer
    ensures var s := Run(rls, Start(OneCustomer(older.customer)),
                         [Receive(1, EVENT, Some(older), NoFault), Receive(2, EVENT.(id := "evt_2"), Some(newer), NoFault),
                          Commit(2, 10, NoFault), Commit(1, 20, NoFault)]);
            && NewestOf(s.log, 0, older.id) && LastOf(s.log, 1, older.id)
            && older.id in s.db.subs && s.db.subs[older.id].status == MapStatus(older.status).status
  {
    var a := [Receive(1, EVENT, Some(older), NoFault), Receive(2, EVENT.(id := "evt_2"), Some(newer), NoFault),
              Commit(2, 10, NoFault), Commit(1, 20, NoFault)];
    RunFour(rls, Start(OneCustomer(older.customer)), a[0], a[1], a[2], a[3]);
    NewerCommitsFirst(rls, older, newer);
    hide Step, Run, MapStatus, NewPlan, PeriodEnd, SyncTx, OneCustomer, EVENT;
    var s3 := Step(rls, Step(rls, Step(rls, Start(OneCustomer(older.customer)), a[0]), a[1]), a[2]);
    OlderCommitsLast(rls, s3, older);
    var s4 := Step(rls, s3, a[3]);
    assert s4.log[0] == s4.log[..1][0];
    OvertakenLog(s4.log, older.id);
  }

  lemma RunFour(rls: bool, s: Sys, a: Action, b: Action, c: Action, d: Action)
    ensures Run(rls, s, [a, b, c, d]) == Step(rls, Step(rls, Step(rls, Step(rls, s, a), b), c), d)
  {
    hide Step;
    assert [a, b, c, d][1..] == [b, c, d] && [b, c, d][1..] == [c, d] && [c, d][1..] == [d] && [d][1..] == [];
    var s2 := Step(rls, Step(rls, s, a), b);
    assert Run(rls, s, [a, b, c, d]) == Run(rls, s2, [c, d]) == Run(rls, Step(rls, Step(rls, s2, c), d), []);
  }

  // A handler that nothing interrupts leaves the rows, and gives the answer, of the delivery alone.
  lemma UninterruptedDelivery(rls: bool, s: Sys, d: Delivery, h: Handler)
    requires h !in s.pending
    ensures var s' := Step(rls, Step(rls, s, Receive(h, d.event, d.fetch, d.fault)), Commit(h, d.now, d.fault));
            && s'.db == Deliver(rls, s.db, d).0
            && |s'.log| == |s.log| + 1 && s'.log[|s.log|].id == d.event.id && s'.log[|s.log|].outcome == Deliver(rls, s.db, d).1
  {
    hide SyncTx, RecordOnly, NeedsSync, NewPlan;
  }
}
