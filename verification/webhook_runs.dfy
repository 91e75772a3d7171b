// Serial delivery sequences, and the billing state the request paths read back
// (src/billing/webhook.service.ts:61-113, src/billing/enforcement.service.ts:18-43).

module WebhookRuns {
  import opened Prelude
  import opened Webhooks

  function Run(rls: bool, db: Db, ds: seq<Delivery>): (r: (Db, seq<Outcome>))
    ensures |r.1| == |ds|
    decreases ds
  {
    if ds == [] then (db, [])
    else
      var (db', o) := Deliver(rls, db, ds[0]);
      var (final, os) := Run(rls, db', ds[1..]);
      (final, [o] + os)
  }

  // The state in which the k-th delivery is handled.
  function Before(rls: bool, db: Db, ds: seq<Delivery>, k: nat): Db
    requires k <= |ds|
    decreases k
  {
    if k == 0 then db else Before(rls, Deliver(rls, db, ds[0]).0, ds[1..], k - 1)
  }

  // The k-th delivery synced this subscription.
  predicate Syncs(ds: seq<Delivery>, os: seq<Outcome>, k: nat, s: SubId)
    requires k < |ds| == |os|
  {
    os[k] == Processed && ds[k].fetch.Some? && ds[k].fetch.value.id == s
  }

  predicate LastSync(ds: seq<Delivery>, os: seq<Outcome>, k: nat, s: SubId)
    requires |ds| == |os|
  {
    k < |ds| && Syncs(ds, os, k, s) && forall j :: k < j < |ds| ==> !Syncs(ds, os, j, s)
  }

  lemma DeliverTouchesOnly(rls: bool, db: Db, d: Delivery, s: SubId)
    ensures var (db', o) := Deliver(rls, db, d);
            && db'.byCustomer == db.byCustomer
            && (o == Processed ==> d.fetch.Some? && Owned(db, d.fetch.value) && db'.subs == Sync(db, d.fetch.value, d.now).subs
                                   && db'.orgs == Sync(db, d.fetch.value, d.now).orgs)
            && (o != Processed ==> db'.subs == db.subs && db'.orgs == db.orgs)
            && (!(o == Processed && d.fetch.value.id == s) ==>
                  (s in db'.subs <==> s in db.subs) && (s in db.subs ==> db'.subs[s] == db.subs[s]))
  {
  }

  lemma {:induction false} UnsyncedUntouched(rls: bool, db: Db, ds: seq<Delivery>, s: SubId)
    requires forall k :: 0 <= k < |ds| ==> !Syncs(ds, Run(rls, db, ds).1, k, s)
    ensures var final := Run(rls, db, ds).0;
            (s in final.subs <==> s in db.subs) && (s in db.subs ==> final.subs[s] == db.subs[s])
    decreases ds
  {
    if ds != [] {
      DeliverTouchesOnly(rls, db, ds[0], s);
      assert !Syncs(ds, Run(rls, db, ds).1, 0, s);
      var db' := Deliver(rls, db, ds[0]).0;
      forall k | 0 <= k < |ds| - 1 ensures !Syncs(ds[1..], Run(rls, db', ds[1..]).1, k, s) {
        assert !Syncs(ds, Run(rls, db, ds).1, k + 1, s);
      }
      UnsyncedUntouched(rls, db', ds[1..], s);
    }
  }

  // After any reordered, duplicated, partly failing sequence of deliveries, a stored subscription is
  // exactly what its last processed refetch maps to.
  lemma {:induction false} StoredIsLastSync(rls: bool, db: Db, ds: seq<Delivery>, k: nat, s: SubId)
    requires LastSync(ds, Run(rls, db, ds).1, k, s)
    ensures var r, final := ds[k].fetch.value, Run(rls, db, ds).0;
            && Owned(Before(rls, db, ds, k), r)
            && s in final.subs && final.subs[s] == Sync(Before(rls, db, ds, k), r, ds[k].now).subs[s]
    decreases k
  {
    var db', os := Deliver(rls, db, ds[0]).0, Run(rls, db, ds).1;
    var os' := Run(rls, db', ds[1..]).1;
    forall j | 0 <= j < |ds| - 1 ensures Syncs(ds[1..], os', j, s) <==> Syncs(ds, os, j + 1, s) {
    }
    if k == 0 {
      DeliverTouchesOnly(rls, db, ds[0], s);
      UnsyncedUntouched(rls, db', ds[1..], s);
    } else {
      assert ds[1..][k - 1] == ds[k];
      StoredIsLastSync(rls, db', ds[1..], k - 1, s);
    }
  }

  // ----- With Stripe unchanged -----

  // Every refetch returns what Stripe holds; each customer has one subscription, each organization
  // one customer.
  ghost predicate SteadyStripe(stripe: map<SubId, Remote>, db: Db, ds: seq<Delivery>) {
    && (forall i :: 0 <= i < |ds| && ds[i].fetch.Some? ==> FromStripe(stripe, ds[i].fetch.value))
    && (forall s, t :: s in stripe && t in stripe && stripe[s].customer == stripe[t].customer ==> s == t)
    && (forall c, e :: c in db.byCustomer && e in db.byCustomer && db.byCustomer[c] == db.byCustomer[e] ==> c == e)
  }

  predicate FromStripe(stripe: map<SubId, Remote>, r: Remote) {
    r.id in stripe && r == stripe[r.id]
  }

  // Status, plan and period of the subscription, and its organization's plan, are as after syncing
  // `r` once in state `db`.
  predicate AsAfterOneSync(db: Db, r: Remote, final: Db)
    requires Owned(db, r)
  {
    var once := Sync(db, r, 0);
    && r.id in final.subs && final.subs[r.id].(updatedAt := 0) == once.subs[r.id]
    && final.byCustomer == db.byCustomer && Owned(final, r)
    && final.orgs[db.byCustomer[r.customer]] == once.orgs[db.byCustomer[r.customer]]
  }

  // Syncing again, or syncing another customer's subscription, changes nothing of it.
  lemma DeliverKeepsConverged(rls: bool, stripe: map<SubId, Remote>, db0: Db, db: Db, r: Remote, d: Delivery)
    requires SteadyStripe(stripe, db, [d]) && FromStripe(stripe, r) && db.byCustomer == db0.byCustomer
    requires Owned(db0, r) && AsAfterOneSync(db0, r, db)
    ensures AsAfterOneSync(db0, r, Deliver(rls, db, d).0)
  {
    DeliverTouchesOnly(rls, db, d, r.id);
    var (db', o) := Deliver(rls, db, d);
    if o == Processed {
      assert [d][0] == d;
      assert FromStripe(stripe, d.fetch.value);
    }
  }

  lemma {:induction false} StaysConverged(rls: bool, stripe: map<SubId, Remote>, db0: Db, db: Db, r: Remote, ds: seq<Delivery>)
    requires SteadyStripe(stripe, db, ds) && FromStripe(stripe, r) && db.byCustomer == db0.byCustomer
    requires Owned(db0, r) && AsAfterOneSync(db0, r, db)
    ensures AsAfterOneSync(db0, r, Run(rls, db, ds).0)
    decreases ds
  {
    if ds != [] {
      SteadySplit(stripe, db, ds);
      DeliverTouchesOnly(rls, db, ds[0], r.id);
      DeliverKeepsConverged(rls, stripe, db0, db, r, ds[0]);
      StaysConverged(rls, stripe, db0, Deliver(rls, db, ds[0]).0, r, ds[1..]);
    }
  }

  lemma SteadySplit(stripe: map<SubId, Remote>, db: Db, ds: seq<Delivery>)
    requires SteadyStripe(stripe, db, ds) && ds != []
    ensures SteadyStripe(stripe, db, [ds[0]])
    ensures forall db': Db :: db'.byCustomer == db.byCustomer ==> SteadyStripe(stripe, db', ds[1..])
  {
  }

  // Before its first sync a subscription's row and its organization's plan are untouched.
  predicate Unsynced(db0: Db, r: Remote, db: Db) {
    && db.byCustomer == db0.byCustomer
    && (r.id in db.subs <==> r.id in db0.subs) && (r.id in db0.subs ==> db.subs[r.id] == db0.subs[r.id])
    && Owned(db0, r) && Owned(db, r) && db.orgs[db0.byCustomer[r.customer]] == db0.orgs[db0.byCustomer[r.customer]]
  }

  lemma DeliverUnsyncedOrConverged(rls: bool, stripe: map<SubId, Remote>, db0: Db, db: Db, r: Remote, d: Delivery)
    requires SteadyStripe(stripe, db, [d]) && FromStripe(stripe, r) && Unsynced(db0, r, db)
    ensures var (db', o) := Deliver(rls, db, d);
            if o == Processed && d.fetch.value == r then AsAfterOneSync(db0, r, db') else Unsynced(db0, r, db')
  {
    DeliverTouchesOnly(rls, db, d, r.id);
    var (db', o) := Deliver(rls, db, d);
    if o == Processed {
      assert [d][0] == d;
      assert FromStripe(stripe, d.fetch.value);
    }
  }

  // While Stripe does not change and each customer has one subscription, any number of deliveries in
  // any order leave a subscription and its plan as one delivery does.
  lemma {:induction false} Converges(rls: bool, stripe: map<SubId, Remote>, db0: Db, db: Db, r: Remote, ds: seq<Delivery>)
    requires SteadyStripe(stripe, db, ds) && FromStripe(stripe, r) && Unsynced(db0, r, db)
    ensures var (final, os) := Run(rls, db, ds);
            if exists k :: 0 <= k < |ds| && Syncs(ds, os, k, r.id) then AsAfterOneSync(db0, r, final)
            else Unsynced(db0, r, final)
    decreases ds
  {
    if ds != [] {
      var (db', o) := Deliver(rls, db, ds[0]);
      var (final, os) := Run(rls, db', ds[1..]);
      SteadySplit(stripe, db, ds);
      DeliverTouchesOnly(rls, db, ds[0], r.id);
      DeliverUnsyncedOrConverged(rls, stripe, db0, db, r, ds[0]);
      hide Deliver, AsAfterOneSync, Unsynced;
      if o == Processed && ds[0].fetch.value == r {
        StaysConverged(rls, stripe, db0, db', r, ds[1..]);
        assert Syncs(ds, [o] + os, 0, r.id);
      } else {
        Converges(rls, stripe, db0, db', r, ds[1..]);
        SyncsShift(stripe, ds, o, os, r);
      }
    }
  }

  lemma SyncsShift(stripe: map<SubId, Remote>, ds: seq<Delivery>, o: Outcome, os: seq<Outcome>, r: Remote)
    requires ds != [] && |os| == |ds| - 1 && FromStripe(stripe, r)
    requires ds[0].fetch.Some? ==> FromStripe(stripe, ds[0].fetch.value)
    requires !(o == Processed && ds[0].fetch == Some(r))
    ensures (exists k :: 0 <= k < |ds| && Syncs(ds, [o] + os, k, r.id))
       <==> (exists k :: 0 <= k < |ds| - 1 && Syncs(ds[1..], os, k, r.id))
  {
    assert !Syncs(ds, [o] + os, 0, r.id);
    forall k | 0 <= k < |ds| - 1 ensures Syncs(ds[1..], os, k, r.id) <==> Syncs(ds, [o] + os, k + 1, r.id) {
    }
    if k :| 0 <= k < |ds| && Syncs(ds, [o] + os, k, r.id) {
      assert Syncs(ds[1..], os, k - 1, r.id);
    }
  }

  // Two subscriptions of one customer do not converge: the plan is that of whichever came last.
  lemma TwoSubscriptionsDisagree(rls: bool, now: int)
    ensures var db := Db({}, map[1 := "free"], map["cus" := 1], map[]);
            var ended := Remote("sub_a", "canceled", None, None, "cus");
            var live := Remote("sub_b", "active", Some("pro"), None, "cus");
            var first, second := SyncTx(rls, db, "e1", ended, now, NoFault).0, SyncTx(rls, db, "e2", live, now, NoFault).0;
            && SyncTx(rls, first, "e2", live, now, NoFault).0.orgs == map[1 := "pro"]
            && SyncTx(rls, second, "e1", ended, now, NoFault).0.orgs == map[1 := "free"]
  {
  }

  // ----- The billing state -----

  predicate Latest(db: Db, t: OrgId, s: SubId) {
    && s in db.subs && db.subs[s].tenant == t
    && forall z :: z in db.subs && db.subs[z].tenant == t ==> db.subs[z].updatedAt <= db.subs[s].updatedAt
  }

  // getBillingState: the plan of the organization, the status of a latest subscription row. The handler
  // sets no tenant; a connection that row security filters then sees no subscription at all.
  ghost function GetBillingState(filtered: bool, db: Db, t: OrgId): (string, string) {
    var plan := if t in db.orgs then db.orgs[t] else "free";
    if !filtered && exists s :: Latest(db, t, s) then
      var s :| Latest(db, t, s);
      (db.subs[s].status, plan)
    else ("active", plan)
  }

  // ORDER BY updated_at DESC LIMIT 1 finds a row whenever the tenant has one.
  lemma {:induction false} LatestExists(db: Db, t: OrgId, rows: set<SubId>) returns (s: SubId)
    requires rows != {} && forall z :: z in rows ==> z in db.subs && db.subs[z].tenant == t
    ensures s in rows && forall z :: z in rows ==> db.subs[z].updatedAt <= db.subs[s].updatedAt
    decreases rows
  {
    s :| s in rows;
    if z :| z in rows && z != s {
      assert z in rows - {s};
      var best := LatestExists(db, t, rows - {s});
      if db.subs[s].updatedAt < db.subs[best].updatedAt {
        s := best;
      }
    }
  }

  lemma SubscribedTenantHasLatest(db: Db, t: OrgId, z: SubId)
    requires z in db.subs && db.subs[z].tenant == t
    ensures exists s :: Latest(db, t, s)
  {
    var rows := set s | s in db.subs && db.subs[s].tenant == t;
    assert z in rows;
    var s := LatestExists(db, t, rows);
    assert Latest(db, t, s);
  }

  predicate WriteAllowed(status: string) {
    !(status == "past_due" || status == "canceled")
  }

  // The k-th delivery synced a subscription of tenant t.
  predicate SyncsTenant(db: Db, ds: seq<Delivery>, os: seq<Outcome>, k: nat, t: OrgId)
    requires k < |ds| == |os|
  {
    os[k] == Processed && ds[k].fetch.Some? && ds[k].fetch.value.customer in db.byCustomer
      && db.byCustomer[ds[k].fetch.value.customer] == t
  }

  // Transaction times increase strictly.
  ghost predicate Clocked(db: Db, ds: seq<Delivery>) {
    && (forall i, j :: 0 <= i < j < |ds| ==> ds[i].now < ds[j].now)
    && (forall i, s :: 0 <= i < |ds| && s in db.subs ==> db.subs[s].updatedAt < ds[i].now)
  }

  lemma ClockedStep(rls: bool, db: Db, ds: seq<Delivery>)
    requires Clocked(db, ds) && ds != []
    ensures Clocked(Deliver(rls, db, ds[0]).0, ds[1..])
  {
    var db' := Deliver(rls, db, ds[0]).0;
    forall i, s | 0 <= i < |ds| - 1 && s in db'.subs ensures db'.subs[s].updatedAt < ds[1..][i].now {
      assert ds[0].now < ds[i + 1].now;
    }
  }

  // The newest row of t is `s`, and it carries this status and this plan together with the organization.
  predicate Coherent(db: Db, t: OrgId, s: SubId, status: string, plan: string, since: int) {
    && s in db.subs && db.subs[s].tenant == t && db.subs[s].status == status && db.subs[s].plan == plan
    && db.subs[s].updatedAt == since
    && (forall z :: z in db.subs && db.subs[z].tenant == t && z != s ==> db.subs[z].updatedAt < since)
    && t in db.orgs && db.orgs[t] == plan
  }

  lemma DeliverKeepsCoherent(db: Db, d: Delivery, t: OrgId, s: SubId, status: string, plan: string, since: int)
    requires Coherent(db, t, s, status, plan, since)
    requires !(Deliver(true, db, d).1 == Processed && db.byCustomer[d.fetch.value.customer] == t)
    ensures Coherent(Deliver(true, db, d).0, t, s, status, plan, since)
  {
  }

  lemma {:induction false} RunKeepsCoherent(db: Db, ds: seq<Delivery>, t: OrgId, s: SubId, status: string, plan: string, since: int)
    requires Coherent(db, t, s, status, plan, since)
    requires forall k :: 0 <= k < |ds| ==> !SyncsTenant(db, ds, Run(true, db, ds).1, k, t)
    ensures Coherent(Run(true, db, ds).0, t, s, status, plan, since)
    decreases ds
  {
    if ds != [] {
      var db' := Deliver(true, db, ds[0]).0;
      DeliverTouchesOnly(true, db, ds[0], s);
      assert !SyncsTenant(db, ds, Run(true, db, ds).1, 0, t);
      DeliverKeepsCoherent(db, ds[0], t, s, status, plan, since);
      forall k | 0 <= k < |ds| - 1 ensures !SyncsTenant(db', ds[1..], Run(true, db', ds[1..]).1, k, t) {
        assert !SyncsTenant(db, ds, Run(true, db, ds).1, k + 1, t);
      }
      RunKeepsCoherent(db', ds[1..], t, s, status, plan, since);
    }
  }

  lemma CoherentIsRead(db: Db, t: OrgId, s: SubId, status: string, plan: string, since: int)
    requires Coherent(db, t, s, status, plan, since)
    ensures GetBillingState(false, db, t) == (status, plan) && GetBillingState(true, db, t) == ("active", plan)
  {
    assert Latest(db, t, s);
    forall z | Latest(db, t, z) ensures z == s {
    }
  }

  lemma SyncMakesCoherent(db: Db, d: Delivery, t: OrgId)
    requires Clocked(db, [d])
    requires Deliver(true, db, d).1 == Processed && db.byCustomer[d.fetch.value.customer] == t
    ensures Owned(db, d.fetch.value)
    ensures var r := d.fetch.value;
            Coherent(Deliver(true, db, d).0, t, r.id, MapStatus(r.status).status, NewPlan(db, r), d.now)
  {
    assert [d][0].now == d.now;
  }

  // What a request reads after `r` was the last refetch synced for the tenant, in state `before`.
  ghost predicate ReadsBack(before: Db, r: Remote, state: (string, string)) {
    && Owned(before, r)
    && state == (MapStatus(r.status).status, NewPlan(before, r))
    && (state.0 == "canceled" ==> state.1 == "free")
    && (WriteAllowed(state.0) <==> r.status !in {"past_due", "unpaid", "canceled", "incomplete_expired"})
  }

  lemma FirstSync(db: Db, ds: seq<Delivery>, t: OrgId)
    requires Clocked(db, ds) && ds != [] && SyncsTenant(db, ds, Run(true, db, ds).1, 0, t)
    ensures Owned(db, ds[0].fetch.value)
    ensures var db', r := Deliver(true, db, ds[0]).0, ds[0].fetch.value;
            && Coherent(db', t, r.id, MapStatus(r.status).status, NewPlan(db, r), ds[0].now)
            && Run(true, db, ds).0 == Run(true, db', ds[1..]).0
  {
    assert Clocked(db, [ds[0]]);
    SyncMakesCoherent(db, ds[0], t);
  }

  lemma WrittenReadsBack(before: Db, r: Remote)
    requires Owned(before, r)
    ensures ReadsBack(before, r, (MapStatus(r.status).status, NewPlan(before, r)))
  {
  }

  lemma LastSyncReadsBack(db: Db, ds: seq<Delivery>, t: OrgId)
    requires Clocked(db, ds) && ds != [] && SyncsTenant(db, ds, Run(true, db, ds).1, 0, t)
    requires var db' := Deliver(true, db, ds[0]).0;
             forall j :: 0 <= j < |ds| - 1 ==> !SyncsTenant(db', ds[1..], Run(true, db', ds[1..]).1, j, t)
    ensures ReadsBack(db, ds[0].fetch.value, GetBillingState(false, Run(true, db, ds).0, t))
    ensures GetBillingState(true, Run(true, db, ds).0, t) == ("active", NewPlan(db, ds[0].fetch.value))
  {
    FirstSync(db, ds, t);
    WrittenReadsBack(db, ds[0].fetch.value);
    hide Run, Deliver, Coherent, GetBillingState, Clocked, ReadsBack, MapStatus, NewPlan, SyncsTenant;
    var db', r := Deliver(true, db, ds[0]).0, ds[0].fetch.value;
    RunKeepsCoherent(db', ds[1..], t, r.id, MapStatus(r.status).status, NewPlan(db, r), ds[0].now);
    CoherentIsRead(Run(true, db, ds).0, t, r.id, MapStatus(r.status).status, NewPlan(db, r), ds[0].now);
  }

  lemma {:induction false} FilteredSyncIsRead(db: Db, ds: seq<Delivery>, k: nat, t: OrgId)
    requires Clocked(db, ds) && k < |ds| && SyncsTenant(db, ds, Run(true, db, ds).1, k, t)
    requires forall j :: k < j < |ds| ==> !SyncsTenant(db, ds, Run(true, db, ds).1, j, t)
    ensures var before, final := Before(true, db, ds, k), Run(true, db, ds).0;
            && ReadsBack(before, ds[k].fetch.value, GetBillingState(false, final, t))
            && GetBillingState(true, final, t) == ("active", NewPlan(before, ds[k].fetch.value))
    decreases k
  {
    var db' := Deliver(true, db, ds[0]).0;
    var os, os' := Run(true, db, ds).1, Run(true, db', ds[1..]).1;
    DeliverTouchesOnly(true, db, ds[0], "");
    ClockedStep(true, db, ds);
    hide Deliver, Clocked, ReadsBack, GetBillingState, Sync;
    forall j | 0 <= j < |ds| - 1 ensures SyncsTenant(db', ds[1..], os', j, t) <==> SyncsTenant(db, ds, os, j + 1, t) {
    }
    if k == 0 {
      LastSyncReadsBack(db, ds, t);
    } else {
      assert ds[1..][k - 1] == ds[k];
      FilteredSyncIsRead(db', ds[1..], k - 1, t);
    }
  }

  // No delivery meets a subscription row of another tenant.
  ghost predicate NoClash(db: Db, ds: seq<Delivery>)
    decreases ds
  {
    ds == [] || (MeetsOwn(db, ds[0]) && NoClash(Deliver(false, db, ds[0]).0, ds[1..]))
  }

  predicate MeetsOwn(db: Db, d: Delivery) {
    d.fetch.Some? && Owned(db, d.fetch.value) ==> !Conflicts(db, d.fetch.value)
  }

  // Then row security on the upsert makes no difference.
  lemma {:induction false} NoClashSameRun(db: Db, ds: seq<Delivery>, k: nat)
    requires NoClash(db, ds) && k <= |ds|
    ensures Run(false, db, ds) == Run(true, db, ds) && Before(false, db, ds, k) == Before(true, db, ds, k)
    decreases ds
  {
    if ds != [] {
      assert Deliver(false, db, ds[0]) == Deliver(true, db, ds[0]);
      hide Deliver, MeetsOwn;
      NoClashSameRun(Deliver(false, db, ds[0]).0, ds[1..], if k == 0 then 0 else k - 1);
    }
  }

  // A subscription belongs to one organization: the one of its stored row, and of every refetch of it.
  ghost predicate OneOwner(db: Db, ds: seq<Delivery>) {
    && (forall i :: 0 <= i < |ds| ==> MeetsOwn(db, ds[i]))
    && (forall i, j :: 0 <= i < |ds| && 0 <= j < |ds| && ds[i].fetch.Some? && ds[j].fetch.Some? ==>
          SameOwner(db, ds[i].fetch.value, ds[j].fetch.value))
  }

  predicate SameOwner(db: Db, r: Remote, q: Remote) {
    r.id == q.id && r.customer in db.byCustomer && q.customer in db.byCustomer ==> db.byCustomer[r.customer] == db.byCustomer[q.customer]
  }

  // It is enough that Stripe never moves a subscription to a customer of another organization.
  lemma {:induction false} OneOwnerNoClash(db: Db, ds: seq<Delivery>)
    requires OneOwner(db, ds)
    ensures NoClash(db, ds)
    decreases ds
  {
    if ds != [] {
      var db' := Deliver(false, db, ds[0]).0;
      DeliverTouchesOnly(false, db, ds[0], "");
      forall i | 0 <= i < |ds| - 1 ensures MeetsOwn(db', ds[1..][i]) {
        assert MeetsOwn(db, ds[i + 1]) && MeetsOwn(db, ds[0]);
        assert ds[0].fetch.Some? && ds[i + 1].fetch.Some? ==> SameOwner(db, ds[0].fetch.value, ds[i + 1].fetch.value);
      }
      forall i, j | 0 <= i < |ds| - 1 && 0 <= j < |ds| - 1 && ds[1..][i].fetch.Some? && ds[1..][j].fetch.Some?
        ensures SameOwner(db', ds[1..][i].fetch.value, ds[1..][j].fetch.value)
      {
        assert SameOwner(db, ds[i + 1].fetch.value, ds[j + 1].fetch.value);
      }
      OneOwnerNoClash(db', ds[1..]);
    }
  }

  // For a tenant whose last synced event is the k-th delivery, the billing state is the status and
  // the plan that delivery wrote together; a canceled status comes with plan free; and writes are
  // refused exactly when its refetch said past_due, unpaid, canceled or incomplete_expired. This takes
  // an unfiltered read. A filtered one finds no subscription: it gets the plan, but "active" for the
  // status, so it is right exactly when the refetch was active, and never refuses a write.
  lemma BillingStateIsLastSync(rls: bool, db: Db, ds: seq<Delivery>, k: nat, t: OrgId)
    requires rls || NoClash(db, ds)
    requires Clocked(db, ds) && k < |ds| && SyncsTenant(db, ds, Run(rls, db, ds).1, k, t)
    requires forall j :: k < j < |ds| ==> !SyncsTenant(db, ds, Run(rls, db, ds).1, j, t)
    ensures var before, final, r := Before(rls, db, ds, k), Run(rls, db, ds).0, ds[k].fetch.value;
            && ReadsBack(before, r, GetBillingState(false, final, t))
            && GetBillingState(true, final, t) == ("active", NewPlan(before, r))
            && (ReadsBack(before, r, GetBillingState(true, final, t)) <==> r.status == "active")
  {
    if !rls {
      NoClashSameRun(db, ds, k);
    }
    FilteredSyncIsRead(db, ds, k, t);
    hide Run, Before, GetBillingState, Clocked, NoClash;
  }

  // Without a subscription row the tenant counts as active on its own plan; with one, an unfiltered
  // read finds a row of it.
  lemma NeverSubscribedIff(db: Db, t: OrgId)
    ensures (forall s :: s in db.subs ==> db.subs[s].tenant != t) <==> !exists s :: Latest(db, t, s)
    ensures (forall s :: s in db.subs ==> db.subs[s].tenant != t) ==>
              forall filtered :: GetBillingState(filtered, db, t) == ("active", if t in db.orgs then db.orgs[t] else "free")
  {
    if z :| z in db.subs && db.subs[z].tenant == t {
      SubscribedTenantHasLatest(db, t, z);
    }
  }
}
