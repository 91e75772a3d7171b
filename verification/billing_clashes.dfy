// The billing state after deliveries that may meet subscription rows of other tenants, which an unfiltered
// upsert updates without moving them (src/billing/webhook.service.ts:103-113,
// src/billing/enforcement.service.ts:18-33).

module BillingClashes {
  import opened Prelude
  import opened Webhooks
  import opened WebhookRuns

  // The delivery syncs the organization: its plan is set.
  predicate SyncsOrg(rls: bool, db: Db, d: Delivery, t: OrgId) {
    Deliver(rls, db, d).1 == Processed && d.fetch.Some? && Owned(db, d.fetch.value) && db.byCustomer[d.fetch.value.customer] == t
  }

  // The delivery writes a subscription row that is, or becomes, one of t's.
  predicate WritesRowOf(rls: bool, db: Db, d: Delivery, t: OrgId) {
    && Deliver(rls, db, d).1 == Processed && d.fetch.Some? && Owned(db, d.fetch.value)
    && t == if d.fetch.value.id in db.subs then db.subs[d.fetch.value.id].tenant else db.byCustomer[d.fetch.value.customer]
  }

  // The status that the last delivery to write a row of t wrote, and the plan that the last delivery to
  // sync t set.
  function LastStatus(rls: bool, db: Db, ds: seq<Delivery>, t: OrgId, status: string): string
    decreases ds
  {
    if ds == [] then status
    else
      LastStatus(rls, Deliver(rls, db, ds[0]).0, ds[1..], t,
                 if WritesRowOf(rls, db, ds[0], t) then MapStatus(ds[0].fetch.value.status).status else status)
  }

  function LastPlan(rls: bool, db: Db, ds: seq<Delivery>, t: OrgId, plan: string): string
    decreases ds
  {
    if ds == [] then plan
    else
      LastPlan(rls, Deliver(rls, db, ds[0]).0, ds[1..], t, if SyncsOrg(rls, db, ds[0], t) then NewPlan(db, ds[0].fetch.value) else plan)
  }

  // ORDER BY updated_at DESC LIMIT 1 has no ties among t's rows.
  ghost predicate NoTies(db: Db, t: OrgId) {
    forall s, z :: Latest(db, t, s) && Latest(db, t, z) ==> s == z
  }

  lemma ReadsLatest(db: Db, t: OrgId, s: SubId)
    requires NoTies(db, t) && Latest(db, t, s)
    ensures GetBillingState(false, db, t).0 == db.subs[s].status
  {
  }

  // The rows of t are as they were.
  predicate SameRows(db: Db, db': Db, t: OrgId) {
    && (forall s :: s in db.subs && db.subs[s].tenant == t ==> s in db'.subs && db'.subs[s] == db.subs[s])
    && (forall s :: s in db'.subs && db'.subs[s].tenant == t ==> s in db.subs && db.subs[s].tenant == t)
  }

  lemma SameRowsSameStatus(db: Db, db': Db, t: OrgId)
    requires SameRows(db, db', t) && NoTies(db, t)
    ensures NoTies(db', t) && GetBillingState(false, db', t).0 == GetBillingState(false, db, t).0
  {
    assert forall s :: Latest(db, t, s) <==> Latest(db', t, s);
    if s :| Latest(db, t, s) {
      ReadsLatest(db, t, s);
      ReadsLatest(db', t, s);
    }
  }

  lemma WrittenRowIsRead(rls: bool, db: Db, d: Delivery, t: OrgId)
    requires Clocked(db, [d]) && WritesRowOf(rls, db, d, t)
    ensures var db' := Deliver(rls, db, d).0;
            NoTies(db', t) && GetBillingState(false, db', t).0 == MapStatus(d.fetch.value.status).status
  {
    var db', id := Deliver(rls, db, d).0, d.fetch.value.id;
    DeliverTouchesOnly(rls, db, d, id);
    assert [d][0].now == d.now;
    assert forall s :: s in db.subs ==> db.subs[s].updatedAt < d.now;
    hide Deliver, MapStatus, NewPlan, PeriodEnd;
    assert db'.subs[id].tenant == t && db'.subs[id].updatedAt == d.now;
    assert forall s :: s in db'.subs && s != id ==> s in db.subs && db'.subs[s] == db.subs[s];
    assert Latest(db', t, id);
    forall s | Latest(db', t, s) ensures s == id {
    }
    ReadsLatest(db', t, id);
  }

  // One delivery, in either visibility: a row of t that it writes becomes the one read, and t's plan is
  // that of the delivery that syncs t.
  lemma DeliverySplits(rls: bool, db: Db, d: Delivery, t: OrgId)
    requires Clocked(db, [d]) && NoTies(db, t)
    ensures var db', state, state' := Deliver(rls, db, d).0, GetBillingState(false, db, t), GetBillingState(false, Deliver(rls, db, d).0, t);
            && NoTies(db', t)
            && state'.0 == (if WritesRowOf(rls, db, d, t) then MapStatus(d.fetch.value.status).status else state.0)
            && state'.1 == (if SyncsOrg(rls, db, d, t) then NewPlan(db, d.fetch.value) else state.1)
  {
    PlanAfter(rls, db, d, t);
    hide Deliver, MapStatus, NoTies, Latest, GetBillingState;
    if WritesRowOf(rls, db, d, t) {
      WrittenRowIsRead(rls, db, d, t);
    } else {
      UnwrittenRowsSame(rls, db, d, t);
      SameRowsSameStatus(db, Deliver(rls, db, d).0, t);
    }
  }

  lemma PlanAfter(rls: bool, db: Db, d: Delivery, t: OrgId)
    ensures GetBillingState(false, Deliver(rls, db, d).0, t).1
         == if SyncsOrg(rls, db, d, t) then NewPlan(db, d.fetch.value) else GetBillingState(false, db, t).1
  {
    DeliverTouchesOnly(rls, db, d, "");
    hide Deliver, MapStatus, PeriodEnd, NewPlan, Latest;
  }

  lemma UnwrittenRowsSame(rls: bool, db: Db, d: Delivery, t: OrgId)
    requires !WritesRowOf(rls, db, d, t)
    ensures SameRows(db, Deliver(rls, db, d).0, t)
  {
    DeliverTouchesOnly(rls, db, d, "");
    hide Deliver, MapStatus, NewPlan, PeriodEnd;
  }

  // After any run, whatever clashes: the status read is that of the last delivery to write a row of t, and
  // the plan that of the last delivery to sync t.
  lemma {:induction false} BillingStateSplits(rls: bool, db: Db, ds: seq<Delivery>, t: OrgId)
    requires Clocked(db, ds) && NoTies(db, t)
    ensures var state := GetBillingState(false, db, t);
            GetBillingState(false, Run(rls, db, ds).0, t) == (LastStatus(rls, db, ds, t, state.0), LastPlan(rls, db, ds, t, state.1))
    decreases ds
  {
    if ds != [] {
      ClockedStep(rls, db, ds);
      assert Clocked(db, [ds[0]]);
      DeliverySplits(rls, db, ds[0], t);
      hide Deliver, GetBillingState, Clocked, NoTies, WritesRowOf, SyncsOrg, MapStatus;
      BillingStateSplits(rls, Deliver(rls, db, ds[0]).0, ds[1..], t);
    }
  }

  lemma SyncsTenantIsOrg(rls: bool, db: Db, ds: seq<Delivery>, t: OrgId)
    requires ds != []
    ensures SyncsTenant(db, ds, Run(rls, db, ds).1, 0, t) <==> SyncsOrg(rls, db, ds[0], t)
    ensures forall j :: 0 < j < |ds| ==>
              (SyncsTenant(db, ds, Run(rls, db, ds).1, j, t)
               <==> SyncsTenant(Deliver(rls, db, ds[0]).0, ds[1..], Run(rls, Deliver(rls, db, ds[0]).0, ds[1..]).1, j - 1, t))
  {
    DeliverTouchesOnly(rls, db, ds[0], "");
    hide Deliver;
  }

  lemma {:induction false} LastPlanIs(rls: bool, db: Db, ds: seq<Delivery>, t: OrgId, plan: string)
    ensures forall k :: 0 <= k < |ds| && SyncsTenant(db, ds, Run(rls, db, ds).1, k, t)
                        && (forall j :: k < j < |ds| ==> !SyncsTenant(db, ds, Run(rls, db, ds).1, j, t)) ==>
              Owned(Before(rls, db, ds, k), ds[k].fetch.value) && LastPlan(rls, db, ds, t, plan) == NewPlan(Before(rls, db, ds, k), ds[k].fetch.value)
    ensures (forall k :: 0 <= k < |ds| ==> !SyncsTenant(db, ds, Run(rls, db, ds).1, k, t)) ==> LastPlan(rls, db, ds, t, plan) == plan
    decreases ds
  {
    if ds != [] {
      var db', os := Deliver(rls, db, ds[0]).0, Run(rls, db, ds).1;
      var os' := Run(rls, db', ds[1..]).1;
      var plan' := if SyncsOrg(rls, db, ds[0], t) then NewPlan(db, ds[0].fetch.value) else plan;
      SyncsTenantIsOrg(rls, db, ds, t);
      LastPlanIs(rls, db', ds[1..], t, plan');
      assert SyncsTenant(db, ds, os, 0, t) ==> SyncsOrg(rls, db, ds[0], t) && Owned(db, ds[0].fetch.value);
      hide Deliver, SyncsTenant, SyncsOrg, Run, NewPlan, Owned;
      forall j | 0 <= j < |ds| - 1 ensures SyncsTenant(db', ds[1..], os', j, t) <==> SyncsTenant(db, ds, os, j + 1, t) {
        assert 0 < j + 1 < |ds|;
      }
      forall k | 0 <= k < |ds| && SyncsTenant(db, ds, os, k, t) && (forall j :: k < j < |ds| ==> !SyncsTenant(db, ds, os, j, t))
        ensures Owned(Before(rls, db, ds, k), ds[k].fetch.value) && LastPlan(rls, db, ds, t, plan) == NewPlan(Before(rls, db, ds, k), ds[k].fetch.value)
      {
        if k == 0 {
          assert forall j :: 0 <= j < |ds| - 1 ==> !SyncsTenant(db', ds[1..], os', j, t);
        } else {
          assert ds[1..][k - 1] == ds[k] && SyncsTenant(db', ds[1..], os', k - 1, t);
          assert forall j :: k - 1 < j < |ds| - 1 ==> !SyncsTenant(db', ds[1..], os', j, t);
        }
      }
    }
  }

  // Exactly when the billing state of a tenant is what its last synced event wrote, whatever clashes: the
  // last delivery to write one of the tenant's rows wrote the same status.
  lemma BillingReadsBackIff(rls: bool, db: Db, ds: seq<Delivery>, k: nat, t: OrgId)
    requires Clocked(db, ds) && NoTies(db, t) && k < |ds| && SyncsTenant(db, ds, Run(rls, db, ds).1, k, t)
    requires forall j :: k < j < |ds| ==> !SyncsTenant(db, ds, Run(rls, db, ds).1, j, t)
    ensures var before, r := Before(rls, db, ds, k), ds[k].fetch.value;
            && Owned(before, r)
            && (ReadsBack(before, r, GetBillingState(false, Run(rls, db, ds).0, t))
                <==> LastStatus(rls, db, ds, t, GetBillingState(false, db, t).0) == MapStatus(r.status).status)
  {
    var state := GetBillingState(false, db, t);
    BillingStateSplits(rls, db, ds, t);
    LastPlanIs(rls, db, ds, t, state.1);
    var before, r := Before(rls, db, ds, k), ds[k].fetch.value;
    assert Owned(before, r) && LastPlan(rls, db, ds, t, state.1) == NewPlan(before, r);
    WrittenReadsBack(before, r);
    hide GetBillingState, Run, LastStatus, LastPlan, MapStatus, NewPlan, Before, Clocked, NoTies;
  }

  // For one delivery that syncs t, a condition to be checked before it: it meets no row of another tenant,
  // or the status read so far is the refetched one anyway.
  lemma ClashIff(rls: bool, db: Db, d: Delivery, t: OrgId)
    requires Clocked(db, [d]) && NoTies(db, t) && SyncsOrg(rls, db, d, t)
    ensures ReadsBack(db, d.fetch.value, GetBillingState(false, Deliver(rls, db, d).0, t))
            <==> !Conflicts(db, d.fetch.value) || GetBillingState(false, db, t).0 == MapStatus(d.fetch.value.status).status
  {
    var r := d.fetch.value;
    DeliverySplits(rls, db, d, t);
    WrittenReadsBack(db, r);
    assert WritesRowOf(rls, db, d, t) <==> !Conflicts(db, r);
    hide GetBillingState, Deliver, MapStatus, NewPlan, Clocked, NoTies, WritesRowOf;
  }

  // It happens without row security: a subscription stored for organization 2 is refetched as past due
  // with a customer of organization 1. The plan of 1 is set, but it still reads "active" and may write.
  lemma ClashHidesStatus(now: int)
    ensures var row := SubRow(2, "active", "pro", None, 0);
            var db := Db({}, map[1 := "free", 2 := "pro"], map["cus_1" := 1, "cus_2" := 2], map["sub" := row]);
            var d := Delivery(StripeEvent("e", "customer.subscription.updated", "sub", ""),
                              Some(Remote("sub", "past_due", Some("starter"), None, "cus_1")), now, NoFault);
            var (db', o) := Deliver(false, db, d);
            o == Processed && GetBillingState(false, db', 1) == ("active", "starter") && WriteAllowed("active")
  {
    var row := SubRow(2, "active", "pro", None, 0);
    var db := Db({}, map[1 := "free", 2 := "pro"], map["cus_1" := 1, "cus_2" := 2], map["sub" := row]);
    var d := Delivery(StripeEvent("e", "customer.subscription.updated", "sub", ""),
                      Some(Remote("sub", "past_due", Some("starter"), None, "cus_1")), now, NoFault);
    assert NeedsSync(d.event);
    var db' := Deliver(false, db, d).0;
    assert db'.subs.Keys == {"sub"} && db'.subs["sub"].tenant == 2 && db'.orgs[1] == "starter";
    hide Deliver;
    assert forall s :: s in db'.subs ==> db'.subs[s].tenant != 1;
    NeverSubscribedIff(db', 1);
  }
}
