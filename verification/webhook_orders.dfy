// When does the order of deliveries matter for an organization's plan? The plan follows whichever
// subscription of the organization was synced last (src/billing/webhook.service.ts:99-113).

module WebhookOrders {
  import opened Prelude
  import opened Webhooks
  import opened WebhookRuns

  // The plan a refetch says, if it says one; otherwise the organization keeps its plan.
  function SaidPlan(r: Remote): Option<string> {
    var mapped := MapStatus(r.status);
    if mapped.plan.Some? then mapped.plan else r.plan
  }

  predicate BelongsTo(db: Db, r: Remote, t: OrgId) {
    r.customer in db.byCustomer && db.byCustomer[r.customer] == t
  }

  // The k-th delivery synced a subscription of t that says a plan.
  predicate SetsPlan(db: Db, ds: seq<Delivery>, os: seq<Outcome>, k: nat, t: OrgId)
    requires k < |ds| == |os|
  {
    os[k] == Processed && ds[k].fetch.Some? && BelongsTo(db, ds[k].fetch.value, t) && SaidPlan(ds[k].fetch.value).Some?
  }

  lemma DeliverSetsPlan(rls: bool, db: Db, d: Delivery, t: OrgId)
    requires t in db.orgs
    ensures var (db', o) := Deliver(rls, db, d);
            && t in db'.orgs && db'.byCustomer == db.byCustomer
            && db'.orgs[t] == if SetsPlan(db, [d], [o], 0, t) then SaidPlan(d.fetch.value).value else db.orgs[t]
  {
    DeliverTouchesOnly(rls, db, d, "");
  }

  // Whether or not deliveries fail, repeat or overtake each other: the plan is what the last of them to
  // sync a subscription that says a plan said, and the plan there was if none did.
  lemma {:induction false} PlanIsLastSaid(rls: bool, db: Db, ds: seq<Delivery>, t: OrgId)
    requires t in db.orgs
    ensures var (final, os) := Run(rls, db, ds);
            && t in final.orgs
            && (forall k :: 0 <= k < |ds| && SetsPlan(db, ds, os, k, t) && (forall j :: k < j < |ds| ==> !SetsPlan(db, ds, os, j, t)) ==>
                  final.orgs[t] == SaidPlan(ds[k].fetch.value).value)
            && ((forall k :: 0 <= k < |ds| ==> !SetsPlan(db, ds, os, k, t)) ==> final.orgs[t] == db.orgs[t])
    decreases ds
  {
    if ds != [] {
      var (db', o) := Deliver(rls, db, ds[0]);
      var (final, os') := Run(rls, db', ds[1..]);
      var os := [o] + os';
      DeliverSetsPlan(rls, db, ds[0], t);
      PlanIsLastSaid(rls, db', ds[1..], t);
      hide Deliver, SaidPlan;
      assert SetsPlan(db, ds, os, 0, t) <==> SetsPlan(db, [ds[0]], [o], 0, t);
      forall k | 0 <= k < |ds| - 1 ensures SetsPlan(db', ds[1..], os', k, t) <==> SetsPlan(db, ds, os, k + 1, t) {
      }
      forall k | 0 <= k < |ds| && SetsPlan(db, ds, os, k, t) && (forall j :: k < j < |ds| ==> !SetsPlan(db, ds, os, j, t))
        ensures final.orgs[t] == SaidPlan(ds[k].fetch.value).value
      {
        if k > 0 {
          assert SetsPlan(db', ds[1..], os', k - 1, t);
          forall j | k - 1 < j < |ds| - 1 ensures !SetsPlan(db', ds[1..], os', j, t) {
            assert !SetsPlan(db, ds, os, j + 1, t);
          }
        } else {
          forall j | 0 <= j < |ds| - 1 ensures !SetsPlan(db', ds[1..], os', j, t) {
            assert !SetsPlan(db, ds, os, j + 1, t);
          }
        }
      }
      if forall k :: 0 <= k < |ds| ==> !SetsPlan(db, ds, os, k, t) {
        forall j | 0 <= j < |ds| - 1 ensures !SetsPlan(db', ds[1..], os', j, t) {
          assert !SetsPlan(db, ds, os, j + 1, t);
        }
      }
    }
  }

  lemma {:induction false} LastSetting(db: Db, ds: seq<Delivery>, os: seq<Outcome>, t: OrgId, k: nat) returns (last: nat)
    requires k < |ds| == |os| && SetsPlan(db, ds, os, k, t)
    ensures last < |ds| && SetsPlan(db, ds, os, last, t) && forall j :: last < j < |ds| ==> !SetsPlan(db, ds, os, j, t)
    decreases |ds| - k
  {
    if j :| k < j < |ds| && SetsPlan(db, ds, os, j, t) {
      last := LastSetting(db, ds, os, t, j);
    } else {
      last := k;
    }
  }

  // Every refetch returns what Stripe holds.
  ghost predicate Steady(stripe: map<SubId, Remote>, ds: seq<Delivery>) {
    forall i :: 0 <= i < |ds| && ds[i].fetch.Some? ==> FromStripe(stripe, ds[i].fetch.value)
  }

  predicate SetsSome(rls: bool, db: Db, ds: seq<Delivery>, t: OrgId) {
    exists k :: 0 <= k < |ds| && SetsPlan(db, ds, Run(rls, db, ds).1, k, t)
  }

  // All subscriptions of t that say a plan say the same one.
  ghost predicate Agree(stripe: map<SubId, Remote>, db: Db, t: OrgId) {
    forall s, u :: s in stripe && u in stripe && Says(stripe[s], db, t) && Says(stripe[u], db, t) ==>
      SaidPlan(stripe[s]) == SaidPlan(stripe[u])
  }

  predicate Says(r: Remote, db: Db, t: OrgId) {
    BelongsTo(db, r, t) && SaidPlan(r).Some?
  }

  // A refetch asks for the event's subscription, and an event id stands for one event.
  ghost predicate Faithful(stripe: map<SubId, Remote>, ds: seq<Delivery>) {
    Steady(stripe, ds) && (forall i, j :: 0 <= i < |ds| && 0 <= j < |ds| ==> Consistent(ds[i], ds[j]))
  }

  predicate Consistent(d: Delivery, e: Delivery) {
    && (d.fetch.Some? ==> d.fetch.value.id == SubscriptionOf(d.event))
    && (d.event.id == e.event.id ==> d.event == e.event)
  }

  // Delivering the same events in another order leaves the same plan.
  ghost predicate OrderDoesNotMatter(rls: bool, stripe: map<SubId, Remote>, db: Db, t: OrgId) {
    forall ds, es :: Reordered(stripe, ds, es) ==> SamePlan(rls, db, ds, es, t)
  }

  ghost predicate Reordered(stripe: map<SubId, Remote>, ds: seq<Delivery>, es: seq<Delivery>) {
    multiset(ds) == multiset(es) && Faithful(stripe, ds) && Faithful(stripe, es)
  }

  predicate SamePlan(rls: bool, db: Db, ds: seq<Delivery>, es: seq<Delivery>, t: OrgId) {
    var a, b := Run(rls, db, ds).0, Run(rls, db, es).0;
    t in a.orgs && t in b.orgs && a.orgs[t] == b.orgs[t]
  }

  // Delivered first, this would set t's plan.
  predicate Effective(rls: bool, db: Db, d: Delivery, t: OrgId) {
    && NeedsSync(d.event) && d.fetch.Some? && d.fault == NoFault && d.event.id !in db.ledger
    && Says(d.fetch.value, db, t) && Owned(db, d.fetch.value) && !(rls && Conflicts(db, d.fetch.value))
  }

  lemma EffectiveSets(rls: bool, db: Db, d: Delivery, t: OrgId)
    ensures Effective(rls, db, d, t) <==> SetsPlan(db, [d], [Deliver(rls, db, d).1], 0, t)
  {
    hide SaidPlan;
  }

  // A delivery that does not set the plan changes nothing for those that would.
  lemma EffectiveStays(rls: bool, stripe: map<SubId, Remote>, db: Db, d0: Delivery, d: Delivery, t: OrgId)
    requires !Effective(rls, db, d0, t) && Consistent(d0, d) && Consistent(d, d0)
    requires d0.fetch.Some? ==> FromStripe(stripe, d0.fetch.value)
    requires d.fetch.Some? ==> FromStripe(stripe, d.fetch.value)
    ensures Effective(rls, Deliver(rls, db, d0).0, d, t) <==> Effective(rls, db, d, t)
  {
    DeliverTouchesOnly(rls, db, d0, if d.fetch.Some? then d.fetch.value.id else "");
    hide SaidPlan, Relevant, MapStatus, NewPlan, PeriodEnd;
  }

  // Whether some delivery sets the plan does not depend on the order.
  lemma {:induction false} SetsSomeIff(rls: bool, stripe: map<SubId, Remote>, db: Db, ds: seq<Delivery>, t: OrgId)
    requires Faithful(stripe, ds)
    ensures SetsSome(rls, db, ds, t) <==> exists i :: 0 <= i < |ds| && Effective(rls, db, ds[i], t)
    decreases ds
  {
    if ds != [] {
      var db', os := Deliver(rls, db, ds[0]).0, Run(rls, db, ds).1;
      var os' := Run(rls, db', ds[1..]).1;
      EffectiveSets(rls, db, ds[0], t);
      DeliverTouchesOnly(rls, db, ds[0], "");
      hide Deliver, SaidPlan, Effective;
      assert SetsPlan(db, ds, os, 0, t) <==> Effective(rls, db, ds[0], t);
      forall k | 0 <= k < |ds| - 1 ensures SetsPlan(db', ds[1..], os', k, t) <==> SetsPlan(db, ds, os, k + 1, t) {
      }
      if !Effective(rls, db, ds[0], t) {
        forall i | 0 <= i < |ds| - 1 ensures Effective(rls, db', ds[1..][i], t) <==> Effective(rls, db, ds[i + 1], t) {
          assert Consistent(ds[0], ds[i + 1]) && Consistent(ds[i + 1], ds[0]);
          EffectiveStays(rls, stripe, db, ds[0], ds[i + 1], t);
        }
        assert Faithful(stripe, ds[1..]);
        SetsSomeIff(rls, stripe, db', ds[1..], t);
        SetsShift(rls, db, ds, t);
        if i :| 0 <= i < |ds| && Effective(rls, db, ds[i], t) {
          assert i > 0 && Effective(rls, db', ds[1..][i - 1], t);
        }
        if i :| 0 <= i < |ds| - 1 && Effective(rls, db', ds[1..][i], t) {
          assert Effective(rls, db, ds[i + 1], t);
        }
      }
    }
  }

  lemma SetsShift(rls: bool, db: Db, ds: seq<Delivery>, t: OrgId)
    requires ds != []
    ensures SetsSome(rls, db, ds, t)
            <==> SetsPlan(db, ds, Run(rls, db, ds).1, 0, t) || SetsSome(rls, Deliver(rls, db, ds[0]).0, ds[1..], t)
  {
    var db', os := Deliver(rls, db, ds[0]).0, Run(rls, db, ds).1;
    var os' := Run(rls, db', ds[1..]).1;
    DeliverTouchesOnly(rls, db, ds[0], "");
    hide Deliver, SaidPlan;
    forall k | 0 <= k < |ds| - 1 ensures SetsPlan(db', ds[1..], os', k, t) <==> SetsPlan(db, ds, os, k + 1, t) {
    }
    if k :| 0 <= k < |ds| && SetsPlan(db, ds, os, k, t) {
      assert k > 0 ==> SetsPlan(db', ds[1..], os', k - 1, t);
    }
    if k :| 0 <= k < |ds| - 1 && SetsPlan(db', ds[1..], os', k, t) {
      assert SetsPlan(db, ds, os, k + 1, t);
    }
  }

  lemma ReorderedSetsSame(rls: bool, stripe: map<SubId, Remote>, db: Db, ds: seq<Delivery>, es: seq<Delivery>, t: OrgId)
    requires Reordered(stripe, ds, es)
    ensures SetsSome(rls, db, ds, t) <==> SetsSome(rls, db, es, t)
  {
    SetsSomeIff(rls, stripe, db, ds, t);
    SetsSomeIff(rls, stripe, db, es, t);
    assert forall d :: d in ds <==> d in multiset(ds);
    assert forall d :: d in es <==> d in multiset(es);
    hide SetsSome, Effective, Faithful;
    if i :| 0 <= i < |ds| && Effective(rls, db, ds[i], t) {
      assert ds[i] in es;
    }
    if i :| 0 <= i < |es| && Effective(rls, db, es[i], t) {
      assert es[i] in ds;
    }
  }

  lemma AgreementDecides(rls: bool, stripe: map<SubId, Remote>, db: Db, ds: seq<Delivery>, t: OrgId) returns (s: SubId)
    requires t in db.orgs && Steady(stripe, ds) && SetsSome(rls, db, ds, t)
    ensures s in stripe && Says(stripe[s], db, t)
    ensures t in Run(rls, db, ds).0.orgs && Some(Run(rls, db, ds).0.orgs[t]) == SaidPlan(stripe[s])
  {
    var os := Run(rls, db, ds).1;
    var k :| 0 <= k < |ds| && SetsPlan(db, ds, os, k, t);
    var last := LastSetting(db, ds, os, t, k);
    PlanIsLastSaid(rls, db, ds, t);
    assert FromStripe(stripe, ds[last].fetch.value);
    s := ds[last].fetch.value.id;
  }

  function Update(id: EventId, r: Remote): Delivery {
    Delivery(StripeEvent(id, "customer.subscription.updated", r.id, ""), Some(r), 0, NoFault)
  }

  predicate Syncable(rls: bool, db: Db, id: EventId, r: Remote) {
    id !in db.ledger && r.id != "" && Owned(db, r) && !(rls && Conflicts(db, r))
  }

  lemma UpdateProcesses(rls: bool, db: Db, id: EventId, r: Remote)
    requires Syncable(rls, db, id, r)
    ensures var (db', o) := Deliver(rls, db, Update(id, r));
            && o == Processed && db'.ledger == db.ledger + {id}
            && (forall e, q :: Syncable(rls, db, e, q) && e != id && q.id != r.id ==> Syncable(rls, db', e, q))
  {
    assert NeedsSync(Update(id, r).event);
    hide MapStatus, NewPlan, PeriodEnd;
  }

  // Two deliveries in one order leave the plan of the second.
  lemma PairLeavesSecond(rls: bool, db: Db, e1: EventId, a: Remote, e2: EventId, b: Remote, t: OrgId)
    requires Syncable(rls, db, e1, a) && Syncable(rls, db, e2, b) && e1 != e2 && a.id != b.id
    requires t in db.orgs && Says(b, db, t)
    ensures var ds := [Update(e1, a), Update(e2, b)];
            && SetsSome(rls, db, ds, t)
            && t in Run(rls, db, ds).0.orgs && Some(Run(rls, db, ds).0.orgs[t]) == SaidPlan(b)
  {
    var ds := [Update(e1, a), Update(e2, b)];
    UpdateProcesses(rls, db, e1, a);
    var db1 := Deliver(rls, db, ds[0]).0;
    UpdateProcesses(rls, db1, e2, b);
    var os := Run(rls, db, ds).1;
    hide Deliver, SaidPlan;
    assert ds[1..] == [Update(e2, b)] && [Update(e2, b)][1..] == [];
    assert os == [Deliver(rls, db, ds[0]).1] + Run(rls, db1, [Update(e2, b)]).1;
    assert SetsPlan(db, ds, os, 1, t);
    PlanIsLastSaid(rls, db, ds, t);
  }

  // With Stripe unchanged, whatever is redelivered or fails: the order of the deliveries does not matter
  // for an organization's plan exactly when its subscriptions that say a plan all say the same.
  lemma OrderDoesNotMatterIff(rls: bool, stripe: map<SubId, Remote>, db: Db, t: OrgId, e1: EventId, e2: EventId)
    requires t in db.orgs && e1 != e2
    requires forall s :: s in stripe ==> stripe[s].id == s
    requires forall s :: s in stripe && BelongsTo(db, stripe[s], t) ==> Syncable(rls, db, e1, stripe[s]) && Syncable(rls, db, e2, stripe[s])
    ensures OrderDoesNotMatter(rls, stripe, db, t) <==> Agree(stripe, db, t)
  {
    hide Run, SaidPlan, Syncable;
    if Agree(stripe, db, t) {
      forall ds, es | Reordered(stripe, ds, es) ensures SamePlan(rls, db, ds, es, t) {
        ReorderedSetsSame(rls, stripe, db, ds, es, t);
        if SetsSome(rls, db, ds, t) {
          var s := AgreementDecides(rls, stripe, db, ds, t);
          var u := AgreementDecides(rls, stripe, db, es, t);
        } else {
          PlanIsLastSaid(rls, db, ds, t);
          PlanIsLastSaid(rls, db, es, t);
        }
      }
    }
    forall s, u | s in stripe && u in stripe && s != u && Says(stripe[s], db, t) && Says(stripe[u], db, t)
      ensures OrderDoesNotMatter(rls, stripe, db, t) ==> SaidPlan(stripe[s]) == SaidPlan(stripe[u])
    {
      var ds := [Update(e1, stripe[s]), Update(e2, stripe[u])];
      var es := [Update(e2, stripe[u]), Update(e1, stripe[s])];
      PairLeavesSecond(rls, db, e1, stripe[s], e2, stripe[u], t);
      PairLeavesSecond(rls, db, e2, stripe[u], e1, stripe[s], t);
      UpdateAsks(e1, stripe[s]);
      UpdateAsks(e2, stripe[u]);
      hide SubscriptionOf, Update;
      assert Reordered(stripe, ds, es);
      assert OrderDoesNotMatter(rls, stripe, db, t) ==> SamePlan(rls, db, ds, es, t);
    }
  }

  lemma UpdateAsks(id: EventId, r: Remote)
    ensures SubscriptionOf(Update(id, r).event) == r.id && Update(id, r).event.id == id && Update(id, r).fetch == Some(r)
  {
  }
}
