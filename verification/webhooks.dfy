// Stripe webhook processing (src/billing/webhook.service.ts): the ledger insert and the state sync of
// one transaction, and the handler around it.

module Webhooks {
  import opened Prelude

  type OrgId = nat
  type EventId = string
  type SubId = string
  type Customer = string

  datatype StripeEvent = StripeEvent(id: EventId, kind: string, objectId: string, objectSubscription: string)

  // What a refetch of a subscription returns.
  datatype Remote = Remote(id: SubId, status: string, plan: Option<string>, periodEnd: Option<int>, customer: Customer)

  datatype SubRow = SubRow(tenant: OrgId, status: string, plan: string, periodEnd: Option<int>, updatedAt: int)

  // orgs maps each organization to its plan; byCustomer is the unique index on stripe_customer_id.
  datatype Db = Db(ledger: set<EventId>, orgs: map<OrgId, string>, byCustomer: map<Customer, OrgId>, subs: map<SubId, SubRow>)

  datatype Outcome = Processed | Duplicate | Ignored | Failed

  // Where, if anywhere, a statement of the transaction fails.
  datatype Fault = NoFault | BeforeLedger | AfterLedger

  datatype Mapped = Mapped(status: string, plan: Option<string>)

  function MapStatus(stripeStatus: string): Mapped {
    if stripeStatus == "active" || stripeStatus == "trialing" then Mapped(stripeStatus, None)
    else if stripeStatus == "past_due" || stripeStatus == "unpaid" then Mapped("past_due", None)
    else if stripeStatus == "canceled" || stripeStatus == "incomplete_expired" then Mapped("canceled", Some("free"))
    else Mapped(stripeStatus, None)
  }

  predicate Relevant(kind: string) {
    kind in {"customer.subscription.updated", "customer.subscription.deleted", "customer.subscription.created",
             "invoice.payment_succeeded", "invoice.payment_failed"}
  }

  // The subscription an event is about, "" if none.
  function SubscriptionOf(e: StripeEvent): SubId {
    if "customer.subscription." <= e.kind then e.objectId else e.objectSubscription
  }

  predicate NeedsSync(e: StripeEvent) {
    Relevant(e.kind) && SubscriptionOf(e) != ""
  }

  // Seconds to milliseconds; a zero period end counts as none.
  function PeriodEnd(r: Remote): Option<int> {
    if r.periodEnd.None? || r.periodEnd.value == 0 then None else Some(r.periodEnd.value * 1000)
  }

  predicate Owned(db: Db, r: Remote) {
    r.customer in db.byCustomer && db.byCustomer[r.customer] in db.orgs
  }

  function NewPlan(db: Db, r: Remote): string
    requires Owned(db, r)
  {
    var mapped := MapStatus(r.status);
    if mapped.plan.Some? then mapped.plan.value
    else if r.plan.Some? then r.plan.value
    else db.orgs[db.byCustomer[r.customer]]
  }

  // The upsert meets a row of another tenant: under row security it fails, otherwise it keeps the
  // row's tenant.
  predicate Conflicts(db: Db, r: Remote)
    requires Owned(db, r)
  {
    r.id in db.subs && db.subs[r.id].tenant != db.byCustomer[r.customer]
  }

  // The subscription upsert and the plan update.
  function Sync(db: Db, r: Remote, now: int): Db
    requires Owned(db, r)
  {
    var org := db.byCustomer[r.customer];
    var tenant := if r.id in db.subs then db.subs[r.id].tenant else org;
    db.(subs := db.subs[r.id := SubRow(tenant, MapStatus(r.status).status, NewPlan(db, r), PeriodEnd(r), now)],
        orgs := db.orgs[org := NewPlan(db, r)])
  }

  function SyncTx(rls: bool, db: Db, id: EventId, r: Remote, now: int, fault: Fault): (Db, Outcome) {
    if fault == BeforeLedger then (db, Failed)
    else if id in db.ledger then (db, Duplicate)
    else if fault == AfterLedger then (db, Failed)
    else if !Owned(db, r) then (db.(ledger := db.ledger + {id}), Ignored)
    else if rls && Conflicts(db, r) then (db, Failed)
    else (Sync(db, r, now).(ledger := db.ledger + {id}), Processed)
  }

  function RecordOnly(db: Db, id: EventId, fault: Fault): (Db, Outcome) {
    if fault != NoFault then (db, Failed)
    else if id in db.ledger then (db, Duplicate)
    else (db.(ledger := db.ledger + {id}), Ignored)
  }

  // One delivery, handled alone: `fetch` is None when the refetch fails.
  datatype Delivery = Delivery(event: StripeEvent, fetch: Option<Remote>, now: int, fault: Fault)

  function Deliver(rls: bool, db: Db, d: Delivery): (Db, Outcome) {
    if !NeedsSync(d.event) then RecordOnly(db, d.event.id, d.fault)
    else if d.fetch.None? then (db, Failed)
    else SyncTx(rls, db, d.event.id, d.fetch.value, d.now, d.fault)
  }

  // A failed delivery leaves no trace, a first faultless one commits, and from then on the event is a
  // duplicate that changes nothing.
  lemma DeliveryIsRetryable(rls: bool, db: Db, d: Delivery)
    ensures var (db', o) := Deliver(rls, db, d);
            && (o == Failed || o == Duplicate <==> db' == db)
            && (o == Duplicate ==> d.event.id in db.ledger)
            && (o == Processed || o == Ignored <==> d.event.id !in db.ledger && d.event.id in db'.ledger)
    ensures d.fault == NoFault && d.event.id !in db.ledger && d.fetch.Some? && (Owned(db, d.fetch.value) ==> !Conflicts(db, d.fetch.value)) ==>
              Deliver(rls, db, d).1 in {Processed, Ignored}
    ensures d.event.id in db.ledger ==> Deliver(rls, db, d).0 == db && Deliver(rls, db, d).1 in {Duplicate, Failed}
  {
    var (db', o) := Deliver(rls, db, d);
    assert o in {Processed, Ignored} ==> db'.ledger == db.ledger + {d.event.id};
  }

  // ----- What a delivery answers and writes, on the event and the rows -----

  // The id the event carries for its subscription: its object's own, or an invoice's.
  function CarriedId(e: StripeEvent): string {
    if e.kind == "invoice.payment_succeeded" || e.kind == "invoice.payment_failed" then e.objectSubscription else e.objectId
  }

  predicate IsSubscriptionEvent(kind: string) {
    || kind == "customer.subscription.created" || kind == "customer.subscription.updated" || kind == "customer.subscription.deleted"
    || kind == "invoice.payment_succeeded" || kind == "invoice.payment_failed"
  }

  // The customer is one of ours.
  predicate KnownCustomer(db: Db, r: Remote) {
    r.customer in db.byCustomer && db.byCustomer[r.customer] in db.orgs
  }

  // The subscription is stored for another organization, and row security refuses the upsert.
  predicate Refused(rls: bool, db: Db, r: Remote) {
    rls && KnownCustomer(db, r) && r.id in db.subs && db.subs[r.id].tenant != db.byCustomer[r.customer]
  }

  // A new event of the five kinds that names a subscription, with a refetch and no fault, is processed if its
  // customer is known, unless the upsert is refused, and ignored otherwise; a new faultless event of another
  // kind, or without a subscription, is ignored; a faultless repeat is a duplicate; all else fails.
  ghost predicate DeliveryAnswers(rls: bool, before: Db, o: Outcome, e: StripeEvent, fetch: Option<Remote>, fault: Fault) {
    var about := IsSubscriptionEvent(e.kind) && CarriedId(e) != "";
    var isNew := fault == NoFault && e.id !in before.ledger;
    && (o == Processed <==> about && isNew && fetch.Some? && KnownCustomer(before, fetch.value) && !Refused(rls, before, fetch.value))
    && (o == Ignored <==> isNew && (!about || (fetch.Some? && !KnownCustomer(before, fetch.value))))
    && (o == Duplicate <==> e.id in before.ledger && (if about then fetch.Some? && fault != BeforeLedger else fault == NoFault))
  }

  // After "processed": the event is in the ledger, and of all rows just the subscription's and its
  // organization's plan are written, with these values.
  ghost predicate ProcessedRows(before: Db, after: Db, id: EventId, r: Remote, now: int) {
    && KnownCustomer(before, r)
    && var org := before.byCustomer[r.customer];
       var ended := r.status == "canceled" || r.status == "incomplete_expired";
       var plan := if ended then "free" else if r.plan.Some? then r.plan.value else before.orgs[org];
       && after.ledger == before.ledger + {id} && after.byCustomer == before.byCustomer
       && after.orgs == before.orgs[org := plan]
       && after.subs.Keys == before.subs.Keys + {r.id}
       && (forall z :: z in before.subs && z != r.id ==> after.subs[z] == before.subs[z])
       && var row := after.subs[r.id];
          && row.tenant == (if r.id in before.subs then before.subs[r.id].tenant else org)
          && row.status == (if ended then "canceled" else if r.status == "past_due" || r.status == "unpaid" then "past_due" else r.status)
          && row.plan == plan && row.updatedAt == now
          && row.periodEnd == (if r.periodEnd == None || r.periodEnd == Some(0) then None else Some(1000 * r.periodEnd.value))
  }

  lemma KindsAndIds(e: StripeEvent)
    ensures NeedsSync(e) <==> IsSubscriptionEvent(e.kind) && CarriedId(e) != ""
    ensures NeedsSync(e) ==> SubscriptionOf(e) == CarriedId(e)
  {
    assert "customer.subscription." <= "customer.subscription.created" && "customer.subscription." <= "customer.subscription.updated"
           && "customer.subscription." <= "customer.subscription.deleted";
    assert "invoice.payment_succeeded"[0] == 'i' && "invoice.payment_failed"[0] == 'i' && "customer.subscription."[0] == 'c';
  }

  lemma StatusTable(status: string)
    ensures MapStatus(status).status
         == if status == "canceled" || status == "incomplete_expired" then "canceled"
            else if status == "past_due" || status == "unpaid" then "past_due" else status
    ensures MapStatus(status).plan == if status == "canceled" || status == "incomplete_expired" then Some("free") else None
  {
  }

  lemma AnswersOnRows(rls: bool, db: Db, d: Delivery)
    ensures DeliveryAnswers(rls, db, Deliver(rls, db, d).1, d.event, d.fetch, d.fault)
  {
    KindsAndIds(d.event);
    hide NeedsSync, IsSubscriptionEvent, CarriedId, Sync;
  }

  lemma SyncOnRows(db: Db, r: Remote, now: int, id: EventId)
    requires Owned(db, r)
    ensures ProcessedRows(db, Sync(db, r, now).(ledger := db.ledger + {id}), id, r, now)
  {
    StatusTable(r.status);
    hide MapStatus;
  }

  lemma DeliverOnRows(rls: bool, db: Db, d: Delivery)
    ensures var (db', o) := Deliver(rls, db, d);
            && DeliveryAnswers(rls, db, o, d.event, d.fetch, d.fault)
            && (o == Processed ==> d.fetch.Some? && ProcessedRows(db, db', d.event.id, d.fetch.value, d.now))
            && (o == Ignored ==> db' == db.(ledger := db.ledger + {d.event.id}))
            && (o == Duplicate || o == Failed ==> db' == db)
  {
    AnswersOnRows(rls, db, d);
    if Deliver(rls, db, d).1 == Processed {
      SyncOnRows(db, d.fetch.value, d.now, d.event.id);
    }
    hide DeliveryAnswers, ProcessedRows, Sync, NeedsSync;
  }

  // ----- The handler, statement by statement -----

  class BillingStore {
    const rls: bool
    var ledger: set<EventId>
    var orgs: map<OrgId, string>
    var byCustomer: map<Customer, OrgId>
    var subs: map<SubId, SubRow>

    function State(): Db
      reads this
    {
      Db(ledger, orgs, byCustomer, subs)
    }

    constructor (rls: bool, db: Db)
      ensures this.rls == rls && State() == db
    {
      this.rls := rls;
      ledger, orgs, byCustomer, subs := db.ledger, db.orgs, db.byCustomer, db.subs;
    }

    // Returns whether the event is new; None is an error.
    method RecordEvent(id: EventId, fault: Fault) returns (recorded: Option<bool>)
      modifies this`ledger
      ensures recorded == if fault != NoFault then None else Some(id !in old(ledger))
      ensures ledger == if recorded == Some(true) then old(ledger) + {id} else old(ledger)
    {
      if fault != NoFault {
        return None;
      }
      if id in ledger {
        return Some(false);
      }
      ledger := ledger + {id};
      return Some(true);
    }

    method SyncSubscription(id: EventId, sub: Remote, now: int, fault: Fault) returns (o: Outcome)
      modifies this`ledger, this`orgs, this`subs
      ensures (State(), o) == SyncTx(rls, old(State()), id, sub, now, fault)
    {
      if fault == BeforeLedger {
        return Failed;
      }
      var mapped := MapStatus(sub.status);
      var ledger0 := ledger; // BEGIN
      if id in ledger {
        return Duplicate;
      }
      ledger := ledger + {id};
      if fault == AfterLedger {
        ledger := ledger0; // ROLLBACK
        return Failed;
      }
      if sub.customer !in byCustomer || byCustomer[sub.customer] !in orgs {
        return Ignored; // COMMIT
      }
      var org := byCustomer[sub.customer];
      var newPlan := orgs[org];
      if mapped.plan.Some? {
        newPlan := mapped.plan.value;
      } else if sub.plan.Some? {
        newPlan := sub.plan.value;
      }
      var periodEnd := None;
      if sub.periodEnd.Some? && sub.periodEnd.value != 0 {
        periodEnd := Some(sub.periodEnd.value * 1000);
      }
      if sub.id !in subs {
        subs := subs[sub.id := SubRow(org, mapped.status, newPlan, periodEnd, now)];
      } else if rls && subs[sub.id].tenant != org {
        ledger := ledger0; // ROLLBACK
        return Failed;
      } else {
        subs := subs[sub.id := subs[sub.id].(status := mapped.status, plan := newPlan, periodEnd := periodEnd, updatedAt := now)];
      }
      orgs := orgs[org := newPlan];
      return Processed; // COMMIT
    }

    method ProcessWebhookEvent(event: StripeEvent, fetch: Option<Remote>, now: int, fault: Fault) returns (o: Outcome)
      modifies this`ledger, this`orgs, this`subs
      ensures (State(), o) == Deliver(rls, old(State()), Delivery(event, fetch, now, fault))
      ensures DeliveryAnswers(rls, old(State()), o, event, fetch, fault)
      ensures o == Processed ==> fetch.Some? && ProcessedRows(old(State()), State(), event.id, fetch.value, now)
      ensures o == Ignored ==> State() == old(State()).(ledger := old(ledger) + {event.id})
      ensures o == Duplicate || o == Failed ==> State() == old(State())
    {
      DeliverOnRows(rls, State(), Delivery(event, fetch, now, fault));
      hide DeliveryAnswers, ProcessedRows;
      var subId := if "customer.subscription." <= event.kind then event.objectId else event.objectSubscription;
      if !Relevant(event.kind) || subId == "" {
        var recorded := RecordEvent(event.id, fault);
        return if recorded.None? then Failed else if recorded.value then Ignored else Duplicate;
      }
      if fetch.None? {
        return Failed; // the error of the gateway is rethrown before anything is recorded
      }
      o := SyncSubscription(event.id, fetch.value, now, fault);
    }
  }
}
