// ensureCustomer of src/billing/billing.service.ts: concurrent calls serialize on the row lock of the
// organization. Each step below is one stretch of a call that no other call can interleave with.

module EnsureCustomer {
  import opened Prelude

  type TenantId = nat
  type Handler = nat
  type Customer = nat

  datatype Org = Org(customer: Option<Customer>, ownerEmail: Option<string>)

  // A call that holds the row lock: before and after it has created a customer at Stripe.
  datatype Phase = Locked(tenant: TenantId) | Created(tenant: TenantId, customer: Customer)

  datatype Outcome =
    | Success(customer: Customer) | NotFound | NoOwner
    | GatewayError(orphan: Option<Customer>) // a call that failed, or timed out, may have created one
    | CommitFailed                           // nothing was created
    | Lost(lost: Customer)                   // a customer was created, but its id was not committed

  // The call created a customer whose id is stored nowhere.
  predicate LeavesOrphan(o: Outcome) {
    o.Lost? || (o.GatewayError? && o.orphan.Some?)
  }

  // How createCustomer ends.
  datatype GatewayReply = Made(customer: Customer) | Error(orphan: Option<Customer>)

  datatype Answer = Answer(tenant: TenantId, outcome: Outcome)

  // stripe: the customers created there, with the tenant in their metadata.
  datatype Sys = Sys(orgs: map<TenantId, Org>, locks: map<TenantId, Handler>, calls: map<Handler, Phase>,
                     stripe: seq<(TenantId, Customer)>, log: seq<Answer>)

  datatype Action =
    | Begin(handler: Handler, tenant: TenantId, commits: bool) // SELECT ... FOR UPDATE
    | Create(handler: Handler, reply: GatewayReply)
    | Store(handler: Handler, commits: bool)
    | AddOrg(tenant: TenantId, ownerEmail: Option<string>)

  function Reply(s: Sys, t: TenantId, o: Outcome): Sys {
    s.(log := s.log + [Answer(t, o)])
  }

  // COMMIT or ROLLBACK releases the row lock.
  function Release(s: Sys, h: Handler): Sys
    requires h in s.calls
  {
    s.(calls := s.calls - {h}, locks := s.locks - {s.calls[h].tenant})
  }

  function Step(s: Sys, a: Action): Sys {
    match a
    case Begin(h, t, commits) =>
      if h in s.calls || t in s.locks then s // the call waits for the lock
      else if t !in s.orgs then Reply(s, t, NotFound)
      else if s.orgs[t].customer.Some? then Reply(s, t, if commits then Success(s.orgs[t].customer.value) else CommitFailed)
      else if s.orgs[t].ownerEmail.None? then Reply(s, t, NoOwner)
      else s.(locks := s.locks[t := h], calls := s.calls[h := Locked(t)])
    case Create(h, reply) =>
      if h !in s.calls || !s.calls[h].Locked? then s
      else
        var t := s.calls[h].tenant;
        if reply.Made? then
          s.(stripe := s.stripe + [(t, reply.customer)], calls := s.calls[h := Created(t, reply.customer)])
        else
          var made := if reply.orphan.Some? then s.(stripe := s.stripe + [(t, reply.orphan.value)]) else s;
          Reply(Release(made, h), t, GatewayError(reply.orphan))
    case Store(h, commits) =>
      if h !in s.calls || !s.calls[h].Created? || s.calls[h].tenant !in s.orgs then s
      else
        var Created(t, c) := s.calls[h];
        if !commits then Reply(Release(s, h), t, Lost(c))
        else
          var org := s.orgs[t];
          var stored := if org.customer.None? then org.(customer := Some(c)) else org;
          Reply(Release(s.(orgs := s.orgs[t := stored]), h), t, Success(c))
    case AddOrg(t, email) =>
      if t in s.orgs then s else s.(orgs := s.orgs[t := Org(None, email)])
  }

  function Run(s: Sys, actions: seq<Action>): Sys
    decreases actions
  {
    if actions == [] then s else Run(Step(s, actions[0]), actions[1..])
  }

  // ----- Counting -----

  function CreatedFor(stripe: seq<(TenantId, Customer)>, t: TenantId): nat {
    if stripe == [] then 0
    else CreatedFor(stripe[..|stripe| - 1], t) + if stripe[|stripe| - 1].0 == t then 1 else 0
  }

  function OrphansFor(log: seq<Answer>, t: TenantId): nat {
    if log == [] then 0
    else OrphansFor(log[..|log| - 1], t) + if log[|log| - 1].tenant == t && LeavesOrphan(log[|log| - 1].outcome) then 1 else 0
  }

  lemma CreatedAppend(stripe: seq<(TenantId, Customer)>, t: TenantId, c: Customer)
    ensures forall u :: CreatedFor(stripe + [(t, c)], u) == CreatedFor(stripe, u) + if u == t then 1 else 0
  {
    assert (stripe + [(t, c)])[..|stripe|] == stripe;
  }

  lemma OrphansAppend(log: seq<Answer>, a: Answer)
    ensures forall u :: OrphansFor(log + [a], u) == OrphansFor(log, u) + if u == a.tenant && LeavesOrphan(a.outcome) then 1 else 0
  {
    assert (log + [a])[..|log|] == log;
  }

  // ----- Invariant -----

  // A call in progress holds the lock of its tenant, and each lock is held by one such call; the
  // locked organization has no customer yet.
  ghost predicate Exclusive(s: Sys) {
    && (forall h :: h in s.calls ==> HoldsLock(s, h))
    && (forall t :: t in s.locks ==> s.locks[t] in s.calls && s.calls[s.locks[t]].tenant == t)
  }

  predicate HoldsLock(s: Sys, h: Handler)
    requires h in s.calls
  {
    var t := s.calls[h].tenant;
    t in s.locks && s.locks[t] == h && t in s.orgs && s.orgs[t].customer.None?
  }

  predicate Stored(s: Sys, t: TenantId) {
    t in s.orgs && s.orgs[t].customer.Some?
  }

  // A customer of t exists at Stripe whose id is still to be committed.
  predicate InFlight(s: Sys, t: TenantId) {
    t in s.locks && s.locks[t] in s.calls && s.calls[s.locks[t]].Created?
  }

  // Every customer created for t is stored, orphaned by a call that failed, or still in flight.
  ghost predicate Accounted(s: Sys) {
    forall t :: AccountedFor(s, t)
  }

  predicate AccountedFor(s: Sys, t: TenantId) {
    CreatedFor(s.stripe, t) == (if Stored(s, t) then 1 else 0) + OrphansFor(s.log, t) + (if InFlight(s, t) then 1 else 0)
  }

  ghost predicate AnswersStored(s: Sys) {
    forall i :: 0 <= i < |s.log| && s.log[i].outcome.Success? ==> IsStored(s, s.log[i].tenant, s.log[i].outcome.customer)
  }

  predicate IsStored(s: Sys, t: TenantId, c: Customer) {
    t in s.orgs && s.orgs[t].customer == Some(c)
  }

  ghost predicate Inv(s: Sys) {
    Exclusive(s) && Accounted(s) && AnswersStored(s)
  }

  // A stored id is never changed.
  lemma StoredStays(s: Sys, a: Action, t: TenantId, c: Customer)
    requires IsStored(s, t, c)
    ensures IsStored(Step(s, a), t, c)
  {
  }

  lemma ReleaseKeepsExclusive(s: Sys, h: Handler)
    requires Exclusive(s) && h in s.calls
    ensures Exclusive(Release(s, h))
  {
    var s' := Release(s, h);
    assert HoldsLock(s, h);
    forall k | k in s'.calls ensures HoldsLock(s', k) {
      assert HoldsLock(s, k);
    }
  }

  lemma BeginKeepsExclusive(s: Sys, a: Action)
    requires Exclusive(s) && (a.Begin? || a.AddOrg?)
    ensures Exclusive(Step(s, a))
  {
    var s' := Step(s, a);
    forall k | k in s'.calls ensures HoldsLock(s', k) {
      assert k in s.calls ==> HoldsLock(s, k);
    }
  }

  lemma CreateKeepsExclusive(s: Sys, a: Action)
    requires Exclusive(s) && a.Create? && a.handler in s.calls && s.calls[a.handler].Locked?
    ensures Exclusive(Step(s, a))
  {
    var s' := Step(s, a);
    ReleaseKeepsExclusive(s, a.handler);
    assert HoldsLock(s, a.handler);
    forall k | k in s'.calls ensures HoldsLock(s', k) {
      assert k in s.calls && HoldsLock(s, k);
      assert a.reply.Error? ==> HoldsLock(Release(s, a.handler), k);
    }
  }

  lemma StoreKeepsExclusive(s: Sys, a: Action)
    requires Exclusive(s) && a.Store? && a.handler in s.calls && s.calls[a.handler].Created?
    ensures Exclusive(Step(s, a))
  {
    var s' := Step(s, a);
    ReleaseKeepsExclusive(s, a.handler);
    assert HoldsLock(s, a.handler);
    forall k | k in s'.calls ensures HoldsLock(s', k) {
      assert HoldsLock(s, k) && HoldsLock(Release(s, a.handler), k);
    }
  }

  lemma StepKeepsExclusive(s: Sys, a: Action)
    requires Exclusive(s)
    ensures Exclusive(Step(s, a))
  {
    match a
    case Create(h, _) =>
      if h in s.calls && s.calls[h].Locked? {
        CreateKeepsExclusive(s, a);
      }
    case Store(h, _) =>
      if h in s.calls && s.calls[h].Created? {
        StoreKeepsExclusive(s, a);
      }
    case _ =>
      BeginKeepsExclusive(s, a);
  }

  lemma ReplyCounts(s: Sys, t: TenantId, o: Outcome, u: TenantId)
    ensures OrphansFor(Reply(s, t, o).log, u) == OrphansFor(s.log, u) + if u == t && LeavesOrphan(o) then 1 else 0
  {
    OrphansAppend(s.log, Answer(t, o));
  }

  lemma CreateAccountsFor(s: Sys, a: Action, t: TenantId)
    requires Exclusive(s) && AccountedFor(s, t) && a.Create? && a.handler in s.calls && s.calls[a.handler].Locked?
    ensures AccountedFor(Step(s, a), t)
  {
    hide CreatedFor, OrphansFor;
    var u := s.calls[a.handler].tenant;
    assert HoldsLock(s, a.handler);
    assert t in s.locks ==> s.locks[t] in s.calls && s.calls[s.locks[t]].tenant == t;
    match a.reply
    case Error(orphan) =>
      var made := if orphan.Some? then s.(stripe := s.stripe + [(u, orphan.value)]) else s;
      if orphan.Some? {
        CreatedAppend(s.stripe, u, orphan.value);
      }
      ReplyCounts(Release(made, a.handler), u, GatewayError(orphan), t);
    case Made(customer) =>
      CreatedAppend(s.stripe, u, customer);
  }

  lemma StoreAccountsFor(s: Sys, a: Action, t: TenantId)
    requires Exclusive(s) && AccountedFor(s, t) && a.Store? && a.handler in s.calls && s.calls[a.handler].Created?
    ensures AccountedFor(Step(s, a), t)
  {
    hide CreatedFor, OrphansFor;
    var Created(u, c) := s.calls[a.handler];
    assert HoldsLock(s, a.handler);
    assert t in s.locks ==> s.locks[t] in s.calls && s.calls[s.locks[t]].tenant == t;
    ReplyCounts(Release(s, a.handler), u, if a.commits then Success(c) else Lost(c), t);
  }

  lemma StepAccountsFor(s: Sys, a: Action, t: TenantId)
    requires Exclusive(s) && AccountedFor(s, t)
    ensures AccountedFor(Step(s, a), t)
  {
    hide CreatedFor, OrphansFor;
    match a
    case Begin(h, u, commits) =>
      assert t in s.locks ==> s.locks[t] in s.calls;
      forall o: Outcome | !LeavesOrphan(o) ensures OrphansFor(Reply(s, u, o).log, t) == OrphansFor(s.log, t) {
        ReplyCounts(s, u, o, t);
      }
    case Create(h, _) =>
      if h in s.calls && s.calls[h].Locked? {
        CreateAccountsFor(s, a, t);
      }
    case Store(h, _) =>
      if h in s.calls && s.calls[h].Created? {
        StoreAccountsFor(s, a, t);
      }
    case AddOrg(_, _) =>
  }

  lemma StepKeepsAccounted(s: Sys, a: Action)
    requires Exclusive(s) && Accounted(s)
    ensures Accounted(Step(s, a))
  {
    hide AccountedFor, Step, Exclusive;
    forall t ensures AccountedFor(Step(s, a), t) {
      assert AccountedFor(s, t);
      StepAccountsFor(s, a, t);
    }
  }

  lemma StepKeepsAnswers(s: Sys, a: Action)
    requires Exclusive(s) && AnswersStored(s)
    ensures AnswersStored(Step(s, a))
  {
    var s' := Step(s, a);
    forall i | 0 <= i < |s'.log| && s'.log[i].outcome.Success?
      ensures IsStored(s', s'.log[i].tenant, s'.log[i].outcome.customer)
    {
      if i < |s.log| {
        assert s'.log[i] == s.log[i];
        StoredStays(s, a, s.log[i].tenant, s.log[i].outcome.customer);
      } else if a.Store? {
        assert HoldsLock(s, a.handler);
      }
    }
  }

  lemma {:induction false} RunKeepsInv(s: Sys, actions: seq<Action>)
    requires Inv(s)
    ensures Inv(Run(s, actions))
    ensures forall t, c :: IsStored(s, t, c) ==> IsStored(Run(s, actions), t, c)
    decreases actions
  {
    if actions != [] {
      StepKeepsExclusive(s, actions[0]);
      StepKeepsAccounted(s, actions[0]);
      StepKeepsAnswers(s, actions[0]);
      forall t, c | IsStored(s, t, c) ensures IsStored(Step(s, actions[0]), t, c) {
        StoredStays(s, actions[0], t, c);
      }
      hide Step, Exclusive, Accounted, AnswersStored, IsStored;
      RunKeepsInv(Step(s, actions[0]), actions[1..]);
    }
  }

  const START := Sys(map[], map[], map[], [], [])

  lemma StartIsGood()
    ensures Inv(START)
  {
  }

  // Of any number of interleaved calls, at most one per tenant is past its read at any time; all that
  // succeed for a tenant return the one id that is stored; and the customers created number at most
  // one more than the calls that created one and then failed, at the gateway or at COMMIT.
  lemma OneCustomerPerTenant(actions: seq<Action>, t: TenantId)
    ensures var s := Run(START, actions);
            && (forall h, k :: h in s.calls && k in s.calls && s.calls[h].tenant == t && s.calls[k].tenant == t ==> h == k)
            && (forall i, c :: 0 <= i < |s.log| && s.log[i] == Answer(t, Success(c)) ==> IsStored(s, t, c))
            && CreatedFor(s.stripe, t) <= 1 + OrphansFor(s.log, t)
            && (t !in s.locks ==> CreatedFor(s.stripe, t) == OrphansFor(s.log, t) + if Stored(s, t) then 1 else 0)
  {
    StartIsGood();
    RunKeepsInv(START, actions);
    var s := Run(START, actions);
    hide Run, CreatedFor, OrphansFor;
    forall h | h in s.calls ensures HoldsLock(s, h) {
    }
    assert AccountedFor(s, t) && !(Stored(s, t) && InFlight(s, t));
  }

  // The id, once stored, is the same in every later state.
  lemma StoredIdNeverChanges(before: seq<Action>, after: seq<Action>, t: TenantId, c: Customer)
    requires IsStored(Run(START, before), t, c)
    ensures IsStored(Run(Run(START, before), after), t, c)
  {
    StartIsGood();
    RunKeepsInv(START, before);
    RunKeepsInv(Run(START, before), after);
  }

  // A call that need not wait ends in success if its gateway and its commit do: with the stored id, or for
  // an organization with somebody to bill with the new one, which is then stored.
  lemma UncontendedSucceeds(s: Sys, h: Handler, t: TenantId, c: Customer)
    requires h !in s.calls && t !in s.locks && t in s.orgs && (s.orgs[t].customer.Some? || s.orgs[t].ownerEmail.Some?)
    ensures var s' := Step(Step(Step(s, Begin(h, t, true)), Create(h, Made(c))), Store(h, true));
            && h !in s'.calls && t !in s'.locks
            && var id := if s.orgs[t].customer.Some? then s.orgs[t].customer.value else c;
               s'.log == s.log + [Answer(t, Success(id))] && IsStored(s', t, id)
  {
    var s1 := Step(s, Begin(h, t, true));
    var s2 := Step(s1, Create(h, Made(c)));
    if s.orgs[t].customer.None? {
      assert s2.calls[h] == Created(t, c) && s2.locks[t] == h && s2.orgs == s.orgs && s2.log == s.log;
    }
  }

  // ----- The call, stretch by stretch -----

  class Billing {
    var orgs: map<TenantId, Org>
    var locks: map<TenantId, Handler>
    var calls: map<Handler, Phase>
    var stripe: seq<(TenantId, Customer)>
    var log: seq<Answer>

    function State(): Sys
      reads this
    {
      Sys(orgs, locks, calls, stripe, log)
    }

    ghost predicate Valid()
      reads this
    {
      Inv(State())
    }

    constructor ()
      ensures Valid() && State() == START
    {
      orgs, locks, calls, stripe, log := map[], map[], map[], [], [];
      new;
      StartIsGood();
    }

    method Finish(h: Handler)
      requires h in calls
      modifies this`locks, this`calls
      ensures State() == Release(old(State()), h)
    {
      locks := locks - {calls[h].tenant};
      calls := calls - {h};
    }

    // BEGIN and the locking read. A call that does not wait is answered: not found without an organization,
    // with the stored customer if there is one, and refused if there is nobody to bill. It goes on, holding
    // the lock, exactly when there is a customer to create. No row changes.
    method LockAndRead(h: Handler, t: TenantId, commits: bool)
      requires Valid()
      modifies this
      ensures Valid() && State() == Step(old(State()), Begin(h, t, commits))
      ensures orgs == old(orgs) && stripe == old(stripe)
      ensures h in old(calls) || t in old(locks) ==> State() == old(State())
      ensures h !in old(calls) && t !in old(locks) ==>
                && (t !in orgs ==> log == old(log) + [Answer(t, NotFound)])
                && (t in orgs && orgs[t].customer.Some? ==>
                      log == old(log) + [Answer(t, if commits then Success(orgs[t].customer.value) else CommitFailed)])
                && (t in orgs && orgs[t].customer.None? && orgs[t].ownerEmail.None? ==> log == old(log) + [Answer(t, NoOwner)])
                && (t in orgs && orgs[t].customer.None? && orgs[t].ownerEmail.Some? <==> h in calls)
                && (h in calls ==> calls[h] == Locked(t) && t in locks && locks[t] == h && log == old(log))
    {
      RunKeepsInv(State(), [Begin(h, t, commits)]);
      if h in calls || t in locks {
        return;
      }
      if t !in orgs {
        log := log + [Answer(t, NotFound)];
        return;
      }
      var row := orgs[t];
      if row.customer.Some? {
        log := log + [Answer(t, if commits then Success(row.customer.value) else CommitFailed)];
        return;
      }
      if row.ownerEmail.None? {
        log := log + [Answer(t, NoOwner)];
        return;
      }
      locks := locks[t := h];
      calls := calls[h := Locked(t)];
    }

    // An error of the gateway releases the lock and stores nothing, whether or not it made a customer.
    method CreateCustomer(h: Handler, reply: GatewayReply)
      requires Valid() && h in calls && calls[h].Locked?
      modifies this
      ensures Valid() && State() == Step(old(State()), Create(h, reply))
      ensures orgs == old(orgs)
      ensures reply.Error? ==> h !in calls && old(calls[h]).tenant !in locks
    {
      RunKeepsInv(State(), [Create(h, reply)]);
      var t := calls[h].tenant;
      match reply {
        case Error(orphan) =>
          if orphan.Some? {
            stripe := stripe + [(t, orphan.value)];
          }
          Finish(h);
          log := log + [Answer(t, GatewayError(orphan))];
        case Made(customer) =>
          stripe := stripe + [(t, customer)];
          calls := calls[h := Created(t, customer)];
      }
    }

    // The defensive "only if still unset" of the update never bites: the id returned is the one stored.
    method StoreCustomer(h: Handler, commits: bool)
      requires Valid() && h in calls && calls[h].Created?
      modifies this
      ensures Valid() && State() == Step(old(State()), Store(h, commits))
      ensures commits ==> IsStored(State(), old(calls[h]).tenant, old(calls[h]).customer)
    {
      RunKeepsInv(State(), [Store(h, commits)]);
      assert HoldsLock(State(), h);
      var Created(t, c) := calls[h];
      var before := orgs;
      if orgs[t].customer.None? {
        orgs := orgs[t := orgs[t].(customer := Some(c))];
      }
      Finish(h);
      if commits {
        log := log + [Answer(t, Success(c))];
      } else {
        orgs := before;
        log := log + [Answer(t, Lost(c))];
      }
    }
  }
}
