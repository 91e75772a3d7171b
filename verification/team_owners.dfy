// Every tenant keeps an owner: what the last-owner guard of changeRole (src/team/team.service.ts)
// achieves, for calls one at a time, for overlapping calls, and without row security.

module TeamOwners {
  import opened Team

  predicate Owns(db: Db, u: UserId, t: TenantId) {
    u in db.users && db.users[u].tenant == t && db.users[u].role == Owner
  }

  ghost predicate HasOwner(db: Db, t: TenantId) {
    exists u :: Owns(db, u, t)
  }

  ghost predicate Owned(db: Db) {
    forall t :: t in db.orgs ==> HasOwner(db, t)
  }

  // Does some owner of t remain if `target` stops being one?
  ghost predicate AnotherOwner(db: Db, t: TenantId, target: UserId) {
    exists u :: u != target && Owns(db, u, t)
  }

  predicate Changing(p: Phase) {
    p.Guarding? || p.Writing?
  }

  // A change past its guard will leave its tenant an owner.
  ghost predicate Safe(db: Db, p: Phase) {
    Changing(p) ==>
      && p.target in db.users && db.users[p.target].tenant == p.tenant
      && (p.Writing? ==> p.newRole == Owner || db.users[p.target].role != Owner || AnotherOwner(db, p.tenant, p.target))
  }

  ghost predicate AllSafe(s: Sys) {
    forall h :: h in s.calls ==> Safe(s.db, s.calls[h])
  }

  predicate SameTenantChange(p: Phase, q: Phase) {
    Changing(p) && Changing(q) && p.tenant == q.tenant
  }

  // No two changes of roles in one tenant are in progress.
  ghost predicate OneChangePerTenant(s: Sys) {
    forall h, k :: h in s.calls && k in s.calls && SameTenantChange(s.calls[h], s.calls[k]) ==> h == k
  }

  ghost predicate Guarded(s: Sys) {
    Owned(s.db) && AllSafe(s) && OneChangePerTenant(s) && TenantsKnown(s.db) && Offers(s)
  }

  // The step does not start a change in a tenant where another is in progress.
  ghost predicate Orderly(s: Sys, a: Action) {
    a.ReadTarget? ==> forall h :: h in s.calls && Changing(s.calls[h]) ==> s.calls[h].tenant != a.tenant
  }

  ghost predicate OrderlyRun(rls: bool, s: Sys, actions: seq<Action>)
    decreases actions
  {
    actions == [] || (Orderly(s, actions[0]) && OrderlyRun(rls, Step(rls, s, actions[0]), actions[1..]))
  }

  // The guard lets a demotion pass only if it saw an owner besides the target.
  lemma TwoOwners(db: Db, t: TenantId, target: UserId)
    requires |OwnersSeen(db, true, t)| > 1
    ensures AnotherOwner(db, t, target)
  {
    var owners := OwnersSeen(db, true, t);
    if forall u :: u in owners ==> u == target {
      assert owners <= {target};
      CardinalityBound(owners, target);
      assert false;
    }
    var u :| u in owners && u != target;
    assert Owns(db, u, t);
  }

  lemma CardinalityBound(us: set<UserId>, u: UserId)
    requires us <= {u}
    ensures |us| <= 1
  {
    if us != {} {
      assert us == {u};
    }
  }

  // The converse: a demotion the guard refuses would have left no owner.
  lemma SoleOwner(db: Db, t: TenantId, target: UserId)
    requires Owns(db, target, t) && |OwnersSeen(db, true, t)| <= 1
    ensures !AnotherOwner(db, t, target)
  {
    var owners := OwnersSeen(db, true, t);
    assert |owners - {target}| == 0;
    forall u | Owns(db, u, t) ensures u == target {
      assert u in owners - {target} || u == target;
    }
  }

  // Exactly when an update of a role leaves every tenant an owner: whatever has happened since the
  // guard, and with or without row security.
  lemma WriteKeepsOwnedIff(rls: bool, s: Sys, h: Handler)
    requires Owned(s.db) && TenantsKnown(s.db) && h in s.calls && s.calls[h].Writing? && s.calls[h].target in s.db.users
    ensures var Writing(_, target, newRole) := s.calls[h];
            Owned(Step(rls, s, WriteRole(h, true)).db)
            <==> newRole == Owner || s.db.users[target].role != Owner || AnotherOwner(s.db, s.db.users[target].tenant, target)
  {
    var Writing(_, target, newRole) := s.calls[h];
    var s' := Step(rls, s, WriteRole(h, true));
    var home := s.db.users[target].tenant;
    assert forall u, t :: u != target ==> (Owns(s'.db, u, t) <==> Owns(s.db, u, t));
    if newRole == Owner || s.db.users[target].role != Owner || AnotherOwner(s.db, home, target) {
      forall t | t in s'.db.orgs ensures HasOwner(s'.db, t) {
        assert HasOwner(s.db, t);
        var u :| Owns(s.db, u, t) && (t == home && AnotherOwner(s.db, home, target) ==> u != target);
        assert u != target || newRole == Owner ==> Owns(s'.db, u, t);
      }
    } else {
      assert home in s'.db.orgs && !HasOwner(s'.db, home);
    }
  }

  // ----- Overlapping calls, at most one change per tenant at a time -----

  // Only an update of a role can take an owner from a tenant, and only from its own.
  lemma StepKeepsOwns(s: Sys, a: Action, u: UserId, t: TenantId)
    requires AllSafe(s) && Owns(s.db, u, t)
    requires a.WriteRole? && a.handler in s.calls && s.calls[a.handler].Writing? ==> s.calls[a.handler].tenant != t
    ensures Owns(Step(true, s, a).db, u, t)
  {
    hide OwnersSeen, EmailTaken;
    assert a.WriteRole? && a.handler in s.calls ==> Safe(s.db, s.calls[a.handler]);
  }

  lemma StepKeepsOwned(s: Sys, a: Action)
    requires Guarded(s)
    ensures Owned(Step(true, s, a).db)
  {
    hide OwnersSeen, EmailTaken, OneChangePerTenant, Offers;
    var s' := Step(true, s, a);
    if a.WriteRole? && a.handler in s.calls && s.calls[a.handler].Writing? {
      assert Safe(s.db, s.calls[a.handler]);
      if a.commits {
        WriteKeepsOwnedIff(true, s, a.handler);
      } else {
        assert s'.db == s.db;
      }
    } else {
      forall t | t in s'.db.orgs ensures HasOwner(s'.db, t) {
        if t in s.db.orgs {
          var u :| Owns(s.db, u, t);
          StepKeepsOwns(s, a, u, t);
        } else {
          assert Owns(s'.db, a.user, t);
        }
      }
    }
  }

  // A change that another call's step leaves alone stays safe.
  lemma StepKeepsSafe(s: Sys, a: Action, p: Phase)
    requires Guarded(s) && Safe(s.db, p)
    requires a.WriteRole? && a.handler in s.calls ==> !SameTenantChange(s.calls[a.handler], p)
    ensures Safe(Step(true, s, a).db, p)
  {
    hide OwnersSeen, EmailTaken, Owned, OneChangePerTenant;
    var s' := Step(true, s, a);
    if Changing(p) {
      assert a.WriteRole? && a.handler in s.calls ==> Safe(s.db, s.calls[a.handler]);
      assert s'.db.users[p.target] == s.db.users[p.target];
      if AnotherOwner(s.db, p.tenant, p.target) {
        var u :| u != p.target && Owns(s.db, u, p.tenant);
        StepKeepsOwns(s, a, u, p.tenant);
      }
    }
  }

  lemma CountKeepsAllSafe(s: Sys, h: Handler)
    requires AllSafe(s)
    ensures AllSafe(Step(true, s, CountOwners(h)))
  {
    hide OwnersSeen;
    if h in s.calls && s.calls[h].Guarding? && |OwnersSeen(s.db, true, s.calls[h].tenant)| > 1 {
      assert Safe(s.db, s.calls[h]);
      TwoOwners(s.db, s.calls[h].tenant, s.calls[h].target);
    }
  }

  lemma StepKeepsAllSafe(s: Sys, a: Action)
    requires Guarded(s)
    ensures AllSafe(Step(true, s, a))
  {
    hide OwnersSeen, EmailTaken, Owned, HasOwner, AnotherOwner, TenantsKnown, Offers;
    var s' := Step(true, s, a);
    if a.CountOwners? {
      CountKeepsAllSafe(s, a.handler);
    } else if s' != s {
      forall h | h in s'.calls ensures Safe(s'.db, s'.calls[h]) {
        if h in s.calls {
          assert Safe(s.db, s.calls[h]);
          assert a.WriteRole? ==> a.handler in s.calls && a.handler != h;
          StepKeepsSafe(s, a, s.calls[h]);
        }
      }
    }
  }

  lemma StepKeepsOneChange(s: Sys, a: Action)
    requires OneChangePerTenant(s) && Orderly(s, a)
    ensures OneChangePerTenant(Step(true, s, a))
  {
    hide OwnersSeen, EmailTaken;
  }

  lemma StepKeepsGuarded(s: Sys, a: Action)
    requires Guarded(s) && Orderly(s, a)
    ensures Guarded(Step(true, s, a))
  {
    hide Step, Owned, AllSafe, OneChangePerTenant, TenantsKnown, Offers;
    StepKeepsOwned(s, a);
    StepKeepsAllSafe(s, a);
    StepKeepsOneChange(s, a);
    StepKeepsTenants(true, s, a);
    StepKeepsOffers(true, s, a);
  }

  // Whatever else overlaps (signups, invitations, accepts, changes in other tenants), every tenant has
  // an owner in every state of a run in which two changes of roles in one tenant never overlap.
  lemma {:induction false} EveryTenantKeepsAnOwner(s: Sys, actions: seq<Action>)
    requires Guarded(s) && OrderlyRun(true, s, actions)
    ensures Guarded(Run(true, s, actions))
    decreases actions
  {
    if actions != [] {
      StepKeepsGuarded(s, actions[0]);
      hide Guarded, Orderly;
      EveryTenantKeepsAnOwner(Step(true, s, actions[0]), actions[1..]);
    }
  }

  // ----- One call at a time -----

  type OneStep = a: Action | a.SignUp? || a.Invite? witness Invite(0, Member, 0, "", Member, 0, false)

  datatype Request =
    | Plain(action: OneStep)
    | AcceptInvitation(handler: Handler, hash: Hash, readAt: int, user: UserId, now: int, commits: bool)
    | ChangeRole(handler: Handler, tenant: TenantId, actorRole: Role, target: UserId, newRole: Role, commits: bool)

  function Serve(rls: bool, s: Sys, r: Request): Sys {
    match r
    case Plain(a) => Step(rls, s, a)
    case AcceptInvitation(h, hash, readAt, user, now, commits) =>
      Step(rls, Step(rls, s, LookUp(h, hash, readAt)), Accept(h, user, now, commits))
    case ChangeRole(h, tenant, actorRole, target, newRole, commits) =>
      Step(rls, Step(rls, Step(rls, s, ReadTarget(h, tenant, actorRole, target, newRole)), CountOwners(h)), WriteRole(h, commits))
  }

  function ServeAll(rls: bool, s: Sys, rs: seq<Request>): Sys
    decreases rs
  {
    if rs == [] then s else ServeAll(rls, Serve(rls, s, rs[0]), rs[1..])
  }

  predicate Quiet(s: Sys) {
    s.calls == map[]
  }

  lemma ServeKeepsGuarded(s: Sys, r: Request)
    requires Guarded(s) && Quiet(s)
    ensures Guarded(Serve(true, s, r)) && Quiet(Serve(true, s, r))
  {
    hide Guarded, OwnersSeen, EmailTaken;
    match r
    case Plain(a) =>
      StepKeepsGuarded(s, a);
    case AcceptInvitation(h, hash, readAt, user, now, commits) =>
      StepKeepsGuarded(s, LookUp(h, hash, readAt));
      StepKeepsGuarded(Step(true, s, LookUp(h, hash, readAt)), Accept(h, user, now, commits));
    case ChangeRole(h, tenant, actorRole, target, newRole, commits) =>
      var s1 := Step(true, s, ReadTarget(h, tenant, actorRole, target, newRole));
      StepKeepsGuarded(s, ReadTarget(h, tenant, actorRole, target, newRole));
      StepKeepsGuarded(s1, CountOwners(h));
      StepKeepsGuarded(Step(true, s1, CountOwners(h)), WriteRole(h, commits));
  }

  lemma {:induction false} SerialRunsKeepOwners(s: Sys, rs: seq<Request>)
    requires Guarded(s) && Quiet(s)
    ensures Owned(ServeAll(true, s, rs).db) && Quiet(ServeAll(true, s, rs))
    decreases rs
  {
    if rs != [] {
      ServeKeepsGuarded(s, rs[0]);
      hide Serve;
      SerialRunsKeepOwners(Serve(true, s, rs[0]), rs[1..]);
    }
  }

  // A demotion alone is refused exactly when it would take the last owner.
  lemma GuardIsExact(s: Sys, r: Request)
    requires Quiet(s) && r.ChangeRole? && Rank(r.actorRole) >= Rank(Admin) && r.commits
    requires Owns(s.db, r.target, r.tenant) && r.newRole != Owner
    ensures var s' := Serve(true, s, r);
            && s'.log == s.log + [if AnotherOwner(s.db, r.tenant, r.target) then RoleChanged(r.target) else Conflict]
            && (!AnotherOwner(s.db, r.tenant, r.target) ==> s'.db == s.db)
            && (AnotherOwner(s.db, r.tenant, r.target) ==> s'.db.users == s.db.users[r.target := s.db.users[r.target].(role := r.newRole)])
  {
    if |OwnersSeen(s.db, true, r.tenant)| > 1 {
      TwoOwners(s.db, r.tenant, r.target);
    } else {
      SoleOwner(s.db, r.tenant, r.target);
    }
  }

  // ----- Where it ends -----

  // Without row security the guard counts the owners of every tenant, so a demotion keeps every tenant
  // owned exactly when another owner is left in the target's tenant, or the target is the only owner anywhere.
  lemma UnfilteredGuardKeepsOwnersIff(s: Sys, r: Request)
    requires Owned(s.db) && TenantsKnown(s.db) && Quiet(s)
    requires r.ChangeRole? && Rank(r.actorRole) >= Rank(Admin) && r.commits
    requires r.target in s.db.users && s.db.users[r.target].role == Owner && r.newRole != Owner
    ensures Owned(Serve(false, s, r).db)
            <==> AnotherOwner(s.db, s.db.users[r.target].tenant, r.target) || |OwnersSeen(s.db, false, r.tenant)| <= 1
  {
    var s1 := Step(false, s, ReadTarget(r.handler, r.tenant, r.actorRole, r.target, r.newRole));
    assert s1.db == s.db && s1.calls == map[r.handler := Guarding(r.tenant, r.target, r.newRole)];
    var s2 := Step(false, s1, CountOwners(r.handler));
    if |OwnersSeen(s.db, false, r.tenant)| > 1 {
      assert s2.db == s.db && s2.calls == map[r.handler := Writing(r.tenant, r.target, r.newRole)];
      WriteKeepsOwnedIff(false, s2, r.handler);
    }
  }

  // Two tenants with one owner each: the guard of a demotion in the first counts both, lets it pass, and
  // leaves the first tenant without an owner.
  lemma UnfilteredDemotion()
    ensures var s := Sys(Db(map[1 := "acme", 2 := "other"], map[1 := User(1, "ann@acme", Owner), 2 := User(2, "bob@other", Owner)], map[]), map[], []);
            var s' := Serve(false, s, ChangeRole(1, 1, Owner, 1, Member, true));
            Owned(s.db) && s'.log == [RoleChanged(1)] && !HasOwner(s'.db, 1)
  {
    var s := Sys(Db(map[1 := "acme", 2 := "other"], map[1 := User(1, "ann@acme", Owner), 2 := User(2, "bob@other", Owner)], map[]), map[], []);
    assert Owns(s.db, 1, 1) && Owns(s.db, 2, 2);
    assert OwnersSeen(s.db, false, 1) == {1, 2};
    var s1 := Step(false, s, ReadTarget(1, 1, Owner, 1, Member));
    assert s1 == s.(calls := map[1 := Guarding(1, 1, Member)]);
    var s2 := Step(false, s1, CountOwners(1));
    assert s2 == s.(calls := map[1 := Writing(1, 1, Member)]);
  }

  // A role update commits that demotes the only owner of the target's tenant.
  ghost predicate Bereaves(s: Sys, a: Action) {
    && a.WriteRole? && a.commits && a.handler in s.calls && s.calls[a.handler].Writing? && s.calls[a.handler].target in s.db.users
    && var Writing(_, target, newRole) := s.calls[a.handler];
       newRole != Owner && s.db.users[target].role == Owner && !AnotherOwner(s.db, s.db.users[target].tenant, target)
  }

  lemma OthersKeepOwned(rls: bool, s: Sys, a: Action)
    requires Owned(s.db)
    requires !(a.WriteRole? && a.commits && a.handler in s.calls && s.calls[a.handler].Writing? && s.calls[a.handler].target in s.db.users)
    ensures Owned(Step(rls, s, a).db)
  {
    hide OwnersSeen, EmailTaken;
    var s' := Step(rls, s, a);
    assert forall u :: u in s.db.users ==> u in s'.db.users && s'.db.users[u] == s.db.users[u];
    forall t | t in s'.db.orgs ensures HasOwner(s'.db, t) {
      if t in s.db.orgs {
        var u :| Owns(s.db, u, t);
        assert Owns(s'.db, u, t);
      } else {
        assert Owns(s'.db, a.user, t);
      }
    }
  }

  ghost predicate OwnedThroughout(rls: bool, s: Sys, actions: seq<Action>)
    decreases actions
  {
    Owned(s.db) && (actions == [] || OwnedThroughout(rls, Step(rls, s, actions[0]), actions[1..]))
  }

  ghost predicate BereavesNone(rls: bool, s: Sys, actions: seq<Action>)
    decreases actions
  {
    actions == [] || (!Bereaves(s, actions[0]) && BereavesNone(rls, Step(rls, s, actions[0]), actions[1..]))
  }

  // With or without row security, however calls overlap: every tenant has an owner in every state of a
  // run exactly when each role update that commits finds another owner left in its target's tenant.
  lemma {:induction false} OwnedThroughoutIff(rls: bool, s: Sys, actions: seq<Action>)
    requires Owned(s.db) && TenantsKnown(s.db) && Offers(s)
    ensures OwnedThroughout(rls, s, actions) <==> BereavesNone(rls, s, actions)
    decreases actions
  {
    if actions != [] {
      StepKeepsOwnedIff(rls, s, actions[0]);
      StepKeepsTenants(rls, s, actions[0]);
      StepKeepsOffers(rls, s, actions[0]);
      hide Step, Owned, Bereaves, TenantsKnown, Offers;
      if !Bereaves(s, actions[0]) {
        OwnedThroughoutIff(rls, Step(rls, s, actions[0]), actions[1..]);
      } else {
        assert !OwnedThroughout(rls, Step(rls, s, actions[0]), actions[1..]);
      }
    }
  }

  lemma StepKeepsOwnedIff(rls: bool, s: Sys, a: Action)
    requires Owned(s.db) && TenantsKnown(s.db)
    ensures Owned(Step(rls, s, a).db) <==> !Bereaves(s, a)
  {
    if a.WriteRole? && a.commits && a.handler in s.calls && s.calls[a.handler].Writing? && s.calls[a.handler].target in s.db.users {
      assert a == WriteRole(a.handler, true);
      WriteKeepsOwnedIff(rls, s, a.handler);
    } else {
      OthersKeepOwned(rls, s, a);
    }
  }

  // From the empty database: every state of a serial run under row security has its owners.
  lemma ReachableTenantsOwned(rs: seq<Request>)
    ensures Owned(ServeAll(true, START, rs).db)
  {
    assert Guarded(START) && Quiet(START);
    SerialRunsKeepOwners(START, rs);
  }

  predicate ChangesForeigner(db: Db, db': Db, t: TenantId) {
    exists u :: u in db.users && u in db'.users && db.users[u].tenant != t && db'.users[u] != db.users[u]
  }

  // Exactly when a change of role, alone, changes a user of a tenant other than the actor's: never under
  // row security; without it whenever an admin names one, unless the guard refuses.
  lemma ChangesForeignerIff(rls: bool, s: Sys, r: Request)
    requires Quiet(s) && r.ChangeRole?
    ensures ChangesForeigner(s.db, Serve(rls, s, r).db, r.tenant)
            <==> && !rls && Rank(r.actorRole) >= Rank(Admin) && r.commits
                 && r.target in s.db.users && s.db.users[r.target].tenant != r.tenant && s.db.users[r.target].role != r.newRole
                 && (s.db.users[r.target].role == Owner ==> |OwnersSeen(s.db, rls, r.tenant)| > 1)
  {
    var s' := Serve(rls, s, r);
    hide OwnersSeen, EmailTaken;
    assert s'.db == s.db || s'.db.users == s.db.users[r.target := s.db.users[r.target].(role := r.newRole)];
    if s'.db != s.db && s.db.users[r.target].tenant != r.tenant && s.db.users[r.target].role != r.newRole {
      assert s'.db.users[r.target] != s.db.users[r.target];
    }
  }

  const TWO_OWNERS := Sys(Db(map[1 := "acme"], map[1 := User(1, "ann@acme", Owner), 2 := User(1, "bob@acme", Owner)], map[]), map[], [])

  const MUTUAL_DEMOTION := [
    ReadTarget(1, 1, Owner, 2, Member), ReadTarget(2, 1, Owner, 1, Member), CountOwners(1), CountOwners(2), WriteRole(1, true), WriteRole(2, true)]

  // Two owners who demote each other at the same time both pass the guard: with overlapping changes of
  // one tenant the rule fails, even under row security.
  lemma MutualDemotion()
    ensures Owned(TWO_OWNERS.db) && !HasOwner(Run(true, TWO_OWNERS, MUTUAL_DEMOTION).db, 1)
  {
    var db := TWO_OWNERS.db;
    assert Owns(db, 1, 1);
    assert OwnersSeen(db, true, 1) == {1, 2};
    var s2 := TWO_OWNERS.(calls := map[1 := Guarding(1, 2, Member), 2 := Guarding(1, 1, Member)]);
    var s4 := TWO_OWNERS.(calls := map[1 := Writing(1, 2, Member), 2 := Writing(1, 1, Member)]);
    assert Step(true, Step(true, TWO_OWNERS, MUTUAL_DEMOTION[0]), MUTUAL_DEMOTION[1]) == s2;
    assert Step(true, Step(true, s2, CountOwners(1)), CountOwners(2)) == s4;
    hide OwnersSeen, EmailTaken;
    var s6 := Step(true, Step(true, s4, WriteRole(1, true)), WriteRole(2, true));
    assert s6.db.users == map[1 := User(1, "ann@acme", Member), 2 := User(1, "bob@acme", Member)];
    RunSix();
  }

  lemma RunSix()
    ensures var m := MUTUAL_DEMOTION;
            Run(true, TWO_OWNERS, m)
            == Step(true, Step(true, Step(true, Step(true, Step(true, Step(true, TWO_OWNERS, m[0]), m[1]), m[2]), m[3]), m[4]), m[5])
  {
    hide Step;
    var m := MUTUAL_DEMOTION;
    var s3 := Step(true, Step(true, Step(true, TWO_OWNERS, m[0]), m[1]), m[2]);
    assert m[1..][1..] == m[2..] && m[2..][1..] == m[3..] && m[3..][1..] == m[4..] && m[4..][1..] == m[5..] && m[5..][1..] == [];
    assert Run(true, TWO_OWNERS, m) == Run(true, Step(true, TWO_OWNERS, m[0]), m[1..]);
    assert Run(true, TWO_OWNERS, m) == Run(true, s3, m[3..]);
    assert Run(true, s3, m[3..]) == Run(true, Step(true, s3, m[3]), m[4..]);
  }
}
