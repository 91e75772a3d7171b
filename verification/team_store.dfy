// Signup and the team handlers statement by statement on a store they update in place, proved against
// the steps of the Team module.

module TeamStore {
  import opened Prelude
  import opened Team

  class Store {
    const rls: bool
    var orgs: map<TenantId, string>
    var users: map<UserId, User>
    var invitations: map<Hash, Invitation>
    var calls: map<Handler, Phase>
    var log: seq<Reply>

    function State(): Sys
      reads this
    {
      Sys(Db(orgs, users, invitations), calls, log)
    }

    constructor (rls: bool)
      ensures this.rls == rls && State() == START
    {
      this.rls := rls;
      orgs, users, invitations, calls, log := map[], map[], map[], map[], [];
    }

    // INSERT INTO users, false on a violation of the primary key or of the address index.
    method InsertUser(id: UserId, user: User) returns (inserted: bool)
      modifies this`users
      ensures inserted <==> id !in old(users) && !EmailTaken(old(State()).db, user.tenant, user.email)
      ensures users == if inserted then old(users)[id := user] else old(users)
    {
      inserted := id !in users && !EmailTaken(State().db, user.tenant, user.email);
      if inserted {
        users := users[id := user];
      }
    }

    // Organization and owner appear together, or neither does.
    method ProvisionTenant(org: TenantId, slug: string, user: UserId, email: string, commits: bool) returns (r: Reply)
      modifies this`orgs, this`users, this`log
      ensures State() == Step(rls, old(State()), SignUp(org, slug, user, email, commits))
      ensures log == old(log) + [r]
      ensures if r == SignedUp(org, user)
              then orgs == old(orgs)[org := slug] && users == old(users)[user := User(org, email, Owner)]
              else orgs == old(orgs) && users == old(users)
    {
      var orgs0, users0 := orgs, users;
      r := Conflict;
      if slug !in orgs.Values && org !in orgs {
        orgs := orgs[org := slug];
        var inserted := InsertUser(user, User(org, email, Owner));
        if inserted {
          r := if commits then SignedUp(org, user) else Failed;
        }
      }
      if r != SignedUp(org, user) {
        orgs, users := orgs0, users0;
      }
      log := log + [r];
    }

    // Below admin nothing is stored; otherwise at most one open invitation is added, and none replaced.
    method CreateInvitation(tenant: TenantId, actorRole: Role, hash: Hash, email: string, role: Role, expiresAt: int, commits: bool)
      modifies this`invitations, this`log
      ensures State() == Step(rls, old(State()), Invite(tenant, actorRole, hash, email, role, expiresAt, commits))
      ensures actorRole == Member ==> invitations == old(invitations) && log == old(log) + [Forbidden]
      ensures forall i :: i in old(invitations) ==> i in invitations && invitations[i] == old(invitations)[i]
      ensures forall i :: i in invitations && i !in old(invitations) ==>
                i == hash && actorRole != Member && commits && tenant in orgs && invitations[i] == Invitation(tenant, email, role, None, expiresAt)
      ensures |log| == |old(log)| + 1 && (log[|old(log)|] == Invited(hash) <==> hash in invitations && hash !in old(invitations))
    {
      if Rank(actorRole) < Rank(Admin) {
        log := log + [Forbidden];
        return;
      }
      if tenant !in orgs || hash in invitations {
        log := log + [Failed];
        return;
      }
      var begin := invitations;
      invitations := invitations[hash := Invitation(tenant, email, role, None, expiresAt)];
      if !commits {
        invitations := begin;
      }
      log := log + [if commits then Invited(hash) else Failed];
    }

    // The call goes on exactly with an invitation that is not consumed and not expired; it reads, and
    // changes no row.
    method LookUpInvitation(h: Handler, hash: Hash, now: int)
      requires h !in calls
      modifies this`calls, this`log
      ensures State() == Step(rls, old(State()), LookUp(h, hash, now))
      ensures h in calls <==> hash in invitations && invitations[hash].consumedAt.None? && now < invitations[hash].expiresAt
      ensures h in calls ==> calls[h] == Accepting(hash, invitations[hash]) && log == old(log)
      ensures h !in calls ==> log == old(log) + [Gone]
    {
      if hash !in invitations || invitations[hash].consumedAt.Some? || invitations[hash].expiresAt <= now {
        log := log + [Gone];
        return;
      }
      calls := calls[h := Accepting(hash, invitations[hash])];
    }

    // The transaction of an accept: the user, then the mark on the invitation, or neither.
    method AcceptInvitation(h: Handler, user: UserId, now: int, commits: bool)
      requires Offers(State()) && h in calls && calls[h].Accepting?
      modifies this`users, this`invitations, this`calls, this`log
      ensures State() == Step(rls, old(State()), Accept(h, user, now, commits))
      ensures var Accepting(hash, row) := old(calls[h]);
              if commits && user !in old(users) && !EmailTaken(old(State()).db, row.tenant, row.email)
              then users == old(users)[user := User(row.tenant, row.email, row.role)]
                   && invitations[hash] == old(invitations)[hash].(consumedAt := Some(now))
              else users == old(users) && invitations == old(invitations)
    {
      var Accepting(hash, row) := calls[h];
      assert Offered(State().db, hash, row);
      var users0, invitations0 := users, invitations;
      var done := InsertUser(user, User(row.tenant, row.email, row.role));
      if done {
        invitations := invitations[hash := invitations[hash].(consumedAt := Some(now))];
        if !commits {
          users, invitations := users0, invitations0;
          done := false;
        }
      }
      calls := calls - {h};
      log := log + [if done then Accepted(hash, user) else Failed];
    }

    // Members are refused, and so are targets that the transaction does not see; the call goes on to the
    // guard exactly when it would demote an owner.
    method ReadRole(h: Handler, tenant: TenantId, actorRole: Role, target: UserId, newRole: Role)
      requires h !in calls
      modifies this`calls, this`log
      ensures State() == Step(rls, old(State()), ReadTarget(h, tenant, actorRole, target, newRole))
      ensures h in calls <==> actorRole != Member && target in users && (rls ==> users[target].tenant == tenant)
      ensures h in calls ==> Changes(calls[h], tenant, target, newRole) && (calls[h].Guarding? <==> users[target].role == Owner && newRole != Owner)
      ensures h !in calls ==> log == old(log) + [if actorRole == Member then Forbidden else NotFound]
    {
      if Rank(actorRole) < Rank(Admin) {
        log := log + [Forbidden];
        return;
      }
      if target !in users || !Reaches(rls, tenant, users[target].tenant) {
        log := log + [NotFound];
        return;
      }
      if users[target].role == Owner && newRole != Owner {
        calls := calls[h := Guarding(tenant, target, newRole)];
      } else {
        calls := calls[h := Writing(tenant, target, newRole)];
      }
    }

    // SELECT count(*) FROM users WHERE role = 'owner'
    method CountOwnersSeen(tenant: TenantId) returns (n: nat)
      ensures n == |OwnersSeen(State().db, rls, tenant)|
    {
      n := 0;
      var left := users.Keys;
      ghost var counted: set<UserId> := {};
      while left != {}
        invariant left <= users.Keys && n == |counted|
        invariant forall u :: u in counted <==> u in OwnersSeen(State().db, rls, tenant) && u !in left
        decreases |left|
      {
        var u :| u in left;
        left := left - {u};
        if users[u].role == Owner && (!rls || users[u].tenant == tenant) {
          counted := counted + {u};
          n := n + 1;
        }
      }
      assert counted == OwnersSeen(State().db, rls, tenant);
    }

    // The demotion goes on exactly when the transaction sees two owners; otherwise it is a conflict, and in
    // neither case does a user change.
    method GuardLastOwner(h: Handler)
      requires h in calls && calls[h].Guarding?
      modifies this`calls, this`log
      ensures State() == Step(rls, old(State()), CountOwners(h))
      ensures var tenant := old(calls[h]).tenant;
              h in calls <==> exists u, v :: u != v && SeesOwner(users, rls, tenant, u) && SeesOwner(users, rls, tenant, v)
      ensures h !in calls ==> log == old(log) + [Conflict]
    {
      var Guarding(tenant, target, newRole) := calls[h];
      var n := CountOwnersSeen(tenant);
      TwoSeen(OwnersSeen(State().db, rls, tenant));
      assert forall u :: u in OwnersSeen(State().db, rls, tenant) <==> SeesOwner(users, rls, tenant, u);
      if n <= 1 {
        calls := calls - {h};
        log := log + [Conflict];
        return;
      }
      calls := calls[h := Writing(tenant, target, newRole)];
    }

    // The target's role changes, and nothing else of anyone's row; a transaction that fails changes nothing.
    method UpdateRole(h: Handler, commits: bool)
      requires h in calls && calls[h].Writing?
      modifies this`users, this`calls, this`log
      ensures State() == Step(rls, old(State()), WriteRole(h, commits))
      ensures users.Keys == old(users).Keys && h !in calls
      ensures forall u :: u in users ==> users[u].tenant == old(users)[u].tenant && users[u].email == old(users)[u].email
      ensures forall u :: u in users ==>
                users[u].role == if commits && u == old(calls[h]).target then old(calls[h]).newRole else old(users)[u].role
    {
      var Writing(_, target, newRole) := calls[h];
      var users0 := users;
      var done := commits && target in users;
      if target in users {
        users := users[target := users[target].(role := newRole)];
      }
      if !done {
        users := users0;
      }
      calls := calls - {h};
      log := log + [if done then RoleChanged(target) else Failed];
    }
  }

  predicate SeesOwner(users: map<UserId, User>, rls: bool, tenant: TenantId, u: UserId) {
    u in users && users[u].role == Owner && (rls ==> users[u].tenant == tenant)
  }

  predicate Changes(p: Phase, tenant: TenantId, target: UserId, newRole: Role) {
    !p.Accepting? && p.tenant == tenant && p.target == target && p.newRole == newRole
  }

  // A set has more than one element exactly when two of them differ.
  lemma TwoSeen(owners: set<UserId>)
    ensures |owners| > 1 <==> exists u, v :: u != v && u in owners && v in owners
  {
    if u, v :| u != v && u in owners && v in owners {
      assert |owners - {u}| == |owners| - 1 && v in owners - {u};
    }
    if |owners| > 1 {
      var u :| u in owners;
      assert |owners - {u}| >= 1;
      var v :| v in owners - {u};
      assert u != v;
    }
  }
}
