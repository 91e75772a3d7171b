// Tenants, members and invitations: signup (src/auth/signup.service.ts) and src/team/team.service.ts.
// A call is split where other calls can run in between: acceptInvitation reads outside its transaction,
// and changeRole reads, counts and updates in three READ COMMITTED statements.

module Team {
  import opened Prelude

  type TenantId = nat
  type UserId = nat
  type Handler = nat
  type Hash = nat // invitation tokens are identified with their stored hashes

  datatype Role = Owner | Admin | Member

  datatype User = User(tenant: TenantId, email: string, role: Role)

  datatype Invitation = Invitation(tenant: TenantId, email: string, role: Role, consumedAt: Option<int>, expiresAt: int)

  // orgs maps each organization to its slug.
  datatype Db = Db(orgs: map<TenantId, string>, users: map<UserId, User>, invitations: map<Hash, Invitation>)

  // What a call in progress has read: `tenant` is the actor's.
  datatype Phase =
    | Accepting(hash: Hash, row: Invitation)
    | Guarding(tenant: TenantId, target: UserId, newRole: Role) // the target was read as an owner to demote
    | Writing(tenant: TenantId, target: UserId, newRole: Role)

  datatype Reply =
    | SignedUp(org: TenantId, owner: UserId) | Invited(hash: Hash) | Accepted(invitation: Hash, user: UserId)
    | RoleChanged(target: UserId) | Conflict | Gone | Forbidden | NotFound | Failed

  datatype Sys = Sys(db: Db, calls: map<Handler, Phase>, log: seq<Reply>)

  // `commits` is false when a statement of the transaction fails for a reason of its own.
  datatype Action =
    | SignUp(org: TenantId, slug: string, user: UserId, email: string, commits: bool)
    | Invite(tenant: TenantId, actorRole: Role, hash: Hash, email: string, role: Role, expiresAt: int, commits: bool)
    | LookUp(handler: Handler, hash: Hash, now: int)
    | Accept(handler: Handler, user: UserId, now: int, commits: bool)
    | ReadTarget(handler: Handler, tenant: TenantId, actorRole: Role, target: UserId, newRole: Role)
    | CountOwners(handler: Handler)
    | WriteRole(handler: Handler, commits: bool)

  function Rank(r: Role): nat {
    match r case Owner => 3 case Admin => 2 case Member => 1
  }

  function OwnersSeen(db: Db, rls: bool, t: TenantId): set<UserId> {
    set u | u in db.users && Reaches(rls, t, db.users[u].tenant) && db.users[u].role == Owner
  }

  predicate EmailTaken(db: Db, t: TenantId, email: string) {
    exists u :: u in db.users && db.users[u].tenant == t && db.users[u].email == email
  }

  function Answer(s: Sys, r: Reply): Sys {
    s.(log := s.log + [r])
  }

  function Finish(s: Sys, h: Handler, r: Reply): Sys {
    Answer(s.(calls := s.calls - {h}), r)
  }

  function Step(rls: bool, s: Sys, a: Action): Sys {
    match a
    case SignUp(org, slug, user, email, commits) =>
      if slug in s.db.orgs.Values || org in s.db.orgs || user in s.db.users || EmailTaken(s.db, org, email)
      then Answer(s, Conflict)
      else if !commits then Answer(s, Failed)
      else
        Answer(s.(db := s.db.(orgs := s.db.orgs[org := slug], users := s.db.users[user := User(org, email, Owner)])),
               SignedUp(org, user))
    case Invite(tenant, actorRole, hash, email, role, expiresAt, commits) =>
      if Rank(actorRole) < Rank(Admin) then Answer(s, Forbidden)
      else if !commits || tenant !in s.db.orgs || hash in s.db.invitations then Answer(s, Failed)
      else
        Answer(s.(db := s.db.(invitations := s.db.invitations[hash := Invitation(tenant, email, role, None, expiresAt)])),
               Invited(hash))
    case LookUp(h, hash, now) =>
      if h in s.calls then s
      else if hash !in s.db.invitations || s.db.invitations[hash].consumedAt.Some? || s.db.invitations[hash].expiresAt <= now
      then Answer(s, Gone)
      else s.(calls := s.calls[h := Accepting(hash, s.db.invitations[hash])])
    case Accept(h, user, now, commits) =>
      if h !in s.calls || !s.calls[h].Accepting? then s
      else
        var Accepting(hash, row) := s.calls[h];
        if !commits || user in s.db.users || EmailTaken(s.db, row.tenant, row.email) || hash !in s.db.invitations
        then Finish(s, h, Failed)
        else
          var users := s.db.users[user := User(row.tenant, row.email, row.role)];
          var invitations := s.db.invitations[hash := s.db.invitations[hash].(consumedAt := Some(now))];
          Finish(s.(db := s.db.(users := users, invitations := invitations)), h, Accepted(hash, user))
    case ReadTarget(h, tenant, actorRole, target, newRole) =>
      if h in s.calls then s
      else if Rank(actorRole) < Rank(Admin) then Answer(s, Forbidden)
      else if target !in s.db.users || !Reaches(rls, tenant, s.db.users[target].tenant) then Answer(s, NotFound)
      else if s.db.users[target].role == Owner && newRole != Owner then s.(calls := s.calls[h := Guarding(tenant, target, newRole)])
      else s.(calls := s.calls[h := Writing(tenant, target, newRole)])
    case CountOwners(h) =>
      if h !in s.calls || !s.calls[h].Guarding? then s
      else
        var Guarding(tenant, target, newRole) := s.calls[h];
        if |OwnersSeen(s.db, rls, tenant)| <= 1 then Finish(s, h, Conflict)
        else s.(calls := s.calls[h := Writing(tenant, target, newRole)])
    case WriteRole(h, commits) =>
      if h !in s.calls || !s.calls[h].Writing? then s
      else
        var Writing(tenant, target, newRole) := s.calls[h];
        if !commits || target !in s.db.users then Finish(s, h, Failed)
        else Finish(s.(db := s.db.(users := s.db.users[target := s.db.users[target].(role := newRole)])), h, RoleChanged(target))
  }

  function Run(rls: bool, s: Sys, actions: seq<Action>): Sys
    decreases actions
  {
    if actions == [] then s else Run(rls, Step(rls, s, actions[0]), actions[1..])
  }

  const START := Sys(Db(map[], map[], map[]), map[], [])

  // ----- Keys: unique slugs, one user per tenant and email, no dangling tenant -----

  ghost predicate SlugsDiffer(orgs: map<TenantId, string>) {
    forall t, u :: t in orgs && u in orgs && orgs[t] == orgs[u] ==> t == u
  }

  ghost predicate EmailsDiffer(users: map<UserId, User>) {
    forall u, v :: u in users && v in users && SameAddress(users[u], users[v]) ==> u == v
  }

  predicate SameAddress(u: User, v: User) {
    u.tenant == v.tenant && u.email == v.email
  }

  ghost predicate TenantsKnown(db: Db) {
    && (forall u :: u in db.users ==> db.users[u].tenant in db.orgs)
    && (forall i :: i in db.invitations ==> db.invitations[i].tenant in db.orgs)
  }

  // A call accepting an invitation still holds what the invitation says.
  ghost predicate Offers(s: Sys) {
    forall h :: h in s.calls && s.calls[h].Accepting? ==> Offered(s.db, s.calls[h].hash, s.calls[h].row)
  }

  predicate Offered(db: Db, i: Hash, row: Invitation) {
    i in db.invitations && SameOffer(db.invitations[i], row)
  }

  predicate SameOffer(a: Invitation, b: Invitation) {
    a.tenant == b.tenant && a.email == b.email && a.role == b.role
  }

  // The invitation was consumed, and its user is there.
  predicate Backed(db: Db, i: Hash, u: UserId) {
    && i in db.invitations && db.invitations[i].consumedAt.Some?
    && u in db.users && db.users[u].tenant == db.invitations[i].tenant && db.users[u].email == db.invitations[i].email
  }

  predicate AcceptedIn(log: seq<Reply>, i: Hash) {
    exists k :: 0 <= k < |log| && log[k].Accepted? && log[k].invitation == i
  }

  ghost predicate AcceptsBacked(s: Sys) {
    forall k :: 0 <= k < |s.log| && s.log[k].Accepted? ==> Backed(s.db, s.log[k].invitation, s.log[k].user)
  }

  ghost predicate AcceptsDiffer(log: seq<Reply>) {
    forall j, k :: 0 <= j < k < |log| && log[j].Accepted? && log[k].Accepted? ==> log[j].user != log[k].user
  }

  ghost predicate ConsumedAccepted(s: Sys) {
    forall i :: i in s.db.invitations && s.db.invitations[i].consumedAt.Some? ==> AcceptedIn(s.log, i)
  }

  ghost predicate Inv(s: Sys) {
    && SlugsDiffer(s.db.orgs) && EmailsDiffer(s.db.users) && TenantsKnown(s.db) && Offers(s)
    && AcceptsBacked(s) && AcceptsDiffer(s.log) && ConsumedAccepted(s)
  }

  // ----- What one step can do to the rows -----

  predicate Enters(db: Db, db': Db, u: UserId) {
    u in db'.users && u !in db.users
  }

  // Rows stay, with their addresses; at most one user is added, with an address of its own; the
  // log is extended by at most one reply.
  ghost predicate Evolves(s: Sys, s': Sys) {
    && (forall t :: t in s.db.orgs ==> t in s'.db.orgs && s'.db.orgs[t] == s.db.orgs[t])
    && (forall u :: u in s.db.users ==> u in s'.db.users && SameAddress(s'.db.users[u], s.db.users[u]))
    && (forall u, v :: Enters(s.db, s'.db, u) && Enters(s.db, s'.db, v) ==> u == v)
    && (forall u, v :: Enters(s.db, s'.db, u) && v in s.db.users ==> !SameAddress(s'.db.users[u], s.db.users[v]))
    && (forall u :: Enters(s.db, s'.db, u) ==> s'.db.users[u].tenant in s'.db.orgs)
    && (forall i :: i in s.db.invitations ==> i in s'.db.invitations && SameOffer(s'.db.invitations[i], s.db.invitations[i]))
    && (forall i :: i in s.db.invitations && s.db.invitations[i].consumedAt.Some? ==> s'.db.invitations[i].consumedAt.Some?)
    && (s'.log == s.log || exists r :: s'.log == s.log + [r])
  }

  lemma SignUpEvolves(rls: bool, s: Sys, a: Action)
    requires TenantsKnown(s.db) && a.SignUp?
    ensures Evolves(s, Step(rls, s, a))
  {
    var s' := Step(rls, s, a);
    assert s'.log == s.log + [s'.log[|s.log|]];
  }

  lemma AcceptEvolves(rls: bool, s: Sys, a: Action)
    requires TenantsKnown(s.db) && Offers(s) && a.Accept?
    ensures Evolves(s, Step(rls, s, a))
  {
    var s' := Step(rls, s, a);
    if s' != s {
      assert Offered(s.db, s.calls[a.handler].hash, s.calls[a.handler].row);
      assert s'.log == s.log + [s'.log[|s.log|]];
    }
  }

  lemma StepEvolves(rls: bool, s: Sys, a: Action)
    requires TenantsKnown(s.db) && Offers(s)
    ensures Evolves(s, Step(rls, s, a))
  {
    hide OwnersSeen, EmailTaken, TenantsKnown, Offers;
    if a.SignUp? {
      SignUpEvolves(rls, s, a);
    } else if a.Accept? {
      AcceptEvolves(rls, s, a);
    } else {
      var s' := Step(rls, s, a);
      assert s'.log != s.log ==> s'.log == s.log + [s'.log[|s.log|]];
      assert s'.db.users.Keys == s.db.users.Keys;
    }
  }

  lemma StepKeepsSlugs(rls: bool, s: Sys, a: Action)
    requires SlugsDiffer(s.db.orgs)
    ensures SlugsDiffer(Step(rls, s, a).db.orgs)
  {
    hide OwnersSeen, EmailTaken;
  }

  lemma EmailsStayDifferent(s: Sys, s': Sys)
    requires EmailsDiffer(s.db.users) && Evolves(s, s')
    ensures EmailsDiffer(s'.db.users)
  {
    forall u, v | u in s'.db.users && v in s'.db.users && SameAddress(s'.db.users[u], s'.db.users[v]) ensures u == v {
      assert u in s.db.users || Enters(s.db, s'.db, u);
      assert v in s.db.users || Enters(s.db, s'.db, v);
    }
  }

  lemma StepKeepsTenants(rls: bool, s: Sys, a: Action)
    requires TenantsKnown(s.db) && Offers(s)
    ensures TenantsKnown(Step(rls, s, a).db)
  {
    StepEvolves(rls, s, a);
    var s' := Step(rls, s, a);
    hide OwnersSeen, EmailTaken, Offers;
    forall u | u in s'.db.users ensures s'.db.users[u].tenant in s'.db.orgs {
      assert u in s.db.users || Enters(s.db, s'.db, u);
    }
  }

  // A call that accepts was accepting before, or has just read an invitation.
  lemma Reading(rls: bool, s: Sys, a: Action, h: Handler)
    requires h in Step(rls, s, a).calls && Step(rls, s, a).calls[h].Accepting?
    ensures var s' := Step(rls, s, a);
            || (h in s.calls && s.calls[h] == s'.calls[h])
            || (s'.calls[h].hash in s.db.invitations && s'.calls[h].row == s.db.invitations[s'.calls[h].hash])
  {
    hide OwnersSeen, EmailTaken;
  }

  lemma StepKeepsOffers(rls: bool, s: Sys, a: Action)
    requires TenantsKnown(s.db) && Offers(s)
    ensures Offers(Step(rls, s, a))
  {
    StepEvolves(rls, s, a);
    hide Step, TenantsKnown;
    var s' := Step(rls, s, a);
    forall h | h in s'.calls && s'.calls[h].Accepting? ensures Offered(s'.db, s'.calls[h].hash, s'.calls[h].row) {
      Reading(rls, s, a, h);
      assert h in s.calls && s.calls[h].Accepting? ==> Offered(s.db, s.calls[h].hash, s.calls[h].row);
    }
  }

  // The replies a step adds: an acceptance names a consumed invitation and the user just added.
  lemma StepAccepts(rls: bool, s: Sys, a: Action, k: nat)
    requires Offers(s)
    requires |s.log| <= k < |Step(rls, s, a).log| && Step(rls, s, a).log[k].Accepted?
    ensures var s' := Step(rls, s, a);
            Backed(s'.db, s'.log[k].invitation, s'.log[k].user) && Enters(s.db, s'.db, s'.log[k].user)
  {
    hide OwnersSeen;
    assert a.Accept? ==> a.handler in s.calls && s.calls[a.handler].Accepting?;
    assert a.Accept? ==> Offered(s.db, s.calls[a.handler].hash, s.calls[a.handler].row);
  }

  lemma StepConsumes(rls: bool, s: Sys, a: Action, i: Hash)
    requires i in Step(rls, s, a).db.invitations && Step(rls, s, a).db.invitations[i].consumedAt.Some?
    requires !(i in s.db.invitations && s.db.invitations[i].consumedAt.Some?)
    ensures AcceptedIn(Step(rls, s, a).log, i)
  {
    hide OwnersSeen, EmailTaken;
    assert Step(rls, s, a).log[|s.log|].Accepted?;
  }

  lemma StepKeepsAccepts(rls: bool, s: Sys, a: Action)
    requires TenantsKnown(s.db) && Offers(s) && AcceptsBacked(s) && AcceptsDiffer(s.log) && ConsumedAccepted(s)
    ensures var s' := Step(rls, s, a); AcceptsBacked(s') && AcceptsDiffer(s'.log) && ConsumedAccepted(s')
  {
    hide OwnersSeen, EmailTaken;
    StepEvolves(rls, s, a);
    var s' := Step(rls, s, a);
    forall k | |s.log| <= k < |s'.log| && s'.log[k].Accepted?
      ensures Backed(s'.db, s'.log[k].invitation, s'.log[k].user) && Enters(s.db, s'.db, s'.log[k].user)
    {
      StepAccepts(rls, s, a, k);
    }
    forall i | i in s'.db.invitations && s'.db.invitations[i].consumedAt.Some? && !(i in s.db.invitations && s.db.invitations[i].consumedAt.Some?)
      ensures AcceptedIn(s'.log, i)
    {
      StepConsumes(rls, s, a, i);
    }
    hide Step;
    forall i | AcceptedIn(s.log, i) ensures AcceptedIn(s'.log, i) {
      var k :| 0 <= k < |s.log| && s.log[k].Accepted? && s.log[k].invitation == i;
      assert s'.log[k] == s.log[k];
    }
  }

  lemma {:induction false} RunKeepsInv(rls: bool, s: Sys, actions: seq<Action>)
    requires Inv(s)
    ensures Inv(Run(rls, s, actions))
    decreases actions
  {
    hide Step, SlugsDiffer, EmailsDiffer, TenantsKnown, Offers, AcceptsBacked, AcceptsDiffer, ConsumedAccepted, Evolves;
    if actions != [] {
      var s' := Step(rls, s, actions[0]);
      StepKeepsSlugs(rls, s, actions[0]);
      StepEvolves(rls, s, actions[0]);
      EmailsStayDifferent(s, s');
      StepKeepsTenants(rls, s, actions[0]);
      StepKeepsOffers(rls, s, actions[0]);
      StepKeepsAccepts(rls, s, actions[0]);
      RunKeepsInv(rls, s', actions[1..]);
    }
  }

  lemma StartIsGood()
    ensures Inv(START)
  {
  }

  // However the calls interleave, at most one user is ever created from an invitation, and from all
  // the invitations a tenant sent to one address; an invitation is marked consumed exactly when it was
  // accepted, so an accept that lost the race or failed left it alone.
  lemma InvitationsAreSingleUse(rls: bool, actions: seq<Action>, j: nat, k: nat)
    requires j < k < |Run(rls, START, actions).log|
    requires Run(rls, START, actions).log[j].Accepted? && Run(rls, START, actions).log[k].Accepted?
    ensures var s := Run(rls, START, actions);
            && s.log[j].invitation in s.db.invitations && s.log[k].invitation in s.db.invitations
            && s.log[j].invitation != s.log[k].invitation
            && var a, b := s.db.invitations[s.log[j].invitation], s.db.invitations[s.log[k].invitation];
               (a.tenant, a.email) != (b.tenant, b.email)
  {
    StartIsGood();
    RunKeepsInv(rls, START, actions);
    var s := Run(rls, START, actions);
    hide Run;
    var u, v := s.log[j].user, s.log[k].user;
    assert Backed(s.db, s.log[j].invitation, u) && Backed(s.db, s.log[k].invitation, v);
    assert !SameAddress(s.db.users[u], s.db.users[v]);
  }

  lemma ConsumedMeansAccepted(rls: bool, actions: seq<Action>, i: Hash)
    requires i in Run(rls, START, actions).db.invitations
    ensures var s := Run(rls, START, actions); s.db.invitations[i].consumedAt.Some? <==> AcceptedIn(s.log, i)
  {
    StartIsGood();
    RunKeepsInv(rls, START, actions);
  }

  // In every reachable state a signup is all or nothing, and (with fresh ids) the conflict it reports
  // as a registered email is always a taken slug: no email can clash in a tenant that is new.
  lemma SignupIsAllOrNothing(rls: bool, actions: seq<Action>, a: Action)
    requires a.SignUp? && a.org !in Run(rls, START, actions).db.orgs && a.user !in Run(rls, START, actions).db.users
    ensures var s, s' := Run(rls, START, actions), Step(rls, Run(rls, START, actions), a);
            && (s'.log == s.log + [Conflict] <==> exists t :: t in s.db.orgs && s.db.orgs[t] == a.slug)
            && (s'.log == s.log + [SignedUp(a.org, a.user)] <==> a.org in s'.db.orgs)
            && (a.org in s'.db.orgs <==> a.user in s'.db.users)
            && (a.org in s'.db.orgs ==> s'.db.users[a.user] == User(a.org, a.email, Owner) && s'.db.orgs[a.org] == a.slug)
            && (a.org !in s'.db.orgs ==> s'.db == s.db)
  {
    StartIsGood();
    RunKeepsInv(rls, START, actions);
    var s, s' := Run(rls, START, actions), Step(rls, Run(rls, START, actions), a);
    hide Run, Offers, AcceptsBacked, AcceptsDiffer, ConsumedAccepted, EmailsDiffer, SlugsDiffer;
    assert !EmailTaken(s.db, a.org, a.email);
    assert s'.log[|s.log|] in s'.log;
  }
}
