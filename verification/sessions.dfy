// Refresh-token sessions: login, rotation with reuse detection, password reset and tenant
// cancellation (src/auth/login.service.ts, src/auth/refresh.service.ts,
// src/auth/password-reset.service.ts, src/tenants/lifecycle.service.ts), one handler at a time.

module Sessions {
  import opened Prelude

  type TenantId = nat
  type UserId = nat
  type FamilyId = nat
  type Hash = nat // tokens are identified with their stored SHA-256 hashes

  datatype User = User(tenant: TenantId, email: string, password: string)

  datatype Token = Token(tenant: TenantId, user: UserId, family: FamilyId,
                         usedAt: Option<int>, revokedAt: Option<int>, expiresAt: int)

  datatype Reset = Reset(tenant: TenantId, user: UserId, consumedAt: Option<int>, expiresAt: int)

  type Tokens = map<Hash, Token>

  // orgs maps each organization to its deleted_at.
  datatype Db = Db(orgs: map<TenantId, Option<int>>, users: map<UserId, User>, tokens: Tokens, resets: map<Hash, Reset>)

  datatype Outcome =
    | Issued(token: Hash)
    | BadCredentials | UnknownToken | TokenExpired | ReuseDetected
    | ResetSent | NoReset | ResetInvalid | PasswordChanged
    | Cancelled | Enrolled | TxFailed

  // `pick` is the row LIMIT 1 would return, if it matches; `commits` is false when some statement of the handler's
  // transaction fails.
  datatype Event =
    | Login(email: string, password: string, pick: Option<UserId>, hash: Hash, family: FamilyId,
            now: int, expiresAt: int, commits: bool)
    | Refresh(presented: Hash, hash: Hash, now: int, expiresAt: int, overlapMs: nat, commits: bool)
    | RequestReset(email: string, pick: Option<UserId>, hash: Hash, expiresAt: int, commits: bool)
    | ConfirmReset(reset: Hash, newPassword: string, now: int, commits: bool)
    | Cancel(tenant: TenantId, now: int, commits: bool)
    | Enroll(id: UserId, user: User) // signup or an accepted invitation

  // ----- Statements -----

  // UPDATE refresh_tokens SET revoked_at = now WHERE <hit> AND revoked_at IS NULL
  function Revoke(tokens: Tokens, hit: set<Hash>, now: int): (ts: Tokens)
    ensures ts.Keys == tokens.Keys
  {
    map h | h in tokens ::
      if h in hit && tokens[h].revokedAt.None? then tokens[h].(revokedAt := Some(now)) else tokens[h]
  }

  function OfFamily(tokens: Tokens, rls: bool, t: TenantId, f: FamilyId): set<Hash> {
    set h | h in tokens && Reaches(rls, t, tokens[h].tenant) && tokens[h].family == f
  }

  function OfUser(tokens: Tokens, rls: bool, t: TenantId, u: UserId): set<Hash> {
    set h | h in tokens && Reaches(rls, t, tokens[h].tenant) && tokens[h].user == u
  }

  function OfTenant(tokens: Tokens, rls: bool, t: TenantId): set<Hash> {
    set h | h in tokens && Reaches(rls, t, tokens[h].tenant)
  }

  // UPDATE refresh_tokens SET used_at = now WHERE id = h AND used_at IS NULL
  function MarkUsed(tokens: Tokens, h: Hash, now: int): (ts: Tokens)
    ensures ts.Keys == tokens.Keys
  {
    if h in tokens && tokens[h].usedAt.None? then tokens[h := tokens[h].(usedAt := Some(now))] else tokens
  }

  // ----- Handlers -----

  predicate CanLogIn(db: Db, email: string, u: UserId) {
    u in db.users && db.users[u].email == email && db.users[u].tenant in db.orgs && db.orgs[db.users[u].tenant].None?
  }

  // The lookup by email, of a user whose organization is not deleted.
  predicate Finds(db: Db, email: string, pick: Option<UserId>) {
    pick.Some? && CanLogIn(db, email, pick.value)
  }

  datatype Verdict = Unknown | Expired | Reused | Rotates

  // The decision of rotateRefreshToken, from one read of the presented token's row.
  function Judge(db: Db, h: Hash, now: int, overlapMs: int): Verdict {
    if h !in db.tokens || db.tokens[h].user !in db.users then Unknown
    else
      var row := db.tokens[h];
      if row.expiresAt < now then Expired
      else if row.revokedAt.Some? || (row.usedAt.Some? && now - row.usedAt.value > overlapMs) then Reused
      else Rotates
  }

  // The transaction of a rotation: `row` is what was read for the presented token `h`.
  function RotateTx(tokens: Tokens, h: Hash, row: Token, hash: Hash, now: int, expiresAt: int): Tokens {
    MarkUsed(tokens, h, now)[hash := Token(row.tenant, row.user, row.family, None, None, expiresAt)]
  }

  function Step(rls: bool, db: Db, e: Event): (Db, Outcome) {
    match e
    case Login(email, password, pick, hash, family, now, expiresAt, commits) =>
      if !Finds(db, email, pick) || db.users[pick.value].password != password then (db, BadCredentials)
      else if !commits || hash in db.tokens then (db, TxFailed)
      else
        var t := Token(db.users[pick.value].tenant, pick.value, family, None, None, expiresAt);
        (db.(tokens := db.tokens[hash := t]), Issued(hash))
    case Refresh(h, hash, now, expiresAt, overlapMs, commits) =>
      (match Judge(db, h, now, overlapMs)
       case Unknown => (db, UnknownToken)
       case Expired => (db, TokenExpired)
       case Reused =>
         var row := db.tokens[h];
         if !commits then (db, TxFailed)
         else (db.(tokens := Revoke(db.tokens, OfFamily(db.tokens, rls, row.tenant, row.family), now)), ReuseDetected)
       case Rotates =>
         if !commits || hash in db.tokens then (db, TxFailed)
         else (db.(tokens := RotateTx(db.tokens, h, db.tokens[h], hash, now, expiresAt)), Issued(hash)))
    case RequestReset(email, pick, hash, expiresAt, commits) =>
      if !Finds(db, email, pick) then (db, NoReset)
      else if !commits || hash in db.resets then (db, TxFailed)
      else (db.(resets := db.resets[hash := Reset(db.users[pick.value].tenant, pick.value, None, expiresAt)]), ResetSent)
    case ConfirmReset(reset, newPassword, now, commits) =>
      if reset !in db.resets || db.resets[reset].consumedAt.Some? || db.resets[reset].expiresAt <= now then (db, ResetInvalid)
      else
        var row := db.resets[reset];
        if !commits || row.user !in db.users then (db, TxFailed)
        else
          (Db(db.orgs,
              db.users[row.user := db.users[row.user].(password := newPassword)],
              Revoke(db.tokens, OfUser(db.tokens, rls, row.tenant, row.user), now),
              db.resets[reset := row.(consumedAt := Some(now))]), PasswordChanged)
    case Cancel(tenant, now, commits) =>
      if !commits || tenant !in db.orgs then (db, TxFailed)
      else
        (db.(orgs := db.orgs[tenant := Some(now)], tokens := Revoke(db.tokens, OfTenant(db.tokens, rls, tenant), now)), Cancelled)
    case Enroll(id, user) =>
      if id in db.users then (db, TxFailed)
      else
        (db.(orgs := if user.tenant in db.orgs then db.orgs else db.orgs[user.tenant := None], users := db.users[id := user]),
         Enrolled)
  }

  // ----- Invariant -----

  // All tokens of a family belong to one user and tenant and are revoked together or not at all.
  ghost predicate FamiliesWhole(tokens: Tokens) {
    forall h, g :: h in tokens && g in tokens && tokens[h].family == tokens[g].family ==> Kin(tokens[h], tokens[g])
  }

  predicate Kin(a: Token, b: Token) {
    a.tenant == b.tenant && a.user == b.user && (a.revokedAt.Some? <==> b.revokedAt.Some?)
  }

  ghost predicate Grounded(db: Db) {
    && (forall u :: u in db.users ==> db.users[u].tenant in db.orgs)
    && (forall h :: h in db.tokens ==> OwnedBy(db, db.tokens[h].user, db.tokens[h].tenant))
    && (forall r :: r in db.resets ==> OwnedBy(db, db.resets[r].user, db.resets[r].tenant))
  }

  predicate OwnedBy(db: Db, u: UserId, t: TenantId) {
    u in db.users && db.users[u].tenant == t
  }

  ghost predicate DeadTenantsRevoked(db: Db) {
    forall h :: h in db.tokens && Deleted(db, db.tokens[h].tenant) ==> db.tokens[h].revokedAt.Some?
  }

  predicate Deleted(db: Db, t: TenantId) {
    t in db.orgs && db.orgs[t].Some?
  }

  ghost predicate Inv(db: Db) {
    FamiliesWhole(db.tokens) && Grounded(db) && DeadTenantsRevoked(db)
  }

  // randomUUID never repeats a family id.
  ghost predicate Plausible(db: Db, e: Event) {
    e.Login? ==> forall h :: h in db.tokens ==> db.tokens[h].family != e.family
  }

  // Revoking whole families keeps them whole.
  lemma RevokeKeepsWhole(tokens: Tokens, hit: set<Hash>, now: int)
    requires FamiliesWhole(tokens)
    requires forall h, g :: h in tokens && g in tokens && tokens[h].family == tokens[g].family && h in hit ==> g in hit
    ensures FamiliesWhole(Revoke(tokens, hit, now))
  {
    var ts := Revoke(tokens, hit, now);
    forall h, g | h in ts && g in ts && ts[h].family == ts[g].family ensures Kin(ts[h], ts[g]) {
      assert Kin(tokens[h], tokens[g]);
    }
  }

  lemma HitsAreWhole(tokens: Tokens, rls: bool, t: TenantId, f: FamilyId, u: UserId)
    requires FamiliesWhole(tokens)
    ensures forall h, g :: h in tokens && g in tokens && tokens[h].family == tokens[g].family ==>
              && (h in OfFamily(tokens, rls, t, f) ==> g in OfFamily(tokens, rls, t, f))
              && (h in OfUser(tokens, rls, t, u) ==> g in OfUser(tokens, rls, t, u))
              && (h in OfTenant(tokens, rls, t) ==> g in OfTenant(tokens, rls, t))
  {
    forall h, g | h in tokens && g in tokens && tokens[h].family == tokens[g].family ensures Kin(tokens[h], tokens[g]) {
    }
  }

  // A rotation keeps its family whole exactly when the family is not revoked at commit time.
  lemma RotationKeepsWholeIff(tokens: Tokens, h: Hash, row: Token, hash: Hash, now: int, expiresAt: int)
    requires FamiliesWhole(tokens) && h in tokens && hash !in tokens
    requires row.tenant == tokens[h].tenant && row.user == tokens[h].user && row.family == tokens[h].family
    ensures FamiliesWhole(RotateTx(tokens, h, row, hash, now, expiresAt)) <==> tokens[h].revokedAt.None?
  {
    var ts := RotateTx(tokens, h, row, hash, now, expiresAt);
    assert hash in ts && h in ts && ts[hash].family == ts[h].family;
    if tokens[h].revokedAt.None? {
      forall g, k | g in ts && k in ts && ts[g].family == ts[k].family ensures Kin(ts[g], ts[k]) {
        assert g != hash && k != hash ==> Kin(tokens[g], tokens[k]);
        assert g != hash && ts[g].family == row.family ==> Kin(tokens[g], tokens[h]);
        assert k != hash && ts[k].family == row.family ==> Kin(tokens[k], tokens[h]);
      }
    } else {
      assert !Kin(ts[hash], ts[h]);
    }
  }

  lemma StepKeepsWhole(rls: bool, db: Db, e: Event)
    requires Inv(db) && Plausible(db, e)
    ensures FamiliesWhole(Step(rls, db, e).0.tokens)
  {
    match e
    case Login(_, _, pick, hash, family, _, expiresAt, _) =>
    case Refresh(h, hash, now, expiresAt, overlapMs, _) =>
      if Judge(db, h, now, overlapMs) == Reused {
        var row := db.tokens[h];
        HitsAreWhole(db.tokens, rls, row.tenant, row.family, row.user);
        RevokeKeepsWhole(db.tokens, OfFamily(db.tokens, rls, row.tenant, row.family), now);
      } else if Judge(db, h, now, overlapMs) == Rotates && hash !in db.tokens {
        RotationKeepsWholeIff(db.tokens, h, db.tokens[h], hash, now, expiresAt);
      }
    case RequestReset(_, _, _, _, _) =>
    case ConfirmReset(reset, _, now, _) =>
      if reset in db.resets {
        var row := db.resets[reset];
        HitsAreWhole(db.tokens, rls, row.tenant, 0, row.user);
        RevokeKeepsWhole(db.tokens, OfUser(db.tokens, rls, row.tenant, row.user), now);
      }
    case Cancel(tenant, now, _) =>
      HitsAreWhole(db.tokens, rls, tenant, 0, 0);
      RevokeKeepsWhole(db.tokens, OfTenant(db.tokens, rls, tenant), now);
    case Enroll(_, _) =>
  }

  // A row keeps its identity; used_at and revoked_at are written at most once.
  predicate Evolves(a: Token, b: Token) {
    && b.tenant == a.tenant && b.user == a.user && b.family == a.family && b.expiresAt == a.expiresAt
    && (a.usedAt.Some? ==> b.usedAt == a.usedAt)
    && (a.revokedAt.Some? ==> b.revokedAt == a.revokedAt)
  }

  // Where the tokens that a step inserts come from.
  predicate Newborn(db: Db, e: Event, t: Token) {
    && t.usedAt.None? && t.revokedAt.None?
    && match e
       case Login(email, _, pick, _, family, _, _, _) =>
         Finds(db, email, pick) && t.user == pick.value && t.tenant == db.users[pick.value].tenant && t.family == family
       case Refresh(h, _, _, _, _, _) =>
         && h in db.tokens && db.tokens[h].revokedAt.None?
         && t.user == db.tokens[h].user && t.tenant == db.tokens[h].tenant && t.family == db.tokens[h].family
       case _ => false
  }

  ghost predicate TokensEvolve(db: Db, e: Event, db': Db) {
    && (forall h :: h in db.tokens ==> h in db'.tokens && Evolves(db.tokens[h], db'.tokens[h]))
    && (forall h :: h in db'.tokens && h !in db.tokens ==> Newborn(db, e, db'.tokens[h]))
  }

  lemma StepEvolves(rls: bool, db: Db, e: Event)
    ensures TokensEvolve(db, e, Step(rls, db, e).0)
  {
    hide OfFamily, OfUser, OfTenant, CanLogIn;
  }

  // Users never change tenant, and neither users nor organizations disappear.
  lemma OwnersStay(rls: bool, db: Db, e: Event, u: UserId, t: TenantId)
    requires OwnedBy(db, u, t) && t in db.orgs
    ensures var db' := Step(rls, db, e).0; OwnedBy(db', u, t) && t in db'.orgs
  {
  }

  lemma StepKeepsGrounded(rls: bool, db: Db, e: Event)
    requires Grounded(db)
    ensures Grounded(Step(rls, db, e).0)
  {
    var db' := Step(rls, db, e).0;
    StepEvolves(rls, db, e);
    forall h | h in db'.tokens ensures OwnedBy(db', db'.tokens[h].user, db'.tokens[h].tenant) {
      assert OwnedBy(db, db'.tokens[h].user, db'.tokens[h].tenant) by {
        if h in db.tokens {
          assert Evolves(db.tokens[h], db'.tokens[h]);
        } else {
          assert Newborn(db, e, db'.tokens[h]);
        }
      }
      OwnersStay(rls, db, e, db'.tokens[h].user, db'.tokens[h].tenant);
    }
    StepKeepsResets(rls, db, e);
  }

  lemma StepKeepsResets(rls: bool, db: Db, e: Event)
    requires Grounded(db)
    ensures var db' := Step(rls, db, e).0;
            && (forall u :: u in db'.users ==> db'.users[u].tenant in db'.orgs)
            && (forall r :: r in db'.resets ==> OwnedBy(db', db'.resets[r].user, db'.resets[r].tenant))
  {
    var db' := Step(rls, db, e).0;
    forall r | r in db'.resets ensures OwnedBy(db', db'.resets[r].user, db'.resets[r].tenant) {
      assert r in db.resets ==> OwnedBy(db, db.resets[r].user, db.resets[r].tenant);
    }
  }

  lemma StepKeepsDeadRevoked(rls: bool, db: Db, e: Event)
    requires Inv(db) && Plausible(db, e)
    ensures DeadTenantsRevoked(Step(rls, db, e).0)
  {
    var db' := Step(rls, db, e).0;
    StepEvolves(rls, db, e);
    forall h | h in db'.tokens && Deleted(db', db'.tokens[h].tenant) ensures db'.tokens[h].revokedAt.Some? {
      if h in db.tokens {
        assert Evolves(db.tokens[h], db'.tokens[h]);
        assert OwnedBy(db, db.tokens[h].user, db.tokens[h].tenant);
        assert Deleted(db, db.tokens[h].tenant) ==> db.tokens[h].revokedAt.Some?;
      } else {
        assert Newborn(db, e, db'.tokens[h]);
      }
    }
  }

  lemma StepKeepsInv(rls: bool, db: Db, e: Event)
    requires Inv(db) && Plausible(db, e)
    ensures Inv(Step(rls, db, e).0)
  {
    StepKeepsWhole(rls, db, e);
    StepKeepsGrounded(rls, db, e);
    StepKeepsDeadRevoked(rls, db, e);
  }

  const START := Db(map[], map[], map[], map[])

  lemma StartIsGood()
    ensures Inv(START)
  {
  }
}
