// What the session handlers answer and write, stated on the rows (src/auth/refresh.service.ts:52-116,
// src/auth/password-reset.service.ts:66-94, src/auth/login.service.ts:35-91), and what follows over runs.

module SessionAnswers {
  import opened Prelude
  import opened Sessions
  import opened SessionRuns

  // ----- Rotation -----

  // The presented token is stored and its user exists.
  predicate Found(tokens: Tokens, users: map<UserId, User>, h: Hash) {
    h in tokens && tokens[h].user in users
  }

  // It is revoked, or was used longer ago than the overlap.
  predicate Spent(t: Token, now: int, overlapMs: int) {
    t.revokedAt.Some? || (t.usedAt.Some? && now > t.usedAt.value + overlapMs)
  }

  // An unused token is stamped, a used one keeps its stamp; one live token of the same owner and family is
  // added; every other row is as before.
  predicate RotatesRows(before: Tokens, after: Tokens, h: Hash, hash: Hash, now: int, expiresAt: int) {
    && h in before && hash !in before && after.Keys == before.Keys + {hash}
    && after[hash] == Token(before[h].tenant, before[h].user, before[h].family, None, None, expiresAt)
    && after[h] == before[h].(usedAt := if before[h].usedAt.None? then Some(now) else before[h].usedAt)
    && (forall g :: g in before && g != h ==> after[g] == before[g])
  }

  // Exactly the unrevoked rows picked are revoked, now, and nothing else changes.
  ghost predicate RevokesRows(before: Tokens, after: Tokens, picked: Token -> bool, now: int) {
    && after.Keys == before.Keys
    && (forall g :: g in before && picked(before[g]) && before[g].revokedAt.None? ==> after[g] == before[g].(revokedAt := Some(now)))
    && (forall g :: g in before && !(picked(before[g]) && before[g].revokedAt.None?) ==> after[g] == before[g])
  }

  function FamilyRow(rls: bool, t: Token): Token -> bool {
    (g: Token) => g.family == t.family && (rls ==> g.tenant == t.tenant)
  }

  // Every answer of a rotation, with exactly the rows that get it and what it does to them.
  ghost predicate RotationAnswers(rls: bool, users: map<UserId, User>, before: Tokens, after: Tokens, o: Outcome,
                                  h: Hash, hash: Hash, now: int, expiresAt: int, overlapMs: int, commits: bool) {
    && (o == UnknownToken <==> !Found(before, users, h))
    && (o == TokenExpired <==> Found(before, users, h) && before[h].expiresAt < now)
    && (o == ReuseDetected <==> Found(before, users, h) && now <= before[h].expiresAt && Spent(before[h], now, overlapMs) && commits)
    && (o == Issued(hash) <==> Found(before, users, h) && now <= before[h].expiresAt && !Spent(before[h], now, overlapMs) && commits && hash !in before)
    && o in {UnknownToken, TokenExpired, ReuseDetected, Issued(hash), TxFailed}
    && (o == Issued(hash) ==> RotatesRows(before, after, h, hash, now, expiresAt))
    && (o == ReuseDetected ==> RevokesRows(before, after, FamilyRow(rls, before[h]), now))
    && (o != Issued(hash) && o != ReuseDetected ==> after == before)
  }

  lemma RefreshOnRows(rls: bool, db: Db, e: Event)
    requires e.Refresh?
    ensures var (db', o) := Step(rls, db, e);
            && db'.orgs == db.orgs && db'.users == db.users && db'.resets == db.resets
            && RotationAnswers(rls, db.users, db.tokens, db'.tokens, o, e.presented, e.hash, e.now, e.expiresAt, e.overlapMs, e.commits)
  {
  }

  // In no run is a token issued for a row past its expiry, or for one revoked.
  lemma {:induction false} ExpiredNeverRotates(rls: bool, db: Db, es: seq<Event>, k: nat)
    requires Inv(db) && PlausibleRun(rls, db, es)
    requires k < |es| && es[k].Refresh? && Run(rls, db, es).1[k].Issued?
    ensures var final := Run(rls, db, es).0;
            es[k].presented in final.tokens && es[k].now <= final.tokens[es[k].presented].expiresAt
    decreases k
  {
    var (db', o) := Step(rls, db, es[0]);
    StepKeepsInv(rls, db, es[0]);
    if k == 0 {
      RefreshOnRows(rls, db, es[0]);
      RunKeepsInv(rls, db', es[1..]);
      assert Evolves(db'.tokens[es[0].presented], Run(rls, db', es[1..]).0.tokens[es[0].presented]);
    } else {
      hide Step, Inv, Plausible;
      assert es[1..][k - 1] == es[k];
      ExpiredNeverRotates(rls, db', es[1..], k - 1);
    }
  }

  // ----- Password reset -----

  predicate Redeemable(resets: map<Hash, Reset>, reset: Hash, now: int) {
    reset in resets && resets[reset].consumedAt.None? && now < resets[reset].expiresAt
  }

  function UserRow(rls: bool, r: Reset): Token -> bool {
    (g: Token) => g.user == r.user && (rls ==> g.tenant == r.tenant)
  }

  // Every answer of a confirmation, and what it does: the user's password and nothing else of anyone, the
  // reset consumed now, the user's unrevoked tokens revoked now; a refusal or failure changes nothing.
  ghost predicate ConfirmAnswers(rls: bool, before: Db, after: Db, o: Outcome, reset: Hash, newPassword: string, now: int, commits: bool) {
    && after.orgs == before.orgs
    && (o == ResetInvalid <==> !Redeemable(before.resets, reset, now))
    && (o == PasswordChanged <==> Redeemable(before.resets, reset, now) && before.resets[reset].user in before.users && commits)
    && o in {ResetInvalid, PasswordChanged, TxFailed}
    && (o == PasswordChanged ==>
          var row := before.resets[reset];
          && after.users.Keys == before.users.Keys
          && after.users[row.user] == User(before.users[row.user].tenant, before.users[row.user].email, newPassword)
          && (forall u :: u in before.users && u != row.user ==> after.users[u] == before.users[u])
          && after.resets.Keys == before.resets.Keys
          && after.resets[reset] == Reset(row.tenant, row.user, Some(now), row.expiresAt)
          && (forall r :: r in before.resets && r != reset ==> after.resets[r] == before.resets[r])
          && RevokesRows(before.tokens, after.tokens, UserRow(rls, row), now))
    && (o != PasswordChanged ==> after == before)
  }

  lemma ConfirmOnRows(rls: bool, db: Db, e: Event)
    requires e.ConfirmReset?
    ensures var (db', o) := Step(rls, db, e);
            ConfirmAnswers(rls, db, db', o, e.reset, e.newPassword, e.now, e.commits)
  {
  }

  // A login is answered with a token exactly for a user found by that email, with that password.
  lemma LoginOnRows(rls: bool, db: Db, e: Event)
    requires e.Login?
    ensures var (db', o) := Step(rls, db, e);
            && (o.Issued? <==> && e.pick.Some? && e.pick.value in db.users && db.users[e.pick.value].email == e.email
                               && db.users[e.pick.value].tenant in db.orgs && db.orgs[db.users[e.pick.value].tenant].None?
                               && db.users[e.pick.value].password == e.password && e.hash !in db.tokens && e.commits)
            && (o.Issued? ==> db' == db.(tokens := db.tokens[e.hash := Token(db.users[e.pick.value].tenant, e.pick.value, e.family, None, None, e.expiresAt)]))
            && (!o.Issued? ==> db' == db)
  {
  }

  // ----- Cancellation -----

  function TenantRow(rls: bool, t: TenantId): Token -> bool {
    (g: Token) => rls ==> g.tenant == t
  }

  // The organization is stamped deleted now, and the tokens the UPDATE reaches are revoked now, together
  // or not at all.
  ghost predicate CancelAnswers(rls: bool, before: Db, after: Db, o: Outcome, t: TenantId, now: int, commits: bool) {
    && (o == Cancelled <==> t in before.orgs && commits) && (o == Cancelled || o == TxFailed)
    && (o == Cancelled ==> after.orgs == before.orgs[t := Some(now)] && after.users == before.users && after.resets == before.resets
                           && RevokesRows(before.tokens, after.tokens, TenantRow(rls, t), now))
    && (o != Cancelled ==> after == before)
  }

  lemma CancelOnRows(rls: bool, db: Db, e: Event)
    requires e.Cancel?
    ensures var (db', o) := Step(rls, db, e); CancelAnswers(rls, db, db', o, e.tenant, e.now, e.commits)
  {
  }

  // ----- The new password, over runs -----

  function StateAt(rls: bool, db: Db, es: seq<Event>, k: nat): Db
    requires k <= |es|
    decreases k
  {
    if k == 0 then db else StateAt(rls, Step(rls, db, es[0]).0, es[1..], k - 1)
  }

  lemma {:induction false} OutcomeAt(rls: bool, db: Db, es: seq<Event>, k: nat)
    requires k < |es|
    ensures Run(rls, db, es).1[k] == Step(rls, StateAt(rls, db, es, k), es[k]).1
    decreases k
  {
    if k > 0 {
      hide Step;
      assert es[1..][k - 1] == es[k];
      OutcomeAt(rls, Step(rls, db, es[0]).0, es[1..], k - 1);
    }
  }

  // The event changes the password of user u.
  predicate Resets(rls: bool, db: Db, e: Event, u: UserId) {
    e.ConfirmReset? && Step(rls, db, e).1 == PasswordChanged && e.reset in db.resets && db.resets[e.reset].user == u
  }

  // Only a confirmed reset of the user changes a password.
  lemma PasswordStays(rls: bool, db: Db, e: Event, u: UserId)
    requires u in db.users && !Resets(rls, db, e, u)
    ensures u in Step(rls, db, e).0.users && Step(rls, db, e).0.users[u] == db.users[u]
  {
    hide Revoke, Judge, RotateTx;
  }

  lemma {:induction false} PasswordKept(rls: bool, db: Db, es: seq<Event>, u: UserId, k: nat)
    requires u in db.users && k <= |es| && forall j :: 0 <= j < k ==> !Resets(rls, StateAt(rls, db, es, j), es[j], u)
    ensures u in StateAt(rls, db, es, k).users && StateAt(rls, db, es, k).users[u] == db.users[u]
    decreases k
  {
    if k > 0 {
      var db' := Step(rls, db, es[0]).0;
      assert StateAt(rls, db, es, 0) == db;
      PasswordStays(rls, db, es[0], u);
      hide Step, Resets;
      forall j | 0 <= j < k - 1 ensures !Resets(rls, StateAt(rls, db', es[1..], j), es[1..][j], u) {
        assert StateAt(rls, db', es[1..], j) == StateAt(rls, db, es, j + 1) && es[1..][j] == es[j + 1];
      }
      PasswordKept(rls, db', es[1..], u, k - 1);
    }
  }

  // After a reset, and until the next reset of the user, exactly the new password logs the user in: a login
  // that finds the user and commits under a fresh hash is answered with a token iff it brings that password.
  lemma OnlyTheNewPassword(rls: bool, db: Db, e: Event, es: seq<Event>, k: nat)
    requires e.ConfirmReset? && Step(rls, db, e).1 == PasswordChanged && e.reset in db.resets
    requires var db' := Step(rls, db, e).0;
             k < |es| && es[k].Login? && es[k].pick == Some(db.resets[e.reset].user)
             && forall j :: 0 <= j < k ==> !Resets(rls, StateAt(rls, db', es, j), es[j], db.resets[e.reset].user)
    ensures var db' := Step(rls, db, e).0;
            var now := StateAt(rls, db', es, k);
            Run(rls, db', es).1[k].Issued?
            <==> es[k].password == e.newPassword && CanLogIn(now, es[k].email, es[k].pick.value) && es[k].hash !in now.tokens && es[k].commits
  {
    var db', u := Step(rls, db, e).0, db.resets[e.reset].user;
    ConfirmOnRows(rls, db, e);
    assert db'.users[u].password == e.newPassword;
    hide Step;
    OutcomeAt(rls, db', es, k);
    PasswordKept(rls, db', es, u, k);
    LoginOnRows(rls, StateAt(rls, db', es, k), es[k]);
  }
}
