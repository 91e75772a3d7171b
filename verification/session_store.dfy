// The session handlers statement by statement on a store they update in place, proved against the
// steps of the Sessions module.

module SessionStore {
  import opened Prelude
  import opened Sessions
  import opened SessionAnswers

  class Store {
    const rls: bool // does row security filter the statements inside a tenant transaction?
    var orgs: map<TenantId, Option<int>>
    var users: map<UserId, User>
    var tokens: Tokens
    var resets: map<Hash, Reset>

    function State(): Db
      reads this
    {
      Db(orgs, users, tokens, resets)
    }

    constructor (rls: bool, db: Db)
      ensures this.rls == rls && State() == db
    {
      this.rls := rls;
      orgs, users, tokens, resets := db.orgs, db.users, db.tokens, db.resets;
    }

    // SELECT ... FROM users JOIN organizations WHERE email = ... AND deleted_at IS NULL LIMIT 1
    method FindUser(email: string, pick: Option<UserId>) returns (found: Option<User>)
      ensures found == if Finds(State(), email, pick) then Some(users[pick.value]) else None
    {
      if pick.None? || pick.value !in users {
        return None;
      }
      var row := users[pick.value];
      if row.email != email || row.tenant !in orgs || orgs[row.tenant].Some? {
        return None;
      }
      return Some(row);
    }

    // At most one token is added: unused, unrevoked, of the user found and of a family of its own.
    method LogIn(email: string, password: string, pick: Option<UserId>, hash: Hash, family: FamilyId,
                 now: int, expiresAt: int, commits: bool) returns (o: Outcome)
      modifies this`tokens
      ensures (State(), o) == Step(rls, old(State()), Login(email, password, pick, hash, family, now, expiresAt, commits))
      ensures if o.Issued?
              then Finds(State(), email, pick) && users[pick.value].password == password && hash !in old(tokens)
                   && tokens == old(tokens)[hash := Token(users[pick.value].tenant, pick.value, family, None, None, expiresAt)]
              else tokens == old(tokens)
    {
      var found := FindUser(email, pick);
      if found.None? || found.value.password != password {
        return BadCredentials;
      }
      if hash in tokens {
        return TxFailed;
      }
      var begin := tokens;
      tokens := tokens[hash := Token(found.value.tenant, pick.value, family, None, None, expiresAt)];
      if !commits {
        tokens := begin;
        return TxFailed;
      }
      return Issued(hash);
    }

    // Each answer goes to exactly the rows RotationAnswers says, and writes exactly what it says.
    method RotateRefreshToken(presented: Hash, hash: Hash, now: int, expiresAt: int, overlapMs: nat, commits: bool)
      returns (o: Outcome)
      modifies this`tokens
      ensures (State(), o) == Step(rls, old(State()), Refresh(presented, hash, now, expiresAt, overlapMs, commits))
      ensures RotationAnswers(rls, users, old(tokens), tokens, o, presented, hash, now, expiresAt, overlapMs, commits)
    {
      RefreshOnRows(rls, State(), Refresh(presented, hash, now, expiresAt, overlapMs, commits));
      hide RotationAnswers;
      if presented !in tokens || tokens[presented].user !in users {
        return UnknownToken;
      }
      var row := tokens[presented];
      if row.expiresAt < now {
        return TokenExpired;
      }
      var usedAt := row.usedAt;
      var withinOverlap := usedAt.Some? && now - usedAt.value <= overlapMs;
      var begin := tokens;
      if row.revokedAt.Some? || (usedAt.Some? && !withinOverlap) {
        tokens := Revoke(tokens, OfFamily(tokens, rls, row.tenant, row.family), now);
        if !commits {
          tokens := begin;
          return TxFailed;
        }
        return ReuseDetected;
      }
      if usedAt.None? {
        tokens := tokens[presented := row.(usedAt := Some(now))];
      }
      if hash in tokens {
        tokens := begin;
        return TxFailed;
      }
      tokens := tokens[hash := Token(row.tenant, row.user, row.family, None, None, expiresAt)];
      if !commits {
        tokens := begin;
        return TxFailed;
      }
      return Issued(hash);
    }

    // Only for a user of an organization that is not deleted, and then exactly one unconsumed token of
    // that user is added; no other token changes.
    method RequestPasswordReset(email: string, pick: Option<UserId>, hash: Hash, expiresAt: int, commits: bool)
      returns (o: Outcome)
      modifies this`resets
      ensures (State(), o) == Step(rls, old(State()), RequestReset(email, pick, hash, expiresAt, commits))
      ensures forall h :: h in old(resets) ==> h in resets && resets[h] == old(resets)[h]
      ensures forall h :: h in resets && h !in old(resets) ==>
                && h == hash && commits && pick.Some? && pick.value in users && users[pick.value].email == email
                && users[pick.value].tenant in orgs && orgs[users[pick.value].tenant].None?
                && resets[h] == Reset(users[pick.value].tenant, pick.value, None, expiresAt)
      ensures o == ResetSent <==> hash in resets && hash !in old(resets)
      ensures o == NoReset <==> !Finds(State(), email, pick)
    {
      var found := FindUser(email, pick);
      if found.None? {
        return NoReset;
      }
      if hash in resets {
        return TxFailed;
      }
      var begin := resets;
      resets := resets[hash := Reset(found.value.tenant, pick.value, None, expiresAt)];
      if !commits {
        resets := begin;
        return TxFailed;
      }
      return ResetSent;
    }

    method ConfirmPasswordReset(reset: Hash, newPassword: string, now: int, commits: bool) returns (o: Outcome)
      modifies this`users, this`resets, this`tokens
      ensures (State(), o) == Step(rls, old(State()), ConfirmReset(reset, newPassword, now, commits))
      ensures ConfirmAnswers(rls, old(State()), State(), o, reset, newPassword, now, commits)
    {
      ConfirmOnRows(rls, State(), ConfirmReset(reset, newPassword, now, commits));
      hide ConfirmAnswers;
      if reset !in resets || resets[reset].consumedAt.Some? || resets[reset].expiresAt <= now {
        return ResetInvalid;
      }
      var row := resets[reset];
      if row.user !in users {
        return TxFailed;
      }
      var users0, resets0, tokens0 := users, resets, tokens;
      users := users[row.user := users[row.user].(password := newPassword)];
      resets := resets[reset := row.(consumedAt := Some(now))];
      tokens := Revoke(tokens, OfUser(tokens, rls, row.tenant, row.user), now);
      if !commits {
        users, resets, tokens := users0, resets0, tokens0;
        return TxFailed;
      }
      return PasswordChanged;
    }

    method CancelTenant(tenant: TenantId, now: int, commits: bool) returns (o: Outcome)
      modifies this`orgs, this`tokens
      ensures (State(), o) == Step(rls, old(State()), Cancel(tenant, now, commits))
      ensures CancelAnswers(rls, old(State()), State(), o, tenant, now, commits)
    {
      CancelOnRows(rls, State(), Cancel(tenant, now, commits));
      hide CancelAnswers;
      if tenant !in orgs {
        return TxFailed;
      }
      var orgs0, tokens0 := orgs, tokens;
      orgs := orgs[tenant := Some(now)];
      tokens := Revoke(tokens, OfTenant(tokens, rls, tenant), now);
      if !commits {
        orgs, tokens := orgs0, tokens0;
        return TxFailed;
      }
      return Cancelled;
    }
  }
}
