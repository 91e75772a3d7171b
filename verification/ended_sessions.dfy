// What becomes, with overlapping handlers, of "an ended session stays ended" and of the overlap window:
// tenant cancellation, password reset and rotation on the machine of RotationRaces.

module EndedSessions {
  import opened Prelude
  import opened Sessions
  import opened RotationRaces

  // ----- Who inserts a token, and for whom -----

  predicate RotationLands(s: Sys, a: Action) {
    a.CommitRotation? && a.handler in s.rotating && a.commits && a.hash !in s.db.tokens
  }

  predicate LoginLands(s: Sys, a: Action) {
    a.CommitLogin? && a.handler in s.loggingIn && a.commits && a.hash !in s.db.tokens
  }

  predicate KeepsTokens(tokens: Tokens, tokens': Tokens) {
    forall h :: h in tokens ==> h in tokens' && Evolves(tokens[h], tokens'[h])
  }

  lemma RotationTokens(rls: bool, s: Sys, a: Action)
    requires a.CommitRotation? && PendingKnown(s)
    ensures var tokens, tokens' := s.db.tokens, Advance(rls, s, a).db.tokens;
            && KeepsTokens(tokens, tokens')
            && (forall h :: h in tokens' && h !in tokens ==> RotationLands(s, a) && h == a.hash)
            && (RotationLands(s, a) ==>
                  var row := s.rotating[a.handler].row;
                  a.hash in tokens' && tokens'[a.hash] == Token(row.tenant, row.user, row.family, None, None, a.expiresAt))
  {
    assert RotationLands(s, a) ==> Known(s.db.tokens, s.rotating[a.handler]);
  }

  lemma OtherTokens(rls: bool, s: Sys, a: Action)
    requires !a.CommitRotation? && !a.CommitLogin?
    ensures KeepsTokens(s.db.tokens, Advance(rls, s, a).db.tokens) && Advance(rls, s, a).db.tokens.Keys == s.db.tokens.Keys
  {
    hide Judge, Finds, OfFamily, OfUser, OfTenant;
  }

  // The only steps that insert a token; it is live, and everyone else's keep their identity.
  lemma StepTokens(rls: bool, s: Sys, a: Action)
    requires PendingKnown(s)
    ensures var tokens, tokens' := s.db.tokens, Advance(rls, s, a).db.tokens;
            && KeepsTokens(tokens, tokens')
            && (forall h :: h in tokens' && h !in tokens ==> (RotationLands(s, a) || LoginLands(s, a)) && h == a.hash)
            && (RotationLands(s, a) ==>
                  var row := s.rotating[a.handler].row;
                  a.hash in tokens' && tokens'[a.hash] == Token(row.tenant, row.user, row.family, None, None, a.expiresAt))
            && (LoginLands(s, a) ==>
                  var e := s.loggingIn[a.handler];
                  a.hash in tokens' && tokens'[a.hash] == Token(e.tenant, e.user, a.family, None, None, a.expiresAt))
  {
    if a.CommitRotation? {
      RotationTokens(rls, s, a);
    } else if !a.CommitLogin? {
      OtherTokens(rls, s, a);
      hide Advance;
    }
  }

  // ----- Cancelled tenants -----

  // A login or a rotation commits for a tenant that is deleted by now.
  predicate OutlivesCancel(s: Sys, a: Action) {
    || (RotationLands(s, a) && Deleted(s.db, s.rotating[a.handler].row.tenant))
    || (LoginLands(s, a) && Deleted(s.db, s.loggingIn[a.handler].tenant))
  }

  // A deletion is never undone, and it revokes all tokens of the tenant.
  lemma StepDeletes(rls: bool, s: Sys, a: Action, t: TenantId)
    ensures Deleted(s.db, t) ==> Deleted(Advance(rls, s, a).db, t)
    ensures !Deleted(s.db, t) && Deleted(Advance(rls, s, a).db, t) ==>
              forall h :: h in Advance(rls, s, a).db.tokens && Advance(rls, s, a).db.tokens[h].tenant == t ==> Advance(rls, s, a).db.tokens[h].revokedAt.Some?
  {
  }

  lemma StepKeepsDeadIff(rls: bool, s: Sys, a: Action)
    requires PendingKnown(s) && DeadTenantsRevoked(s.db)
    ensures DeadTenantsRevoked(Advance(rls, s, a).db) <==> !OutlivesCancel(s, a)
  {
    StepTokens(rls, s, a);
    var s' := Advance(rls, s, a);
    if RotationLands(s, a) || LoginLands(s, a) {
      assert s'.db.orgs == s.db.orgs;
      assert OutlivesCancel(s, a) <==> Deleted(s'.db, s'.db.tokens[a.hash].tenant);
    }
    hide Advance;
    forall h | h in s'.db.tokens && Deleted(s'.db, s'.db.tokens[h].tenant) && h in s.db.tokens
      ensures s'.db.tokens[h].revokedAt.Some?
    {
      StepDeletes(rls, s, a, s.db.tokens[h].tenant);
      assert Evolves(s.db.tokens[h], s'.db.tokens[h]);
    }
  }

  lemma StepKeepsPending(rls: bool, s: Sys, a: Action)
    requires PendingKnown(s)
    ensures PendingKnown(Advance(rls, s, a))
  {
    var s' := Advance(rls, s, a);
    forall h | h in s'.rotating ensures Known(s'.db.tokens, s'.rotating[h]) {
      assert h in s.rotating ==> Known(s.db.tokens, s.rotating[h]);
      KnownStays(rls, s, a, s'.rotating[h]);
    }
  }

  // No deleted tenant has a live token, in any state of the run.
  ghost predicate DeadThroughout(rls: bool, s: Sys, as_: seq<Action>)
    decreases as_
  {
    DeadTenantsRevoked(s.db) && (as_ == [] || DeadThroughout(rls, Advance(rls, s, as_[0]), as_[1..]))
  }

  predicate NoneOutlivesCancel(rls: bool, s: Sys, as_: seq<Action>)
    decreases as_
  {
    as_ == [] || (!OutlivesCancel(s, as_[0]) && NoneOutlivesCancel(rls, Advance(rls, s, as_[0]), as_[1..]))
  }

  // However handlers overlap: a deleted tenant has no live token in any state of a run exactly when no
  // login and no rotation commits for a tenant deleted since its lookup or read.
  lemma {:induction false} CancelledStaysEndedIff(rls: bool, s: Sys, as_: seq<Action>)
    requires PendingKnown(s) && DeadTenantsRevoked(s.db)
    ensures DeadThroughout(rls, s, as_) <==> NoneOutlivesCancel(rls, s, as_)
    decreases as_
  {
    if as_ != [] {
      hide Advance, PendingKnown, OutlivesCancel, DeadTenantsRevoked;
      StepKeepsPending(rls, s, as_[0]);
      StepKeepsDeadIff(rls, s, as_[0]);
      if !OutlivesCancel(s, as_[0]) {
        CancelledStaysEndedIff(rls, Advance(rls, s, as_[0]), as_[1..]);
      }
    }
  }

  // The tenant was indeed not deleted when the handler looked: a lookup finds no user of a deleted tenant,
  // and a read under the rule finds no live token of one.
  lemma DeletedSinceLookup(rls: bool, s: Sys, a: Action, h: Handler)
    requires DeadTenantsRevoked(s.db)
    ensures var s' := Advance(rls, s, a);
            && (a.LookUp? && h in s'.loggingIn && (h in s.loggingIn ==> s'.loggingIn[h] != s.loggingIn[h]) ==> !Deleted(s'.db, s'.loggingIn[h].tenant))
            && (a.Read? && h in s'.rotating && (h in s.rotating ==> s'.rotating[h] != s.rotating[h]) ==> !Deleted(s'.db, s'.rotating[h].row.tenant))
  {
  }

  // It happens: lookup, cancellation, commit.
  lemma LoginOutlivesCancel(rls: bool)
    ensures var s := Run(rls, LIVE, [LookUp(0, "a@b", "pw", Some(5)), CommitCancel(7, 10), CommitLogin(0, 2, 8, 1000, true)]);
            Deleted(s.db, 7) && 2 in s.db.tokens && s.db.tokens[2] == Token(7, 5, 8, None, None, 1000)
  {
    var run := [LookUp(0, "a@b", "pw", Some(5)), CommitCancel(7, 10), CommitLogin(0, 2, 8, 1000, true)];
    var s1 := Advance(rls, LIVE, run[0]);
    assert s1 == LIVE.(loggingIn := map[0 := Entrant(7, 5)]);
    var s2 := Advance(rls, s1, run[1]);
    assert s2.db.tokens.Keys == {1} && Deleted(s2.db, 7) && s2.loggingIn == s1.loggingIn;
    RunThree(rls, LIVE, run[0], run[1], run[2]);
  }

  // ----- Password resets -----

  // The machine with its history: when each pending handler looked, when the login behind each family
  // looked, and when each user's password was last reset.
  datatype Traced = Traced(sys: Sys, clock: nat, lookedUp: map<Handler, nat>, read: map<Handler, nat>,
                           born: map<FamilyId, nat>, resetAt: map<UserId, nat>)

  function Trace(rls: bool, t: Traced, a: Action): Traced {
    var s := t.sys;
    var next := t.(sys := Advance(rls, s, a), clock := t.clock + 1);
    match a
    case LookUp(h, email, password, pick) =>
      if Finds(s.db, email, pick) && s.db.users[pick.value].password == password then next.(lookedUp := t.lookedUp[h := t.clock]) else next
    case Read(h, presented, now, overlapMs) =>
      if Judge(s.db, presented, now, overlapMs) == Rotates then next.(read := t.read[h := t.clock]) else next
    case CommitLogin(h, _, family, _, _) =>
      if LoginLands(s, a) && h in t.lookedUp then next.(born := t.born[family := t.lookedUp[h]]) else next
    case CommitReset(user, _, _) =>
      if user in s.db.users then next.(resetAt := t.resetAt[user := t.clock]) else next
    case _ => next
  }

  // The login that started the family looked the user up after the last reset of the user's password.
  predicate BornAfter(t: Traced, family: FamilyId, user: UserId) {
    user in t.resetAt ==> family in t.born && t.born[family] > t.resetAt[user]
  }

  // Every live session of a user is newer than the last reset of the password.
  ghost predicate SessionsNew(t: Traced) {
    forall h :: h in t.sys.db.tokens && t.sys.db.tokens[h].revokedAt.None? ==> BornAfter(t, t.sys.db.tokens[h].family, t.sys.db.tokens[h].user)
  }

  // A login or rotation commits whose lookup or read precedes the last reset of the user's password.
  predicate OutlivesReset(t: Traced, a: Action) {
    || (RotationLands(t.sys, a) && a.handler in t.read
        && var user := t.sys.rotating[a.handler].row.user; user in t.resetAt && t.read[a.handler] <= t.resetAt[user])
    || (LoginLands(t.sys, a) && a.handler in t.lookedUp
        && var user := t.sys.loggingIn[a.handler].user; user in t.resetAt && t.lookedUp[a.handler] <= t.resetAt[user])
  }

  ghost predicate Owned(db: Db) {
    forall h :: h in db.tokens ==> OwnedBy(db, db.tokens[h].user, db.tokens[h].tenant)
  }

  ghost predicate BornKnown(t: Traced) {
    forall h :: h in t.sys.db.tokens ==> BornBefore(t, t.sys.db.tokens[h].family, t.clock)
  }

  predicate BornBefore(t: Traced, family: FamilyId, time: nat) {
    family in t.born && t.born[family] < time
  }

  ghost predicate LoginsTimed(t: Traced) {
    forall h :: h in t.sys.loggingIn ==>
      h in t.lookedUp && t.lookedUp[h] < t.clock && OwnedBy(t.sys.db, t.sys.loggingIn[h].user, t.sys.loggingIn[h].tenant)
  }

  ghost predicate ReadsTimed(t: Traced) {
    forall h :: h in t.sys.rotating ==> ReadTimed(t, h)
  }

  // A read that is newer than the user's last reset was of a family that is newer, too.
  predicate ReadTimed(t: Traced, h: Handler)
    requires h in t.sys.rotating
  {
    var row := t.sys.rotating[h].row;
    && h in t.read && t.read[h] < t.clock && BornBefore(t, row.family, t.read[h])
    && (row.user in t.resetAt && t.read[h] > t.resetAt[row.user] ==> t.born[row.family] > t.resetAt[row.user])
    && (row.user !in t.resetAt || t.resetAt[row.user] < t.clock)
  }

  ghost predicate ResetsTimed(t: Traced) {
    forall u :: u in t.resetAt ==> t.resetAt[u] < t.clock
  }

  ghost predicate Timed(t: Traced) {
    PendingKnown(t.sys) && Owned(t.sys.db) && BornKnown(t) && LoginsTimed(t) && ReadsTimed(t) && ResetsTimed(t)
  }

  lemma OwnersStay(rls: bool, s: Sys, a: Action, u: UserId, t: TenantId)
    requires OwnedBy(s.db, u, t)
    ensures OwnedBy(Advance(rls, s, a).db, u, t)
  {
  }

  // Which logins and rotations are pending after a step.
  lemma PendingAfter(rls: bool, s: Sys, a: Action)
    ensures var s' := Advance(rls, s, a);
            && (a.LookUp? ==> s'.loggingIn == (if Finds(s.db, a.email, a.pick) && s.db.users[a.pick.value].password == a.password
                                               then s.loggingIn[a.handler := Entrant(s.db.users[a.pick.value].tenant, a.pick.value)]
                                               else s.loggingIn))
            && (a.CommitLogin? ==> s'.loggingIn == s.loggingIn || s'.loggingIn == s.loggingIn - {a.handler})
            && (!a.LookUp? && !a.CommitLogin? ==> s'.loggingIn == s.loggingIn)
            && (a.CommitRotation? ==> s'.rotating == s.rotating || s'.rotating == s.rotating - {a.handler})
            && (!a.Read? && !a.CommitRotation? ==> s'.rotating == s.rotating)
  {
    hide Judge, CanLogIn, RotateTx, Revoke, OfFamily, OfUser, OfTenant;
  }

  lemma TimesAfter(rls: bool, t: Traced, a: Action)
    ensures var t' := Trace(rls, t, a);
            && t'.sys == Advance(rls, t.sys, a)
            && t'.lookedUp == (if a.LookUp? && Finds(t.sys.db, a.email, a.pick) && t.sys.db.users[a.pick.value].password == a.password
                               then t.lookedUp[a.handler := t.clock] else t.lookedUp)
            && t'.read == (if a.Read? && Judge(t.sys.db, a.presented, a.now, a.overlapMs) == Rotates then t.read[a.handler := t.clock] else t.read)
  {
    hide Judge, CanLogIn, Advance;
  }

  // Each pending login is an old one, or looked up just now.
  lemma TraceLogins(rls: bool, t: Traced, a: Action, h: Handler)
    requires h in Trace(rls, t, a).sys.loggingIn
    ensures var t' := Trace(rls, t, a);
            || (h in t.sys.loggingIn && t'.sys.loggingIn[h] == t.sys.loggingIn[h]
                && (h in t'.lookedUp <==> h in t.lookedUp) && (h in t.lookedUp ==> t'.lookedUp[h] == t.lookedUp[h]))
            || (h in t'.lookedUp && t'.lookedUp[h] == t.clock && OwnedBy(t.sys.db, t'.sys.loggingIn[h].user, t'.sys.loggingIn[h].tenant))
  {
    PendingAfter(rls, t.sys, a);
    TimesAfter(rls, t, a);
    hide Trace, Advance, Judge;
  }

  // Each pending rotation is an old one, or read just now.
  lemma TraceReads(rls: bool, t: Traced, a: Action, h: Handler)
    requires h in Trace(rls, t, a).sys.rotating
    ensures var t', p := Trace(rls, t, a), Trace(rls, t, a).sys.rotating[h];
            || (h in t.sys.rotating && p == t.sys.rotating[h]
                && (h in t'.read <==> h in t.read) && (h in t.read ==> t'.read[h] == t.read[h]))
            || (h in t'.read && t'.read[h] == t.clock && p.presented in t.sys.db.tokens && p.row == t.sys.db.tokens[p.presented]
                && p.row.revokedAt.None?)
  {
    if a.Read? {
      ReadAfter(rls, t, a);
    }
    PendingAfter(rls, t.sys, a);
    TimesAfter(rls, t, a);
    hide Trace, Advance, Finds, Judge;
  }

  lemma ReadAfter(rls: bool, t: Traced, a: Action)
    requires a.Read?
    ensures var s := t.sys;
            if Judge(s.db, a.presented, a.now, a.overlapMs) == Rotates
            then a.presented in s.db.tokens && s.db.tokens[a.presented].revokedAt.None?
                 && Advance(rls, s, a).rotating == s.rotating[a.handler := Pending(a.presented, s.db.tokens[a.presented], a.overlapMs)]
            else Advance(rls, s, a).rotating == s.rotating
  {
  }

  lemma TraceResets(rls: bool, t: Traced, a: Action)
    ensures var t' := Trace(rls, t, a);
            && t'.sys == Advance(rls, t.sys, a) && t'.clock == t.clock + 1
            && t'.resetAt == (if a.CommitReset? && a.user in t.sys.db.users then t.resetAt[a.user := t.clock] else t.resetAt)
            && t'.born == (if LoginLands(t.sys, a) && a.handler in t.lookedUp then t.born[a.family := t.lookedUp[a.handler]] else t.born)
  {
    hide RotateTx, Judge, Finds, Advance;
  }

  lemma TraceKeepsOwned(rls: bool, t: Traced, a: Action)
    requires PendingKnown(t.sys) && Owned(t.sys.db) && LoginsTimed(t)
    ensures Owned(Trace(rls, t, a).sys.db)
  {
    var s, s' := t.sys, Advance(rls, t.sys, a);
    TraceResets(rls, t, a);
    StepTokens(rls, s, a);
    hide Trace, Advance, OwnedBy;
    forall h | h in s'.db.tokens ensures OwnedBy(s'.db, s'.db.tokens[h].user, s'.db.tokens[h].tenant) {
      assert RotationLands(s, a) ==> Known(s.db.tokens, s.rotating[a.handler]);
      assert h in s.db.tokens ==> Evolves(s.db.tokens[h], s'.db.tokens[h]);
      OwnersStay(rls, s, a, s'.db.tokens[h].user, s'.db.tokens[h].tenant);
    }
  }

  lemma TraceKeepsLogins(rls: bool, t: Traced, a: Action)
    requires LoginsTimed(t)
    ensures LoginsTimed(Trace(rls, t, a))
  {
    var t' := Trace(rls, t, a);
    TraceResets(rls, t, a);
    hide Trace, Advance, OwnedBy;
    forall h | h in t'.sys.loggingIn
      ensures h in t'.lookedUp && t'.lookedUp[h] < t'.clock && OwnedBy(t'.sys.db, t'.sys.loggingIn[h].user, t'.sys.loggingIn[h].tenant)
    {
      TraceLogins(rls, t, a, h);
      OwnersStay(rls, t.sys, a, t'.sys.loggingIn[h].user, t'.sys.loggingIn[h].tenant);
    }
  }

  // The login time of a family in use never changes.
  lemma BornStays(rls: bool, t: Traced, a: Action, h: Hash)
    requires BornKnown(t) && FreshFamily(t.sys, a) && h in t.sys.db.tokens
    ensures var f, born := t.sys.db.tokens[h].family, Trace(rls, t, a).born; f in t.born && f in born && born[f] == t.born[f] < t.clock
  {
    TraceResets(rls, t, a);
    hide Trace;
    assert BornBefore(t, t.sys.db.tokens[h].family, t.clock);
    assert a.CommitLogin? ==> h !in InFamily(t.sys.db.tokens, a.family);
  }

  lemma TraceKeepsBorn(rls: bool, t: Traced, a: Action)
    requires PendingKnown(t.sys) && BornKnown(t) && LoginsTimed(t) && FreshFamily(t.sys, a)
    ensures BornKnown(Trace(rls, t, a))
  {
    var s, t' := t.sys, Trace(rls, t, a);
    StepTokens(rls, s, a);
    TraceResets(rls, t, a);
    hide Trace, Advance;
    forall h | h in t'.sys.db.tokens ensures BornBefore(t', t'.sys.db.tokens[h].family, t'.clock) {
      if h in s.db.tokens {
        assert Evolves(s.db.tokens[h], t'.sys.db.tokens[h]);
        BornStays(rls, t, a, h);
      } else if RotationLands(s, a) {
        assert Known(s.db.tokens, s.rotating[a.handler]);
        BornStays(rls, t, a, s.rotating[a.handler].presented);
      }
    }
  }

  lemma TraceKeepsRead(rls: bool, t: Traced, a: Action, h: Handler)
    requires Timed(t) && SessionsNew(t) && FreshFamily(t.sys, a) && h in Trace(rls, t, a).sys.rotating
    ensures ReadTimed(Trace(rls, t, a), h)
  {
    var s, t' := t.sys, Trace(rls, t, a);
    var p := t'.sys.rotating[h];
    TraceReads(rls, t, a, h);
    TraceResets(rls, t, a);
    assert ResetsTimed(t) && (h in s.rotating ==> ReadTimed(t, h) && Known(s.db.tokens, s.rotating[h]));
    assert p.presented in s.db.tokens;
    BornStays(rls, t, a, p.presented);
    hide Trace, Advance, Owned, LoginsTimed, BornKnown, ReadsTimed, PendingKnown, FreshFamily;
    if !(h in s.rotating && p == s.rotating[h] && h in t.read && t'.read[h] == t.read[h]) {
      assert BornAfter(t, s.db.tokens[p.presented].family, s.db.tokens[p.presented].user);
    }
  }

  lemma TraceKeepsTimed(rls: bool, t: Traced, a: Action)
    requires Timed(t) && SessionsNew(t) && FreshFamily(t.sys, a)
    ensures Timed(Trace(rls, t, a))
  {
    StepKeepsPending(rls, t.sys, a);
    TraceKeepsOwned(rls, t, a);
    TraceKeepsLogins(rls, t, a);
    TraceKeepsBorn(rls, t, a);
    forall h | h in Trace(rls, t, a).sys.rotating ensures ReadTimed(Trace(rls, t, a), h) {
      TraceKeepsRead(rls, t, a, h);
    }
    TraceResets(rls, t, a);
    hide Trace, Advance, PendingKnown, Owned, BornKnown, LoginsTimed, ReadTimed;
  }

  // A password reset revokes every token of its user.
  lemma ResetRevokes(rls: bool, t: Traced, a: Action, h: Hash)
    requires Owned(t.sys.db) && a.CommitReset? && a.user in t.sys.db.users
    requires h in Trace(rls, t, a).sys.db.tokens && Trace(rls, t, a).sys.db.tokens[h].user == a.user
    ensures Trace(rls, t, a).sys.db.tokens[h].revokedAt.Some?
  {
    assert h in t.sys.db.tokens && OwnedBy(t.sys.db, t.sys.db.tokens[h].user, t.sys.db.tokens[h].tenant);
  }

  lemma OldSessionsStayNew(rls: bool, t: Traced, a: Action, h: Hash)
    requires Timed(t) && SessionsNew(t) && FreshFamily(t.sys, a) && h in t.sys.db.tokens
    ensures var t' := Trace(rls, t, a);
            h in t'.sys.db.tokens && (t'.sys.db.tokens[h].revokedAt.None? ==> BornAfter(t', t'.sys.db.tokens[h].family, t'.sys.db.tokens[h].user))
  {
    var t' := Trace(rls, t, a);
    StepTokens(rls, t.sys, a);
    TraceResets(rls, t, a);
    BornStays(rls, t, a, h);
    if a.CommitReset? && a.user in t.sys.db.users && t'.sys.db.tokens[h].user == a.user {
      ResetRevokes(rls, t, a, h);
    }
    hide Trace, Advance;
    assert Evolves(t.sys.db.tokens[h], t'.sys.db.tokens[h]);
  }

  lemma TraceKeepsNewIff(rls: bool, t: Traced, a: Action)
    requires Timed(t) && SessionsNew(t) && FreshFamily(t.sys, a)
    ensures SessionsNew(Trace(rls, t, a)) <==> !OutlivesReset(t, a)
  {
    var s, t' := t.sys, Trace(rls, t, a);
    StepTokens(rls, s, a);
    TraceResets(rls, t, a);
    forall h | h in s.db.tokens
      ensures h in t'.sys.db.tokens && (t'.sys.db.tokens[h].revokedAt.None? ==> BornAfter(t', t'.sys.db.tokens[h].family, t'.sys.db.tokens[h].user))
    {
      OldSessionsStayNew(rls, t, a, h);
    }
    hide Trace, Advance;
    if RotationLands(s, a) {
      var p := s.rotating[a.handler];
      assert ReadTimed(t, a.handler) && Known(s.db.tokens, p);
      BornStays(rls, t, a, p.presented);
      assert BornAfter(t', p.row.family, p.row.user) <==> !OutlivesReset(t, a);
    } else if LoginLands(s, a) {
      assert BornAfter(t', a.family, s.loggingIn[a.handler].user) <==> !OutlivesReset(t, a);
    }
  }

  ghost predicate NewThroughout(rls: bool, t: Traced, as_: seq<Action>)
    decreases as_
  {
    SessionsNew(t) && (as_ == [] || NewThroughout(rls, Trace(rls, t, as_[0]), as_[1..]))
  }

  predicate NoneOutlivesReset(rls: bool, t: Traced, as_: seq<Action>)
    decreases as_
  {
    as_ == [] || (!OutlivesReset(t, as_[0]) && NoneOutlivesReset(rls, Trace(rls, t, as_[0]), as_[1..]))
  }

  // However handlers overlap: in every state of a run each live session of a user stems from a login that
  // looked the user up after the last reset of the password, exactly when no login and no rotation commits
  // whose lookup or read precedes that reset.
  lemma {:induction false} ResetStaysEndedIff(rls: bool, t: Traced, as_: seq<Action>)
    requires Timed(t) && SessionsNew(t) && FreshFamilies(rls, t.sys, as_)
    ensures NewThroughout(rls, t, as_) <==> NoneOutlivesReset(rls, t, as_)
    decreases as_
  {
    if as_ != [] {
      TraceResets(rls, t, as_[0]);
      hide Trace, Advance, Timed, SessionsNew, OutlivesReset, FreshFamily;
      TraceKeepsTimed(rls, t, as_[0]);
      TraceKeepsNewIff(rls, t, as_[0]);
      if !OutlivesReset(t, as_[0]) {
        ResetStaysEndedIff(rls, Trace(rls, t, as_[0]), as_[1..]);
      }
    }
  }

  function Untraced(orgs: map<TenantId, Option<int>>, users: map<UserId, User>): Traced {
    Traced(Empty(orgs, users), 0, map[], map[], map[], map[])
  }

  lemma UntracedIsTimed(orgs: map<TenantId, Option<int>>, users: map<UserId, User>)
    ensures Timed(Untraced(orgs, users)) && SessionsNew(Untraced(orgs, users))
  {
  }

  // It happens: a login that verified the old password, the reset, and the login's commit.
  lemma LoginOutlivesReset(rls: bool)
    ensures var s := Run(rls, LIVE, [LookUp(0, "a@b", "pw", Some(5)), CommitReset(5, "new", 10), CommitLogin(0, 2, 8, 1000, true)]);
            && s.db.users[5].password == "new" && s.db.tokens.Keys == {1, 2}
            && s.db.tokens[1].revokedAt == Some(10) && s.db.tokens[2] == Token(7, 5, 8, None, None, 1000)
  {
    var run := [LookUp(0, "a@b", "pw", Some(5)), CommitReset(5, "new", 10), CommitLogin(0, 2, 8, 1000, true)];
    var s1 := Advance(rls, LIVE, run[0]);
    assert s1 == LIVE.(loggingIn := map[0 := Entrant(7, 5)]);
    var s2 := Advance(rls, s1, run[1]);
    assert s2.db.tokens == map[1 := ISSUED.(revokedAt := Some(10))] && s2.loggingIn == s1.loggingIn;
    RunThree(rls, LIVE, run[0], run[1], run[2]);
  }

  // ----- The overlap window -----

  // Every rotation so far committed within the overlap of its parent's single used_at.
  ghost predicate WindowsKept(s: Sys) {
    forall i :: 0 <= i < |s.log| ==> InWindow(s.db.tokens, s.log[i])
  }

  predicate InWindow(tokens: Tokens, r: Rotation) {
    r.presented in tokens && tokens[r.presented].usedAt.Some? && r.at - tokens[r.presented].usedAt.value <= r.overlapMs
  }

  // A rotation commits for a parent used longer ago than the overlap it was read with.
  predicate CommitsLate(s: Sys, a: Action) {
    && RotationLands(s, a)
    && var p := s.rotating[a.handler];
       p.presented in s.db.tokens && s.db.tokens[p.presented].usedAt.Some? && a.now - s.db.tokens[p.presented].usedAt.value > p.overlapMs
  }

  // used_at is written once.
  lemma InWindowStays(rls: bool, s: Sys, a: Action, r: Rotation)
    requires PendingKnown(s) && r.presented in s.db.tokens && s.db.tokens[r.presented].usedAt.Some?
    ensures InWindow(Advance(rls, s, a).db.tokens, r) <==> InWindow(s.db.tokens, r)
  {
    StepTokens(rls, s, a);
    hide Advance;
    assert Evolves(s.db.tokens[r.presented], Advance(rls, s, a).db.tokens[r.presented]);
  }

  ghost predicate ParentsUsed(s: Sys) {
    forall i :: 0 <= i < |s.log| ==> s.log[i].presented in s.db.tokens && s.db.tokens[s.log[i].presented].usedAt.Some?
  }

  lemma StepKeepsWindowsIff(rls: bool, s: Sys, a: Action)
    requires PendingKnown(s) && ParentsUsed(s)
    ensures ParentsUsed(Advance(rls, s, a))
    ensures WindowsKept(Advance(rls, s, a)) <==> WindowsKept(s) && !CommitsLate(s, a)
  {
    var s' := Advance(rls, s, a);
    StepTokens(rls, s, a);
    StepLogs(rls, s, a);
    hide Advance;
    forall i | 0 <= i < |s.log| ensures s'.log[i] == s.log[i] && (InWindow(s'.db.tokens, s.log[i]) <==> InWindow(s.db.tokens, s.log[i])) {
      InWindowStays(rls, s, a, s.log[i]);
    }
    forall i | 0 <= i < |s.log| ensures s.log[i].presented in s'.db.tokens && s'.db.tokens[s.log[i].presented].usedAt.Some? {
      assert Evolves(s.db.tokens[s.log[i].presented], s'.db.tokens[s.log[i].presented]);
    }
  }

  // The log grows by the rotation that lands, whose parent is then used.
  lemma StepLogs(rls: bool, s: Sys, a: Action)
    requires PendingKnown(s)
    ensures var s' := Advance(rls, s, a);
            if RotationLands(s, a)
            then |s'.log| == |s.log| + 1 && s'.log[..|s.log|] == s.log && s'.log[|s.log|].presented in s'.db.tokens
                 && s'.db.tokens[s'.log[|s.log|].presented].usedAt.Some? && (InWindow(s'.db.tokens, s'.log[|s.log|]) <==> !CommitsLate(s, a))
            else s'.log == s.log
  {
    if RotationLands(s, a) {
      assert Known(s.db.tokens, s.rotating[a.handler]);
    }
  }

  predicate NoneCommitsLate(rls: bool, s: Sys, as_: seq<Action>)
    decreases as_
  {
    as_ == [] || (!CommitsLate(s, as_[0]) && NoneCommitsLate(rls, Advance(rls, s, as_[0]), as_[1..]))
  }

  // However handlers overlap: at the end of a run every token issued from a parent was issued within the
  // overlap of the parent's used_at, exactly when each rotation that commits for a used parent still does
  // so within the overlap.
  lemma {:induction false} OverlapKeptIff(rls: bool, s: Sys, as_: seq<Action>)
    requires PendingKnown(s) && ParentsUsed(s)
    ensures WindowsKept(Run(rls, s, as_)) <==> WindowsKept(s) && NoneCommitsLate(rls, s, as_)
    decreases as_
  {
    if as_ != [] {
      hide Advance, PendingKnown, ParentsUsed, WindowsKept, CommitsLate;
      StepKeepsPending(rls, s, as_[0]);
      StepKeepsWindowsIff(rls, s, as_[0]);
      OverlapKeptIff(rls, Advance(rls, s, as_[0]), as_[1..]);
    }
  }

  // It happens: two handlers read an unused token, and the second commits long after the first.
  lemma LateRotation(rls: bool)
    ensures var s := Run(rls, LIVE.(rotating := map[0 := Pending(1, ISSUED, 100)]),
                         [Read(1, 1, 10, 100), CommitRotation(0, 2, 20, 1000, true), CommitRotation(1, 3, 5000, 9000, true)]);
            && s.db.tokens.Keys == {1, 2, 3} && s.db.tokens[1].usedAt == Some(20)
            && |s.log| == 2 && s.log[1].presented == 1 && s.log[1].at - 20 > s.log[1].overlapMs
  {
    var s0 := LIVE.(rotating := map[0 := Pending(1, ISSUED, 100)]);
    var run := [Read(1, 1, 10, 100), CommitRotation(0, 2, 20, 1000, true), CommitRotation(1, 3, 5000, 9000, true)];
    var s1 := Advance(rls, s0, run[0]);
    assert s1 == LIVE.(rotating := map[0 := Pending(1, ISSUED, 100), 1 := Pending(1, ISSUED, 100)]);
    var s2 := Advance(rls, s1, run[1]);
    assert s2.rotating == map[1 := Pending(1, ISSUED, 100)] && s2.db.tokens.Keys == {1, 2} && s2.db.tokens[1].usedAt == Some(20);
    assert |s2.log| == 1;
    RunThree(rls, s0, run[0], run[1], run[2]);
  }

  // ----- One handler at a time -----

  // A handler that nothing interrupts leaves the rows that the serial step leaves.
  lemma UninterruptedRotation(rls: bool, s: Sys, e: Event, h: Handler)
    requires e.Refresh? && h !in s.rotating && h !in s.revoking
    ensures var s1 := Advance(rls, s, Read(h, e.presented, e.now, e.overlapMs));
            var s2 := Advance(rls, s1, CommitRotation(h, e.hash, e.now, e.expiresAt, e.commits));
            var s3 := Advance(rls, s2, CommitRevocation(h, e.now, e.commits));
            s3.db == Sessions.Step(rls, s.db, e).0
  {
    hide Revoke, RotateTx, OfFamily;
    var s1 := Advance(rls, s, Read(h, e.presented, e.now, e.overlapMs));
    assert s1.db == s.db;
    match Judge(s.db, e.presented, e.now, e.overlapMs)
    case Rotates =>
      assert s1.rotating[h] == Pending(e.presented, s.db.tokens[e.presented], e.overlapMs);
    case Reused =>
      assert s1.revoking[h] == s.db.tokens[e.presented];
    case _ =>
  }

  lemma UninterruptedLogin(rls: bool, s: Sys, e: Event, h: Handler)
    requires e.Login? && h !in s.loggingIn
    ensures var s1 := Advance(rls, s, LookUp(h, e.email, e.password, e.pick));
            Advance(rls, s1, CommitLogin(h, e.hash, e.family, e.expiresAt, e.commits)).db == Sessions.Step(rls, s.db, e).0
  {
    hide CanLogIn;
  }

  lemma UninterruptedEnds(rls: bool, s: Sys, e: Event)
    ensures e.Cancel? && e.commits ==> Advance(rls, s, CommitCancel(e.tenant, e.now)).db == Sessions.Step(rls, s.db, e).0
    ensures e.ConfirmReset? && Sessions.Step(rls, s.db, e).1 == PasswordChanged && Grounded(s.db) ==>
              Advance(rls, s, CommitReset(s.db.resets[e.reset].user, e.newPassword, e.now)).db.(resets := map[])
              == Sessions.Step(rls, s.db, e).0.(resets := map[])
  {
    if e.ConfirmReset? && e.reset in s.db.resets {
      assert Grounded(s.db) ==> OwnedBy(s.db, s.db.resets[e.reset].user, s.db.resets[e.reset].tenant);
    }
    hide Revoke;
  }
}
