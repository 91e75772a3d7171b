// Sessions under concurrency: rotateRefreshToken reads the presented token's row before its transaction
// (src/auth/refresh.service.ts:52-114), and login reads the user and verifies the password before its own
// (src/auth/login.service.ts:35-81), so handlers interleave between read and commit.

module RotationRaces {
  import opened Prelude
  import opened Sessions

  type Handler = nat

  // A handler between its read and its transaction: the presented token and the row it has seen.
  datatype Pending = Pending(presented: Hash, row: Token, overlapMs: nat)

  // A login between its lookup and its transaction: the user whose password it has verified.
  datatype Entrant = Entrant(tenant: TenantId, user: UserId)

  // One committed rotation; `marked` tells whether its UPDATE of used_at matched a row.
  datatype Rotation = Rotation(presented: Hash, family: FamilyId, marked: bool, at: int, overlapMs: nat)

  function Logged(p: Pending, marked: bool, at: int): Rotation {
    Rotation(p.presented, p.row.family, marked, at, p.overlapMs)
  }

  datatype Sys = Sys(db: Db, rotating: map<Handler, Pending>, revoking: map<Handler, Token>, loggingIn: map<Handler, Entrant>,
                     log: seq<Rotation>)

  datatype Action =
    | Read(handler: Handler, presented: Hash, now: int, overlapMs: nat)
    | CommitRotation(handler: Handler, hash: Hash, now: int, expiresAt: int, commits: bool)
    | CommitRevocation(handler: Handler, now: int, commits: bool)
    | LookUp(handler: Handler, email: string, password: string, pick: Option<UserId>)
    | CommitLogin(handler: Handler, hash: Hash, family: FamilyId, expiresAt: int, commits: bool)
    | CommitReset(user: UserId, password: string, now: int)
    | CommitCancel(tenant: TenantId, now: int)
    | Enroll(id: UserId, row: User)

  function Advance(rls: bool, s: Sys, a: Action): Sys {
    var tokens := s.db.tokens;
    match a
    case Read(h, presented, now, overlapMs) =>
      (match Judge(s.db, presented, now, overlapMs)
       case Rotates => s.(rotating := s.rotating[h := Pending(presented, tokens[presented], overlapMs)])
       case Reused => s.(revoking := s.revoking[h := tokens[presented]])
       case _ => s)
    case CommitRotation(h, hash, now, expiresAt, commits) =>
      if h !in s.rotating then s
      else if !commits || hash in tokens then s.(rotating := s.rotating - {h})
      else
        var p := s.rotating[h];
        var marked := p.presented in tokens && tokens[p.presented].usedAt.None?;
        s.(db := s.db.(tokens := RotateTx(tokens, p.presented, p.row, hash, now, expiresAt)),
           rotating := s.rotating - {h}, log := s.log + [Logged(p, marked, now)])
    case CommitRevocation(h, now, commits) =>
      if h !in s.revoking then s
      else
        var row := s.revoking[h];
        s.(revoking := s.revoking - {h},
           db := if commits then s.db.(tokens := Revoke(tokens, OfFamily(tokens, rls, row.tenant, row.family), now)) else s.db)
    case LookUp(h, email, password, pick) =>
      if !Finds(s.db, email, pick) || s.db.users[pick.value].password != password then s
      else s.(loggingIn := s.loggingIn[h := Entrant(s.db.users[pick.value].tenant, pick.value)])
    case CommitLogin(h, hash, family, expiresAt, commits) =>
      if h !in s.loggingIn then s
      else if !commits || hash in tokens then s.(loggingIn := s.loggingIn - {h})
      else
        var e := s.loggingIn[h];
        s.(db := s.db.(tokens := tokens[hash := Token(e.tenant, e.user, family, None, None, expiresAt)]), loggingIn := s.loggingIn - {h})
    case CommitReset(user, password, now) =>
      if user !in s.db.users then s
      else
        var row := s.db.users[user];
        s.(db := s.db.(users := s.db.users[user := row.(password := password)],
                       tokens := Revoke(tokens, OfUser(tokens, rls, row.tenant, user), now)))
    case CommitCancel(tenant, now) =>
      if tenant !in s.db.orgs then s
      else s.(db := s.db.(orgs := s.db.orgs[tenant := Some(now)], tokens := Revoke(tokens, OfTenant(tokens, rls, tenant), now)))
    case Enroll(id, row) =>
      if id in s.db.users then s
      else
        s.(db := s.db.(orgs := if row.tenant in s.db.orgs then s.db.orgs else s.db.orgs[row.tenant := None],
                       users := s.db.users[id := row]))
  }

  function Run(rls: bool, s: Sys, as_: seq<Action>): Sys
    decreases as_
  {
    if as_ == [] then s else Run(rls, Advance(rls, s, as_[0]), as_[1..])
  }

  // ----- Counting -----

  function InFamily(tokens: Tokens, f: FamilyId): set<Hash> {
    set h | h in tokens && tokens[h].family == f
  }

  function Unused(tokens: Tokens, f: FamilyId): set<Hash> {
    set h | h in tokens && tokens[h].family == f && tokens[h].usedAt.None?
  }

  function Rotations(log: seq<Rotation>, f: FamilyId): nat {
    if log == [] then 0
    else Rotations(log[..|log| - 1], f) + if log[|log| - 1].family == f then 1 else 0
  }

  // Rotations whose mark-used update matched no row.
  function Misses(log: seq<Rotation>, f: FamilyId): nat {
    if log == [] then 0
    else Misses(log[..|log| - 1], f) + if log[|log| - 1].family == f && !log[|log| - 1].marked then 1 else 0
  }

  // Writes of used_at to one token.
  function Marks(log: seq<Rotation>, h: Hash): nat {
    if log == [] then 0
    else Marks(log[..|log| - 1], h) + if log[|log| - 1].presented == h && log[|log| - 1].marked then 1 else 0
  }

  lemma CountsAppend(log: seq<Rotation>, r: Rotation)
    ensures forall f :: Rotations(log + [r], f) == Rotations(log, f) + if r.family == f then 1 else 0
    ensures forall f :: Misses(log + [r], f) == Misses(log, f) + if r.family == f && !r.marked then 1 else 0
    ensures forall h :: Marks(log + [r], h) == Marks(log, h) + if r.presented == h && r.marked then 1 else 0
  {
    assert (log + [r])[..|log|] == log;
  }

  ghost predicate Conserved(tokens: Tokens, log: seq<Rotation>) {
    Balanced(tokens, log) && MarkedOnce(tokens, log) && LogKnown(tokens, log)
  }

  ghost predicate Balanced(tokens: Tokens, log: seq<Rotation>) {
    forall h :: h in tokens ==> FamilyBalanced(tokens, log, tokens[h].family)
  }

  ghost predicate MarkedOnce(tokens: Tokens, log: seq<Rotation>) {
    forall h :: Marks(log, h) == if h in tokens && tokens[h].usedAt.Some? then 1 else 0
  }

  ghost predicate LogKnown(tokens: Tokens, log: seq<Rotation>) {
    forall i :: 0 <= i < |log| ==> InFamily(tokens, log[i].family) != {}
  }

  ghost predicate FamilyBalanced(tokens: Tokens, log: seq<Rotation>, f: FamilyId) {
    && |InFamily(tokens, f)| == 1 + Rotations(log, f)
    && |Unused(tokens, f)| == 1 + Misses(log, f)
  }

  ghost predicate PendingKnown(s: Sys) {
    forall h :: h in s.rotating ==> Known(s.db.tokens, s.rotating[h])
  }

  predicate Known(tokens: Tokens, p: Pending) {
    && p.presented in tokens
    && p.row.tenant == tokens[p.presented].tenant && p.row.user == tokens[p.presented].user
    && p.row.family == tokens[p.presented].family
  }

  ghost predicate Inv(s: Sys) {
    PendingKnown(s) && Conserved(s.db.tokens, s.log)
  }

  // randomUUID never repeats a family id.
  ghost predicate FreshFamily(s: Sys, a: Action) {
    a.CommitLogin? ==> InFamily(s.db.tokens, a.family) == {}
  }

  ghost predicate FreshFamilies(rls: bool, s: Sys, as_: seq<Action>)
    decreases as_
  {
    as_ == [] || (FreshFamily(s, as_[0]) && FreshFamilies(rls, Advance(rls, s, as_[0]), as_[1..]))
  }

  lemma {:induction false} NoRotationsYet(log: seq<Rotation>, f: FamilyId)
    requires forall i :: 0 <= i < |log| ==> log[i].family != f
    ensures Rotations(log, f) == 0 && Misses(log, f) == 0
  {
    if log != [] {
      NoRotationsYet(log[..|log| - 1], f);
    }
  }

  lemma RevocationKeepsSets(tokens: Tokens, hit: set<Hash>, now: int, f: FamilyId)
    ensures InFamily(Revoke(tokens, hit, now), f) == InFamily(tokens, f)
    ensures Unused(Revoke(tokens, hit, now), f) == Unused(tokens, f)
  {
  }

  // Revocations touch neither membership nor used_at.
  lemma RevocationConserves(tokens: Tokens, hit: set<Hash>, now: int, log: seq<Rotation>)
    requires Conserved(tokens, log)
    ensures Conserved(Revoke(tokens, hit, now), log)
  {
    hide Rotations, Misses, Marks;
    var ts := Revoke(tokens, hit, now);
    InsertionKeepsLogKnown(tokens, ts, log);
    forall h | h in ts ensures FamilyBalanced(ts, log, ts[h].family) {
      RevocationKeepsSets(tokens, hit, now, tokens[h].family);
      OtherFamilySame(tokens, ts, log, tokens[h].family);
    }
  }

  // An insertion leaves every other family as it is.
  lemma OtherFamilySame(tokens: Tokens, ts: Tokens, log: seq<Rotation>, g: FamilyId)
    requires FamilyBalanced(tokens, log, g)
    requires InFamily(ts, g) == InFamily(tokens, g) && Unused(ts, g) == Unused(tokens, g)
    ensures FamilyBalanced(ts, log, g)
  {
  }

  lemma InsertionKeepsLogKnown(tokens: Tokens, ts: Tokens, log: seq<Rotation>)
    requires LogKnown(tokens, log) && forall h :: h in tokens ==> h in ts && ts[h].family == tokens[h].family
    ensures LogKnown(ts, log)
  {
    forall i | 0 <= i < |log| ensures InFamily(ts, log[i].family) != {} {
      var h :| h in InFamily(tokens, log[i].family);
      assert h in InFamily(ts, log[i].family);
    }
  }

  lemma LoginConserves(tokens: Tokens, hash: Hash, t: Token, log: seq<Rotation>)
    requires Conserved(tokens, log) && hash !in tokens && t.usedAt.None? && InFamily(tokens, t.family) == {}
    ensures Conserved(tokens[hash := t], log)
  {
    var ts := tokens[hash := t];
    InsertionKeepsLogKnown(tokens, ts, log);
    forall h | h in ts ensures FamilyBalanced(ts, log, ts[h].family) {
      if ts[h].family == t.family {
        assert h != hash ==> h in InFamily(tokens, t.family);
        assert InFamily(ts, t.family) == {hash} && Unused(ts, t.family) == {hash};
        NoRotationsYet(log, t.family);
      } else {
        OtherFamilySame(tokens, ts, log, tokens[h].family);
      }
    }
  }

  lemma RotationSets(tokens: Tokens, p: Pending, hash: Hash, now: int, expiresAt: int)
    requires Known(tokens, p) && hash !in tokens
    ensures var f := p.row.family;
            var ts := RotateTx(tokens, p.presented, p.row, hash, now, expiresAt);
            && InFamily(ts, f) == InFamily(tokens, f) + {hash}
            && Unused(ts, f) == (if tokens[p.presented].usedAt.None? then Unused(tokens, f) - {p.presented} else Unused(tokens, f)) + {hash}
  {
  }

  lemma RotationBalancesOwn(tokens: Tokens, p: Pending, hash: Hash, now: int, expiresAt: int, log: seq<Rotation>)
    requires Known(tokens, p) && hash !in tokens && FamilyBalanced(tokens, log, p.row.family)
    ensures FamilyBalanced(RotateTx(tokens, p.presented, p.row, hash, now, expiresAt),
                           log + [Logged(p, tokens[p.presented].usedAt.None?, now)], p.row.family)
  {
    var f, marked := p.row.family, tokens[p.presented].usedAt.None?;
    CountsAppend(log, Logged(p, marked, now));
    hide Rotations, Misses, Marks;
    RotationSets(tokens, p, hash, now, expiresAt);
    assert hash !in InFamily(tokens, f) && hash !in Unused(tokens, f);
    assert marked <==> p.presented in Unused(tokens, f);
  }

  lemma RotationBalancesOther(tokens: Tokens, p: Pending, hash: Hash, now: int, expiresAt: int, log: seq<Rotation>, marked: bool, g: FamilyId)
    requires Known(tokens, p) && hash !in tokens && FamilyBalanced(tokens, log, g) && g != p.row.family
    ensures FamilyBalanced(RotateTx(tokens, p.presented, p.row, hash, now, expiresAt),
                           log + [Logged(p, marked, now)], g)
  {
    CountsAppend(log, Logged(p, marked, now));
    hide Rotations, Misses, Marks;
    var ts := RotateTx(tokens, p.presented, p.row, hash, now, expiresAt);
    assert InFamily(ts, g) == InFamily(tokens, g) && Unused(ts, g) == Unused(tokens, g);
  }

  lemma RotationMarksOnce(tokens: Tokens, p: Pending, hash: Hash, now: int, expiresAt: int, log: seq<Rotation>)
    requires Known(tokens, p) && hash !in tokens && MarkedOnce(tokens, log)
    ensures MarkedOnce(RotateTx(tokens, p.presented, p.row, hash, now, expiresAt),
                       log + [Logged(p, tokens[p.presented].usedAt.None?, now)])
  {
    CountsAppend(log, Logged(p, tokens[p.presented].usedAt.None?, now));
    hide Rotations, Misses, Marks;
  }

  // One rotation adds one token; it also uses one up, unless its mark-used update missed.
  lemma RotationConserves(tokens: Tokens, p: Pending, hash: Hash, now: int, expiresAt: int, log: seq<Rotation>)
    requires Conserved(tokens, log) && Known(tokens, p) && hash !in tokens
    ensures Conserved(RotateTx(tokens, p.presented, p.row, hash, now, expiresAt),
                      log + [Logged(p, tokens[p.presented].usedAt.None?, now)])
  {
    hide Rotations, Misses, Marks, Unused;
    var f, marked := p.row.family, tokens[p.presented].usedAt.None?;
    var ts := RotateTx(tokens, p.presented, p.row, hash, now, expiresAt);
    InsertionKeepsLogKnown(tokens, ts, log);
    RotationMarksOnce(tokens, p, hash, now, expiresAt, log);
    RotationBalancesOwn(tokens, p, hash, now, expiresAt, log);
    assert hash in InFamily(ts, f);
    hide FamilyBalanced, MarkedOnce, InFamily;
    forall h | h in ts ensures FamilyBalanced(ts, log + [Logged(p, marked, now)], ts[h].family) {
      if ts[h].family != f {
        assert FamilyBalanced(tokens, log, tokens[h].family);
        RotationBalancesOther(tokens, p, hash, now, expiresAt, log, marked, tokens[h].family);
      }
    }
  }

  lemma KnownStays(rls: bool, s: Sys, a: Action, p: Pending)
    requires Known(s.db.tokens, p)
    ensures Known(Advance(rls, s, a).db.tokens, p)
  {
  }

  lemma StepKeepsInv(rls: bool, s: Sys, a: Action)
    requires Inv(s) && FreshFamily(s, a)
    ensures Inv(Advance(rls, s, a))
  {
    hide Conserved;
    var s' := Advance(rls, s, a);
    forall h | h in s'.rotating ensures Known(s'.db.tokens, s'.rotating[h]) {
      assert h in s.rotating ==> Known(s.db.tokens, s.rotating[h]);
      KnownStays(rls, s, a, s'.rotating[h]);
    }
    StepConserves(rls, s, a);
  }

  lemma StepConserves(rls: bool, s: Sys, a: Action)
    requires Inv(s) && FreshFamily(s, a)
    ensures Conserved(Advance(rls, s, a).db.tokens, Advance(rls, s, a).log)
  {
    hide Conserved;
    var tokens := s.db.tokens;
    match a
    case Read(_, _, _, _) =>
    case CommitRotation(h, hash, now, expiresAt, _) =>
      if h in s.rotating && hash !in tokens {
        assert Known(tokens, s.rotating[h]);
        RotationConserves(tokens, s.rotating[h], hash, now, expiresAt, s.log);
      }
    case CommitRevocation(h, now, _) =>
      if h in s.revoking {
        RevocationConserves(tokens, OfFamily(tokens, rls, s.revoking[h].tenant, s.revoking[h].family), now, s.log);
      }
    case CommitLogin(h, hash, family, expiresAt, _) =>
      if h in s.loggingIn && hash !in tokens {
        LoginConserves(tokens, hash, Token(s.loggingIn[h].tenant, s.loggingIn[h].user, family, None, None, expiresAt), s.log);
      }
    case CommitReset(user, _, now) =>
      if user in s.db.users {
        RevocationConserves(tokens, OfUser(tokens, rls, s.db.users[user].tenant, user), now, s.log);
      }
    case CommitCancel(tenant, now) =>
      RevocationConserves(tokens, OfTenant(tokens, rls, tenant), now, s.log);
    case _ =>
  }

  // However handlers interleave: each family has one token more than it has had rotations, one
  // unused token more than rotations whose mark-used update missed, and used_at is written exactly
  // once for each used token and never for another.
  lemma {:induction false} TokensConserved(rls: bool, s: Sys, as_: seq<Action>)
    requires Inv(s) && FreshFamilies(rls, s, as_)
    ensures Inv(Run(rls, s, as_))
    decreases as_
  {
    if as_ != [] {
      hide Inv, Advance, FreshFamily;
      StepKeepsInv(rls, s, as_[0]);
      TokensConserved(rls, Advance(rls, s, as_[0]), as_[1..]);
    }
  }

  function Empty(orgs: map<TenantId, Option<int>>, users: map<UserId, User>): Sys {
    Sys(Db(orgs, users, map[], map[]), map[], map[], map[], [])
  }

  lemma EmptyIsConserved(orgs: map<TenantId, Option<int>>, users: map<UserId, User>)
    ensures Inv(Empty(orgs, users))
  {
  }

  lemma EveryFamilyConserved(rls: bool, orgs: map<TenantId, Option<int>>, users: map<UserId, User>, as_: seq<Action>, h: Hash)
    requires FreshFamilies(rls, Empty(orgs, users), as_)
    requires h in Run(rls, Empty(orgs, users), as_).db.tokens
    ensures var s := Run(rls, Empty(orgs, users), as_);
            var f := s.db.tokens[h].family;
            && |InFamily(s.db.tokens, f)| == 1 + Rotations(s.log, f)
            && |Unused(s.db.tokens, f)| == 1 + Misses(s.log, f)
            && Marks(s.log, h) == if s.db.tokens[h].usedAt.Some? then 1 else 0
  {
    EmptyIsConserved(orgs, users);
    TokensConserved(rls, Empty(orgs, users), as_);
    hide Run, Rotations, Misses, Marks, InFamily, Unused;
    var s := Run(rls, Empty(orgs, users), as_);
    assert FamilyBalanced(s.db.tokens, s.log, s.db.tokens[h].family);
  }

  // ----- What does not survive the interleaving -----

  // A commit after the read keeps families whole exactly when no revocation has come in between.
  lemma LateCommitKeepsWholeIff(rls: bool, s: Sys, a: Action)
    requires Inv(s) && FamiliesWhole(s.db.tokens)
    requires a.CommitRotation? && a.commits && a.handler in s.rotating && a.hash !in s.db.tokens
    ensures s.rotating[a.handler].presented in s.db.tokens
    ensures FamiliesWhole(Advance(rls, s, a).db.tokens) <==> s.db.tokens[s.rotating[a.handler].presented].revokedAt.None?
  {
    var p := s.rotating[a.handler];
    assert Known(s.db.tokens, p);
    RotationKeepsWholeIff(s.db.tokens, p.presented, p.row, a.hash, a.now, a.expiresAt);
  }

  // A rotation commits for a token that has been revoked.
  predicate Revives(s: Sys, a: Action) {
    && a.CommitRotation? && a.handler in s.rotating && a.commits && a.hash !in s.db.tokens
    && var presented := s.rotating[a.handler].presented;
       presented in s.db.tokens && s.db.tokens[presented].revokedAt.Some?
  }

  lemma StepKeepsWholeIff(rls: bool, s: Sys, a: Action)
    requires Inv(s) && FreshFamily(s, a) && FamiliesWhole(s.db.tokens)
    ensures FamiliesWhole(Advance(rls, s, a).db.tokens) <==> !Revives(s, a)
  {
    hide Conserved;
    var tokens := s.db.tokens;
    match a
    case Read(_, _, _, _) =>
    case CommitRotation(h, hash, now, expiresAt, commits) =>
      if h in s.rotating && hash !in tokens {
        var p := s.rotating[h];
        assert Known(tokens, p);
        RotationKeepsWholeIff(tokens, p.presented, p.row, hash, now, expiresAt);
      }
    case CommitRevocation(h, now, _) =>
      if h in s.revoking {
        var row := s.revoking[h];
        HitsAreWhole(tokens, rls, row.tenant, row.family, row.user);
        RevokeKeepsWhole(tokens, OfFamily(tokens, rls, row.tenant, row.family), now);
      }
    case CommitLogin(h, hash, family, expiresAt, _) =>
      if h in s.loggingIn {
        LoginKeepsWhole(tokens, hash, Token(s.loggingIn[h].tenant, s.loggingIn[h].user, family, None, None, expiresAt));
      }
    case CommitReset(user, _, now) =>
      if user in s.db.users {
        HitsAreWhole(tokens, rls, s.db.users[user].tenant, 0, user);
        RevokeKeepsWhole(tokens, OfUser(tokens, rls, s.db.users[user].tenant, user), now);
      }
    case CommitCancel(tenant, now) =>
      HitsAreWhole(tokens, rls, tenant, 0, 0);
      RevokeKeepsWhole(tokens, OfTenant(tokens, rls, tenant), now);
    case _ =>
  }

  lemma LoginKeepsWhole(tokens: Tokens, hash: Hash, t: Token)
    requires FamiliesWhole(tokens) && InFamily(tokens, t.family) == {}
    ensures hash !in tokens ==> FamiliesWhole(tokens[hash := t])
  {
    forall h | h in tokens ensures tokens[h].family != t.family {
      assert h !in InFamily(tokens, t.family);
    }
  }

  // Families are whole in every state of the run.
  ghost predicate WholeThroughout(rls: bool, s: Sys, as_: seq<Action>)
    decreases as_
  {
    FamiliesWhole(s.db.tokens) && (as_ == [] || WholeThroughout(rls, Advance(rls, s, as_[0]), as_[1..]))
  }

  predicate RevivesNone(rls: bool, s: Sys, as_: seq<Action>)
    decreases as_
  {
    as_ == [] || (!Revives(s, as_[0]) && RevivesNone(rls, Advance(rls, s, as_[0]), as_[1..]))
  }

  // So an interleaved run keeps every family whole throughout exactly when each rotation that commits
  // finds its presented token unrevoked.
  lemma {:induction false} RunKeepsWholeIff(rls: bool, s: Sys, as_: seq<Action>)
    requires Inv(s) && FreshFamilies(rls, s, as_) && FamiliesWhole(s.db.tokens)
    ensures WholeThroughout(rls, s, as_) <==> RevivesNone(rls, s, as_)
    decreases as_
  {
    if as_ != [] {
      hide Inv, Advance, FreshFamily, Revives, FamiliesWhole;
      StepKeepsInv(rls, s, as_[0]);
      StepKeepsWholeIff(rls, s, as_[0]);
      if !Revives(s, as_[0]) {
        RunKeepsWholeIff(rls, Advance(rls, s, as_[0]), as_[1..]);
      }
    }
  }

  // ----- Concrete runs -----

  const ORGS: map<TenantId, Option<int>> := map[7 := None]
  const USERS := map[5 := User(7, "a@b", "pw")]
  const ISSUED := Token(7, 5, 9, None, None, 100000)

  // One tenant with one user, who has one live session.
  const LIVE := Sys(Db(ORGS, USERS, map[1 := ISSUED], map[]), map[], map[], map[], [])

  lemma RunThree(rls: bool, s: Sys, a: Action, b: Action, c: Action)
    ensures Run(rls, s, [a, b, c]) == Advance(rls, Advance(rls, Advance(rls, s, a), b), c)
  {
    hide Advance;
    assert [a, b, c][1..] == [b, c] && [b, c][1..] == [c] && [c][1..] == [];
    var s1 := Advance(rls, s, a);
    assert Run(rls, s, [a, b, c]) == Run(rls, s1, [b, c]) == Run(rls, Advance(rls, s1, b), [c]);
    assert Run(rls, Advance(rls, s1, b), [c]) == Run(rls, Advance(rls, Advance(rls, s1, b), c), []);
  }

  // Revocation of a whole family is lost in this run: read, password reset, commit.
  lemma RevivedFamily(rls: bool)
    ensures var tokens := Run(rls, LIVE, [Read(0, 1, 10, 100), CommitReset(5, "new", 20), CommitRotation(0, 2, 30, 1000, true)]).db.tokens;
            && tokens.Keys == {1, 2} && tokens[1].family == tokens[2].family
            && tokens[1].revokedAt == Some(20) && tokens[2].revokedAt == None
  {
    var run := [Read(0, 1, 10, 100), CommitReset(5, "new", 20), CommitRotation(0, 2, 30, 1000, true)];
    var s1 := Advance(rls, LIVE, run[0]);
    assert s1 == LIVE.(rotating := map[0 := Pending(1, ISSUED, 100)]);
    var s2 := Advance(rls, s1, run[1]);
    assert s2.db.tokens == map[1 := ISSUED.(revokedAt := Some(20))];
    RunThree(rls, LIVE, run[0], run[1], run[2]);
  }
}
