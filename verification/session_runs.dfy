// What every serial run of the session handlers keeps.

module SessionRuns {
  import opened Prelude
  import opened Sessions

  function Run(rls: bool, db: Db, es: seq<Event>): (r: (Db, seq<Outcome>))
    ensures |r.1| == |es|
    decreases es
  {
    if es == [] then (db, [])
    else
      var (db', o) := Step(rls, db, es[0]);
      var (final, os) := Run(rls, db', es[1..]);
      (final, [o] + os)
  }

  ghost predicate PlausibleRun(rls: bool, db: Db, es: seq<Event>)
    decreases es
  {
    es == [] || (Plausible(db, es[0]) && PlausibleRun(rls, Step(rls, db, es[0]).0, es[1..]))
  }

  // From any good state, every state of every run has whole families, and no row ever loses its
  // identity, its used_at or its revoked_at.
  lemma {:induction false} RunKeepsInv(rls: bool, db: Db, es: seq<Event>)
    requires Inv(db) && PlausibleRun(rls, db, es)
    ensures Inv(Run(rls, db, es).0)
    ensures forall h :: h in db.tokens ==> h in Run(rls, db, es).0.tokens && Evolves(db.tokens[h], Run(rls, db, es).0.tokens[h])
    decreases es
  {
    if es != [] {
      hide Inv, Step, Plausible;
      var db' := Step(rls, db, es[0]).0;
      StepKeepsInv(rls, db, es[0]);
      StepEvolves(rls, db, es[0]);
      RunKeepsInv(rls, db', es[1..]);
      forall h | h in db.tokens
        ensures h in Run(rls, db, es).0.tokens && Evolves(db.tokens[h], Run(rls, db, es).0.tokens[h])
      {
        assert Evolves(db.tokens[h], db'.tokens[h]);
        assert Evolves(db'.tokens[h], Run(rls, db', es[1..]).0.tokens[h]);
      }
    }
  }

  // So every state reached from the empty database is good.
  lemma ReachableIsGood(rls: bool, es: seq<Event>)
    requires PlausibleRun(rls, START, es)
    ensures Inv(Run(rls, START, es).0)
  {
    StartIsGood();
    RunKeepsInv(rls, START, es);
  }

  // ----- Bars: kinds of tokens that are never issued again -----

  datatype Bar =
    | FamilyBar(family: FamilyId)
    | TenantBar(tenant: TenantId)
    | UserBar(user: UserId, families: set<FamilyId>)

  predicate Barred(bar: Bar, t: Token) {
    match bar
    case FamilyBar(f) => t.family == f
    case TenantBar(tenant) => t.tenant == tenant
    case UserBar(u, families) => t.user == u && t.family in families
  }

  function Families(tokens: Tokens): set<FamilyId> {
    set h | h in tokens :: tokens[h].family
  }

  // Every barred token is revoked, and no login can start a barred family.
  ghost predicate Upheld(bar: Bar, db: Db) {
    && (forall h :: h in db.tokens && Barred(bar, db.tokens[h]) ==> db.tokens[h].revokedAt.Some?)
    && match bar
       case FamilyBar(f) => f in Families(db.tokens)
       case TenantBar(t) => Deleted(db, t)
       case UserBar(_, families) => families <= Families(db.tokens)
  }

  lemma FamiliesGrow(rls: bool, db: Db, e: Event)
    ensures Families(db.tokens) <= Families(Step(rls, db, e).0.tokens)
  {
    StepEvolves(rls, db, e);
    hide Step;
    forall h | h in db.tokens ensures db.tokens[h].family in Families(Step(rls, db, e).0.tokens) {
      assert Evolves(db.tokens[h], Step(rls, db, e).0.tokens[h]);
    }
  }

  lemma NewTokenNotBarred(bar: Bar, db: Db, e: Event, t: Token)
    requires Upheld(bar, db) && Plausible(db, e) && Newborn(db, e, t)
    ensures !Barred(bar, t)
  {
    if e.Login? {
      assert t.family !in Families(db.tokens);
    }
  }

  lemma StepUpholds(rls: bool, bar: Bar, db: Db, e: Event)
    requires Upheld(bar, db) && Plausible(db, e)
    ensures Upheld(bar, Step(rls, db, e).0)
  {
    var db' := Step(rls, db, e).0;
    assert Deleted(db, if bar.TenantBar? then bar.tenant else 0) ==> Deleted(db', if bar.TenantBar? then bar.tenant else 0);
    StepEvolves(rls, db, e);
    FamiliesGrow(rls, db, e);
    hide Step, Families;
    forall h | h in db'.tokens && Barred(bar, db'.tokens[h]) ensures db'.tokens[h].revokedAt.Some? {
      if h in db.tokens {
        assert Evolves(db.tokens[h], db'.tokens[h]);
      } else {
        NewTokenNotBarred(bar, db, e, db'.tokens[h]);
      }
    }
  }

  lemma IssuedNotBarred(rls: bool, bar: Bar, db: Db, e: Event)
    requires Upheld(bar, db) && Plausible(db, e) && Step(rls, db, e).1.Issued?
    ensures var (db', o) := Step(rls, db, e);
            o.token in db'.tokens && !Barred(bar, db'.tokens[o.token])
  {
    var (db', o) := Step(rls, db, e);
    StepEvolves(rls, db, e);
    assert o.token !in db.tokens && o.token in db'.tokens;
    NewTokenNotBarred(bar, db, e, db'.tokens[o.token]);
  }

  // No token issued by a run is of a barred kind.
  ghost predicate IssuesNone(bar: Bar, final: Db, os: seq<Outcome>) {
    forall k :: 0 <= k < |os| && os[k].Issued? ==>
      os[k].token in final.tokens && !Barred(bar, final.tokens[os[k].token])
  }

  lemma IssuesNoneCons(bar: Bar, final: Db, o: Outcome, os: seq<Outcome>)
    requires IssuesNone(bar, final, os)
    requires o.Issued? ==> o.token in final.tokens && !Barred(bar, final.tokens[o.token])
    ensures IssuesNone(bar, final, [o] + os)
  {
  }

  lemma {:induction false} UpheldForever(rls: bool, bar: Bar, db: Db, es: seq<Event>)
    requires Inv(db) && Upheld(bar, db) && PlausibleRun(rls, db, es)
    ensures Upheld(bar, Run(rls, db, es).0) && IssuesNone(bar, Run(rls, db, es).0, Run(rls, db, es).1)
    decreases es
  {
    if es != [] {
      hide Inv, Step, Upheld, Plausible, IssuesNone;
      var (db', o) := Step(rls, db, es[0]);
      var (final, os) := Run(rls, db', es[1..]);
      StepKeepsInv(rls, db, es[0]);
      StepUpholds(rls, bar, db, es[0]);
      UpheldForever(rls, bar, db', es[1..]);
      RunKeepsInv(rls, db', es[1..]);
      if o.Issued? {
        IssuedNotBarred(rls, bar, db, es[0]);
        assert Evolves(db'.tokens[o.token], final.tokens[o.token]);
      }
      IssuesNoneCons(bar, final, o, os);
    }
  }

  // ----- Reuse detection -----

  // Presenting a used token after the overlap, but before it expires, is detected, and from then on
  // nobody gets a token of that family, by whichever of its tokens.
  lemma ReplayKillsFamily(rls: bool, db: Db, e: Event, es: seq<Event>)
    requires Inv(db) && e.Refresh? && e.commits && e.presented in db.tokens
    requires var row := db.tokens[e.presented];
             e.now <= row.expiresAt && row.usedAt.Some? && e.now - row.usedAt.value > e.overlapMs
    requires PlausibleRun(rls, Step(rls, db, e).0, es)
    ensures Step(rls, db, e).1 == ReuseDetected
    ensures var (final, os) := Run(rls, Step(rls, db, e).0, es);
            IssuesNone(FamilyBar(db.tokens[e.presented].family), final, os)
  {
    var row := db.tokens[e.presented];
    assert OwnedBy(db, row.user, row.tenant);
    DetectionRevokesFamily(rls, db, e);
    StepKeepsInv(rls, db, e);
    UpheldForever(rls, FamilyBar(row.family), Step(rls, db, e).0, es);
  }

  lemma DetectionRevokesFamily(rls: bool, db: Db, e: Event)
    requires Inv(db) && e.Refresh? && Step(rls, db, e).1 == ReuseDetected
    ensures Upheld(FamilyBar(db.tokens[e.presented].family), Step(rls, db, e).0)
  {
    var db', f := Step(rls, db, e).0, db.tokens[e.presented].family;
    forall h | h in db'.tokens && db'.tokens[h].family == f ensures db'.tokens[h].revokedAt.Some? {
      assert Kin(db.tokens[h], db.tokens[e.presented]);
    }
    assert db'.tokens[e.presented].family == f;
  }

  // ----- The overlap window -----

  // A rotation leaves the presented token used, at a time at most the overlap before the rotation.
  predicate WithinOverlap(e: Event, o: Outcome, db: Db) {
    e.Refresh? && o.Issued? ==>
      && e.presented in db.tokens && db.tokens[e.presented].usedAt.Some?
      && e.now - db.tokens[e.presented].usedAt.value <= e.overlapMs
  }

  lemma RotationWithinOverlap(rls: bool, db: Db, e: Event)
    ensures WithinOverlap(e, Step(rls, db, e).1, Step(rls, db, e).0)
  {
  }

  // In the final state of any run, every token issued from a parent was issued within the overlap of
  // the parent's one and only used_at: replays never push the window further.
  lemma {:induction false} OverlapNeverExtends(rls: bool, db: Db, es: seq<Event>)
    requires Inv(db) && PlausibleRun(rls, db, es)
    ensures var (final, os) := Run(rls, db, es);
            forall k :: 0 <= k < |es| ==> WithinOverlap(es[k], os[k], final)
    decreases es
  {
    if es != [] {
      var (db', o) := Step(rls, db, es[0]);
      var (final, os) := Run(rls, db', es[1..]);
      StepKeepsInv(rls, db, es[0]);
      RotationWithinOverlap(rls, db, es[0]);
      RunKeepsInv(rls, db', es[1..]);
      OverlapNeverExtends(rls, db', es[1..]);
      hide Step, Inv, Plausible;
      if es[0].Refresh? && o.Issued? {
        assert Evolves(db'.tokens[es[0].presented], final.tokens[es[0].presented]);
      }
      forall k | 0 <= k < |es| ensures WithinOverlap(es[k], ([o] + os)[k], final) {
        assert k > 0 ==> es[k] == es[1..][k - 1] && ([o] + os)[k] == os[k - 1];
      }
    }
  }

  // ----- Ended sessions -----

  // After a tenant is cancelled no run issues a token for it, by login or by rotation.
  lemma CancelledTenantNeverServed(rls: bool, db: Db, e: Event, es: seq<Event>)
    requires Inv(db) && e.Cancel? && Step(rls, db, e).1 == Cancelled
    requires PlausibleRun(rls, Step(rls, db, e).0, es)
    ensures var (final, os) := Run(rls, Step(rls, db, e).0, es);
            IssuesNone(TenantBar(e.tenant), final, os)
  {
    StepKeepsInv(rls, db, e);
    UpheldForever(rls, TenantBar(e.tenant), Step(rls, db, e).0, es);
  }

  lemma ResetRevokesAll(rls: bool, db: Db, e: Event)
    requires Inv(db) && e.ConfirmReset? && Step(rls, db, e).1 == PasswordChanged
    ensures var db' := Step(rls, db, e).0;
            Upheld(UserBar(db.resets[e.reset].user, Families(db'.tokens)), db')
  {
    var db', row := Step(rls, db, e).0, db.resets[e.reset];
    assert OwnedBy(db, row.user, row.tenant);
    forall h | h in db'.tokens && db'.tokens[h].user == row.user ensures db'.tokens[h].revokedAt.Some? {
      assert OwnedBy(db, db.tokens[h].user, db.tokens[h].tenant);
    }
  }

  // A family that was not there before was started by a login of its user.
  ghost predicate StartedByLogin(es: seq<Event>, os: seq<Outcome>, t: Token)
    requires |os| == |es|
  {
    exists j :: 0 <= j < |es| && es[j].Login? && os[j].Issued? && es[j].pick == Some(t.user) && es[j].family == t.family
  }

  lemma {:induction false} FamiliesStartWithLogin(rls: bool, db: Db, es: seq<Event>, h: Hash)
    requires Inv(db) && PlausibleRun(rls, db, es)
    requires h in Run(rls, db, es).0.tokens && Run(rls, db, es).0.tokens[h].family !in Families(db.tokens)
    ensures StartedByLogin(es, Run(rls, db, es).1, Run(rls, db, es).0.tokens[h])
    decreases es
  {
    if es != [] {
      var (db', o) := Step(rls, db, es[0]);
      var (final, os) := Run(rls, db', es[1..]);
      var t := final.tokens[h];
      StepKeepsInv(rls, db, es[0]);
      if g :| g in db'.tokens && db'.tokens[g].family == t.family {
        StepEvolves(rls, db, es[0]);
        assert g !in db.tokens && Newborn(db, es[0], db'.tokens[g]);
        RunKeepsInv(rls, db', es[1..]);
        assert Kin(final.tokens[g], t) && Evolves(db'.tokens[g], final.tokens[g]);
        NewbornOfLogin(rls, db, es[0], g);
        assert ([o] + os)[0] == o;
      } else {
        FamiliesStartWithLogin(rls, db', es[1..], h);
        var j :| 0 <= j < |es| - 1 && es[1..][j].Login? && os[j].Issued? && es[1..][j].pick == Some(t.user) && es[1..][j].family == t.family;
        assert es[j + 1] == es[1..][j] && ([o] + os)[j + 1] == os[j];
      }
    }
  }

  lemma NewbornOfLogin(rls: bool, db: Db, e: Event, g: Hash)
    requires g in Step(rls, db, e).0.tokens && Step(rls, db, e).0.tokens[g].family !in Families(db.tokens)
    ensures e.Login? && Step(rls, db, e).1.Issued? && e.pick == Some(Step(rls, db, e).0.tokens[g].user)
    ensures e.family == Step(rls, db, e).0.tokens[g].family
  {
    StepEvolves(rls, db, e);
    var t := Step(rls, db, e).0.tokens[g];
    assert forall k :: k in db.tokens ==> db.tokens[k].family in Families(db.tokens);
    assert g !in db.tokens ==> Newborn(db, e, t);
  }

  // After a password reset, whatever token of that user is issued belongs to a family that a later
  // login of the user started.
  lemma ResetLeavesOnlyNewLogins(rls: bool, db: Db, e: Event, es: seq<Event>, k: nat)
    requires Inv(db) && e.ConfirmReset? && Step(rls, db, e).1 == PasswordChanged
    requires PlausibleRun(rls, Step(rls, db, e).0, es)
    requires var (final, os) := Run(rls, Step(rls, db, e).0, es);
             k < |es| && os[k].Issued?
    ensures var (final, os) := Run(rls, Step(rls, db, e).0, es);
            && os[k].token in final.tokens
            && (final.tokens[os[k].token].user == db.resets[e.reset].user ==>
                  StartedByLogin(es, os, final.tokens[os[k].token]))
  {
    var db' := Step(rls, db, e).0;
    var (final, os) := Run(rls, db', es);
    StepKeepsInv(rls, db, e);
    ResetRevokesAll(rls, db, e);
    UpheldForever(rls, UserBar(db.resets[e.reset].user, Families(db'.tokens)), db', es);
    if final.tokens[os[k].token].user == db.resets[e.reset].user {
      FamiliesStartWithLogin(rls, db', es, os[k].token);
    }
  }

  // ----- Reset tokens -----

  predicate Consumed(db: Db, reset: Hash) {
    reset in db.resets && db.resets[reset].consumedAt.Some?
  }

  predicate Redeems(e: Event, o: Outcome, reset: Hash) {
    e.ConfirmReset? && e.reset == reset && o == PasswordChanged
  }

  lemma {:induction false} ConsumedNeverRedeemed(rls: bool, db: Db, es: seq<Event>, reset: Hash)
    requires Consumed(db, reset)
    ensures forall k :: 0 <= k < |es| ==> !Redeems(es[k], Run(rls, db, es).1[k], reset)
    decreases es
  {
    if es != [] {
      var (db', o) := Step(rls, db, es[0]);
      assert Consumed(db', reset) && !Redeems(es[0], o, reset);
      hide Step, Consumed;
      ConsumedNeverRedeemed(rls, db', es[1..], reset);
      assert forall k :: 0 < k < |es| ==> es[k] == es[1..][k - 1] && Run(rls, db, es).1[k] == Run(rls, db', es[1..]).1[k - 1];
    }
  }

  // A reset token changes a password at most once.
  lemma {:induction false} ResetTokensAreSingleUse(rls: bool, db: Db, es: seq<Event>, i: nat, j: nat, reset: Hash)
    requires i < j < |es| && Redeems(es[i], Run(rls, db, es).1[i], reset)
    ensures !Redeems(es[j], Run(rls, db, es).1[j], reset)
    decreases es
  {
    var (db', o) := Step(rls, db, es[0]);
    assert i == 0 ==> Consumed(db', reset);
    hide Step, Consumed;
    assert es[j] == es[1..][j - 1] && Run(rls, db, es).1[j] == Run(rls, db', es[1..]).1[j - 1];
    if i == 0 {
      ConsumedNeverRedeemed(rls, db', es[1..], reset);
    } else {
      assert es[i] == es[1..][i - 1] && Run(rls, db, es).1[i] == Run(rls, db', es[1..]).1[i - 1];
      ResetTokensAreSingleUse(rls, db', es[1..], i - 1, j - 1, reset);
    }
  }

  // ----- Row visibility -----

  // The unconditional UPDATE of cancelTenant leaves other tenants' sessions alone exactly when row
  // security filters it, or there is no live foreign session to hit.
  lemma CancelSparesOthersIff(rls: bool, db: Db, tenant: TenantId, now: int)
    requires tenant in db.orgs
    ensures var db' := Step(rls, db, Cancel(tenant, now, true)).0;
            (forall h :: h in db.tokens && db.tokens[h].tenant != tenant ==> db'.tokens[h] == db.tokens[h])
            <==> (rls || forall h :: h in db.tokens && db.tokens[h].tenant != tenant ==> db.tokens[h].revokedAt.Some?)
  {
    var db' := Step(rls, db, Cancel(tenant, now, true)).0;
    if !rls {
      forall h | h in db.tokens && db.tokens[h].tenant != tenant && db.tokens[h].revokedAt.None?
        ensures db'.tokens[h] != db.tokens[h]
      {
        assert db'.tokens[h].revokedAt == Some(now);
      }
    }
  }
}
