// Overlapping confirmations of one password-reset token (src/auth/password-reset.service.ts:66-94): the
// token is looked up before the transaction, and the update that consumes it does not look again.

module ResetRaces {
  import opened Prelude
  import S = Sessions

  type Handler = nat
  type UserId = S.UserId
  type Hash = S.Hash
  type Reset = S.Reset

  // reading: the token each handler has found valid; log: the tokens that changed a password.
  datatype Sys = Sys(resets: map<Hash, Reset>, passwords: map<UserId, string>, reading: map<Handler, Hash>, log: seq<Hash>)

  datatype Action =
    | Request(hash: Hash, tenant: S.TenantId, user: UserId, expiresAt: int)
    | LookUp(handler: Handler, hash: Hash, now: int)
    | Confirm(handler: Handler, password: string, now: int, commits: bool)

  function Step(s: Sys, a: Action): Sys {
    match a
    case Request(hash, tenant, user, expiresAt) =>
      if hash in s.resets || user !in s.passwords then s
      else s.(resets := s.resets[hash := S.Reset(tenant, user, None, expiresAt)])
    case LookUp(h, hash, now) =>
      if hash !in s.resets || s.resets[hash].consumedAt.Some? || s.resets[hash].expiresAt <= now then s
      else s.(reading := s.reading[h := hash])
    case Confirm(h, password, now, commits) =>
      if h !in s.reading then s
      else if !Changes(s, a) then s.(reading := s.reading - {h})
      else
        var hash := s.reading[h];
        var row := s.resets[hash];
        Sys(s.resets[hash := row.(consumedAt := Some(now))], s.passwords[row.user := password], s.reading - {h}, s.log + [hash])
  }

  // The confirmation commits.
  predicate Changes(s: Sys, a: Action) {
    a.Confirm? && a.handler in s.reading && a.commits && s.reading[a.handler] in s.resets
  }

  function Run(s: Sys, actions: seq<Action>): Sys
    decreases actions
  {
    if actions == [] then s else Run(Step(s, actions[0]), actions[1..])
  }

  // A token is consumed exactly when it changed a password.
  ghost predicate Inv(s: Sys) {
    && (forall hash :: hash in s.resets ==> (s.resets[hash].consumedAt.Some? <==> hash in s.log))
    && (forall hash :: hash in s.log ==> hash in s.resets)
  }

  predicate SingleUse(log: seq<Hash>) {
    forall i, j :: 0 <= i < j < |log| ==> log[i] != log[j]
  }

  // A confirmation commits for a token that another has consumed since it was looked up.
  predicate Reuses(s: Sys, a: Action) {
    Changes(s, a) && s.resets[s.reading[a.handler]].consumedAt.Some?
  }

  predicate ReusesNone(s: Sys, actions: seq<Action>)
    decreases actions
  {
    actions == [] || (!Reuses(s, actions[0]) && ReusesNone(Step(s, actions[0]), actions[1..]))
  }

  lemma StepSingleUseIff(s: Sys, a: Action)
    requires Inv(s)
    ensures var s' := Step(s, a);
            && Inv(s') && |s.log| <= |s'.log| && s'.log[..|s.log|] == s.log
            && (SingleUse(s'.log) <==> SingleUse(s.log) && !Reuses(s, a))
  {
    var s' := Step(s, a);
    if Changes(s, a) {
      var hash := s.reading[a.handler];
      assert s'.log == s.log + [hash];
      if hash in s.log {
        var i :| 0 <= i < |s.log| && s.log[i] == hash;
        assert s'.log[i] == s'.log[|s.log|];
      }
      if SingleUse(s'.log) {
        forall i, j | 0 <= i < j < |s.log| ensures s.log[i] != s.log[j] {
          assert s'.log[i] == s.log[i] && s'.log[j] == s.log[j];
        }
      }
    }
  }

  // However confirmations overlap: every token changes a password at most once exactly when none commits
  // for a token that was consumed since its lookup.
  lemma {:induction false} RunSingleUseIff(s: Sys, actions: seq<Action>)
    requires Inv(s)
    ensures Inv(Run(s, actions))
    ensures SingleUse(Run(s, actions).log) <==> SingleUse(s.log) && ReusesNone(s, actions)
    decreases actions
  {
    if actions != [] {
      StepSingleUseIff(s, actions[0]);
      hide Step, Inv, SingleUse, Reuses;
      RunSingleUseIff(Step(s, actions[0]), actions[1..]);
    }
  }

  const ONE_TOKEN := Sys(map[1 := S.Reset(7, 5, None, 100)], map[5 := "old"], map[], [])

  lemma BothFindIt()
    ensures Step(Step(ONE_TOKEN, LookUp(1, 1, 10)), LookUp(2, 1, 11)) == ONE_TOKEN.(reading := map[1 := 1, 2 := 1])
  {
  }

  lemma BothConfirm()
    ensures var s := Step(Step(ONE_TOKEN.(reading := map[1 := 1, 2 := 1]), Confirm(1, "mine", 20, true)), Confirm(2, "theirs", 21, true));
            s.log == [1, 1] && s.passwords == map[5 := "theirs"]
  {
    var s3 := Step(ONE_TOKEN.(reading := map[1 := 1, 2 := 1]), Confirm(1, "mine", 20, true));
    assert s3.reading == map[2 := 1] && s3.passwords == map[5 := "mine"] && s3.log == [1];
  }

  // Two confirmations that both looked the token up first: both change the password, and the second wins.
  lemma TwoConfirmations()
    ensures var run := [LookUp(1, 1, 10), LookUp(2, 1, 11), Confirm(1, "mine", 20, true), Confirm(2, "theirs", 21, true)];
            Inv(ONE_TOKEN) && Run(ONE_TOKEN, run).log == [1, 1] && Run(ONE_TOKEN, run).passwords == map[5 := "theirs"]
  {
    var run := [LookUp(1, 1, 10), LookUp(2, 1, 11), Confirm(1, "mine", 20, true), Confirm(2, "theirs", 21, true)];
    BothFindIt();
    BothConfirm();
    hide Step;
    assert run[1..][1..] == run[2..] && run[2..][1..] == run[3..] && run[3..][1..] == [];
    var s2 := Step(Step(ONE_TOKEN, run[0]), run[1]);
    assert Run(ONE_TOKEN, run) == Run(s2, run[2..]) == Run(Step(Step(s2, run[2]), run[3]), []);
  }

  function Passwords(users: map<UserId, S.User>): map<UserId, string> {
    map u | u in users :: users[u].password
  }

  // A confirmation that nothing interrupts writes the passwords and the resets that the serial step writes.
  lemma UninterruptedConfirmation(rls: bool, db: S.Db, s: Sys, e: S.Event, h: Handler)
    requires e.ConfirmReset? && s.resets == db.resets && s.passwords == Passwords(db.users) && h !in s.reading
    requires forall r :: r in db.resets ==> db.resets[r].user in db.users
    ensures var s' := Step(Step(s, LookUp(h, e.reset, e.now)), Confirm(h, e.newPassword, e.now, e.commits));
            var db' := S.Step(rls, db, e).0;
            s'.resets == db'.resets && s'.passwords == Passwords(db'.users)
  {
  }
}
