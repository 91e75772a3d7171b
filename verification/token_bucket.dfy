// The token-bucket script of src/ratelimit/limiter.ts and the plan tables of src/ratelimit/plans.ts.
// Lua numbers are exact reals here; clocks are whole milliseconds.

module TokenBucket {
  import opened Prelude

  datatype Config = Config(capacity: real, refill: real) {
    predicate Valid() {
      capacity > 0.0 && refill > 0.0
    }
  }

  datatype Bucket = Bucket(tokens: real, ts: int)

  datatype Reply = Reply(allowed: bool, remaining: int, retryAfterMs: int)

  datatype Call = Call(cfg: Config, now: int, requested: real)

  // math.ceil
  function Ceil(x: real): (n: int)
    ensures n as real - 1.0 < x <= n as real
  {
    -((-x).Floor)
  }

  // Tokens that arrive at rate `refill` per second while the clock moves from `ts` to `now`.
  function Drip(ts: int, now: int, refill: real): real {
    Max(0, now - ts) as real / 1000.0 * refill
  }

  // Tokens available to a call, after refilling; a missing key is a full bucket.
  function Refilled(b: Option<Bucket>, call: Call): real {
    match b
    case None => call.cfg.capacity
    case Some(b) =>
      var t := b.tokens + Drip(b.ts, call.now, call.cfg.refill);
      if t < call.cfg.capacity then t else call.cfg.capacity
  }

  predicate Grants(call: Call, available: real) {
    available >= call.requested
  }

  // The hash the script leaves behind.
  function Next(b: Option<Bucket>, call: Call): Bucket {
    var available := Refilled(b, call);
    Bucket(if Grants(call, available) then available - call.requested else available, call.now)
  }

  function RetryMs(c: Config, deficit: real): int
    requires c.Valid()
  {
    Ceil(deficit / c.refill * 1000.0)
  }

  // What the script returns to a call that found `available` tokens.
  function Answer(call: Call, available: real): Reply
    requires call.cfg.Valid()
  {
    if Grants(call, available) then
      Reply(true, (available - call.requested).Floor, 0)
    else
      Reply(false, available.Floor, RetryMs(call.cfg, call.requested - available))
  }

  predicate ValidCalls(calls: seq<Call>) {
    forall i :: 0 <= i < |calls| ==> calls[i].cfg.Valid()
  }

  // What each of a sequence of calls finds on a key that is never deleted.
  function Found(b: Option<Bucket>, calls: seq<Call>): (av: seq<real>)
    ensures |av| == |calls|
    decreases calls
  {
    if calls == [] then []
    else [Refilled(b, calls[0])] + Found(Some(Next(b, calls[0])), calls[1..])
  }

  // Tokens handed out by a run.
  function Granted(calls: seq<Call>, av: seq<real>): real
    requires |av| == |calls|
  {
    if calls == [] then 0.0
    else (if Grants(calls[0], av[0]) then calls[0].requested else 0.0) + Granted(calls[1..], av[1..])
  }

  // Tokens that dripped in while the clock moved forward, each call at its own rate.
  function Dripped(since: int, calls: seq<Call>): real
    decreases calls
  {
    if calls == [] then 0.0
    else Drip(since, calls[0].now, calls[0].cfg.refill) + Dripped(calls[0].now, calls[1..])
  }

  // ----- Real arithmetic -----

  lemma DripGrows(ts: int, now: int, later: int, refill: real)
    requires now <= later && refill >= 0.0
    ensures 0.0 <= Drip(ts, now, refill) <= Drip(ts, later, refill)
  {
    var x, y := Max(0, now - ts) as real / 1000.0, Max(0, later - ts) as real / 1000.0;
    assert 0.0 <= x <= y;
    assert 0.0 <= x * refill <= y * refill;
  }

  lemma DripAdds(a: int, b: int, c: int, refill: real)
    requires a <= b <= c
    ensures Drip(a, b, refill) + Drip(b, c, refill) == Drip(a, c, refill)
  {
    var x, y := (b - a) as real / 1000.0, (c - b) as real / 1000.0;
    assert (c - a) as real / 1000.0 == x + y;
    assert (x + y) * refill == x * refill + y * refill;
  }

  // ----- The rate bound -----

  lemma NextStaysNonNegative(b: Option<Bucket>, call: Call)
    requires call.cfg.Valid()
    requires b.Some? ==> b.value.tokens >= 0.0
    ensures 0.0 <= Next(b, call).tokens
  {
    if b.Some? {
      DripGrows(b.value.ts, call.now, call.now, call.cfg.refill);
    }
  }

  // What a bucket can hand out is limited by its content and by what drips in.
  lemma {:induction false} GrantedWithinContent(b: Bucket, calls: seq<Call>)
    requires ValidCalls(calls) && b.tokens >= 0.0
    ensures Granted(calls, Found(Some(b), calls)) <= b.tokens + Dripped(b.ts, calls)
    decreases calls
  {
    if calls != [] {
      var b' := Next(Some(b), calls[0]);
      NextStaysNonNegative(Some(b), calls[0]);
      GrantedWithinContent(b', calls[1..]);
      assert Found(Some(b), calls)[1..] == Found(Some(b'), calls[1..]);
    }
  }

  // Over any window of calls, whatever bucket it starts from, whatever the plans and however the
  // clock jumps: no more than one full bucket plus the drip between the window's calls.
  lemma RateBound(b: Option<Bucket>, calls: seq<Call>)
    requires ValidCalls(calls) && calls != []
    requires b.Some? ==> b.value.tokens >= 0.0
    ensures Granted(calls, Found(b, calls)) <= calls[0].cfg.capacity + Dripped(calls[0].now, calls[1..])
  {
    var b' := Next(b, calls[0]);
    NextStaysNonNegative(b, calls[0]);
    GrantedWithinContent(b', calls[1..]);
    assert Found(b, calls)[1..] == Found(Some(b'), calls[1..]);
  }

  predicate Ordered(calls: seq<Call>) {
    forall i :: 0 <= i < |calls| - 1 ==> calls[i].now <= calls[i + 1].now
  }

  predicate OneConfig(c: Config, calls: seq<Call>) {
    forall i :: 0 <= i < |calls| ==> calls[i].cfg == c
  }

  lemma {:induction false} DripTelescopes(since: int, c: Config, calls: seq<Call>)
    requires OneConfig(c, calls) && Ordered(calls) && calls != [] && since <= calls[0].now
    ensures since <= calls[|calls| - 1].now
    ensures Dripped(since, calls) == Drip(since, calls[|calls| - 1].now, c.refill)
    decreases calls
  {
    if |calls| > 1 {
      DripTelescopes(calls[0].now, c, calls[1..]);
      DripAdds(since, calls[0].now, calls[|calls| - 1].now, c.refill);
    }
  }

  lemma DripOverWindow(c: Config, calls: seq<Call>)
    requires OneConfig(c, calls) && Ordered(calls) && calls != []
    ensures Dripped(calls[0].now, calls[1..]) == Drip(calls[0].now, calls[|calls| - 1].now, c.refill)
  {
    if |calls| > 1 {
      DripTelescopes(calls[0].now, c, calls[1..]);
    }
  }

  // The documented form: burst capacity plus the sustained rate times the elapsed time.
  lemma RateBoundSteadyClock(b: Option<Bucket>, c: Config, calls: seq<Call>)
    requires c.Valid() && OneConfig(c, calls) && Ordered(calls) && calls != []
    requires b.Some? ==> b.value.tokens >= 0.0
    ensures Granted(calls, Found(b, calls))
         <= c.capacity + Drip(calls[0].now, calls[|calls| - 1].now, c.refill)
  {
    var granted := Granted(calls, Found(b, calls));
    var window := Dripped(calls[0].now, calls[1..]);
    assert granted <= c.capacity + window by {
      RateBound(b, calls);
    }
    DripOverWindow(c, calls);
  }

  // The bound cannot be lowered: two calls reach it.
  lemma RateBoundIsReached(c: Config, now: int, wait: nat)
    requires c.Valid() && Drip(now, now + wait, c.refill) <= c.capacity
    ensures var calls := [Call(c, now, c.capacity), Call(c, now + wait, Drip(now, now + wait, c.refill))];
            Granted(calls, Found(None, calls)) == c.capacity + Drip(now, now + wait, c.refill)
  {
    var drip := Drip(now, now + wait, c.refill);
    var first, second := Call(c, now, c.capacity), Call(c, now + wait, drip);
    var b := Bucket(0.0, now);
    assert Next(None, first) == b && Refilled(Some(b), second) == drip;
    var calls := [first, second];
    assert calls[1..] == [second] && [second][1..] == [];
    var av := Found(None, calls);
    assert av[1..] == Found(Some(b), [second]);
    assert Granted([second], av[1..]) == drip + Granted([], av[1..][1..]);
  }

  // ----- Expiry -----

  // Seconds after which Redis may drop an idle bucket.
  function Ttl(c: Config): (s: int)
    requires c.Valid()
    ensures s >= 2 && (s - 1) as real >= c.capacity / c.refill
  {
    assert c.capacity / c.refill > 0.0;
    Ceil(c.capacity / c.refill * 2.0) + 1
  }

  datatype Key = Key(bucket: Bucket, expireAt: int)

  // Redis never shows an expired key to a command.
  function Live(k: Option<Key>, now: int): Option<Bucket> {
    if k.Some? && now <= k.value.expireAt then Some(k.value.bucket) else None
  }

  function NextKey(k: Option<Key>, call: Call): Key
    requires call.cfg.Valid()
  {
    Key(Next(Live(k, call.now), call), call.now + 1000 * Ttl(call.cfg))
  }

  // What each call finds on a key that Redis deletes when its time to live has passed.
  function FoundExpiring(k: Option<Key>, calls: seq<Call>): (av: seq<real>)
    requires ValidCalls(calls)
    ensures |av| == |calls|
    decreases calls
  {
    if calls == [] then []
    else [Refilled(Live(k, calls[0].now), calls[0])] + FoundExpiring(Some(NextKey(k, calls[0])), calls[1..])
  }

  // Under `next`, even an empty bucket is full again by the first instant at which a key written
  // under `c` can have expired.
  predicate Outlasts(c: Config, next: Config)
    requires c.Valid()
  {
    next.capacity <= Drip(0, 1000 * Ttl(c) + 1, next.refill)
  }

  predicate ChainOutlasts(calls: seq<Call>)
    requires ValidCalls(calls)
  {
    forall i :: 0 <= i < |calls| - 1 ==> Outlasts(calls[i].cfg, calls[i + 1].cfg)
  }

  lemma ExpiredBucketWouldBeFull(b: Bucket, c: Config, call: Call)
    requires c.Valid() && call.cfg.Valid() && b.tokens >= 0.0
    requires Outlasts(c, call.cfg) && b.ts + 1000 * Ttl(c) < call.now
    ensures Refilled(Some(b), call) == Refilled(None, call)
  {
    DripGrows(0, 1000 * Ttl(c) + 1, call.now - b.ts, call.cfg.refill);
    assert Drip(0, call.now - b.ts, call.cfg.refill) == Drip(b.ts, call.now, call.cfg.refill);
  }

  lemma {:induction false} ExpiryUnobservableFrom(b: Bucket, c: Config, calls: seq<Call>)
    requires c.Valid() && ValidCalls(calls) && Ordered(calls) && ChainOutlasts(calls) && b.tokens >= 0.0
    requires calls != [] ==> Outlasts(c, calls[0].cfg)
    ensures FoundExpiring(Some(Key(b, b.ts + 1000 * Ttl(c))), calls) == Found(Some(b), calls)
    decreases calls
  {
    if calls != [] {
      if b.ts + 1000 * Ttl(c) < calls[0].now {
        ExpiredBucketWouldBeFull(b, c, calls[0]);
      }
      NextStaysNonNegative(Some(b), calls[0]);
      ExpiryUnobservableFrom(Next(Some(b), calls[0]), calls[0].cfg, calls[1..]);
    }
  }

  // A bucket that Redis may delete shows every call the same tokens, hence gives it the same
  // answer, as one that lives forever, also when the configuration changes from call to call.
  lemma ExpiryUnobservable(calls: seq<Call>)
    requires ValidCalls(calls) && Ordered(calls) && ChainOutlasts(calls)
    ensures FoundExpiring(None, calls) == Found(None, calls)
  {
    if calls != [] {
      NextStaysNonNegative(None, calls[0]);
      ExpiryUnobservableFrom(Next(None, calls[0]), calls[0].cfg, calls[1..]);
    }
  }

  // And the condition is exact: for each pair of configurations that violates it, draining the
  // bucket under the first makes the deletion visible under the second.
  lemma ExpiryObservableOtherwise(c: Config, next: Config)
    requires c.Valid() && next.Valid() && !Outlasts(c, next)
    ensures var calls := [Call(c, 0, c.capacity), Call(next, 1000 * Ttl(c) + 1, next.capacity)];
            && Grants(calls[1], FoundExpiring(None, calls)[1])
            && !Grants(calls[1], Found(None, calls)[1])
  {
    var first, second := Call(c, 0, c.capacity), Call(next, 1000 * Ttl(c) + 1, next.capacity);
    var calls := [first, second];
    assert calls[1..] == [second];
    var b := Bucket(0.0, 0);
    assert Next(None, first) == b;
    assert Found(None, calls)[1] == Found(Some(b), [second])[0] == Refilled(Some(b), second);
    var k := NextKey(None, first);
    assert Live(Some(k), second.now) == None;
    assert FoundExpiring(None, calls)[1] == FoundExpiring(Some(k), [second])[0];
  }

  // ----- Plans -----

  function BucketForPlan(plan: string): (c: Config)
    ensures c.Valid()
  {
    if plan == "starter" then Config(300.0, 5.0)
    else if plan == "pro" then Config(1000.0, 1000.0 / 60.0)
    else Config(60.0, 1.0)
  }

  datatype RouteClass = Credential | General

  function BucketForRoute(r: RouteClass): (c: Config)
    ensures c.Valid()
  {
    match r
    case Credential => Config(10.0, 10.0 / 60.0)
    case General => Config(30.0, 30.0 / 60.0)
  }

  // Every plan, and every route class, refills an empty bucket in exactly 60 s.
  lemma FillsInAMinute(plan: string, r: RouteClass)
    ensures Drip(0, 60_000, BucketForPlan(plan).refill) == BucketForPlan(plan).capacity
    ensures Drip(0, 60_000, BucketForRoute(r).refill) == BucketForRoute(r).capacity
  {
  }

  lemma PlansOutlastEachOther(before: string, after: string)
    ensures Outlasts(BucketForPlan(before), BucketForPlan(after))
  {
    var c, next := BucketForPlan(before), BucketForPlan(after);
    assert c.capacity / c.refill == 60.0;
    FillsInAMinute(after, General);
    DripGrows(0, 60_000, 1000 * Ttl(c) + 1, next.refill);
  }

  // A key whose configuration never changes (the IP buckets) is always safe to delete.
  lemma ConfigOutlastsItself(c: Config)
    requires c.Valid()
    ensures Outlasts(c, c)
  {
    var full := c.capacity / c.refill;
    assert full * c.refill == c.capacity;
    var waited := (1000 * Ttl(c) + 1) as real / 1000.0;
    assert waited >= full;
    assert waited * c.refill >= full * c.refill;
  }

  function PlanCalls(reqs: seq<(string, int, real)>): (calls: seq<Call>)
    ensures |calls| == |reqs|
    ensures forall i :: 0 <= i < |reqs| ==> calls[i] == Call(BucketForPlan(reqs[i].0), reqs[i].1, reqs[i].2)
  {
    seq(|reqs|, i requires 0 <= i < |reqs| => Call(BucketForPlan(reqs[i].0), reqs[i].1, reqs[i].2))
  }

  // A tenant's bucket may be dropped by Redis, whatever plan changes happen in between, without any
  // effect, and the rate bound holds of it.
  lemma TenantBucketExpirySafe(reqs: seq<(string, int, real)>)
    requires forall i :: 0 <= i < |reqs| - 1 ==> reqs[i].1 <= reqs[i + 1].1
    ensures FoundExpiring(None, PlanCalls(reqs)) == Found(None, PlanCalls(reqs))
    ensures reqs != [] ==>
      Granted(PlanCalls(reqs), FoundExpiring(None, PlanCalls(reqs)))
        <= BucketForPlan(reqs[0].0).capacity + Dripped(reqs[0].1, PlanCalls(reqs)[1..])
  {
    var calls := PlanCalls(reqs);
    forall i | 0 <= i < |calls| - 1 ensures Outlasts(calls[i].cfg, calls[i + 1].cfg) {
      PlansOutlastEachOther(reqs[i].0, reqs[i + 1].0);
    }
    ExpiryUnobservable(calls);
    if reqs != [] {
      RateBound(None, calls);
    }
  }

  // The bucket of an address and route class never changes its configuration: it too may be dropped,
  // and grants at most one burst plus the sustained rate over the elapsed time.
  lemma IpBucketExpirySafe(c: Config, calls: seq<Call>)
    requires c.Valid() && OneConfig(c, calls) && Ordered(calls)
    ensures FoundExpiring(None, calls) == Found(None, calls)
    ensures calls != [] ==>
      Granted(calls, FoundExpiring(None, calls)) <= c.capacity + Drip(calls[0].now, calls[|calls| - 1].now, c.refill)
  {
    ConfigOutlastsItself(c);
    ExpiryUnobservable(calls);
    if calls != [] {
      RateBoundSteadyClock(None, c, calls);
    }
  }

  // ----- Retry-After -----

  // A wait of p ms covers a deficit exactly when p reaches the reported retry_after_ms.
  lemma WaitCoversDeficit(c: Config, deficit: real, p: nat)
    requires c.Valid()
    ensures p < RetryMs(c, deficit) <==> Drip(0, p, c.refill) < deficit
  {
    var x := deficit / c.refill * 1000.0;
    assert p < Ceil(x) <==> p as real < x;
    assert x / 1000.0 * c.refill == deficit;
    if p as real < x {
      assert p as real / 1000.0 * c.refill < x / 1000.0 * c.refill;
    } else {
      assert p as real / 1000.0 * c.refill >= x / 1000.0 * c.refill;
    }
  }

  // Waiting p ms shortens the reported wait by exactly p.
  lemma WaitCountsDown(c: Config, deficit: real, p: nat)
    requires c.Valid()
    ensures RetryMs(c, deficit - Drip(0, p, c.refill)) == RetryMs(c, deficit) - p
  {
    var q, w := deficit / c.refill, p as real / 1000.0;
    assert (q - w) * c.refill == q * c.refill - w * c.refill == deficit - w * c.refill;
    assert (deficit - Drip(0, p, c.refill)) / c.refill == q - w;
  }

  // A bucket that held `t` tokens at time `at` and has only been polled in vain since then.
  predicate Polled(b: Bucket, c: Config, t: real, at: int) {
    at <= b.ts && b.tokens == t + Drip(at, b.ts, c.refill)
  }

  lemma PollOutcome(b: Bucket, c: Config, t: real, at: int, now: int, requested: real)
    requires c.Valid() && t < requested <= c.capacity && Polled(b, c, t, at) && b.ts <= now
    ensures var call, r := Call(c, now, requested), RetryMs(c, requested - t);
            var available := Refilled(Some(b), call);
            && (Grants(call, available) <==> now - at >= r)
            && (now - at < r ==> Polled(Next(Some(b), call), c, t, at) && Answer(call, available).retryAfterMs == r - (now - at))
  {
    DripAdds(at, b.ts, now, c.refill);
    assert Drip(0, now - at, c.refill) == Drip(at, now, c.refill);
    WaitCoversDeficit(c, requested - t, now - at);
    WaitCountsDown(c, requested - t, now - at);
    assert requested - (t + Drip(at, now, c.refill)) == requested - t - Drip(at, now, c.refill);
  }

  function SameSizeCalls(c: Config, requested: real, times: seq<int>): (calls: seq<Call>)
    ensures |calls| == |times|
    ensures forall i :: 0 <= i < |times| ==> calls[i] == Call(c, times[i], requested)
  {
    seq(|times|, i requires 0 <= i < |times| => Call(c, times[i], requested))
  }

  predicate Ascending(times: seq<int>) {
    forall i, j :: 0 <= i < j < |times| ==> times[i] <= times[j]
  }

  // What a call at `now` that found `available` tokens should be told.
  predicate ServedRight(c: Config, requested: real, now: int, available: real, deadline: int)
    requires c.Valid()
  {
    var a := Answer(Call(c, now, requested), available);
    (a.allowed <==> now >= deadline) && (!a.allowed ==> a.retryAfterMs == deadline - now)
  }

  predicate NoneLate(times: seq<int>, i: nat, deadline: int)
    requires i <= |times|
  {
    forall j :: 0 <= j < i ==> times[j] < deadline
  }

  // Up to the first call that comes late enough, each call is refused and told what is left of the
  // wait; that call is granted.
  predicate ServedAtDeadline(c: Config, requested: real, times: seq<int>, av: seq<real>, deadline: int)
    requires c.Valid() && |av| == |times|
  {
    forall i :: 0 <= i < |times| && NoneLate(times, i, deadline) ==> ServedRight(c, requested, times[i], av[i], deadline)
  }

  lemma ServedCons(c: Config, requested: real, times: seq<int>, first: real, rest: seq<real>, deadline: int)
    requires c.Valid() && times != [] && |rest| == |times| - 1
    requires ServedRight(c, requested, times[0], first, deadline)
    requires times[0] < deadline ==> ServedAtDeadline(c, requested, times[1..], rest, deadline)
    ensures ServedAtDeadline(c, requested, times, [first] + rest, deadline)
  {
    hide ServedRight;
    forall i | 0 < i < |times| && NoneLate(times, i, deadline)
      ensures ServedRight(c, requested, times[i], rest[i - 1], deadline)
    {
      assert times[i] == times[1..][i - 1] && times[0] < deadline;
      assert forall j :: 0 <= j < i - 1 ==> times[1..][j] == times[j + 1];
      assert NoneLate(times[1..], i - 1, deadline);
    }
  }

  lemma {:induction false} PollingIsFree(b: Bucket, c: Config, t: real, at: int, requested: real, times: seq<int>)
    requires c.Valid() && t < requested <= c.capacity && Polled(b, c, t, at)
    requires Ascending(times) && (times != [] ==> b.ts <= times[0])
    ensures ServedAtDeadline(c, requested, times, Found(Some(b), SameSizeCalls(c, requested, times)),
                             at + RetryMs(c, requested - t))
    decreases times
  {
    if times != [] {
      var deadline := at + RetryMs(c, requested - t);
      var calls := SameSizeCalls(c, requested, times);
      var available, b' := Refilled(Some(b), calls[0]), Next(Some(b), calls[0]);
      PollOutcome(b, c, t, at, times[0], requested);
      assert calls[1..] == SameSizeCalls(c, requested, times[1..]);
      assert Found(Some(b), calls) == [available] + Found(Some(b'), calls[1..]);
      assert b'.ts == times[0];
      assert available < requested || times[0] >= deadline;
      hide Found, Next, Refilled, RetryMs, Drip, ServedAtDeadline, Polled, SameSizeCalls;
      if times[0] < deadline {
        assert forall j, k :: 0 <= j < k < |times[1..]| ==> times[1..][j] == times[j + 1] && times[1..][k] == times[k + 1];
        PollingIsFree(b', c, t, at, requested, times[1..]);
      }
      ServedCons(c, requested, times, available, Found(Some(b'), calls[1..]), deadline);
    }
  }

  lemma DeadlineAfterDenial(c: Config, now: int, available: real, requested: real, times: seq<int>)
    requires c.Valid() && available < requested <= c.capacity && Ascending([now] + times)
    ensures ServedAtDeadline(c, requested, times,
                             Found(Some(Bucket(available, now)), SameSizeCalls(c, requested, times)),
                             now + RetryMs(c, requested - available))
  {
    assert times == ([now] + times)[1..];
    assert times != [] ==> ([now] + times)[0] <= ([now] + times)[1];
    PollingIsFree(Bucket(available, now), c, available, now, requested, times);
  }

  // After a denial that reports r ms, a request of the same size d ms later is granted iff d >= r,
  // however many denied polls come in between; each of these reports what is left of the wait.
  lemma RetryAfterIsExact(b: Option<Bucket>, call: Call, after: Bucket, reply: Reply, times: seq<int>)
    requires call.cfg.Valid() && call.requested <= call.cfg.capacity
    requires after == Next(b, call) && reply == Answer(call, Refilled(b, call)) && !reply.allowed
    requires Ascending([call.now] + times)
    ensures ServedAtDeadline(call.cfg, call.requested, times,
                             Found(Some(after), SameSizeCalls(call.cfg, call.requested, times)),
                             call.now + reply.retryAfterMs)
  {
    hide Drip, RetryMs, ServedAtDeadline, Found;
    DeadlineAfterDenial(call.cfg, call.now, Refilled(b, call), call.requested, times);
  }

  // The Retry-After header, in whole seconds (section 10.2.3 of RFC 9110).
  function RetryAfterSeconds(r: Reply): int {
    Ceil(r.retryAfterMs as real / 1000.0)
  }

  lemma RetryAfterHeaderSuffices(b: Option<Bucket>, c: Config, now: int, requested: real)
    requires c.Valid() && requested <= c.capacity
    requires var call := Call(c, now, requested); !Grants(call, Refilled(b, call))
    ensures var call := Call(c, now, requested);
            var wait := RetryAfterSeconds(Answer(call, Refilled(b, call)));
            var again := Call(c, now + 1000 * wait, requested);
            wait > 0 && Grants(again, Refilled(Some(Next(b, call)), again))
  {
    var call := Call(c, now, requested);
    var b' := Next(b, call);
    var reply := Answer(call, Refilled(b, call));
    WaitCoversDeficit(c, requested - b'.tokens, 0);
    assert reply.retryAfterMs > 0;
    PollOutcome(b', c, b'.tokens, now, now + 1000 * RetryAfterSeconds(reply), requested);
  }

  // The header is the least number of whole seconds that covers the reported wait.
  lemma RetryAfterHeaderIsLeast(r: Reply)
    ensures 1000 * (RetryAfterSeconds(r) - 1) < r.retryAfterMs <= 1000 * RetryAfterSeconds(r)
  {
  }

  // A refused request is ever granted, by waiting, exactly when it fits the bucket at all.
  lemma GrantableIff(b: Bucket, c: Config, requested: real)
    requires c.Valid()
    ensures (exists later :: later >= b.ts && GrantedAt(b, c, requested, later)) <==> requested <= c.capacity
  {
    if requested <= c.capacity {
      var wait := Max(0, RetryMs(c, requested - b.tokens));
      WaitCoversDeficit(c, requested - b.tokens, wait);
      assert Drip(0, wait, c.refill) == Drip(b.ts, b.ts + wait, c.refill);
      assert GrantedAt(b, c, requested, b.ts + wait);
    }
  }

  predicate GrantedAt(b: Bucket, c: Config, requested: real, now: int) {
    var call := Call(c, now, requested);
    Grants(call, Refilled(Some(b), call))
  }

  // consume() reports ms until the bucket is full again, computed from the rounded-down remainder.
  function ResetMs(c: Config, r: Reply): int
    requires c.Valid()
  {
    RetryMs(c, c.capacity - r.remaining as real)
  }

  // After that wait a whole burst is granted.
  lemma ResetMsSuffices(b: Option<Bucket>, call: Call, later: int)
    requires call.cfg.Valid()
    requires later >= call.now + Max(0, ResetMs(call.cfg, Answer(call, Refilled(b, call))))
    ensures var burst := Call(call.cfg, later, call.cfg.capacity);
            Grants(burst, Refilled(Some(Next(b, call)), burst))
  {
    var c, r := call.cfg, Answer(call, Refilled(b, call));
    assert Next(b, call).tokens >= r.remaining as real;
    WaitCoversDeficit(c, c.capacity - r.remaining as real, later - call.now);
    assert Drip(0, later - call.now, c.refill) == Drip(call.now, later, c.refill);
  }
}
