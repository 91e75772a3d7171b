// What the script does, stated on the numbers alone: how full a bucket is, what a call is charged and
// told, and where every token of a run went (src/ratelimit/limiter.ts:15-50).

module BucketLedger {
  import opened Prelude
  import opened TokenBucket

  // A bucket that held `held` tokens and is topped up by `drip` holds `content`: all of it, up to the cap.
  predicate FillsTo(content: real, held: real, drip: real, cap: real) {
    content <= cap && content <= held + drip && (content == cap || content == held + drip)
  }

  // How full a key is at `now`: a missing or expired one is full, and a clock that went back adds nothing.
  predicate Holds(content: real, k: Option<Key>, cfg: Config, now: int) {
    if k.Some? && now <= k.value.expireAt then
      var b := k.value.bucket;
      FillsTo(content, b.tokens, if now > b.ts then (now - b.ts) as real / 1000.0 * cfg.refill else 0.0, cfg.capacity)
    else content == cfg.capacity
  }

  // `p` ms of refill bring `have` up to `need`.
  predicate Covers(have: real, p: int, refill: real, need: real) {
    have + p as real / 1000.0 * refill >= need
  }

  ghost predicate LeastWait(have: real, wait: int, refill: real, need: real) {
    forall p: nat :: Covers(have, p, refill, need) <==> p >= wait
  }

  // A call is allowed exactly when the bucket holds the request, and then charged exactly the request;
  // the key is stamped with the clock, and kept for the least whole number of seconds that refills twice
  // the capacity, and one more.
  predicate Charges(content: real, after: Key, call: Call, allowed: bool) {
    && (allowed <==> content >= call.requested)
    && after.bucket.tokens == content - (if allowed then call.requested else 0.0)
    && after.bucket.ts == call.now
    && (after.expireAt - call.now) % 1000 == 0
    && var seconds := (after.expireAt - call.now) / 1000 - 1;
       seconds as real * call.cfg.refill >= 2.0 * call.cfg.capacity > (seconds - 1) as real * call.cfg.refill
  }

  // The reply: the whole tokens left, and after a denial the least wait that brings the request.
  ghost predicate Reports(content: real, left: real, call: Call, r: Reply) {
    && r.remaining as real <= left < r.remaining as real + 1.0
    && (r.allowed ==> r.retryAfterMs == 0)
    && (!r.allowed ==> LeastWait(content, r.retryAfterMs, call.cfg.refill, call.requested))
  }

  // One run of the script on a key, as numbers.
  ghost predicate Runs(before: Option<Key>, after: Key, call: Call, r: Reply) {
    exists content :: Holds(content, before, call.cfg, call.now) && Charges(content, after, call, r.allowed)
                      && Reports(content, after.bucket.tokens, call, r)
  }

  lemma CoversIff(c: Config, have: real, need: real, p: nat)
    requires c.Valid()
    ensures Covers(have, p, c.refill, need) <==> p >= RetryMs(c, need - have)
  {
    WaitCoversDeficit(c, need - have, p);
    assert Drip(0, p, c.refill) == p as real / 1000.0 * c.refill;
  }

  lemma WaitIsLeast(c: Config, have: real, need: real)
    requires c.Valid()
    ensures LeastWait(have, RetryMs(c, need - have), c.refill, need)
  {
    forall p: nat ensures Covers(have, p, c.refill, need) <==> p >= RetryMs(c, need - have) {
      CoversIff(c, have, need, p);
    }
  }

  lemma Scales(x: real, y: real, k: real)
    requires k > 0.0
    ensures x < y ==> x * k < y * k
    ensures x <= y ==> x * k <= y * k
  {
  }

  lemma TwiceTheCapacity(cap: real, refill: real, x: real)
    requires refill > 0.0 && x == cap / refill * 2.0
    ensures x * refill == 2.0 * cap
  {
    var q := cap / refill;
    assert q * refill == cap;
    assert x * refill == 2.0 * (q * refill);
  }

  lemma LeastMultiple(refill: real, need: real, x: real, hi: real, lo: real)
    requires refill > 0.0 && x * refill == need && lo < x <= hi
    ensures hi * refill >= need > lo * refill
  {
    Scales(x, hi, refill);
    Scales(lo, x, refill);
  }

  lemma TtlIsLeast(c: Config, n: int)
    requires c.Valid() && n == Ttl(c) - 1
    ensures n as real * c.refill >= 2.0 * c.capacity > (n - 1) as real * c.refill
  {
    var x := c.capacity / c.refill * 2.0;
    TwiceTheCapacity(c.capacity, c.refill, x);
    assert n == Ceil(x);
    LeastMultiple(c.refill, 2.0 * c.capacity, x, n as real, (n - 1) as real);
  }

  lemma HoldsRefilled(k: Option<Key>, call: Call)
    ensures Holds(Refilled(Live(k, call.now), call), k, call.cfg, call.now)
  {
  }

  // The functions used elsewhere are this script.
  lemma ScriptOnNumbers(k: Option<Key>, call: Call)
    requires call.cfg.Valid()
    ensures Runs(k, NextKey(k, call), call, Answer(call, Refilled(Live(k, call.now), call)))
  {
    var content, after := Refilled(Live(k, call.now), call), NextKey(k, call);
    var r := Answer(call, content);
    HoldsRefilled(k, call);
    TtlIsLeast(call.cfg, (after.expireAt - call.now) / 1000 - 1);
    assert Charges(content, after, call, r.allowed);
    WaitIsLeast(call.cfg, content, call.requested);
    assert Reports(content, after.bucket.tokens, call, r);
  }

  // resetMs is the least wait that fills the bucket from the whole tokens reported.
  lemma ResetOnNumbers(c: Config, r: Reply)
    requires c.Valid()
    ensures LeastWait(r.remaining as real, ResetMs(c, r), c.refill, c.capacity)
  {
    WaitIsLeast(c, r.remaining as real, c.capacity);
  }

  // ----- Conservation -----

  function Spill(held: real, drip: real, cap: real): real {
    if held + drip > cap then held + drip - cap else 0.0
  }

  // What overflows at the cap over a run that starts with `held` tokens.
  function Spilled(held: real, since: int, calls: seq<Call>): real
    decreases calls
  {
    if calls == [] then 0.0
    else
      var call, drip := calls[0], Drip(since, calls[0].now, calls[0].cfg.refill);
      var content := held + drip - Spill(held, drip, call.cfg.capacity);
      Spill(held, drip, call.cfg.capacity)
      + Spilled(if content >= call.requested then content - call.requested else content, call.now, calls[1..])
  }

  // The bucket a run leaves.
  function Left(b: Bucket, calls: seq<Call>): Bucket
    decreases calls
  {
    if calls == [] then b else Left(Next(Some(b), calls[0]), calls[1..])
  }

  // Not a token is lost or made: what is left and what was granted is what was there and what dripped in,
  // less what overflowed at the cap.
  lemma {:induction false} TokensConserved(b: Bucket, calls: seq<Call>)
    ensures Left(b, calls).tokens + Granted(calls, Found(Some(b), calls))
         == b.tokens + Dripped(b.ts, calls) - Spilled(b.tokens, b.ts, calls)
    decreases calls
  {
    if calls != [] {
      var b', drip := Next(Some(b), calls[0]), Drip(b.ts, calls[0].now, calls[0].cfg.refill);
      var content := b.tokens + drip - Spill(b.tokens, drip, calls[0].cfg.capacity);
      assert content == Refilled(Some(b), calls[0]);
      assert Found(Some(b), calls)[1..] == Found(Some(b'), calls[1..]);
      hide Drip;
      TokensConserved(b', calls[1..]);
    }
  }

  // A missing key is a full bucket.
  lemma MissingIsFull(call: Call)
    ensures Next(None, call) == Next(Some(Bucket(call.cfg.capacity, call.now)), call)
    ensures Refilled(None, call) == Refilled(Some(Bucket(call.cfg.capacity, call.now)), call)
  {
  }

  // Which of a run's calls are denied, by the balance: what was there and dripped in before the call, less
  // what was granted and overflowed before it, is short of the request.
  lemma DeniedIff(b: Bucket, calls: seq<Call>, call: Call)
    ensures !Grants(call, Refilled(Some(Left(b, calls)), call))
            <==> b.tokens + Dripped(b.ts, calls) - Spilled(b.tokens, b.ts, calls) - Granted(calls, Found(Some(b), calls))
                 + Drip(Left(b, calls).ts, call.now, call.cfg.refill)
                 - Spill(Left(b, calls).tokens, Drip(Left(b, calls).ts, call.now, call.cfg.refill), call.cfg.capacity)
                 < call.requested
  {
    TokensConserved(b, calls);
    hide Drip, Left, Dripped, Spilled, Granted, Found;
  }

  lemma {:induction false} LeftStamp(b: Bucket, calls: seq<Call>)
    ensures Left(b, calls).ts == if calls == [] then b.ts else calls[|calls| - 1].now
    decreases calls
  {
    if calls != [] {
      LeftStamp(Next(Some(b), calls[0]), calls[1..]);
    }
  }

  // ----- The plan tables -----

  // The limits as documented: burst and sustained calls per minute of each plan and route class, an
  // unknown plan counting as free.
  lemma PlanTable(plan: string)
    ensures BucketForPlan("free").capacity == 60.0 && BucketForPlan("starter").capacity == 300.0 && BucketForPlan("pro").capacity == 1000.0
    ensures BucketForPlan("free").refill * 60.0 == 60.0 && BucketForPlan("starter").refill * 60.0 == 300.0
         && BucketForPlan("pro").refill * 60.0 == 1000.0
    ensures plan != "starter" && plan != "pro" ==> BucketForPlan(plan) == BucketForPlan("free")
    ensures BucketForRoute(Credential).capacity == 10.0 && BucketForRoute(Credential).refill * 60.0 == 10.0
    ensures BucketForRoute(General).capacity == 30.0 && BucketForRoute(General).refill * 60.0 == 30.0
  {
  }
}
