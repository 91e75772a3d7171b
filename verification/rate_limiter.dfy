// The RateLimiter class of src/ratelimit/limiter.ts on top of a Redis server that may lose its
// script cache between any two commands.

module RateLimiting {
  import opened Prelude
  import opened TokenBucket
  import opened BucketLedger

  datatype LimitResult = LimitResult(allowed: bool, remaining: int, limit: real, retryAfterMs: int, resetMs: int)

  // What a run of the script at `call.now` finds under a key.
  function Available(k: Option<Key>, call: Call): real {
    Refilled(Live(k, call.now), call)
  }

  class Redis {
    var keys: map<string, Key>
    var scriptLoaded: bool
    var flushes: seq<bool> // for each coming EVALSHA: does the server drop its script cache first?

    function Lookup(name: string): Option<Key>
      reads this
    {
      if name in keys then Some(keys[name]) else None
    }

    constructor (flushes: seq<bool>)
      ensures keys == map[] && !scriptLoaded && this.flushes == flushes
    {
      keys := map[];
      scriptLoaded := false;
      this.flushes := flushes;
    }

    method ScriptLoad()
      modifies this`scriptLoaded
      ensures scriptLoaded
    {
      scriptLoaded := true;
    }

    // The script, variable by variable.
    method RunScript(name: string, call: Call) returns (reply: Reply)
      requires call.cfg.Valid()
      modifies this`keys
      ensures reply == Answer(call, Available(old(Lookup(name)), call))
      ensures keys == old(keys)[name := NextKey(old(Lookup(name)), call)]
      ensures Runs(old(Lookup(name)), keys[name], call, reply)
    {
      ScriptOnNumbers(Lookup(name), call);
      hide Runs;
      var capacity, refill, requested := call.cfg.capacity, call.cfg.refill, call.requested;
      var tokens, ts := capacity, call.now;
      var data := Live(Lookup(name), call.now);
      if data.Some? {
        tokens, ts := data.value.tokens, data.value.ts;
      }
      var elapsed := Max(0, call.now - ts) as real / 1000.0;
      tokens := tokens + elapsed * refill;
      if tokens > capacity {
        tokens := capacity;
      }
      assert tokens == old(Available(Lookup(name), call));
      var allowed, retryAfterMs := false, 0;
      if tokens >= requested {
        allowed := true;
        tokens := tokens - requested;
      } else {
        var deficit := requested - tokens;
        retryAfterMs := Ceil(deficit / refill * 1000.0);
      }
      var ttl := Ceil(capacity / refill * 2.0) + 1;
      keys := keys[name := Key(Bucket(tokens, call.now), call.now + 1000 * ttl)];
      return Reply(allowed, tokens.Floor, retryAfterMs);
    }

    // EVALSHA of the script; None is the NOSCRIPT error, which leaves every key alone.
    method EvalSha(name: string, call: Call) returns (reply: Option<Reply>)
      requires call.cfg.Valid()
      modifies this
      ensures flushes == if old(flushes) == [] then [] else old(flushes)[1..]
      ensures scriptLoaded == (old(scriptLoaded) && (old(flushes) == [] || !old(flushes)[0]))
      ensures scriptLoaded ==>
        && reply == Some(Answer(call, Available(old(Lookup(name)), call)))
        && keys == old(keys)[name := NextKey(old(Lookup(name)), call)]
      ensures scriptLoaded ==> reply.Some? && name in keys && Runs(old(Lookup(name)), keys[name], call, reply.value)
      ensures !scriptLoaded ==> reply == None && keys == old(keys)
    {
      hide Runs, Answer, Available, NextKey;
      if flushes != [] {
        scriptLoaded := scriptLoaded && !flushes[0];
        flushes := flushes[1..];
      }
      if !scriptLoaded {
        return None;
      }
      var r := RunScript(name, call);
      return Some(r);
    }
  }

  class RateLimiter {
    const redis: Redis
    const readings: nat -> int // what the instance's clock shows at its i-th reading
    var looked: nat
    var sha: bool              // has this instance a script hash to call?

    constructor (redis: Redis, readings: nat -> int)
      ensures this.redis == redis && this.readings == readings && looked == 0 && !sha
    {
      this.redis := redis;
      this.readings := readings;
      looked := 0;
      sha := false;
    }

    // However often the script cache is lost on the way, the call runs the script exactly once, with the
    // clock as read last: the key is charged once, no other key changes, and the result is that of the run.
    method Consume(name: string, cfg: Config, requested: real) returns (r: LimitResult)
      requires cfg.Valid()
      modifies this, redis
      ensures sha && redis.scriptLoaded && old(looked) < looked
      ensures var call := Call(cfg, readings(looked - 1), requested);
              var a := Answer(call, Available(old(redis.Lookup(name)), call));
              && redis.keys == old(redis.keys)[name := NextKey(old(redis.Lookup(name)), call)]
              && r == LimitResult(a.allowed, a.remaining, cfg.capacity, a.retryAfterMs, ResetMs(cfg, a))
      ensures name in redis.keys && redis.keys == old(redis.keys)[name := redis.keys[name]] && r.limit == cfg.capacity
      ensures Runs(old(redis.Lookup(name)), redis.keys[name], Call(cfg, readings(looked - 1), requested),
                   Reply(r.allowed, r.remaining, r.retryAfterMs))
      ensures LeastWait(r.remaining as real, r.resetMs, cfg.refill, cfg.capacity)
      decreases |redis.flushes|, if sha && !redis.scriptLoaded then 1 else 0
    {
      if !sha {
        redis.ScriptLoad();
        sha := true;
      }
      var call := Call(cfg, readings(looked), requested);
      looked := looked + 1;
      var raw := redis.EvalSha(name, call);
      match raw
      case None =>
        sha := false;
        r := Consume(name, cfg, requested);
      case Some(a) =>
        ResetOnNumbers(cfg, a);
        hide Runs, LeastWait;
        var missing := cfg.capacity - a.remaining as real;
        r := LimitResult(a.allowed, a.remaining, cfg.capacity, a.retryAfterMs,
                         Ceil(missing / cfg.refill * 1000.0));
    }
  }
}
