/**
 * The in-memory sliding-window rate limiter: per key, the timestamps of the
 * requests admitted inside the window; a request is admitted while fewer
 * than `maxRequests` of them are younger than `windowMs`.
 * The clock (`Date.now()`) is the parameter `now`.
 */
module RateLimit {
  import opened JsText

  datatype RateLimitConfig = RateLimitConfig(
    windowMs: int,
    maxRequests: int,
    keyGenerator: Option<string -> string>)

  /** The preset for calls to the National Diet Library: 30 a minute per `ndl:` key. */
  function NdlRateLimit(): RateLimitConfig {
    RateLimitConfig(60 * 1000, 30, Some((id: string) => "ndl:" + id))
  }

  /** The preset for MCP tool calls: 100 a minute per `mcp:` key. */
  function McpToolRateLimit(): RateLimitConfig {
    RateLimitConfig(60 * 1000, 100, Some((id: string) => "mcp:" + id))
  }

  datatype RateLimitResult = RateLimitResult(
    allowed: bool,
    remaining: int,
    resetTime: int,
    retryAfter: Option<int>)

  /** The storage key: the identifier passed through `keyGenerator` when there is one. */
  function KeyFor(config: RateLimitConfig, identifier: string): string {
    if config.keyGenerator.Some? then config.keyGenerator.value(identifier) else identifier
  }

  /** The timestamps strictly after `cutoff`, in order. */
  function Live(times: seq<int>, cutoff: int): (r: seq<int>)
    ensures |r| <= |times|
    ensures forall i :: 0 <= i < |r| ==> r[i] > cutoff
    decreases |times|
  {
    if |times| == 0 then []
    else
      assert times == times[..|times| - 1] + [times[|times| - 1]];
      Live(times[..|times| - 1], cutoff)
      + (if times[|times| - 1] > cutoff then [times[|times| - 1]] else [])
  }

  /** A timestamp is kept exactly when it was recorded and is newer than the cutoff. */
  lemma {:induction false} LiveMembers(times: seq<int>, cutoff: int, t: int)
    ensures t in Live(times, cutoff) <==> t in times && t > cutoff
    decreases |times|
  {
    if |times| > 0 {
      var prefix := times[..|times| - 1];
      var last := times[|times| - 1];
      assert times == prefix + [last];
      LiveMembers(prefix, cutoff, t);
      assert t in times <==> t in prefix || t == last;
    }
  }

  /** Pruning works piece by piece, so the kept timestamps stay in their order. */
  lemma {:induction false} LiveConcat(a: seq<int>, b: seq<int>, cutoff: int)
    ensures Live(a + b, cutoff) == Live(a, cutoff) + Live(b, cutoff)
    decreases |b|
  {
    if |b| == 0 {
      assert a + b == a;
    } else {
      assert (a + b)[..|a + b| - 1] == a + b[..|b| - 1];
      LiveConcat(a, b[..|b| - 1], cutoff);
    }
  }

  /** Nothing is pruned from a history that lies wholly inside the window. */
  lemma {:induction false} LiveKeepsRecent(times: seq<int>, cutoff: int)
    requires forall i :: 0 <= i < |times| ==> times[i] > cutoff
    ensures Live(times, cutoff) == times
    decreases |times|
  {
    if |times| > 0 {
      LiveKeepsRecent(times[..|times| - 1], cutoff);
      assert times == times[..|times| - 1] + [times[|times| - 1]];
    }
  }

  /** `Math.min(...times)`. */
  function Minimum(times: seq<int>): (m: int)
    requires |times| > 0
    ensures m in times
    ensures forall i :: 0 <= i < |times| ==> m <= times[i]
  {
    if |times| == 1 then times[0]
    else
      var m := Minimum(times[1..]);
      assert forall i :: 1 <= i < |times| ==> times[i] == times[1..][i - 1];
      if times[0] <= m then times[0] else m
  }

  /** `Math.ceil(x / 1000)`. */
  function CeilDiv1000(x: int): (r: int)
    ensures 1000 * (r - 1) < x <= 1000 * r
  {
    -((-x) / 1000)
  }

  /** The timestamps of `key` still inside the window that ends at `now`. */
  function LiveFor(config: RateLimitConfig, requests: map<string, seq<int>>, key: string, now: int): seq<int> {
    Live(if key in requests then requests[key] else [], now - config.windowMs)
  }

  /** What `check(identifier)` answers at time `now`. */
  function CheckResult(config: RateLimitConfig, requests: map<string, seq<int>>, identifier: string, now: int): RateLimitResult
    requires config.maxRequests >= 1
  {
    var times := LiveFor(config, requests, KeyFor(config, identifier), now);
    if |times| >= config.maxRequests then
      var oldest := Minimum(times);
      RateLimitResult(false, 0, oldest + config.windowMs,
                      Some(CeilDiv1000(oldest + config.windowMs - now)))
    else
      RateLimitResult(true, config.maxRequests - (|times| + 1), now + config.windowMs, None)
  }

  /** The request history after `check(identifier)` at time `now`. */
  function CheckState(config: RateLimitConfig, requests: map<string, seq<int>>, identifier: string, now: int): map<string, seq<int>> {
    var key := KeyFor(config, identifier);
    var times := LiveFor(config, requests, key, now);
    if |times| >= config.maxRequests then requests else requests[key := times + [now]]
  }

  /** The request history after `cleanup()` at time `now`. */
  function Pruned(config: RateLimitConfig, requests: map<string, seq<int>>, now: int): map<string, seq<int>> {
    map k | k in requests && |Live(requests[k], now - config.windowMs)| > 0
      :: Live(requests[k], now - config.windowMs)
  }

  /** `RateLimitError`. */
  datatype RateLimitError = RateLimitError(name: string, message: string, retryAfter: int, resetTime: int)

  datatype GuardOutcome = Proceed | Refused(error: RateLimitError)

  /** The identifier the `withRateLimit` decorator uses: `getRateLimitKey?.() || 'default'`. */
  function GuardIdentifier(rateLimitKey: Option<string>): string {
    if rateLimitKey.Some? && rateLimitKey.value != "" then rateLimitKey.value else "default"
  }

  class MemoryRateLimiter {
    var requests: map<string, seq<int>>
    const config: RateLimitConfig

    /** Every stored history is non-empty and no longer than `maxRequests`. */
    ghost predicate Valid()
      reads this
    {
      config.maxRequests >= 1
      && forall k :: k in requests ==> 1 <= |requests[k]| <= config.maxRequests
    }

    constructor (config: RateLimitConfig)
      requires config.maxRequests >= 1
      ensures Valid()
      ensures this.config == config && requests == map[]
    {
      this.config := config;
      requests := map[];
    }

    /** `check(identifier)` at time `now`. */
    method Check(identifier: string, now: int) returns (r: RateLimitResult)
      requires Valid()
      modifies this
      ensures Valid()
      ensures r == CheckResult(config, old(requests), identifier, now)
      ensures requests == CheckState(config, old(requests), identifier, now)
    {
      var key := KeyFor(config, identifier);
      var times := if key in requests then requests[key] else [];
      times := Live(times, now - config.windowMs);
      if |times| >= config.maxRequests {
        var oldest := Minimum(times);
        var retryAfter := CeilDiv1000(oldest + config.windowMs - now);
        return RateLimitResult(false, 0, oldest + config.windowMs, Some(retryAfter));
      }
      times := times + [now];
      requests := requests[key := times];
      r := RateLimitResult(true, config.maxRequests - |times|, now + config.windowMs, None);
    }

    /** `cleanup()` at time `now`: prunes every history and drops the empty ones. */
    method Cleanup(now: int)
      requires Valid()
      modifies this
      ensures Valid()
      ensures requests == Pruned(config, old(requests), now)
    {
      ghost var start := requests;
      var cutoff := now - config.windowMs;
      var pending := requests.Keys;
      while pending != {}
        invariant PrunedExcept(requests, start, pending, cutoff)
        invariant Valid()
        decreases |pending|
      {
        var key :| key in pending;
        var valid := Live(requests[key], cutoff);
        PruneStep(requests, start, pending, key, cutoff);
        if |valid| == 0 {
          requests := requests - {key};
        } else {
          requests := requests[key := valid];
        }
        pending := pending - {key};
      }
      PrunedDone(config, requests, start, now, cutoff);
    }
  }

  /** The history while `cleanup()` runs: the keys not in `pending` are pruned already. */
  ghost predicate PrunedExcept(m: map<string, seq<int>>, start: map<string, seq<int>>, pending: set<string>, cutoff: int) {
    pending <= start.Keys
    && (forall k :: k in m <==> k in start && (k in pending || |Live(start[k], cutoff)| > 0))
    && (forall k :: k in m ==> m[k] == if k in pending then start[k] else Live(start[k], cutoff))
  }

  lemma PruneStep(m: map<string, seq<int>>, start: map<string, seq<int>>, pending: set<string>, key: string, cutoff: int)
    requires PrunedExcept(m, start, pending, cutoff) && key in pending
    ensures var v := Live(m[key], cutoff);
      PrunedExcept(if |v| == 0 then m - {key} else m[key := v], start, pending - {key}, cutoff)
  {
  }

  lemma PrunedDone(config: RateLimitConfig, m: map<string, seq<int>>, start: map<string, seq<int>>, now: int, cutoff: int)
    requires cutoff == now - config.windowMs
    requires PrunedExcept(m, start, {}, cutoff)
    ensures m == Pruned(config, start, now)
  {
    forall k | k in m ensures k in Pruned(config, start, now) && m[k] == Pruned(config, start, now)[k] {
    }
    forall k | k in Pruned(config, start, now) ensures k in m {
    }
  }

  /**
   * The `withRateLimit` decorator: checks the limiter under the caller's
   * key and, when refused, raises `RateLimitError` instead of invoking the
   * wrapped method (`Proceed` stands for invoking it once).
   */
  method Guard(limiter: MemoryRateLimiter, rateLimitKey: Option<string>, now: int) returns (g: GuardOutcome)
    requires limiter.Valid()
    modifies limiter
    ensures limiter.Valid()
    ensures limiter.requests == CheckState(limiter.config, old(limiter.requests), GuardIdentifier(rateLimitKey), now)
    ensures var r := CheckResult(limiter.config, old(limiter.requests), GuardIdentifier(rateLimitKey), now);
      g == if r.allowed then Proceed
           else Refused(RateLimitError("RateLimitError",
                  "Rate limit exceeded. Try again in " + IntToString(r.retryAfter.value) + " seconds",
                  r.retryAfter.value, r.resetTime))
  {
    var r := limiter.Check(GuardIdentifier(rateLimitKey), now);
    if !r.allowed {
      var retryAfter := r.retryAfter.value;
      return Refused(RateLimitError("RateLimitError",
        "Rate limit exceeded. Try again in " + IntToString(retryAfter) + " seconds",
        retryAfter, r.resetTime));
    }
    g := Proceed;
  }

  // ---------------------------------------------------------------------
  // Properties

  /**
   * A request is admitted exactly when fewer than `maxRequests` earlier
   * requests of its key lie inside the window; an admitted request is
   * recorded and the answer counts what is left, a refused one changes
   * nothing and names a retry time in the future.
   */
  lemma CheckAdmitsWithinWindow(config: RateLimitConfig, requests: map<string, seq<int>>, identifier: string, now: int)
    requires config.maxRequests >= 1
    ensures var r := CheckResult(config, requests, identifier, now);
      var key := KeyFor(config, identifier);
      var times := LiveFor(config, requests, key, now);
      var next := CheckState(config, requests, identifier, now);
      (r.allowed <==> |times| < config.maxRequests)
      && (r.allowed ==> 0 <= r.remaining < config.maxRequests && key in next
                        && next[key] == times + [now] && |next[key]| == config.maxRequests - r.remaining
                        && r.retryAfter.None?)
      && (!r.allowed ==> next == requests && r.remaining == 0 && r.retryAfter.Some?
                         && r.retryAfter.value >= 1 && r.resetTime > now
                         && 1000 * (r.retryAfter.value - 1) < r.resetTime - now <= 1000 * r.retryAfter.value)
      && (forall k :: k != key ==> (k in next <==> k in requests) && (k in next ==> next[k] == requests[k]))
  {
  }

  lemma {:induction false} LiveIdempotent(times: seq<int>, cutoff: int, later: int)
    requires cutoff <= later
    ensures Live(Live(times, cutoff), later) == Live(times, later)
    decreases |times|
  {
    if |times| > 0 {
      var prefix := times[..|times| - 1];
      LiveIdempotent(prefix, cutoff, later);
      var t := times[|times| - 1];
      if t > cutoff {
        var l := Live(prefix, cutoff) + [t];
        assert Live(times, cutoff) == l;
        assert l[..|l| - 1] == Live(prefix, cutoff);
        assert Live(l, later) == Live(prefix, later) + (if t > later then [t] else []);
      } else {
        assert Live(times, cutoff) == Live(prefix, cutoff);
        assert Live(times, later) == Live(prefix, later);
      }
    }
  }

  lemma {:induction false} LiveAllAbove(times: seq<int>, cutoff: int)
    requires forall i :: 0 <= i < |times| ==> times[i] > cutoff
    ensures Live(times, cutoff) == times
    decreases |times|
  {
    if |times| > 0 {
      LiveAllAbove(times[..|times| - 1], cutoff);
    }
  }

  lemma LiveForPruned(config: RateLimitConfig, requests: map<string, seq<int>>, now: int, key: string, later: int)
    requires now <= later
    ensures LiveFor(config, Pruned(config, requests, now), key, later) == LiveFor(config, requests, key, later)
  {
    var c1 := now - config.windowMs;
    var c2 := later - config.windowMs;
    var pruned := Pruned(config, requests, now);
    if key in requests {
      var t := requests[key];
      LiveIdempotent(t, c1, c2);
      if |Live(t, c1)| == 0 {
        assert key !in pruned;
        assert Live(t, c1) == [];
        assert LiveFor(config, pruned, key, later) == Live([], c2);
      } else {
        assert pruned[key] == Live(t, c1);
      }
    } else {
      assert key !in pruned;
    }
  }

  /**
   * `cleanup()` cannot be observed: at any later time, every key gets the
   * same answer from the pruned history as from the full one.
   */
  lemma CleanupUnobservable(config: RateLimitConfig, requests: map<string, seq<int>>, now: int, identifier: string, later: int)
    requires config.maxRequests >= 1
    requires now <= later
    ensures CheckResult(config, Pruned(config, requests, now), identifier, later)
         == CheckResult(config, requests, identifier, later)
  {
    LiveForPruned(config, requests, now, KeyFor(config, identifier), later);
  }

  /**
   * Right after an admission at `now`, the window ending at `now` holds at
   * most `maxRequests` requests of that key.
   */
  lemma AdmissionKeepsWindowBound(config: RateLimitConfig, requests: map<string, seq<int>>, identifier: string, now: int)
    requires config.maxRequests >= 1 && config.windowMs > 0
    requires CheckResult(config, requests, identifier, now).allowed
    ensures var next := CheckState(config, requests, identifier, now);
      var key := KeyFor(config, identifier);
      key in next && |LiveFor(config, next, key, now)| <= config.maxRequests
  {
    var key := KeyFor(config, identifier);
    var times := LiveFor(config, requests, key, now);
    var l := times + [now];
    assert CheckState(config, requests, identifier, now)[key] == l;
    LiveAllAbove(l, now - config.windowMs);
  }

  /** The presets prefix the identifier with `ndl:` and `mcp:`. */
  lemma PresetKeys(identifier: string)
    ensures KeyFor(NdlRateLimit(), identifier) == "ndl:" + identifier
    ensures KeyFor(McpToolRateLimit(), identifier) == "mcp:" + identifier
    ensures NdlRateLimit().maxRequests == 30 && McpToolRateLimit().maxRequests == 100
    ensures NdlRateLimit().windowMs == 60000 && McpToolRateLimit().windowMs == 60000
  {
  }
}
