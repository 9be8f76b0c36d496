/**
 * The per-user token-bucket rate limiter that gates the chat endpoint.
 *
 * A map from user id to bucket is created lazily; each call refills the
 * caller's bucket continuously (saturating at its limit), spends one token
 * when one is available, and otherwise reports how many seconds to wait.
 * The clock `Date.now()` is the parameter `now` (milliseconds); token counts
 * are exact reals.
 */
module RateLimiter {
  import opened Wrappers
  import RealArith

  /** A tier's configuration: requests per minute and an optional burst. */
  datatype RateLimitConfig = RateLimitConfig(requestsPerMinute: int, burstSize: Option<int>)

  datatype TokenBucket = TokenBucket(tokens: real, lastRefillTime: int, limit: real, refillRate: real)

  datatype RateLimitResult = RateLimitResult(allowed: bool, remaining: int, resetTime: int, retryAfter: Option<int>)

  const MINUTE_MS: int := 60000

  /** The defaults `checkRateLimit` and `cleanupOldBuckets` use when the
      argument is omitted; here the caller passes them. */
  const DEFAULT_TIER: string := "free"
  const DEFAULT_MAX_AGE_MS: int := 3600000

  /** `TIER_CONFIGS[userTier]`; any other tier name is unknown. */
  function TierConfig(tier: string): (c: Option<RateLimitConfig>)
    ensures c.Some? <==> tier == "free" || tier == "premium" || tier == "admin"
    ensures c.Some? ==> c.value.requestsPerMinute > 0 && BurstSize(c.value) >= 1
  {
    if tier == "free" then Some(RateLimitConfig(5, Some(10)))
    else if tier == "premium" then Some(RateLimitConfig(30, Some(50)))
    else if tier == "admin" then Some(RateLimitConfig(1000, Some(2000)))
    else None
  }

  /** `config.burstSize || limit * 2`: an absent or zero burst falls back to
      twice the per-minute rate. */
  function BurstSize(c: RateLimitConfig): (n: int)
    ensures c.burstSize.Some? && c.burstSize.value != 0 ==> n == c.burstSize.value
    ensures !(c.burstSize.Some? && c.burstSize.value != 0) ==> n == 2 * c.requestsPerMinute
  {
    if c.burstSize.Some? && c.burstSize.value != 0 then c.burstSize.value else 2 * c.requestsPerMinute
  }

  /** `getUserTier`: every user is on the free tier. */
  function GetUserTier(userId: string): (tier: string)
    ensures tier == "free"
    ensures TierConfig(tier).Some?
  {
    "free"
  }

  /** A bucket the limiter can work with: a positive refill rate, a limit of
      at least one token, and never more tokens than the limit. */
  predicate ValidBucket(b: TokenBucket) {
    b.refillRate > 0.0 && b.limit >= 1.0 && b.tokens <= b.limit
  }

  predicate ValidBuckets(m: map<string, TokenBucket>) {
    forall u :: u in m ==> ValidBucket(m[u])
  }

  /** The bucket a first call creates: full, at the tier's burst size. */
  function FreshBucket(c: RateLimitConfig, now: int): (b: TokenBucket)
    requires c.requestsPerMinute > 0 && BurstSize(c) >= 1
    ensures ValidBucket(b)
    ensures b.tokens == b.limit == BurstSize(c) as real && b.lastRefillTime == now
    ensures b.refillRate == (c.requestsPerMinute as real) / 60.0
  {
    var burst := BurstSize(c) as real;
    TokenBucket(burst, now, burst, (c.requestsPerMinute as real) / 60.0)
  }

  function Min(a: real, b: real): (m: real)
    ensures m <= a && m <= b && (m == a || m == b)
  {
    if a <= b then a else b
  }

  /** The tokens after refilling for the time elapsed since the last refill,
      capped at the limit. */
  function Refilled(b: TokenBucket, now: int): (t: real)
    ensures t <= b.limit
    ensures t == b.limit || t == b.tokens + ((now - b.lastRefillTime) as real / 1000.0) * b.refillRate
  {
    Min(b.limit, b.tokens + ((now - b.lastRefillTime) as real / 1000.0) * b.refillRate)
  }

  /** `Math.ceil`. */
  function Ceil(x: real): (n: int)
    ensures (n - 1) as real < x <= n as real
  {
    -((-x).Floor)
  }

  /** The answer given without touching any bucket. */
  function FailOpen(now: int): RateLimitResult {
    RateLimitResult(true, 0, now + MINUTE_MS, None)
  }

  datatype Checked = Checked(result: RateLimitResult, buckets: map<string, TokenBucket>)

  /** The bucket a call for a known tier starts from. */
  function CurrentBucket(m: map<string, TokenBucket>, userId: string, c: RateLimitConfig, now: int): (b: TokenBucket)
    requires c.requestsPerMinute > 0 && BurstSize(c) >= 1
    ensures userId in m ==> b == m[userId]
    ensures userId !in m ==> b == FreshBucket(c, now)
  {
    if userId in m then m[userId] else FreshBucket(c, now)
  }

  /** `checkRateLimit` on the map of buckets. */
  function CheckStep(m: map<string, TokenBucket>, userId: string, tier: string, now: int): (r: Checked)
    requires ValidBuckets(m)
    ensures ValidBuckets(r.buckets)
    // fail-open: no user or an unknown tier admits and changes nothing
    ensures userId == "" || TierConfig(tier).None? ==> r.result == FailOpen(now) && r.buckets == m
    // only the caller's bucket changes
    ensures userId != "" && TierConfig(tier).Some? ==>
              r.buckets.Keys == m.Keys + {userId} && forall u :: u in m && u != userId ==> r.buckets[u] == m[u]
    // the limit and rate are those the bucket was created with, and it is refilled up to now
    ensures userId != "" && TierConfig(tier).Some? ==>
              var before := CurrentBucket(m, userId, TierConfig(tier).value, now);
              var after := r.buckets[userId];
              after.limit == before.limit && after.refillRate == before.refillRate && after.lastRefillTime == now
    ensures userId != "" && TierConfig(tier).Some? ==>
              (r.result.allowed <==> Refilled(CurrentBucket(m, userId, TierConfig(tier).value, now), now) >= 1.0)
    // admitted: one token spent
    ensures userId != "" && TierConfig(tier).Some? && r.result.allowed ==>
              var tokens := Refilled(CurrentBucket(m, userId, TierConfig(tier).value, now), now);
              var after := r.buckets[userId];
              after.tokens == tokens - 1.0 && r.result.remaining == after.tokens.Floor &&
              r.result.remaining >= 0 && r.result.resetTime == now + MINUTE_MS && r.result.retryAfter.None?
    // denied: wait until the missing part of a token has refilled
    ensures userId != "" && TierConfig(tier).Some? && !r.result.allowed ==>
              var tokens := Refilled(CurrentBucket(m, userId, TierConfig(tier).value, now), now);
              var after := r.buckets[userId];
              after.tokens == tokens && r.result.remaining == 0 && r.result.retryAfter.Some? &&
              var wait := r.result.retryAfter.value;
              wait >= 1 &&
              (wait - 1) as real < (1.0 - tokens) / after.refillRate <= wait as real &&
              r.result.resetTime == now + wait * 1000
  {
    if userId == "" || TierConfig(tier).None? then Checked(FailOpen(now), m)
    else
      var before := CurrentBucket(m, userId, TierConfig(tier).value, now);
      var tokens := Refilled(before, now);
      if tokens >= 1.0 then
        var after := before.(tokens := tokens - 1.0, lastRefillTime := now);
        Checked(RateLimitResult(true, after.tokens.Floor, now + MINUTE_MS, None), m[userId := after])
      else
        var after := before.(tokens := tokens, lastRefillTime := now);
        var needed := (1.0 - tokens) / before.refillRate;
        PositiveQuotient(1.0 - tokens, before.refillRate);
        var wait := Ceil(needed);
        Checked(RateLimitResult(false, 0, now + wait * 1000, Some(wait)), m[userId := after])
  }

  lemma PositiveQuotient(a: real, b: real)
    requires a > 0.0 && b > 0.0
    ensures a / b > 0.0
  {
  }

  function Swept(m: map<string, TokenBucket>, maxAge: int, now: int): (s: map<string, TokenBucket>)
    ensures forall u :: u in s <==> u in m && now - m[u].lastRefillTime <= maxAge
    ensures forall u :: u in s ==> s[u] == m[u]
  {
    map u | u in m && now - m[u].lastRefillTime <= maxAge :: m[u]
  }

  /** The limiter's state: the module-level map of buckets. */
  class Limiter {
    var buckets: map<string, TokenBucket>

    ghost predicate Valid()
      reads this
    {
      ValidBuckets(buckets)
    }

    constructor()
      ensures Valid() && buckets == map[]
    {
      buckets := map[];
    }

    /** `checkRateLimit(userId, userTier)` at time `now`. */
    method CheckRateLimit(userId: string, tier: string, now: int) returns (result: RateLimitResult)
      requires Valid()
      modifies this
      ensures Valid()
      ensures Checked(result, buckets) == CheckStep(old(buckets), userId, tier, now)
    {
      if userId == "" {
        return FailOpen(now);
      }
      var config := TierConfig(tier);
      if config.None? {
        return FailOpen(now);
      }
      var bucket := CurrentBucket(buckets, userId, config.value, now);
      if userId !in buckets {
        buckets := buckets[userId := bucket];
      }
      var tokens := Refilled(bucket, now);
      if tokens >= 1.0 {
        var after := bucket.(tokens := tokens - 1.0, lastRefillTime := now);
        assert buckets[userId := after] == old(buckets)[userId := after];
        buckets := buckets[userId := after];
        result := RateLimitResult(true, (tokens - 1.0).Floor, now + MINUTE_MS, None);
      } else {
        var after := bucket.(tokens := tokens, lastRefillTime := now);
        assert buckets[userId := after] == old(buckets)[userId := after];
        buckets := buckets[userId := after];
        var wait := Ceil((1.0 - tokens) / bucket.refillRate);
        result := RateLimitResult(false, 0, now + wait * 1000, Some(wait));
      }
    }

    /** `cleanupOldBuckets(maxAge)` at time `now`: drops every bucket idle
        for strictly longer than `maxAge` and keeps the rest as they are. */
    method CleanupOldBuckets(maxAge: int, now: int) returns (removed: nat)
      requires Valid()
      modifies this
      ensures Valid()
      ensures buckets == Swept(old(buckets), maxAge, now)
      ensures removed == |old(buckets).Keys - buckets.Keys|
    {
      var pending := buckets.Keys;
      ghost var gone: set<string> := {};
      removed := 0;
      while pending != {}
        invariant pending <= old(buckets).Keys
        invariant gone !! pending && gone <= old(buckets).Keys && removed == |gone|
        invariant buckets.Keys == old(buckets).Keys - gone
        invariant forall u :: u in gone <==> u in old(buckets) && u !in pending && now - old(buckets)[u].lastRefillTime > maxAge
        invariant forall u :: u in buckets ==> buckets[u] == old(buckets)[u]
        decreases |pending|
      {
        var u :| u in pending;
        if now - buckets[u].lastRefillTime > maxAge {
          buckets := buckets - {u};
          gone := gone + {u};
          removed := removed + 1;
        }
        pending := pending - {u};
      }
      assert old(buckets).Keys - buckets.Keys == gone;
    }

    /** `getBucketStats(userId)`. */
    function GetBucketStats(userId: string): (b: Option<TokenBucket>)
      reads this
      ensures b.Some? <==> userId in buckets
      ensures b.Some? ==> b.value == buckets[userId]
    {
      if userId in buckets then Some(buckets[userId]) else None
    }
  }

  /** A first call creates a full bucket at the tier's burst size and
      refill rate, and is admitted with one token spent. */
  lemma FirstCallStartsFull(m: map<string, TokenBucket>, userId: string, tier: string, now: int)
    requires ValidBuckets(m) && userId != "" && userId !in m && TierConfig(tier).Some?
    ensures var c := TierConfig(tier).value;
            var r := CheckStep(m, userId, tier, now);
            && r.result.allowed
            && r.buckets[userId] == TokenBucket(BurstSize(c) as real - 1.0, now, BurstSize(c) as real, (c.requestsPerMinute as real) / 60.0)
            && r.result.remaining == BurstSize(c) - 1
  {
    var c := TierConfig(tier).value;
    var b := FreshBucket(c, now);
    assert ((now - b.lastRefillTime) as real / 1000.0) * b.refillRate == 0.0;
    assert Refilled(b, now) == b.limit;
  }

  /** A later call with another known tier keeps the bucket's limit and
      refill rate. */
  lemma LimitsAreFixedAtCreation(m: map<string, TokenBucket>, userId: string, tier: string, now: int)
    requires ValidBuckets(m) && userId in m && TierConfig(tier).Some?
    ensures var after := CheckStep(m, userId, tier, now).buckets[userId];
            after.limit == m[userId].limit && after.refillRate == m[userId].refillRate
  {
  }

  /** With a clock that does not run backwards, no bucket goes negative. */
  lemma TokensStayNonNegative(m: map<string, TokenBucket>, userId: string, tier: string, now: int)
    requires ValidBuckets(m) && userId != "" && TierConfig(tier).Some?
    requires userId in m ==> m[userId].tokens >= 0.0 && now >= m[userId].lastRefillTime
    ensures CheckStep(m, userId, tier, now).buckets[userId].tokens >= 0.0
  {
    var b := CurrentBucket(m, userId, TierConfig(tier).value, now);
    NonNegativeProduct((now - b.lastRefillTime) as real / 1000.0, b.refillRate);
  }

  lemma NonNegativeProduct(a: real, b: real)
    requires a >= 0.0 && b >= 0.0
    ensures a * b >= 0.0
  {
  }

  /** After a denial at time `t`, a call `retryAfter` seconds later is
      admitted. */
  lemma RetryAfterIsEnough(m: map<string, TokenBucket>, userId: string, tier: string, t: int)
    requires ValidBuckets(m) && userId != "" && TierConfig(tier).Some?
    requires !CheckStep(m, userId, tier, t).result.allowed
    ensures var r := CheckStep(m, userId, tier, t);
            CheckStep(r.buckets, userId, tier, t + r.result.retryAfter.value * 1000).result.allowed
  {
    var r := CheckStep(m, userId, tier, t);
    var b := r.buckets[userId];
    var wait := r.result.retryAfter.value;
    assert ValidBucket(b);
    assert (1.0 - b.tokens) / b.refillRate <= wait as real;
    RefilledAfterWaiting(b, t + wait * 1000, wait);
  }

  /** Waiting `wait` seconds, at least what the missing part of a token
      takes, refills at least one token. */
  lemma RefilledAfterWaiting(b: TokenBucket, later: int, wait: int)
    requires ValidBucket(b) && later == b.lastRefillTime + wait * 1000
    requires (1.0 - b.tokens) / b.refillRate <= wait as real
    ensures Refilled(b, later) >= 1.0
  {
    ElapsedSeconds(wait, b.lastRefillTime);
    EnoughAfterWaiting(b.tokens, b.refillRate, wait as real);
  }

  lemma ElapsedSeconds(wait: int, t: int)
    ensures ((t + wait * 1000 - t) as real / 1000.0) == wait as real
  {
  }

  lemma EnoughAfterWaiting(tokens: real, rate: real, wait: real)
    requires rate > 0.0 && (1.0 - tokens) / rate <= wait
    ensures tokens + wait * rate >= 1.0
  {
    var q := (1.0 - tokens) / rate;
    assert q * rate == 1.0 - tokens;
    RealArith.MulWeak(q, wait, rate);
  }

  /** `n` calls by one user at the same instant: their results, in order,
      and the buckets afterwards. */
  function Burst(m: map<string, TokenBucket>, userId: string, tier: string, now: int, n: nat): (r: (seq<RateLimitResult>, map<string, TokenBucket>))
    requires ValidBuckets(m)
    ensures |r.0| == n && ValidBuckets(r.1)
  {
    if n == 0 then ([], m)
    else
      var (results, before) := Burst(m, userId, tier, now, n - 1);
      var c := CheckStep(before, userId, tier, now);
      (results + [c.result], c.buckets)
  }

  const FREE_RATE: real := 5.0 / 60.0

  /** A new free-tier user gets ten immediate admits, with 9, 8, ..., 0
      tokens remaining. */
  lemma {:induction false} FreeBurst(m: map<string, TokenBucket>, userId: string, now: int, n: nat)
    requires ValidBuckets(m) && userId != "" && userId !in m && 1 <= n <= 10
    ensures var (results, after) := Burst(m, userId, "free", now, n);
            && (forall i :: 0 <= i < n ==> results[i].allowed && results[i].remaining == 9 - i)
            && userId in after && after[userId] == TokenBucket((10 - n) as real, now, 10.0, FREE_RATE)
  {
    if n == 1 {
      FirstCallStartsFull(m, userId, "free", now);
    } else {
      FreeBurst(m, userId, now, n - 1);
      var (results, before) := Burst(m, userId, "free", now, n - 1);
      SameInstantSpend(before, userId, "free", now);
    }
  }

  /** A call at the instant of the last refill finds the tokens as they
      were. */
  lemma SameInstantSpend(m: map<string, TokenBucket>, userId: string, tier: string, now: int)
    requires ValidBuckets(m) && userId != "" && TierConfig(tier).Some?
    requires userId in m && m[userId].lastRefillTime == now
    ensures Refilled(m[userId], now) == m[userId].tokens
  {
    assert ((now - m[userId].lastRefillTime) as real / 1000.0) * m[userId].refillRate == 0.0;
  }

  /** The eleventh immediate call of a new free-tier user is denied and told
      to retry in twelve seconds. */
  lemma EleventhCallWaitsTwelveSeconds(m: map<string, TokenBucket>, userId: string, now: int)
    requires ValidBuckets(m) && userId != "" && userId !in m
    ensures var (_, after) := Burst(m, userId, "free", now, 10);
            CheckStep(after, userId, "free", now).result == RateLimitResult(false, 0, now + 12000, Some(12))
  {
    FreeBurst(m, userId, now, 10);
    var (_, after) := Burst(m, userId, "free", now, 10);
    SameInstantSpend(after, userId, "free", now);
    assert (1.0 - 0.0) / FREE_RATE == 12.0;
  }
}
