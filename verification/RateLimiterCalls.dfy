/** What one call of the rate limiter finds, answers and leaves behind, over every run
    (src/services/RateLimiter.ts:122-169). */
module RateLimiterCalls {
  import opened RateLimiter

  /** What has been earned since the last refill, if the clock has moved on. */
  function Earned(cfg: Config, b: Bucket, nowMs: real): real {
    if nowMs > b.lastRefillMs then (nowMs - b.lastRefillMs) / 1000.0 * cfg.refillPerSec else 0.0
  }

  /** The tokens a call finds: never more than the bucket holds. */
  function Tokens(cfg: Config, b: Bucket, nowMs: real): real {
    var tokens := b.tokens + Earned(cfg, b, nowMs);
    if tokens > cfg.capacity then cfg.capacity else tokens
  }

  lemma RefilledHolds(cfg: Config, b: Bucket, nowMs: real)
    requires b.tokens <= cfg.capacity
    ensures Refilled(cfg, b, nowMs) ==
            Bucket(Tokens(cfg, b, nowMs), if nowMs > b.lastRefillMs then nowMs else b.lastRefillMs)
  {
    if nowMs > b.lastRefillMs { AddedIn(cfg, nowMs - b.lastRefillMs); }
  }

  /** A call is answered from these tokens: it is allowed if there is a whole one, takes one
      then, and tells how many whole ones are left. */
  ghost predicate Takes(cfg: Config, b: Bucket, nowMs: real, answer: Decision, after: Bucket) {
    var tokens := Tokens(cfg, b, nowMs);
    && (answer.allowed <==> tokens >= 1.0)
    && answer.remaining == (if tokens >= 1.0 then (tokens - 1.0).Floor else 0)
    && (answer.allowed ==> answer.retryAfterS == 0)
    && (!answer.allowed ==> answer.retryAfterS >= 1)
    && after.tokens == (if tokens >= 1.0 then tokens - 1.0 else tokens)
    && after.lastRefillMs == (if nowMs > b.lastRefillMs then nowMs else b.lastRefillMs)
  }

  lemma FoundTakes(cfg: Config, b: Bucket, nowMs: real)
    requires b.tokens <= cfg.capacity
    ensures Takes(cfg, b, nowMs, Verdict(cfg, Refilled(cfg, b, nowMs)), Serve(cfg)(b, nowMs).0)
  {
    RefilledHolds(cfg, b, nowMs);
  }

  /** The bucket that a call finds: the key's own, or a full one made now. */
  function BucketFor(cfg: Config, buckets: Buckets, key: string, nowMs: real): Bucket {
    if key in Keys(buckets) then BucketOf(buckets, key) else Bucket(cfg.capacity, nowMs)
  }

  lemma BucketForIsBounded(cfg: Config, calls: seq<Call>, states: seq<Buckets>, k: nat)
    requires IsRun(cfg, Serve(cfg), calls, states) && k < |calls|
    ensures BucketFor(cfg, states[k], calls[k].key, calls[k].nowMs).tokens <= cfg.capacity
  {
    BucketsStayInBounds(cfg, calls, states, k);
    FoundInBounds(cfg, states[k], calls[k].key, calls[k].nowMs);
    FoundIsBucket(cfg, states[k], calls[k].key, calls[k].nowMs);
  }

  /** Every call of every run, on its own key's bucket. */
  lemma CallTakes(cfg: Config, calls: seq<Call>, states: seq<Buckets>, k: nat)
    requires IsRun(cfg, Serve(cfg), calls, states) && k < |calls|
    ensures calls[k].key in Keys(states[k + 1])
    ensures Takes(cfg, BucketFor(cfg, states[k], calls[k].key, calls[k].nowMs), calls[k].nowMs,
                  Answer(cfg, states[k], calls[k].key, calls[k].nowMs), BucketOf(states[k + 1], calls[k].key))
  {
    var key, nowMs := calls[k].key, calls[k].nowMs;
    OneCall(cfg, Serve(cfg), calls, states, k + 1);
    MapIsRecencyCut(cfg, Serve(cfg), calls, states, k + 1);
    BucketForIsBounded(cfg, calls, states, k);
    FoundIsBucket(cfg, states[k], key, nowMs);
    OwnCallServesBucket(cfg, Serve(cfg), states[k], calls[k], states[k + 1]);
    FoundTakes(cfg, BucketFor(cfg, states[k], key, nowMs), nowMs);
  }

  /** A call spares the buckets of all other keys that stay. */
  lemma CallSparesOthers(cfg: Config, calls: seq<Call>, states: seq<Buckets>, k: nat, key: string)
    requires IsRun(cfg, Serve(cfg), calls, states) && k < |calls| && calls[k].key != key
    requires key in Keys(states[k]) && key in Keys(states[k + 1])
    ensures BucketOf(states[k + 1], key) == BucketOf(states[k], key)
  {
    OneCall(cfg, Serve(cfg), calls, states, k + 1);
    MapIsRecencyCut(cfg, Serve(cfg), calls, states, k);
    MapIsRecencyCut(cfg, Serve(cfg), calls, states, k + 1);
    OtherCallSparesBucket(cfg, Serve(cfg), states[k], calls[k], states[k + 1], key);
  }

  /** Calls `from` up to `to` are all of this key, at this instant. */
  ghost predicate IsBurst(calls: seq<Call>, from: nat, to: nat, key: string, nowMs: real) {
    from <= to <= |calls| && forall m :: from <= m < to ==> calls[m] == Call(key, nowMs)
  }

  function Least(n: nat, max: int): int {
    if n as int <= max then n else max
  }

  /** A key the limiter does not know gets as many calls through at one instant as its bucket
      holds whole tokens, and not one more. */
  lemma {:induction false} BurstIsCapacity(cfg: Config, calls: seq<Call>, states: seq<Buckets>, from: nat, k: nat)
    requires IsRun(cfg, Serve(cfg), calls, states) && from <= k < |calls|
    requires IsBurst(calls, from, k + 1, calls[k].key, calls[k].nowMs) && calls[k].key !in Keys(states[from])
    ensures Answer(cfg, states[k], calls[k].key, calls[k].nowMs).allowed <==> k - from < cfg.capacity.Floor
    ensures calls[k].key in Keys(states[k + 1])
    ensures BucketOf(states[k + 1], calls[k].key) ==
            Bucket(cfg.capacity - Least(k + 1 - from, cfg.capacity.Floor) as real, calls[k].nowMs)
  {
    CallTakes(cfg, calls, states, k);
    if k > from {
      assert calls[k - 1] == calls[k];
      BurstIsCapacity(cfg, calls, states, from, k - 1);
    }
  }
}
