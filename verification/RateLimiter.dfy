/** The per-client token bucket with its LRU-bounded map (src/services/RateLimiter.ts).
    Tokens and times are reals; a JavaScript Map is a sequence of entries in iteration
    order, re-insertion moving an entry to the end. */
module RateLimiter {
  import opened Lists

  datatype Bucket = Bucket(tokens: real, lastRefillMs: real)

  datatype Entry = Entry(key: string, bucket: Bucket)

  datatype ConfigRecord = ConfigRecord(capacity: real, refillPerSec: real, maxEntries: int)

  /** The constructor throws on any other configuration. */
  type Config = c: ConfigRecord | c.capacity > 0.0 && c.refillPerSec > 0.0 && c.maxEntries > 0
    witness ConfigRecord(60.0, 1.0, 10000)

  datatype Decision = Decision(allowed: bool, remaining: int, retryAfterS: int)

  type Buckets = seq<Entry>

  // ----- The operations as functions -----

  function IndexOf(buckets: Buckets, key: string): (i: nat)
    ensures i <= |buckets|
    ensures i < |buckets| ==> buckets[i].key == key
    ensures forall j :: 0 <= j < i ==> buckets[j].key != key
  {
    if buckets == [] || buckets[0].key == key then 0 else 1 + IndexOf(buckets[1..], key)
  }

  /** The bucket a call works on: the key's own, or a full one. */
  function Found(cfg: Config, buckets: Buckets, key: string, nowMs: real): Bucket {
    var i := IndexOf(buckets, key);
    if i < |buckets| then buckets[i].bucket else Bucket(cfg.capacity, nowMs)
  }

  /** The entries that stay where they are: a new key may push out the first one. */
  function Others(cfg: Config, buckets: Buckets, key: string): Buckets {
    var i := IndexOf(buckets, key);
    if i < |buckets| then RemoveAt(buckets, i)
    else if |buckets| >= cfg.maxEntries then buckets[1..] else buckets
  }

  /** `touch`: the key's entry ends up last. */
  function Touched(cfg: Config, buckets: Buckets, key: string, nowMs: real): Buckets {
    Others(cfg, buckets, key) + [Entry(key, Found(cfg, buckets, key, nowMs))]
  }

  function Min(a: real, b: real): real {
    if a <= b then a else b
  }

  function Added(cfg: Config, elapsedMs: real): real {
    elapsedMs / 1000.0 * cfg.refillPerSec
  }

  function Refilled(cfg: Config, b: Bucket, nowMs: real): Bucket {
    var elapsedMs := nowMs - b.lastRefillMs;
    if elapsedMs <= 0.0 then b
    else Bucket(Min(cfg.capacity, b.tokens + Added(cfg, elapsedMs)), nowMs)
  }

  function Ceil(x: real): int {
    -((-x).Floor)
  }

  predicate Affordable(b: Bucket) {
    b.tokens >= 1.0
  }

  function Spend(b: Bucket): Bucket {
    if Affordable(b) then b.(tokens := b.tokens - 1.0) else b
  }

  /** The seconds of refill that make up for what the bucket lacks of one token. */
  function Missing(cfg: Config, b: Bucket): real {
    (1.0 - b.tokens) / cfg.refillPerSec
  }

  /** Whole seconds, at least one, until the bucket holds a token again. */
  function WaitSeconds(cfg: Config, b: Bucket): int {
    var wait := Ceil(Missing(cfg, b));
    if wait > 1 then wait else 1
  }

  /** The answer for a bucket that has just been refilled. */
  function Verdict(cfg: Config, b: Bucket): (d: Decision)
    ensures d.allowed == Affordable(b)
  {
    if Affordable(b) then Decision(true, (b.tokens - 1.0).Floor, 0) else Decision(false, 0, WaitSeconds(cfg, b))
  }

  /** What `consume` answers. */
  function Answer(cfg: Config, buckets: Buckets, key: string, nowMs: real): Decision {
    Verdict(cfg, Refilled(cfg, Found(cfg, buckets, key, nowMs), nowMs))
  }

  /** What a bucket becomes in a call, and whether the call is allowed. */
  type Serving = (Bucket, real) -> (Bucket, bool)

  function Serve(cfg: Config): Serving {
    (b: Bucket, nowMs: real) => (Spend(Refilled(cfg, b, nowMs)), Affordable(Refilled(cfg, b, nowMs)))
  }

  /** `consume`, for any way of serving: the order of the keys does not depend on it. */
  function Consumed(cfg: Config, serve: Serving, buckets: Buckets, key: string, nowMs: real): Buckets {
    Others(cfg, buckets, key) + [Entry(key, serve(Found(cfg, buckets, key, nowMs), nowMs).0)]
  }

  class Limiter {
    const cfg: Config
    var buckets: Buckets

    constructor (cfg: Config)
      ensures this.cfg == cfg && buckets == []
    {
      this.cfg, this.buckets := cfg, [];
    }

    method Touch(key: string, nowMs: real)
      modifies this
      ensures buckets == Touched(cfg, old(buckets), key, nowMs)
    {
      var i := IndexOf(buckets, key);
      if i < |buckets| {
        var existing := buckets[i];
        buckets := RemoveAt(buckets, i);
        buckets := buckets + [existing];
        return;
      }
      if |buckets| >= cfg.maxEntries {
        buckets := buckets[1..];
      }
      buckets := buckets + [Entry(key, Bucket(cfg.capacity, nowMs))];
    }

    method Refill(nowMs: real)
      requires buckets != []
      modifies this
      ensures var last := |old(buckets)| - 1;
              var entry := old(buckets)[last];
              buckets == old(buckets)[last := entry.(bucket := Refilled(cfg, entry.bucket, nowMs))]
    {
      var last := |buckets| - 1;
      var b := buckets[last].bucket;
      var elapsedMs := nowMs - b.lastRefillMs;
      if elapsedMs <= 0.0 {
        return;
      }
      var tokens := Min(cfg.capacity, b.tokens + Added(cfg, elapsedMs));
      buckets := buckets[last := buckets[last].(bucket := Bucket(tokens, nowMs))];
    }

    method Consume(key: string, nowMs: real) returns (decision: Decision)
      modifies this
      ensures buckets == Consumed(cfg, Serve(cfg), old(buckets), key, nowMs)
      ensures decision == Answer(cfg, old(buckets), key, nowMs)
    {
      Touch(key, nowMs);
      ghost var touched := buckets;
      var last := |buckets| - 1;
      Refill(nowMs);
      var b := buckets[last].bucket;
      if b.tokens >= 1.0 {
        b := b.(tokens := b.tokens - 1.0);
        buckets := buckets[last := Entry(key, b)];
        assert buckets == touched[last := Entry(key, b)];
        return Decision(true, b.tokens.Floor, 0);
      }
      return Decision(false, 0, WaitSeconds(cfg, b));
    }
  }

  // ----- Runs -----

  datatype Call = Call(key: string, nowMs: real)

  /** One call. (What is served is bound, so that a proof that only passes the fact on does
      not take the map apart; likewise in Follows.) */
  ghost predicate Served(cfg: Config, serve: Serving, before: Buckets, call: Call, after: Buckets) {
    forall x :: x == before ==> after == Consumed(cfg, serve, x, call.key, call.nowMs)
  }

  /** The maps between the calls, from the empty one. */
  ghost predicate IsRun(cfg: Config, serve: Serving, calls: seq<Call>, states: seq<Buckets>) {
    && |states| == |calls| + 1 && states[0] == []
    && forall k :: 0 <= k < |calls| ==> Served(cfg, serve, states[k], calls[k], states[k + 1])
  }

  lemma OneCall(cfg: Config, serve: Serving, calls: seq<Call>, states: seq<Buckets>, m: nat)
    requires IsRun(cfg, serve, calls, states) && 0 < m <= |calls|
    ensures Served(cfg, serve, states[m - 1], calls[m - 1], states[m])
  {
    assert states[m - 1 + 1] == states[m];
  }

  function Keys(buckets: Buckets): (keys: seq<string>)
    ensures |keys| == |buckets| && forall i :: 0 <= i < |keys| ==> keys[i] == buckets[i].key
  {
    seq(|buckets|, i requires 0 <= i < |buckets| => buckets[i].key)
  }

  // ----- The map is the recency order, cut to size -----

  /** Every key of the first `m` calls, once, in the order of their last calls. */
  function Recency(calls: seq<Call>, m: nat): seq<string>
    requires m <= |calls|
  {
    if m == 0 then [] else Without(Recency(calls, m - 1), [calls[m - 1].key]) + [calls[m - 1].key]
  }

  function LastN(keys: seq<string>, n: nat): seq<string> {
    if |keys| <= n then keys else keys[|keys| - n..]
  }

  lemma DistinctAppend(keys: seq<string>, key: string)
    requires Distinct(keys) && key !in keys
    ensures Distinct(keys + [key])
  {
  }

  lemma {:induction false} RecencyIsDistinct(calls: seq<Call>, m: nat)
    requires m <= |calls|
    ensures Distinct(Recency(calls, m))
  {
    if m > 0 {
      var order, key := Recency(calls, m - 1), calls[m - 1].key;
      RecencyIsDistinct(calls, m - 1);
      WithoutMembers(order, [key]);
      DistinctAppend(Without(order, [key]), key);
    }
  }

  /** What `touch` does to the list of keys. */
  function TouchKeys(keys: seq<string>, key: string, n: nat): seq<string>
    requires n > 0
  {
    var kept := if key !in keys && |keys| >= n then keys[1..] else keys;
    Without(kept, [key]) + [key]
  }

  lemma KeysAppend(a: Buckets, b: Buckets)
    ensures Keys(a + b) == Keys(a) + Keys(b)
  {
  }

  lemma KeysOfRemoved(buckets: Buckets, i: nat)
    requires i < |buckets|
    ensures Keys(RemoveAt(buckets, i)) == RemoveAt(Keys(buckets), i)
  {
    KeysAppend(buckets[..i], buckets[i + 1..]);
    assert Keys(buckets[..i]) == Keys(buckets)[..i] && Keys(buckets[i + 1..]) == Keys(buckets)[i + 1..];
  }

  lemma KeysOfOthers(cfg: Config, buckets: Buckets, key: string)
    requires Distinct(Keys(buckets))
    ensures Keys(Others(cfg, buckets, key)) + [key] == TouchKeys(Keys(buckets), key, cfg.maxEntries)
  {
    var keys, i := Keys(buckets), IndexOf(buckets, key);
    KeyHasEntry(buckets, key);
    if i < |buckets| {
      RemoveIsWithout(keys, i);
      KeysOfRemoved(buckets, i);
    } else {
      var kept := Others(cfg, buckets, key);
      assert Keys(kept) == if |keys| >= cfg.maxEntries then keys[1..] else keys;
      WithoutNone(Keys(kept), [key]);
    }
  }

  lemma ServedKeys(cfg: Config, serve: Serving, before: Buckets, call: Call, after: Buckets)
    requires Served(cfg, serve, before, call, after) && Distinct(Keys(before))
    ensures Keys(after) == TouchKeys(Keys(before), call.key, cfg.maxEntries)
  {
    assert after == Consumed(cfg, serve, before, call.key, call.nowMs);
    KeysOfOthers(cfg, before, call.key);
    KeysAppend(Others(cfg, before, call.key),
               [Entry(call.key, serve(Found(cfg, before, call.key, call.nowMs), call.nowMs).0)]);
  }

  lemma LastNOfSplit(a: seq<string>, b: seq<string>, n: nat)
    requires |b| == n || (|b| < n && a == [])
    ensures LastN(a + b, n) == b
  {
  }

  lemma TouchKnown(dropped: seq<string>, keys: seq<string>, key: string, n: nat)
    requires Distinct(dropped + keys) && Distinct(keys) && key in keys
    requires |keys| == n || (|keys| < n && dropped == [])
    ensures Without(keys, [key]) + [key] == LastN(Without(dropped + keys, [key]) + [key], n)
  {
    WithoutSplits(dropped, keys, [key]);
    var i :| 0 <= i < |keys| && keys[i] == key;
    RemoveIsWithout(keys, i);
    DistinctSplit(dropped, keys);
    WithoutNone(dropped, [key]);
    assert Without(dropped + keys, [key]) + [key] == dropped + (Without(keys, [key]) + [key]);
    LastNOfSplit(dropped, Without(keys, [key]) + [key], n);
  }

  lemma TouchUnknownFull(dropped: seq<string>, keys: seq<string>, key: string, n: nat)
    requires key !in keys && |keys| == n > 0
    ensures Without(keys[1..], [key]) + [key] == LastN(Without(dropped + keys, [key]) + [key], n)
  {
    var d, tail := Without(dropped, [key]), keys[1..];
    WithoutSplits(dropped, keys, [key]);
    WithoutNone(keys, [key]);
    WithoutNone(tail, [key]);
    MoveBracket(d, keys, key);
    LastNOfSplit(d + [keys[0]], tail + [key], n);
  }

  lemma MoveBracket(d: seq<string>, keys: seq<string>, key: string)
    requires keys != []
    ensures (d + keys) + [key] == (d + [keys[0]]) + (keys[1..] + [key])
  {
  }

  /** One touch of the key list against one step of the recency order. */
  lemma TouchFollowsRecency(order: seq<string>, key: string, n: nat)
    requires Distinct(order) && n > 0
    ensures TouchKeys(LastN(order, n), key, n) == LastN(Without(order, [key]) + [key], n)
  {
    var keys := LastN(order, n);
    var dropped := order[..|order| - |keys|];
    assert order == dropped + keys;
    LastNDistinct(order, n);
    if key in keys {
      TouchKnown(dropped, keys, key, n);
    } else if |keys| >= n {
      TouchUnknownFull(dropped, keys, key, n);
    } else {
      WithoutNone(keys, [key]);
    }
  }

  lemma DistinctSplit(a: seq<string>, b: seq<string>)
    requires Distinct(a + b)
    ensures forall k :: k in b ==> k !in a
  {
    forall i, j | 0 <= i < |a| && 0 <= j < |b| ensures a[i] != b[j] {
      assert (a + b)[i] == a[i] && (a + b)[|a| + j] == b[j];
    }
  }

  lemma LastNDistinct(keys: seq<string>, n: nat)
    requires Distinct(keys)
    ensures Distinct(LastN(keys, n))
  {
  }

  lemma KeyHasEntry(buckets: Buckets, key: string)
    ensures key in Keys(buckets) <==> IndexOf(buckets, key) < |buckets|
  {
    if key in Keys(buckets) {
      var j :| 0 <= j < |buckets| && Keys(buckets)[j] == key;
      assert buckets[j].key == key;
    }
    if IndexOf(buckets, key) < |buckets| {
      assert Keys(buckets)[IndexOf(buckets, key)] == key;
    }
  }

  lemma CutIsDistinct(calls: seq<Call>, m: nat, n: nat)
    requires m <= |calls|
    ensures Distinct(LastN(Recency(calls, m), n))
  {
    RecencyIsDistinct(calls, m);
    LastNDistinct(Recency(calls, m), n);
  }

  /** The map holds exactly the most recently called keys, in order of their last call. */
  lemma {:induction false} MapIsRecencyCut(cfg: Config, serve: Serving, calls: seq<Call>, states: seq<Buckets>, m: nat)
    requires IsRun(cfg, serve, calls, states) && m <= |calls|
    ensures Keys(states[m]) == LastN(Recency(calls, m), cfg.maxEntries)
    ensures Distinct(Keys(states[m]))
  {
    if m > 0 {
      MapIsRecencyCut(cfg, serve, calls, states, m - 1);
      OneCall(cfg, serve, calls, states, m);
      ServedKeys(cfg, serve, states[m - 1], calls[m - 1], states[m]);
      RecencyIsDistinct(calls, m - 1);
      TouchFollowsRecency(Recency(calls, m - 1), calls[m - 1].key, cfg.maxEntries);
    }
    CutIsDistinct(calls, m, cfg.maxEntries);
  }

  // ----- Who is still tracked -----

  /** The other keys called between position `i` and position `m`. */
  ghost function OthersSince(calls: seq<Call>, i: nat, m: nat): set<string>
    requires i < m <= |calls|
  {
    set j | i < j < m && calls[j].key != calls[i].key :: calls[j].key
  }

  /** Of the first `m` calls, the one at `i` is the last with its key. */
  ghost predicate IsLastCall(calls: seq<Call>, i: nat, m: nat)
    requires i < m <= |calls|
  {
    forall j :: i < j < m ==> calls[j].key != calls[i].key
  }

  function Behind(order: seq<string>, key: string): seq<string> {
    if order == [] then [] else if order[0] == key then order[1..] else Behind(order[1..], key)
  }

  lemma {:induction false} BehindIsTail(order: seq<string>, key: string)
    requires key in order
    ensures var p := |order| - |Behind(order, key)| - 1;
            0 <= p < |order| && order[p] == key && order[p + 1..] == Behind(order, key)
  {
    if order[0] != key {
      assert order == [order[0]] + order[1..];
      BehindIsTail(order[1..], key);
    }
  }

  lemma {:induction false} BehindStep(order: seq<string>, key: string, called: string)
    requires key in order && called != key
    ensures key in Without(order, [called]) + [called]
    ensures Behind(Without(order, [called]) + [called], key) == Without(Behind(order, key), [called]) + [called]
  {
    var next := Without(order, [called]) + [called];
    assert order == [order[0]] + order[1..];
    if order[0] == key {
      assert next[0] == key && next[1..] == Without(order[1..], [called]) + [called];
    } else {
      BehindStep(order[1..], key, called);
      if order[0] != called {
        assert next[0] == order[0] && next[1..] == Without(order[1..], [called]) + [called];
      } else {
        assert Without(order, [called]) == Without(order[1..], [called]);
      }
    }
  }

  lemma OneMoreOther(calls: seq<Call>, i: nat, m: nat)
    requires i < m < |calls| && calls[m].key != calls[i].key
    ensures OthersSince(calls, i, m + 1) == OthersSince(calls, i, m) + {calls[m].key}
  {
  }

  /** Behind a key in the recency order stand exactly the keys called since. */
  lemma {:induction false} BehindAreOthersSince(calls: seq<Call>, i: nat, m: nat)
    requires i < m <= |calls| && IsLastCall(calls, i, m)
    ensures calls[i].key in Recency(calls, m)
    ensures forall k :: k in Behind(Recency(calls, m), calls[i].key) <==> k in OthersSince(calls, i, m)
  {
    var order, called, key := Recency(calls, m - 1), calls[m - 1].key, calls[i].key;
    if i == m - 1 {
      WithoutMembers(order, [key]);
      NothingBehindLast(Without(order, [key]), key);
    } else {
      BehindAreOthersSince(calls, i, m - 1);
      BehindStep(order, key, called);
      WithoutMembers(Behind(order, key), [called]);
      OneMoreOther(calls, i, m - 1);
    }
  }

  lemma {:induction false} NothingBehindLast(keys: seq<string>, key: string)
    requires key !in keys
    ensures Behind(keys + [key], key) == []
  {
    if keys != [] {
      assert (keys + [key])[1..] == keys[1..] + [key];
      NothingBehindLast(keys[1..], key);
    }
  }

  lemma {:induction false} DistinctCount(keys: seq<string>, members: set<string>)
    requires Distinct(keys) && forall k :: k in keys <==> k in members
    ensures |keys| == |members|
  {
    if keys == [] {
      assert members == {};
    } else {
      var tail := keys[1..];
      assert keys == [keys[0]] + tail && keys[0] !in tail;
      DistinctCount(tail, members - {keys[0]});
    }
  }

  /** A key is still tracked if and only if fewer than maxEntries other keys were called
      since its last call: an eviction takes maxEntries distinct other keys. */
  lemma TrackedIffRecent(cfg: Config, serve: Serving, calls: seq<Call>, states: seq<Buckets>, i: nat, m: nat)
    requires IsRun(cfg, serve, calls, states) && i < m <= |calls| && IsLastCall(calls, i, m)
    ensures calls[i].key in Keys(states[m]) <==> |OthersSince(calls, i, m)| < cfg.maxEntries
    ensures |states[m]| <= cfg.maxEntries
  {
    MapIsRecencyCut(cfg, serve, calls, states, m);
    RecencyIsDistinct(calls, m);
    BehindAreOthersSince(calls, i, m);
    var order, key := Recency(calls, m), calls[i].key;
    BehindIsTail(order, key);
    var p := |order| - |Behind(order, key)| - 1;
    assert order == order[..p + 1] + Behind(order, key);
    DistinctSplit(order[..p + 1], Behind(order, key));
    DistinctCount(Behind(order, key), OthersSince(calls, i, m));
    InLastN(order, p, cfg.maxEntries);
  }

  lemma InLastN(order: seq<string>, p: nat, n: nat)
    requires Distinct(order) && p < |order|
    ensures order[p] in LastN(order, n) <==> |order| - 1 - p < n
  {
    var cut := LastN(order, n);
    var d := |order| - |cut|;
    forall m | 0 <= m < |cut| ensures cut[m] == order[d + m] { }
    if d <= p { assert cut[p - d] == order[p]; }
  }

  // ----- The limiter's calls for one key are the life of one bucket -----

  function BucketOf(buckets: Buckets, key: string): Bucket
    requires key in Keys(buckets)
  {
    KeyHasEntry(buckets, key);
    buckets[IndexOf(buckets, key)].bucket
  }

  lemma EntryIsBucket(buckets: Buckets, i: nat)
    requires Distinct(Keys(buckets)) && i < |buckets|
    ensures buckets[i].key in Keys(buckets) && BucketOf(buckets, buckets[i].key) == buckets[i].bucket
  {
    var key := buckets[i].key;
    assert Keys(buckets)[i] == key;
    KeyHasEntry(buckets, key);
    var j := IndexOf(buckets, key);
    assert Keys(buckets)[j] == key;
  }

  lemma FoundIsBucket(cfg: Config, buckets: Buckets, key: string, nowMs: real)
    ensures Found(cfg, buckets, key, nowMs) ==
            if key in Keys(buckets) then BucketOf(buckets, key) else Bucket(cfg.capacity, nowMs)
  {
    KeyHasEntry(buckets, key);
  }

  lemma OthersAreOld(cfg: Config, buckets: Buckets, key: string, i: nat)
    requires i < |Others(cfg, buckets, key)|
    ensures Others(cfg, buckets, key)[i] in buckets
  {
  }

  lemma OtherCallSparesBucket(cfg: Config, serve: Serving, before: Buckets, call: Call, after: Buckets, key: string)
    requires Served(cfg, serve, before, call, after) && call.key != key
    requires key in Keys(before) && Distinct(Keys(before)) && key in Keys(after) && Distinct(Keys(after))
    ensures BucketOf(after, key) == BucketOf(before, key)
  {
    assert after == Consumed(cfg, serve, before, call.key, call.nowMs);
    KeyHasEntry(after, key);
    var p := IndexOf(after, key);
    assert after[p].key == key && p < |Others(cfg, before, call.key)|;
    OthersAreOld(cfg, before, call.key, p);
    var q :| 0 <= q < |before| && before[q] == after[p];
    EntryIsBucket(before, q);
    EntryIsBucket(after, p);
  }

  lemma OwnCallServesBucket(cfg: Config, serve: Serving, before: Buckets, call: Call, after: Buckets)
    requires Served(cfg, serve, before, call, after) && Distinct(Keys(after))
    ensures call.key in Keys(after)
    ensures BucketOf(after, call.key) == serve(Found(cfg, before, call.key, call.nowMs), call.nowMs).0
  {
    assert after == Consumed(cfg, serve, before, call.key, call.nowMs);
    EntryIsBucket(after, |after| - 1);
  }

  /** The life of one bucket: served at each reading in turn, and how often it allowed. */
  function Drained(serve: Serving, b: Bucket, times: seq<real>): (Bucket, nat) {
    if times == [] then (b, 0)
    else
      var (before, allowed) := Drained(serve, b, times[..|times| - 1]);
      var (after, ok) := serve(before, times[|times| - 1]);
      (after, if ok then allowed + 1 else allowed)
  }

  /** The clock readings of the key's calls at positions lo .. hi - 1. */
  function TimesOf(calls: seq<Call>, key: string, lo: nat, hi: nat): seq<real>
    requires lo <= hi <= |calls|
    decreases hi
  {
    if lo == hi then []
    else TimesOf(calls, key, lo, hi - 1) + (if calls[hi - 1].key == key then [calls[hi - 1].nowMs] else [])
  }

  /** Whether a call of this key at that time is allowed. */
  predicate Admits(cfg: Config, serve: Serving, buckets: Buckets, call: Call) {
    serve(Found(cfg, buckets, call.key, call.nowMs), call.nowMs).1
  }

  /** How many of the key's calls at those positions were allowed. */
  function AllowedOf(cfg: Config, serve: Serving, calls: seq<Call>, states: seq<Buckets>, key: string, lo: nat,
                     hi: nat): nat
    requires lo <= hi <= |calls| < |states|
    decreases hi
  {
    if lo == hi then 0
    else AllowedOf(cfg, serve, calls, states, key, lo, hi - 1)
         + (if calls[hi - 1].key == key && Admits(cfg, serve, states[hi - 1], calls[hi - 1]) then 1 else 0)
  }

  /** The key is not evicted between its call at `lo` and position `hi`. */
  ghost predicate Kept(states: seq<Buckets>, key: string, lo: nat, hi: nat)
    requires hi < |states|
  {
    forall m :: lo < m <= hi ==> key in Keys(states[m])
  }

  lemma DrainedAppend(serve: Serving, b: Bucket, times: seq<real>, nowMs: real)
    ensures var (before, allowed) := Drained(serve, b, times);
            && Drained(serve, b, times + [nowMs]).0 == serve(before, nowMs).0
            && Drained(serve, b, times + [nowMs]).1 == allowed + (if serve(before, nowMs).1 then 1 else 0)
  {
    assert (times + [nowMs])[..|times|] == times;
  }

  ghost predicate Fits(cfg: Config, serve: Serving, calls: seq<Call>, states: seq<Buckets>, key: string, lo: nat,
                       hi: nat, start: Bucket)
    requires lo <= hi <= |calls| < |states|
  {
    && key in Keys(states[hi])
    && BucketOf(states[hi], key) == Drained(serve, start, TimesOf(calls, key, lo, hi)).0
    && AllowedOf(cfg, serve, calls, states, key, lo, hi) == Drained(serve, start, TimesOf(calls, key, lo, hi)).1
  }

  /** What one key's calls from `lo` on have made of its bucket, and how many were allowed. */
  ghost predicate Follows(cfg: Config, serve: Serving, calls: seq<Call>, states: seq<Buckets>, key: string, lo: nat,
                          hi: nat, start: Bucket)
    requires lo <= hi <= |calls| < |states|
  {
    forall b :: b == start ==> Fits(cfg, serve, calls, states, key, lo, hi, b)
  }

  lemma FollowsFirst(cfg: Config, serve: Serving, calls: seq<Call>, states: seq<Buckets>, lo: nat, hi: nat)
    requires IsRun(cfg, serve, calls, states) && lo < |calls| && hi == lo + 1
    ensures Follows(cfg, serve, calls, states, calls[lo].key, lo, hi,
                    Found(cfg, states[lo], calls[lo].key, calls[lo].nowMs))
  {
    var key, nowMs := calls[lo].key, calls[lo].nowMs;
    var start := Found(cfg, states[lo], key, nowMs);
    MapIsRecencyCut(cfg, serve, calls, states, hi);
    OneCall(cfg, serve, calls, states, hi);
    OwnCallServesBucket(cfg, serve, states[lo], calls[lo], states[hi]);
    DrainedAppend(serve, start, [], nowMs);
    assert TimesOf(calls, key, lo, lo) == [] && TimesOf(calls, key, lo, hi) == [] + [nowMs];
    assert Fits(cfg, serve, calls, states, key, lo, hi, start);
  }

  lemma FollowsOwnCall(cfg: Config, serve: Serving, calls: seq<Call>, states: seq<Buckets>, key: string, lo: nat,
                       hi: nat, start: Bucket)
    requires IsRun(cfg, serve, calls, states) && lo < hi <= |calls| && calls[hi - 1].key == key
    requires Follows(cfg, serve, calls, states, key, lo, hi - 1, start)
    ensures Follows(cfg, serve, calls, states, key, lo, hi, start)
  {
    var before, call := states[hi - 1], calls[hi - 1];
    assert Fits(cfg, serve, calls, states, key, lo, hi - 1, start);
    MapIsRecencyCut(cfg, serve, calls, states, hi);
    OneCall(cfg, serve, calls, states, hi);
    FoundIsBucket(cfg, before, key, call.nowMs);
    OwnCallServesBucket(cfg, serve, before, call, states[hi]);
    DrainedAppend(serve, start, TimesOf(calls, key, lo, hi - 1), call.nowMs);
    assert Fits(cfg, serve, calls, states, key, lo, hi, start);
  }

  lemma FollowsOtherCall(cfg: Config, serve: Serving, calls: seq<Call>, states: seq<Buckets>, key: string, lo: nat,
                         hi: nat, start: Bucket)
    requires IsRun(cfg, serve, calls, states) && lo < hi <= |calls| && calls[hi - 1].key != key
             && key in Keys(states[hi])
    requires Follows(cfg, serve, calls, states, key, lo, hi - 1, start)
    ensures Follows(cfg, serve, calls, states, key, lo, hi, start)
  {
    assert Fits(cfg, serve, calls, states, key, lo, hi - 1, start);
    MapIsRecencyCut(cfg, serve, calls, states, hi - 1);
    MapIsRecencyCut(cfg, serve, calls, states, hi);
    OneCall(cfg, serve, calls, states, hi);
    OtherCallSparesBucket(cfg, serve, states[hi - 1], calls[hi - 1], states[hi], key);
    assert TimesOf(calls, key, lo, hi) == TimesOf(calls, key, lo, hi - 1);
    assert Fits(cfg, serve, calls, states, key, lo, hi, start);
  }

  /** While a key is not evicted, its calls are the life of the one bucket it started from. */
  lemma {:induction false} StretchIsOneBucket(cfg: Config, serve: Serving, calls: seq<Call>, states: seq<Buckets>,
                                              key: string, lo: nat, hi: nat, start: Bucket)
    requires IsRun(cfg, serve, calls, states) && lo < hi <= |calls| && key == calls[lo].key && Kept(states, key, lo, hi)
    requires start == Found(cfg, states[lo], key, calls[lo].nowMs)
    ensures Follows(cfg, serve, calls, states, key, lo, hi, start)
  {
    if hi == lo + 1 {
      FollowsFirst(cfg, serve, calls, states, lo, hi);
    } else {
      StretchIsOneBucket(cfg, serve, calls, states, key, lo, hi - 1, start);
      if calls[hi - 1].key == key {
        FollowsOwnCall(cfg, serve, calls, states, key, lo, hi, start);
      } else {
        FollowsOtherCall(cfg, serve, calls, states, key, lo, hi, start);
      }
    }
  }

  lemma {:induction false} TimesStartAtFirst(calls: seq<Call>, lo: nat, hi: nat)
    requires lo < hi <= |calls|
    ensures var times := TimesOf(calls, calls[lo].key, lo, hi); times != [] && times[0] == calls[lo].nowMs
  {
    if hi > lo + 1 {
      TimesStartAtFirst(calls, lo, hi - 1);
    } else {
      assert TimesOf(calls, calls[lo].key, lo, lo) == [];
    }
  }

  // ----- How much one bucket lets through -----

  function Latest(times: seq<real>): real
    requires times != []
  {
    if |times| == 1 then times[0]
    else
      var before := Latest(times[..|times| - 1]);
      if times[|times| - 1] > before then times[|times| - 1] else before
  }

  lemma AddedLaws(cfg: Config, x: real, y: real)
    ensures Added(cfg, x) + Added(cfg, y) == Added(cfg, x + y)
    ensures x <= y ==> Added(cfg, x) <= Added(cfg, y)
    ensures x >= 0.0 ==> Added(cfg, x) >= 0.0
  {
    if x <= y { assert (y - x) / 1000.0 * cfg.refillPerSec >= 0.0; }
  }

  lemma RefilledBounds(cfg: Config, b: Bucket, nowMs: real)
    requires 0.0 <= b.tokens <= cfg.capacity
    ensures var r := Refilled(cfg, b, nowMs);
            && 0.0 <= r.tokens <= cfg.capacity
            && r.lastRefillMs == (if nowMs > b.lastRefillMs then nowMs else b.lastRefillMs)
            && r.tokens <= b.tokens + Added(cfg, r.lastRefillMs - b.lastRefillMs)
  {
    AddedLaws(cfg, nowMs - b.lastRefillMs, 0.0);
  }

  /** One call: what was left and refilled pays for what is left and the token spent. */
  lemma ServeBounds(cfg: Config, b: Bucket, nowMs: real)
    requires 0.0 <= b.tokens <= cfg.capacity
    ensures var (after, ok) := Serve(cfg)(b, nowMs);
            && 0.0 <= after.tokens <= cfg.capacity
            && after.lastRefillMs == (if nowMs > b.lastRefillMs then nowMs else b.lastRefillMs)
            && after.tokens + (if ok then 1.0 else 0.0) <= b.tokens + Added(cfg, after.lastRefillMs - b.lastRefillMs)
            && after.tokens + (if ok then 1.0 else 0.0) <= cfg.capacity
  {
    RefilledBounds(cfg, b, nowMs);
  }

  /** Tokens left plus calls allowed are covered by one full bucket plus the refill for
      the time the bucket's own clock advanced after its first call. */
  lemma {:induction false} SpendingIsCovered(cfg: Config, b: Bucket, times: seq<real>) returns (start: real)
    requires 0.0 <= b.tokens <= cfg.capacity && times != []
    ensures var (after, allowed) := Drained(Serve(cfg), b, times);
            && 0.0 <= after.tokens <= cfg.capacity
            && times[0] <= start <= after.lastRefillMs
            && (after.lastRefillMs == start || after.lastRefillMs <= Latest(times))
            && after.tokens + allowed as real <= cfg.capacity + Added(cfg, after.lastRefillMs - start)
    ensures times[0] <= Latest(times)
  {
    var front, now := times[..|times| - 1], times[|times| - 1];
    if front == [] {
      assert Drained(Serve(cfg), b, front) == (b, 0);
      ServeBounds(cfg, b, now);
      start := Serve(cfg)(b, now).0.lastRefillMs;
      AddedLaws(cfg, 0.0, 0.0);
    } else {
      start := SpendingIsCovered(cfg, b, front);
      var before := Drained(Serve(cfg), b, front).0;
      ServeBounds(cfg, before, now);
      AddedLaws(cfg, before.lastRefillMs - start, Serve(cfg)(before, now).0.lastRefillMs - before.lastRefillMs);
    }
  }

  /** At most the capacity plus the refill for the span from the first reading to the
      latest one. */
  ghost predicate WithinAllowance(cfg: Config, times: seq<real>, allowed: nat)
    requires times != []
  {
    allowed as real <= cfg.capacity + Added(cfg, Latest(times) - times[0])
  }

  /** However the clock jumps, a bucket lets through no more than its allowance. */
  lemma BucketLetsThrough(cfg: Config, b: Bucket, times: seq<real>)
    requires 0.0 <= b.tokens <= cfg.capacity && times != []
    ensures WithinAllowance(cfg, times, Drained(Serve(cfg), b, times).1)
  {
    var start := SpendingIsCovered(cfg, b, times);
    var after := Drained(Serve(cfg), b, times).0;
    AddedLaws(cfg, 0.0, Latest(times) - times[0]);
    AddedLaws(cfg, after.lastRefillMs - start, Latest(times) - times[0]);
  }

  ghost predicate InBounds(cfg: Config, buckets: Buckets) {
    forall i :: 0 <= i < |buckets| ==> 0.0 <= buckets[i].bucket.tokens <= cfg.capacity
  }

  lemma FoundInBounds(cfg: Config, buckets: Buckets, key: string, nowMs: real)
    requires InBounds(cfg, buckets)
    ensures 0.0 <= Found(cfg, buckets, key, nowMs).tokens <= cfg.capacity
  {
  }

  lemma ServedInBounds(cfg: Config, before: Buckets, call: Call, after: Buckets)
    requires InBounds(cfg, before) && Served(cfg, Serve(cfg), before, call, after)
    ensures InBounds(cfg, after)
  {
    assert after == Consumed(cfg, Serve(cfg), before, call.key, call.nowMs);
    FoundInBounds(cfg, before, call.key, call.nowMs);
    ServeBounds(cfg, Found(cfg, before, call.key, call.nowMs), call.nowMs);
    forall i | 0 <= i < |Others(cfg, before, call.key)| ensures after[i] in before {
      OthersAreOld(cfg, before, call.key, i);
    }
  }

  lemma {:induction false} BucketsStayInBounds(cfg: Config, calls: seq<Call>, states: seq<Buckets>, m: nat)
    requires IsRun(cfg, Serve(cfg), calls, states) && m <= |calls|
    ensures InBounds(cfg, states[m])
  {
    if m > 0 {
      BucketsStayInBounds(cfg, calls, states, m - 1);
      OneCall(cfg, Serve(cfg), calls, states, m);
      ServedInBounds(cfg, states[m - 1], calls[m - 1], states[m]);
    }
  }

  lemma StretchCounts(cfg: Config, serve: Serving, calls: seq<Call>, states: seq<Buckets>, key: string, lo: nat,
                      hi: nat, start: Bucket)
    requires IsRun(cfg, serve, calls, states) && lo < hi <= |calls| && key == calls[lo].key && Kept(states, key, lo, hi)
    requires start == Found(cfg, states[lo], key, calls[lo].nowMs)
    ensures AllowedOf(cfg, serve, calls, states, key, lo, hi) == Drained(serve, start, TimesOf(calls, key, lo, hi)).1
  {
    StretchIsOneBucket(cfg, serve, calls, states, key, lo, hi, start);
    assert Fits(cfg, serve, calls, states, key, lo, hi, start);
  }

  /** In any stretch of calls, from one of the key's own and without an eviction of it,
      the calls allowed are within capacity plus refill for the clock's advance. */
  lemma StretchLetsThrough(cfg: Config, calls: seq<Call>, states: seq<Buckets>, lo: nat, hi: nat)
    requires IsRun(cfg, Serve(cfg), calls, states) && lo < hi <= |calls| && Kept(states, calls[lo].key, lo, hi)
    ensures var times := TimesOf(calls, calls[lo].key, lo, hi);
            && times != [] && times[0] == calls[lo].nowMs
            && WithinAllowance(cfg, times, AllowedOf(cfg, Serve(cfg), calls, states, calls[lo].key, lo, hi))
  {
    var key, serve := calls[lo].key, Serve(cfg);
    var start := Found(cfg, states[lo], key, calls[lo].nowMs);
    BucketsStayInBounds(cfg, calls, states, lo);
    FoundInBounds(cfg, states[lo], key, calls[lo].nowMs);
    TimesStartAtFirst(calls, lo, hi);
    BucketLetsThrough(cfg, start, TimesOf(calls, key, lo, hi));
    StretchCounts(cfg, serve, calls, states, key, lo, hi, start);
  }

  // ----- What a refusal promises -----

  lemma CeilBounds(x: real)
    ensures x <= Ceil(x) as real < x + 1.0
  {
  }

  lemma ScaleLess(a: real, b: real, rate: real)
    requires rate > 0.0
    ensures a <= b ==> a * rate <= b * rate
    ensures a < b ==> a * rate < b * rate
  {
    if a <= b { assert (b - a) * rate >= 0.0; }
    if a < b { assert (b - a) * rate > 0.0; }
  }

  lemma AddedIn(cfg: Config, elapsedMs: real)
    ensures Added(cfg, elapsedMs) == elapsedMs / 1000.0 * cfg.refillPerSec
  {
  }

  /** A bucket that was last refilled `lag` ahead of the present reading has a token after
      `waitMs` exactly when it can hold one and the wait covers the lag and what is missing. */
  lemma AffordableAfter(cfg: Config, b: Bucket, lag: real, waitMs: real)
    requires !Affordable(b)
    ensures Affordable(Refilled(cfg, b, b.lastRefillMs - lag + waitMs))
            <==> cfg.capacity >= 1.0 && Missing(cfg, b) + lag / 1000.0 <= waitMs / 1000.0
  {
    var rate, need, seconds := cfg.refillPerSec, Missing(cfg, b), (waitMs - lag) / 1000.0;
    assert need * rate == 1.0 - b.tokens;
    MissingIsPositive(cfg, b);
    ScaleLess(need, seconds, rate);
    ScaleLess(seconds, need, rate);
    assert Refilled(cfg, b, b.lastRefillMs - lag + waitMs) ==
           if waitMs - lag <= 0.0 then b
           else Bucket(Min(cfg.capacity, b.tokens + Added(cfg, waitMs - lag)), b.lastRefillMs - lag + waitMs);
    AddedIn(cfg, waitMs - lag);
  }

  lemma MissingIsPositive(cfg: Config, b: Bucket)
    requires !Affordable(b)
    ensures Missing(cfg, b) > 0.0
  {
    var need := Missing(cfg, b);
    if need <= 0.0 { ScaleLess(need, 0.0, cfg.refillPerSec); }
  }

  /** How far the clock is behind the bucket's last refill. */
  function Lag(b: Bucket, nowMs: real): real {
    if b.lastRefillMs > nowMs then b.lastRefillMs - nowMs else 0.0
  }

  /** Whether the same key, calling again after `s` seconds with no other call in between,
      is allowed. */
  predicate AllowedAfter(cfg: Config, after: Buckets, call: Call, s: int) {
    Answer(cfg, after, call.key, call.nowMs + s as real * 1000.0).allowed
  }

  /** A refusal leaves the refilled bucket behind. */
  lemma RefusedBucket(cfg: Config, before: Buckets, call: Call, after: Buckets, laterMs: real)
    requires Served(cfg, Serve(cfg), before, call, after) && Distinct(Keys(after))
    requires !Answer(cfg, before, call.key, call.nowMs).allowed
    ensures Found(cfg, after, call.key, laterMs) == Refilled(cfg, Found(cfg, before, call.key, call.nowMs), call.nowMs)
  {
    OwnCallServesBucket(cfg, Serve(cfg), before, call, after);
    FoundIsBucket(cfg, after, call.key, laterMs);
  }

  /** In every run: after a refusal, `s` seconds bring a token exactly when the bucket can
      hold one and they cover what it lacks and the clock's lag behind its last refill. */
  lemma TokenAfterRefusal(cfg: Config, calls: seq<Call>, states: seq<Buckets>, k: nat, s: int)
    requires IsRun(cfg, Serve(cfg), calls, states) && k < |calls| && s >= 1
    requires !Answer(cfg, states[k], calls[k].key, calls[k].nowMs).allowed
    ensures var found := Found(cfg, states[k], calls[k].key, calls[k].nowMs);
            AllowedAfter(cfg, states[k + 1], calls[k], s) <==>
              && cfg.capacity >= 1.0
              && Missing(cfg, Refilled(cfg, found, calls[k].nowMs)) + Lag(found, calls[k].nowMs) / 1000.0 <= s as real
  {
    var call := calls[k];
    var found := Found(cfg, states[k], call.key, call.nowMs);
    OneCall(cfg, Serve(cfg), calls, states, k + 1);
    MapIsRecencyCut(cfg, Serve(cfg), calls, states, k + 1);
    RefusedBucket(cfg, states[k], call, states[k + 1], call.nowMs + s as real * 1000.0);
    AffordableAfter(cfg, Refilled(cfg, found, call.nowMs), Lag(found, call.nowMs), s as real * 1000.0);
    assert s as real * 1000.0 / 1000.0 == s as real;
  }

  /** The announced seconds are the fewest whole seconds, at least one, that bring a token. */
  ghost predicate AnnouncesExactly(cfg: Config, before: Buckets, call: Call, after: Buckets) {
    var announced := Answer(cfg, before, call.key, call.nowMs).retryAfterS;
    forall s :: s >= 1 ==> (AllowedAfter(cfg, after, call, s) <==> s >= announced)
  }

  /** The announcement of a refusal is exact if and only if a bucket can hold a token and
      the announced seconds also cover the clock's lag behind the bucket's last refill;
      they always do when the clock has not gone back. */
  lemma RetryAfterIsExact(cfg: Config, calls: seq<Call>, states: seq<Buckets>, k: nat)
    requires IsRun(cfg, Serve(cfg), calls, states) && k < |calls|
    requires !Answer(cfg, states[k], calls[k].key, calls[k].nowMs).allowed
    ensures var found := Found(cfg, states[k], calls[k].key, calls[k].nowMs);
            var missing, lag := Missing(cfg, Refilled(cfg, found, calls[k].nowMs)), Lag(found, calls[k].nowMs);
            var announced := Answer(cfg, states[k], calls[k].key, calls[k].nowMs).retryAfterS;
            && (AnnouncesExactly(cfg, states[k], calls[k], states[k + 1]) <==>
                  cfg.capacity >= 1.0 && missing + lag / 1000.0 <= announced as real)
            && (lag == 0.0 ==> missing + lag / 1000.0 <= announced as real)
  {
    var call, after := calls[k], states[k + 1];
    var found := Found(cfg, states[k], call.key, call.nowMs);
    var missing, lag := Missing(cfg, Refilled(cfg, found, call.nowMs)), Lag(found, call.nowMs);
    var announced := Answer(cfg, states[k], call.key, call.nowMs).retryAfterS;
    CeilBounds(missing);
    TokenAfterRefusal(cfg, calls, states, k, announced);
    if cfg.capacity >= 1.0 && missing + lag / 1000.0 <= announced as real {
      forall s | s >= 1 ensures AllowedAfter(cfg, after, call, s) <==> s >= announced {
        TokenAfterRefusal(cfg, calls, states, k, s);
      }
    } else {
      assert !AllowedAfter(cfg, after, call, announced);
    }
  }

  /** The lag is real: with one token refilled a second, a call made ten seconds before the
      last refill is told to come back in one second, in vain. */
  lemma LagMisleads() returns (cfg: Config, calls: seq<Call>, states: seq<Buckets>)
    ensures IsRun(cfg, Serve(cfg), calls, states) && |calls| == 2 && cfg.capacity == 1.0
    ensures Answer(cfg, states[1], calls[1].key, calls[1].nowMs) == Decision(false, 0, 1)
    ensures !AllowedAfter(cfg, states[2], calls[1], 1)
  {
    cfg, calls := ConfigRecord(1.0, 1.0, 1), [Call("a", 10000.0), Call("a", 0.0)];
    states := [[], [Entry("a", Bucket(0.0, 10000.0))], [Entry("a", Bucket(0.0, 10000.0))]];
  }
}
