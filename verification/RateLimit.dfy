/**
  The two fixed-window rate limiters: the bucket map that counts down, and the Redis script that counts up.
  Times are milliseconds. A Redis key is absent from its deadline onward.
*/
module RateLimit {
  import opened Numbers
  import opened Options

  datatype Policy = Policy(limit: int, windowMs: nat)

  datatype Result = Result(allowed: bool, remaining: int, resetAt: int)

  datatype Bucket = Bucket(remaining: int, resetAt: int)

  /** A Redis string holding a counter, with its time to live. */
  datatype Counter = Counter(count: int, expireAt: Option<int>)

  // ---- the bucket map ----

  predicate LiveBucket(buckets: map<string, Bucket>, key: string, now: int) {
    key in buckets && buckets[key].resetAt > now
  }

  function CurrentBucket(buckets: map<string, Bucket>, key: string, policy: Policy, now: int): Bucket {
    if LiveBucket(buckets, key, now) then buckets[key] else Bucket(policy.limit, now + policy.windowMs)
  }

  function BucketAfter(bucket: Bucket): Bucket {
    if bucket.remaining <= 0 then bucket else bucket.(remaining := bucket.remaining - 1)
  }

  function BucketResult(bucket: Bucket): Result {
    if bucket.remaining <= 0 then Result(false, 0, bucket.resetAt)
    else Result(true, bucket.remaining - 1, bucket.resetAt)
  }

  class InMemoryRateLimiter {
    var buckets: map<string, Bucket>

    constructor ()
      ensures buckets == map[]
    {
      buckets := map[];
    }

    method Take(key: string, policy: Policy, now: int) returns (r: Result)
      modifies this
      ensures r == BucketResult(CurrentBucket(old(buckets), key, policy, now))
      ensures buckets == old(buckets)[key := BucketAfter(CurrentBucket(old(buckets), key, policy, now))]
      ensures var live := key in old(buckets) && now < old(buckets)[key].resetAt;
        var left := if live then old(buckets)[key].remaining else policy.limit;
        && r == Result(left > 0, if left > 0 then left - 1 else 0, if live then old(buckets)[key].resetAt else now + policy.windowMs)
        && buckets == old(buckets)[key := Bucket(if left > 0 then left - 1 else left, r.resetAt)]
    {
      var bucket;
      if key !in buckets || buckets[key].resetAt <= now {
        bucket := Bucket(policy.limit, now + policy.windowMs);
      } else {
        bucket := buckets[key];
      }
      if bucket.remaining <= 0 {
        buckets := buckets[key := bucket];
        return Result(false, 0, bucket.resetAt);
      }
      bucket := bucket.(remaining := bucket.remaining - 1);
      buckets := buckets[key := bucket];
      return Result(true, bucket.remaining, bucket.resetAt);
    }
  }

  // ---- the Redis script ----

  predicate LiveCounter(store: map<string, Counter>, key: string, now: int) {
    key in store && (store[key].expireAt.None? || store[key].expireAt.value > now)
  }

  class RedisServer {
    var store: map<string, Counter>

    constructor ()
      ensures store == map[]
    {
      store := map[];
    }

    method Incr(key: string, now: int) returns (current: int)
      modifies this
      ensures current == if LiveCounter(old(store), key, now) then old(store)[key].count + 1 else 1
      ensures store == old(store)[key := Counter(current, if LiveCounter(old(store), key, now) then old(store)[key].expireAt else None)]
    {
      if LiveCounter(store, key, now) {
        current := store[key].count + 1;
        store := store[key := store[key].(count := current)];
      } else {
        current := 1;
        store := store[key := Counter(1, None)];
      }
    }

    method PExpire(key: string, ms: nat, now: int)
      requires ms > 0
      modifies this
      ensures store == if LiveCounter(old(store), key, now)
                       then old(store)[key := old(store)[key].(expireAt := Some(now + ms))] else old(store)
    {
      if LiveCounter(store, key, now) {
        store := store[key := store[key].(expireAt := Some(now + ms))];
      }
    }

    /** -2 without the key, -1 without a deadline, otherwise the time left. */
    method PTtl(key: string, now: int) returns (ttl: int)
      ensures ttl == if !LiveCounter(store, key, now) then -2
                     else if store[key].expireAt.None? then -1 else store[key].expireAt.value - now
    {
      if !LiveCounter(store, key, now) {
        return -2;
      }
      match store[key].expireAt {
        case None => return -1;
        case Some(deadline) => return deadline - now;
      }
    }
  }

  function CounterAfter(store: map<string, Counter>, key: string, policy: Policy, now: int): Counter {
    if LiveCounter(store, key, now) then
      var c := store[key];
      if c.count + 1 == 1 then Counter(1, Some(now + policy.windowMs)) else c.(count := c.count + 1)
    else Counter(1, Some(now + policy.windowMs))
  }

  function CounterResult(after: Counter, policy: Policy, now: int): Result {
    var ttl := if after.expireAt.None? then -1 else after.expireAt.value - now;
    Result(after.count <= policy.limit, Max(0, policy.limit - after.count), now + if ttl > 0 then ttl else policy.windowMs)
  }

  function RedisKey(prefix: string, key: string): string {
    prefix + ":" + key
  }

  class RedisRateLimiter {
    const client: RedisServer
    const keyPrefix: string

    constructor (client: RedisServer, keyPrefix: string)
      ensures this.client == client && this.keyPrefix == keyPrefix
    {
      this.client, this.keyPrefix := client, keyPrefix;
    }

    method Take(key: string, policy: Policy, now: int) returns (r: Result)
      requires policy.windowMs > 0
      modifies client
      ensures var k := RedisKey(keyPrefix, key);
        var after := CounterAfter(old(client.store), k, policy, now);
        client.store == old(client.store)[k := after] && r == CounterResult(after, policy, now)
      ensures var k := keyPrefix + ":" + key;
        var live := k in old(client.store) && (old(client.store)[k].expireAt.Some? ==> now < old(client.store)[k].expireAt.value);
        var count := if live then old(client.store)[k].count + 1 else 1;
        var deadline := if live && count != 1 then old(client.store)[k].expireAt else Some(now + policy.windowMs);
        && client.store == old(client.store)[k := Counter(count, deadline)]
        && r == Result(
             count <= policy.limit, if count < policy.limit then policy.limit - count else 0,
             if deadline.Some? then deadline.value else now + policy.windowMs)
    {
      var k := RedisKey(keyPrefix, key);
      var current := client.Incr(k, now);
      if current == 1 {
        client.PExpire(k, policy.windowMs, now);
      }
      var ttlRaw := client.PTtl(k, now);
      var ttl := if ttlRaw > 0 then ttlRaw else policy.windowMs;
      var remaining := Max(0, policy.limit - current);
      r := Result(current <= policy.limit, remaining, now + ttl);
    }
  }

  // ---- histories ----

  datatype Call = Call(key: string, now: int)

  predicate Monotone(calls: seq<Call>) {
    forall i, j :: 0 <= i < j < |calls| ==> calls[i].now <= calls[j].now
  }

  ghost predicate Windowed(policy: string -> Policy) {
    forall key :: policy(key).windowMs > 0
  }

  function Buckets(policy: string -> Policy, calls: seq<Call>): map<string, Bucket> {
    if calls == [] then map[] else
      var c := calls[|calls| - 1];
      var before := Buckets(policy, calls[..|calls| - 1]);
      before[c.key := BucketAfter(CurrentBucket(before, c.key, policy(c.key), c.now))]
  }

  function MemoryResult(policy: string -> Policy, calls: seq<Call>, i: nat): Result
    requires i < |calls|
  {
    BucketResult(CurrentBucket(Buckets(policy, calls[..i]), calls[i].key, policy(calls[i].key), calls[i].now))
  }

  function Counters(policy: string -> Policy, prefix: string, calls: seq<Call>): map<string, Counter> {
    if calls == [] then map[] else
      var c := calls[|calls| - 1];
      var before := Counters(policy, prefix, calls[..|calls| - 1]);
      before[RedisKey(prefix, c.key) := CounterAfter(before, RedisKey(prefix, c.key), policy(c.key), c.now)]
  }

  function RedisResult(policy: string -> Policy, prefix: string, calls: seq<Call>, i: nat): Result
    requires i < |calls|
  {
    var c := calls[i];
    var before := Counters(policy, prefix, calls[..i]);
    CounterResult(CounterAfter(before, RedisKey(prefix, c.key), policy(c.key), c.now), policy(c.key), c.now)
  }

  // ---- the limiters agree ----

  /** Live at the same moments, with the same deadline, and what is left is what the count leaves. */
  predicate KeyCoupled(buckets: map<string, Bucket>, store: map<string, Counter>, key: string, rkey: string, limit: int, now: int) {
    && (LiveBucket(buckets, key, now) <==> LiveCounter(store, rkey, now))
    && (LiveBucket(buckets, key, now) ==>
          && store[rkey].count >= 1
          && store[rkey].expireAt == Some(buckets[key].resetAt)
          && Max(0, buckets[key].remaining) == Max(0, limit - store[rkey].count))
  }

  ghost predicate Coupled(policy: string -> Policy, prefix: string, buckets: map<string, Bucket>, store: map<string, Counter>, now: int) {
    forall key :: KeyCoupled(buckets, store, key, RedisKey(prefix, key), policy(key).limit, now)
  }

  lemma RedisKeyInjective(prefix: string, a: string, b: string)
    requires RedisKey(prefix, a) == RedisKey(prefix, b)
    ensures a == b
  {
    assert RedisKey(prefix, a)[|prefix| + 1..] == a;
    assert RedisKey(prefix, b)[|prefix| + 1..] == b;
  }

  lemma CoupledLater(policy: string -> Policy, prefix: string, buckets: map<string, Bucket>, store: map<string, Counter>, now: int, later: int)
    requires Coupled(policy, prefix, buckets, store, now) && now <= later
    requires forall key :: RedisKey(prefix, key) in store ==> store[RedisKey(prefix, key)].expireAt.Some?
    ensures Coupled(policy, prefix, buckets, store, later)
  {
    forall key
      ensures KeyCoupled(buckets, store, key, RedisKey(prefix, key), policy(key).limit, later)
    {
      assert KeyCoupled(buckets, store, key, RedisKey(prefix, key), policy(key).limit, now);
    }
  }

  lemma CoupledTake(policy: string -> Policy, prefix: string, buckets: map<string, Bucket>, store: map<string, Counter>, c: Call)
    requires Windowed(policy) && Coupled(policy, prefix, buckets, store, c.now)
    ensures var rkey := RedisKey(prefix, c.key);
      var bucket := CurrentBucket(buckets, c.key, policy(c.key), c.now);
      var after := CounterAfter(store, rkey, policy(c.key), c.now);
      && BucketResult(bucket) == CounterResult(after, policy(c.key), c.now)
      && after.expireAt.Some?
      && Coupled(policy, prefix, buckets[c.key := BucketAfter(bucket)], store[rkey := after], c.now)
  {
    var rkey := RedisKey(prefix, c.key);
    var bucket := CurrentBucket(buckets, c.key, policy(c.key), c.now);
    var after := CounterAfter(store, rkey, policy(c.key), c.now);
    assert KeyCoupled(buckets, store, c.key, rkey, policy(c.key).limit, c.now);
    var buckets', store' := buckets[c.key := BucketAfter(bucket)], store[rkey := after];
    forall key
      ensures KeyCoupled(buckets', store', key, RedisKey(prefix, key), policy(key).limit, c.now)
    {
      assert KeyCoupled(buckets, store, key, RedisKey(prefix, key), policy(key).limit, c.now);
      if key != c.key && RedisKey(prefix, key) == rkey {
        RedisKeyInjective(prefix, key, c.key);
      }
    }
  }

  lemma {:induction false} CoupledAlways(policy: string -> Policy, prefix: string, calls: seq<Call>, now: int)
    requires Windowed(policy) && Monotone(calls) && (calls != [] ==> calls[|calls| - 1].now <= now)
    ensures Coupled(policy, prefix, Buckets(policy, calls), Counters(policy, prefix, calls), now)
    ensures forall k :: k in Counters(policy, prefix, calls) ==> Counters(policy, prefix, calls)[k].expireAt.Some?
  {
    if calls != [] {
      var n := |calls| - 1;
      CoupledAlways(policy, prefix, calls[..n], calls[n].now);
      CoupledTake(policy, prefix, Buckets(policy, calls[..n]), Counters(policy, prefix, calls[..n]), calls[n]);
      CoupledLater(policy, prefix, Buckets(policy, calls), Counters(policy, prefix, calls), calls[n].now, now);
    }
  }

  /** On every timed history over any keys, both limiters give the same answer at every call. */
  lemma LimitersAgree(policy: string -> Policy, prefix: string, calls: seq<Call>, i: nat)
    requires Windowed(policy) && Monotone(calls) && i < |calls|
    ensures MemoryResult(policy, calls, i) == RedisResult(policy, prefix, calls, i)
  {
    CoupledAlways(policy, prefix, calls[..i], calls[i].now);
    CoupledTake(policy, prefix, Buckets(policy, calls[..i]), Counters(policy, prefix, calls[..i]), calls[i]);
  }

  // ---- keys are independent ----

  function OnlyKey(calls: seq<Call>, key: string): seq<Call> {
    if calls == [] then [] else
      OnlyKey(calls[..|calls| - 1], key) + if calls[|calls| - 1].key == key then [calls[|calls| - 1]] else []
  }

  /** Leaving out the calls on other keys leaves the bucket of a key as it is. */
  lemma {:induction false} OtherKeysDoNotMatter(policy: string -> Policy, calls: seq<Call>, key: string)
    ensures key in Buckets(policy, calls) <==> key in Buckets(policy, OnlyKey(calls, key))
    ensures key in Buckets(policy, calls) ==> Buckets(policy, calls)[key] == Buckets(policy, OnlyKey(calls, key))[key]
  {
    if calls != [] {
      var n := |calls| - 1;
      OtherKeysDoNotMatter(policy, calls[..n], key);
      var before := OnlyKey(calls[..n], key);
      if calls[n].key == key {
        assert OnlyKey(calls, key)[..|before|] == before;
      } else {
        assert OnlyKey(calls, key) == before;
      }
    }
  }

  /** So an answer depends only on the earlier calls on the same key. */
  lemma AnswerDependsOnOwnKey(policy: string -> Policy, calls: seq<Call>, i: nat)
    requires i < |calls|
    ensures var own := OnlyKey(calls[..i], calls[i].key);
      MemoryResult(policy, calls, i) == MemoryResult(policy, own + [calls[i]], |own|)
  {
    var own := OnlyKey(calls[..i], calls[i].key);
    OtherKeysDoNotMatter(policy, calls[..i], calls[i].key);
    assert (own + [calls[i]])[..|own|] == own;
  }
}
