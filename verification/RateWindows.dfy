/**
  How many calls the limiters admit: exactly, in each window, and at most, in any stretch of one window's length.
  A window of a key is identified by its deadline (`resetAt`).
*/
module RateWindows {
  import opened Numbers
  import opened RateLimit

  ghost predicate Positive(policy: string -> Policy) {
    forall key :: policy(key).limit > 0 && policy(key).windowMs > 0
  }

  predicate TakesAt(policy: string -> Policy, calls: seq<Call>, i: nat, key: string, deadline: int)
    requires i < |calls|
  {
    calls[i].key == key && MemoryResult(policy, calls, i).resetAt == deadline
  }

  /** Calls on `key` answered from the window that ends at `deadline`. */
  function Takes(policy: string -> Policy, calls: seq<Call>, key: string, deadline: int): nat {
    if calls == [] then 0 else
      var n := |calls| - 1;
      Takes(policy, calls[..n], key, deadline) + if TakesAt(policy, calls, n, key, deadline) then 1 else 0
  }

  function Admitted(policy: string -> Policy, calls: seq<Call>, key: string, deadline: int): nat {
    if calls == [] then 0 else
      var n := |calls| - 1;
      Admitted(policy, calls[..n], key, deadline)
      + if TakesAt(policy, calls, n, key, deadline) && MemoryResult(policy, calls, n).allowed then 1 else 0
  }

  predicate Within(t: int, from: int, length: nat) {
    from <= t < from + length
  }

  /** Calls on `key` admitted in the half-open interval of `length` from `from`. */
  function AdmittedDuring(policy: string -> Policy, calls: seq<Call>, key: string, from: int, length: nat): nat {
    if calls == [] then 0 else
      var n := |calls| - 1;
      AdmittedDuring(policy, calls[..n], key, from, length)
      + if calls[n].key == key && Within(calls[n].now, from, length) && MemoryResult(policy, calls, n).allowed then 1 else 0
  }

  lemma ResultOfPrefix(policy: string -> Policy, calls: seq<Call>, n: nat, i: nat)
    requires i < n <= |calls|
    ensures MemoryResult(policy, calls[..n], i) == MemoryResult(policy, calls, i)
  {
    assert calls[..n][..i] == calls[..i];
  }

  lemma BucketsStep(policy: string -> Policy, calls: seq<Call>, n: nat)
    requires n < |calls|
    ensures var c, before := calls[n], Buckets(policy, calls[..n]);
      Buckets(policy, calls[..n + 1]) == before[c.key := BucketAfter(CurrentBucket(before, c.key, policy(c.key), c.now))]
  {
    assert calls[..n + 1][..n] == calls[..n];
  }

  // ---- each window admits exactly min(limit, takes) ----

  ghost predicate WindowsExact(policy: string -> Policy, calls: seq<Call>, key: string) {
    var buckets, limit := Buckets(policy, calls), policy(key).limit;
    && (forall d :: Admitted(policy, calls, key, d) == Min(limit, Takes(policy, calls, key, d)))
    && (key !in buckets ==> forall d :: Takes(policy, calls, key, d) == 0)
    && (key in buckets ==>
          && (forall d :: d > buckets[key].resetAt ==> Takes(policy, calls, key, d) == 0)
          && 0 <= buckets[key].remaining
          && Admitted(policy, calls, key, buckets[key].resetAt) == limit - buckets[key].remaining)
  }

  lemma {:induction false} WindowAdmitsExactly(policy: string -> Policy, calls: seq<Call>, key: string)
    requires Positive(policy) && Monotone(calls)
    ensures WindowsExact(policy, calls, key)
  {
    if calls != [] {
      var n := |calls| - 1;
      WindowAdmitsExactly(policy, calls[..n], key);
      assert calls[..n + 1] == calls;
      if calls[n].key == key {
        OwnCallKeepsExact(policy, calls, n, key);
      } else {
        assert forall d :: Takes(policy, calls, key, d) == Takes(policy, calls[..n], key, d);
        assert forall d :: Admitted(policy, calls, key, d) == Admitted(policy, calls[..n], key, d);
      }
    }
  }

  lemma OwnCallKeepsExact(policy: string -> Policy, calls: seq<Call>, n: nat, key: string)
    requires Positive(policy) && |calls| == n + 1 && calls[n].key == key && WindowsExact(policy, calls[..n], key)
    ensures WindowsExact(policy, calls, key)
  {
    var before, now := Buckets(policy, calls[..n]), calls[n].now;
    var bucket := CurrentBucket(before, key, policy(key), now);
    assert Buckets(policy, calls)[key] == BucketAfter(bucket);
    assert MemoryResult(policy, calls, n) == BucketResult(bucket);
    forall d
      ensures Takes(policy, calls, key, d) == Takes(policy, calls[..n], key, d) + if d == bucket.resetAt then 1 else 0
      ensures Admitted(policy, calls, key, d) ==
        Admitted(policy, calls[..n], key, d) + if d == bucket.resetAt && bucket.remaining > 0 then 1 else 0
    {
    }
    assert Admitted(policy, calls[..n], key, bucket.resetAt) == policy(key).limit - bucket.remaining;
  }

  // ---- where windows lie ----

  /** Facts about the answer to one call and the window it belongs to. */
  ghost predicate WindowPlaced(policy: string -> Policy, calls: seq<Call>, i: nat)
    requires i < |calls|
  {
    var c, d, w := calls[i], MemoryResult(policy, calls, i).resetAt, policy(calls[i].key).windowMs;
    && c.now < d <= c.now + w
    && exists first :: 0 <= first <= i && Opens(policy, calls, first, c.key, d)
  }

  /** The call that opened the window: made at its start, and admitted. */
  predicate Opens(policy: string -> Policy, calls: seq<Call>, i: nat, key: string, deadline: int)
    requires i < |calls|
  {
    TakesAt(policy, calls, i, key, deadline) && calls[i].now == deadline - policy(key).windowMs && MemoryResult(policy, calls, i).allowed
  }

  /** The bucket of a key is the window of the last call on it, and no earlier call lies in a later window. */
  ghost predicate BucketPlaced(policy: string -> Policy, calls: seq<Call>, n: nat, key: string)
    requires n <= |calls|
  {
    var buckets := Buckets(policy, calls[..n]);
    && (key in buckets ==> exists first :: 0 <= first < n && Opens(policy, calls, first, key, buckets[key].resetAt))
    && (forall i :: 0 <= i < n && calls[i].key == key ==>
          key in buckets && Spread(MemoryResult(policy, calls, i).resetAt, buckets[key].resetAt, policy(key).windowMs))
  }

  predicate Spread(earlier: int, later: int, w: nat) {
    earlier == later || earlier + w <= later
  }

  lemma {:induction false} Placed(policy: string -> Policy, calls: seq<Call>, n: nat, key: string)
    requires Positive(policy) && n <= |calls|
    ensures BucketPlaced(policy, calls, n, key)
  {
    if n > 0 {
      Placed(policy, calls, n - 1, key);
      PlacedStep(policy, calls, n - 1, key);
    } else {
      assert calls[..0] == [];
    }
  }

  lemma PlacedStep(policy: string -> Policy, calls: seq<Call>, n: nat, key: string)
    requires Positive(policy) && n < |calls| && BucketPlaced(policy, calls, n, key)
    ensures BucketPlaced(policy, calls, n + 1, key)
  {
    var before, after := Buckets(policy, calls[..n]), Buckets(policy, calls[..n + 1]);
    BucketsStep(policy, calls, n);
    hide Buckets;
    if calls[n].key == key && !LiveBucket(before, key, calls[n].now) {
      assert Opens(policy, calls, n, key, after[key].resetAt);
    }
  }

  lemma CallPlaced(policy: string -> Policy, calls: seq<Call>, i: nat)
    requires Positive(policy) && Monotone(calls) && i < |calls|
    ensures WindowPlaced(policy, calls, i)
  {
    var key := calls[i].key;
    Placed(policy, calls, i, key);
    var before := Buckets(policy, calls[..i]);
    if LiveBucket(before, key, calls[i].now) {
      var first :| 0 <= first < i && Opens(policy, calls, first, key, before[key].resetAt);
      assert calls[first].now <= calls[i].now;
    } else {
      assert Opens(policy, calls, i, key, MemoryResult(policy, calls, i).resetAt);
    }
  }

  lemma WindowsSpread(policy: string -> Policy, calls: seq<Call>, i: nat, j: nat)
    requires Positive(policy) && i < j < |calls| && calls[i].key == calls[j].key
    ensures Spread(MemoryResult(policy, calls, i).resetAt, MemoryResult(policy, calls, j).resetAt, policy(calls[i].key).windowMs)
  {
    var key := calls[j].key;
    Placed(policy, calls, j, key);
    var before := Buckets(policy, calls[..j]);
    assert Spread(MemoryResult(policy, calls, i).resetAt, before[key].resetAt, policy(key).windowMs);
  }

  // ---- any stretch of one window's length ----

  /** Calls admitted in the interval from one window. */
  function AdmittedFrom(policy: string -> Policy, calls: seq<Call>, key: string, from: int, length: nat, deadline: int): nat {
    if calls == [] then 0 else
      var n := |calls| - 1;
      AdmittedFrom(policy, calls[..n], key, from, length, deadline)
      + if TakesAt(policy, calls, n, key, deadline) && Within(calls[n].now, from, length) && MemoryResult(policy, calls, n).allowed
        then 1 else 0
  }

  lemma {:induction false} NoMoreThanTheWindow(policy: string -> Policy, calls: seq<Call>, key: string, from: int, length: nat, deadline: int)
    ensures AdmittedFrom(policy, calls, key, from, length, deadline) <= Admitted(policy, calls, key, deadline)
  {
    if calls != [] {
      NoMoreThanTheWindow(policy, calls[..|calls| - 1], key, from, length, deadline);
    }
  }

  /** A window whose opening call lies outside the interval contributes one admission less. */
  lemma {:induction false} OpeningOutside(policy: string -> Policy, calls: seq<Call>, key: string, from: int, length: nat, deadline: int, first: nat)
    requires first < |calls| && Opens(policy, calls, first, key, deadline) && !Within(calls[first].now, from, length)
    ensures AdmittedFrom(policy, calls, key, from, length, deadline) + 1 <= Admitted(policy, calls, key, deadline)
  {
    var n := |calls| - 1;
    if first == n {
      NoMoreThanTheWindow(policy, calls[..n], key, from, length, deadline);
    } else {
      ResultOfPrefix(policy, calls, n, first);
      OpeningOutside(policy, calls[..n], key, from, length, deadline, first);
    }
  }

  /** Every call on `key` in the interval is answered from one of two windows. */
  ghost predicate FromTwo(policy: string -> Policy, calls: seq<Call>, key: string, from: int, length: nat, d1: int, d2: int) {
    forall i :: 0 <= i < |calls| && calls[i].key == key && Within(calls[i].now, from, length) ==>
      TakesAt(policy, calls, i, key, d1) || TakesAt(policy, calls, i, key, d2)
  }

  lemma {:induction false} SplitByWindow(policy: string -> Policy, calls: seq<Call>, key: string, from: int, length: nat, d1: int, d2: int)
    requires FromTwo(policy, calls, key, from, length, d1, d2)
    ensures AdmittedDuring(policy, calls, key, from, length) <=
      AdmittedFrom(policy, calls, key, from, length, d1) + if d1 == d2 then 0 else AdmittedFrom(policy, calls, key, from, length, d2)
  {
    if calls != [] {
      var n := |calls| - 1;
      forall i | 0 <= i < n
        ensures TakesAt(policy, calls[..n], i, key, d1) == TakesAt(policy, calls, i, key, d1)
        ensures TakesAt(policy, calls[..n], i, key, d2) == TakesAt(policy, calls, i, key, d2)
      {
        ResultOfPrefix(policy, calls, n, i);
      }
      SplitByWindow(policy, calls[..n], key, from, length, d1, d2);
    }
  }

  /** Two windows that both reach into the interval are neighbours, and the earlier one opened before it. */
  lemma AtMostTwoWindows(policy: string -> Policy, calls: seq<Call>, key: string, from: int, i: nat, j: nat, k: nat)
    requires Positive(policy) && Monotone(calls) && i < |calls| && j < |calls| && k < |calls|
    requires calls[i].key == calls[j].key == calls[k].key == key
    requires Within(calls[i].now, from, policy(key).windowMs)
    requires Within(calls[j].now, from, policy(key).windowMs)
    requires Within(calls[k].now, from, policy(key).windowMs)
    requires MemoryResult(policy, calls, i).resetAt < MemoryResult(policy, calls, j).resetAt
    ensures MemoryResult(policy, calls, k).resetAt in {MemoryResult(policy, calls, i).resetAt, MemoryResult(policy, calls, j).resetAt}
    ensures MemoryResult(policy, calls, i).resetAt - policy(key).windowMs < from
  {
    CallPlaced(policy, calls, i);
    CallPlaced(policy, calls, j);
    CallPlaced(policy, calls, k);
    Comparable(policy, calls, i, j);
    Comparable(policy, calls, i, k);
    Comparable(policy, calls, j, k);
  }

  lemma Comparable(policy: string -> Policy, calls: seq<Call>, i: nat, j: nat)
    requires Positive(policy) && i < |calls| && j < |calls| && calls[i].key == calls[j].key
    ensures var a, b, w := MemoryResult(policy, calls, i).resetAt, MemoryResult(policy, calls, j).resetAt, policy(calls[i].key).windowMs;
      a == b || a + w <= b || b + w <= a
  {
    if i < j {
      WindowsSpread(policy, calls, i, j);
    } else if j < i {
      WindowsSpread(policy, calls, j, i);
    }
  }

  /**
    In any half-open interval of one window's length a key is granted at most 2 * limit - 1 calls.
    docs/ops/rate-limit-topology.md calls the window a sliding one; SlidingIff says when that is so.
  */
  lemma IntervalBound(policy: string -> Policy, calls: seq<Call>, key: string, from: int)
    requires Positive(policy) && Monotone(calls)
    ensures AdmittedDuring(policy, calls, key, from, policy(key).windowMs) <= 2 * policy(key).limit - 1
  {
    var w := policy(key).windowMs;
    WindowAdmitsExactly(policy, calls, key);
    if i :| 0 <= i < |calls| && calls[i].key == key && Within(calls[i].now, from, w) {
      var d := MemoryResult(policy, calls, i).resetAt;
      if j :| 0 <= j < |calls| && calls[j].key == key && Within(calls[j].now, from, w) && MemoryResult(policy, calls, j).resetAt != d {
        if MemoryResult(policy, calls, j).resetAt < d {
          TwoWindowBound(policy, calls, key, from, j, i);
        } else {
          TwoWindowBound(policy, calls, key, from, i, j);
        }
      } else {
        SplitByWindow(policy, calls, key, from, w, d, d);
        NoMoreThanTheWindow(policy, calls, key, from, w, d);
      }
    } else {
      SplitByWindow(policy, calls, key, from, w, 0, 0);
      NoMoreThanTheWindow(policy, calls, key, from, w, 0);
    }
  }

  lemma TwoWindowBound(policy: string -> Policy, calls: seq<Call>, key: string, from: int, i: nat, j: nat)
    requires Positive(policy) && Monotone(calls) && i < |calls| && j < |calls| && calls[i].key == calls[j].key == key
    requires Within(calls[i].now, from, policy(key).windowMs) && Within(calls[j].now, from, policy(key).windowMs)
    requires MemoryResult(policy, calls, i).resetAt < MemoryResult(policy, calls, j).resetAt
    ensures AdmittedDuring(policy, calls, key, from, policy(key).windowMs) <= 2 * policy(key).limit - 1
  {
    var w, d1, d2 := policy(key).windowMs, MemoryResult(policy, calls, i).resetAt, MemoryResult(policy, calls, j).resetAt;
    WindowAdmitsExactly(policy, calls, key);
    forall k | 0 <= k < |calls| && calls[k].key == key && Within(calls[k].now, from, w)
      ensures MemoryResult(policy, calls, k).resetAt in {d1, d2}
    {
      AtMostTwoWindows(policy, calls, key, from, i, j, k);
    }
    SplitByWindow(policy, calls, key, from, w, d1, d2);
    NoMoreThanTheWindow(policy, calls, key, from, w, d2);
    CallPlaced(policy, calls, i);
    var first :| 0 <= first <= i && Opens(policy, calls, first, key, d1);
    AtMostTwoWindows(policy, calls, key, from, i, j, i);
    OpeningOutside(policy, calls, key, from, w, d1, first);
  }

  // ---- the bound is reached ----

  /** One call at time 0 and `m` more just before its window ends. */
  function Early(key: string, w: nat, m: nat): seq<Call> {
    if m == 0 then [Call(key, 0)] else Early(key, w, m - 1) + [Call(key, w - 1)]
  }

  /** Then `n` calls just after. */
  function Late(key: string, w: nat, m: nat, n: nat): seq<Call> {
    if n == 0 then Early(key, w, m) else Late(key, w, m, n - 1) + [Call(key, w)]
  }

  /** The history so far: nothing after `last`, this one bucket, and so many admissions in the interval that starts 1 ms before `w`. */
  ghost predicate Stands(policy: string -> Policy, key: string, calls: seq<Call>, w: nat, last: int, bucket: Bucket, admitted: nat) {
    && Monotone(calls) && (forall i :: 0 <= i < |calls| ==> calls[i].now <= last)
    && Buckets(policy, calls) == map[key := bucket]
    && AdmittedDuring(policy, calls, key, w - 1, w) == admitted
  }

  lemma AdmitOne(policy: string -> Policy, key: string, calls: seq<Call>, w: nat, last: int, bucket: Bucket, admitted: nat, now: int)
    requires Stands(policy, key, calls, w, last, bucket, admitted) && last <= now && w - 1 <= now < 2 * w - 1
    requires (if bucket.resetAt > now then bucket.remaining else policy(key).limit) > 0
    ensures Stands(policy, key, calls + [Call(key, now)], w, now,
      if bucket.resetAt > now then Bucket(bucket.remaining - 1, bucket.resetAt) else Bucket(policy(key).limit - 1, now + policy(key).windowMs),
      admitted + 1)
  {
    var more := calls + [Call(key, now)];
    assert more[..|calls|] == calls;
    assert MemoryResult(policy, more, |calls|) == BucketResult(CurrentBucket(map[key := bucket], key, policy(key), now));
  }

  lemma StandsLater(policy: string -> Policy, key: string, calls: seq<Call>, w: nat, last: int, later: int, bucket: Bucket, admitted: nat)
    requires Stands(policy, key, calls, w, last, bucket, admitted) && last <= later
    ensures Stands(policy, key, calls, w, later, bucket, admitted)
  {
  }

  lemma FirstCall(policy: string -> Policy, key: string, w: nat, limit: nat)
    requires policy(key) == Policy(limit, w) && w >= 2 && limit > 0
    ensures Stands(policy, key, [Call(key, 0)], w, w - 1, Bucket(limit - 1, w), 0)
  {
    var calls := [Call(key, 0)];
    assert calls[..0] == [];
    assert Buckets(policy, []) == map[];
    assert AdmittedDuring(policy, [], key, w - 1, w) == 0;
  }

  lemma {:induction false} EarlyAdmitted(policy: string -> Policy, key: string, w: nat, limit: nat, m: nat)
    requires policy(key) == Policy(limit, w) && w >= 2 && m < limit
    ensures Stands(policy, key, Early(key, w, m), w, w - 1, Bucket(limit - 1 - m, w), m)
  {
    hide Stands;
    if m == 0 {
      FirstCall(policy, key, w, limit);
    } else {
      EarlyAdmitted(policy, key, w, limit, m - 1);
      AdmitOne(policy, key, Early(key, w, m - 1), w, w - 1, Bucket(limit - m, w), m - 1, w - 1);
    }
  }

  function LateBucket(w: nat, limit: nat, m: nat, n: nat): Bucket {
    if n == 0 then Bucket(limit - 1 - m, w) else Bucket(limit - n, 2 * w)
  }

  lemma {:induction false} LateAdmitted(policy: string -> Policy, key: string, w: nat, limit: nat, m: nat, n: nat)
    requires policy(key) == Policy(limit, w) && w >= 2 && m < limit && n <= limit
    ensures Stands(policy, key, Late(key, w, m, n), w, w, LateBucket(w, limit, m, n), m + n)
  {
    hide Stands;
    if n == 0 {
      EarlyAdmitted(policy, key, w, limit, m);
      StandsLater(policy, key, Early(key, w, m), w, w - 1, w, LateBucket(w, limit, m, 0), m);
    } else {
      LateAdmitted(policy, key, w, limit, m, n - 1);
      AdmitOne(policy, key, Late(key, w, m, n - 1), w, w, LateBucket(w, limit, m, n - 1), m + n - 1, w);
    }
  }

  /** For every key and limit and every window of at least 2 ms, some history is granted 2 * limit - 1 calls within one window's length. */
  lemma BoundIsReached(policy: string -> Policy, key: string) returns (calls: seq<Call>, from: int)
    requires Positive(policy) && policy(key).windowMs >= 2
    ensures Monotone(calls)
    ensures AdmittedDuring(policy, calls, key, from, policy(key).windowMs) == 2 * policy(key).limit - 1
  {
    var limit, w := policy(key).limit, policy(key).windowMs;
    LateAdmitted(policy, key, w, limit, limit - 1, limit);
    calls, from := Late(key, w, limit - 1, limit), w - 1;
  }

  /** A window of 1 ms: all calls of the interval lie in the one window that ends with it. */
  lemma OneMillisecond(policy: string -> Policy, calls: seq<Call>, key: string, from: int)
    requires Positive(policy) && Monotone(calls) && policy(key).windowMs == 1
    ensures AdmittedDuring(policy, calls, key, from, 1) <= policy(key).limit
  {
    forall i | 0 <= i < |calls| && calls[i].key == key && Within(calls[i].now, from, 1)
      ensures TakesAt(policy, calls, i, key, from + 1)
    {
      CallPlaced(policy, calls, i);
    }
    SplitByWindow(policy, calls, key, from, 1, from + 1, from + 1);
    NoMoreThanTheWindow(policy, calls, key, from, 1, from + 1);
    WindowAdmitsExactly(policy, calls, key);
  }

  /** The guarantee of a sliding window: no interval of one window's length is granted more than the limit. */
  ghost predicate Sliding(policy: string -> Policy, key: string) {
    forall calls, from :: Monotone(calls) ==> AdmittedDuring(policy, calls, key, from, policy(key).windowMs) <= policy(key).limit
  }

  /** The limiters give that guarantee for a key exactly when its limit is one call or its window one millisecond. */
  lemma SlidingIff(policy: string -> Policy, key: string)
    requires Positive(policy)
    ensures Sliding(policy, key) <==> policy(key).limit == 1 || policy(key).windowMs == 1
  {
    hide AdmittedDuring, Monotone;
    if policy(key).windowMs == 1 {
      forall calls, from | Monotone(calls)
        ensures AdmittedDuring(policy, calls, key, from, 1) <= policy(key).limit
      {
        OneMillisecond(policy, calls, key, from);
      }
    } else if policy(key).limit == 1 {
      forall calls, from | Monotone(calls)
        ensures AdmittedDuring(policy, calls, key, from, policy(key).windowMs) <= 1
      {
        IntervalBound(policy, calls, key, from);
      }
    } else {
      var calls, from := BoundIsReached(policy, key);
    }
  }
}
