/**
  Which rows one claim may take: ORDER BY next_attempt_at, created_at LIMIT n FOR UPDATE SKIP LOCKED.
  The specification is a set of rows with no better row left behind; sorting and taking a prefix,
  and scanning a sorted list while skipping locked rows, are both shown to meet it.
*/
module ClaimOrder {
  import opened FiniteSets
  import opened Numbers
  import opened QueueTables

  predicate Before(a: Delivery, b: Delivery) {
    a.nextAttemptAt < b.nextAttemptAt || (a.nextAttemptAt == b.nextAttemptAt && a.createdAt < b.createdAt)
  }

  /** ORDER BY next_attempt_at, created_at: earlier, or as early and not created later. */
  predicate InColumnOrder(a: Delivery, b: Delivery) {
    a.nextAttemptAt < b.nextAttemptAt || (a.nextAttemptAt == b.nextAttemptAt && a.createdAt <= b.createdAt)
  }

  /** The due rows that no other transaction holds, neither the row itself nor its joined webhook row. */
  function Candidates(db: Db, lockedRows: set<nat>, lockedWebhooks: set<nat>): (c: set<nat>)
  {
    set id | id in db.queue && Due(db, id) && id !in lockedRows && db.queue[id].webhookId !in lockedWebhooks
  }

  /** `batch` is a least prefix of `candidates` with at most `limit` rows; ties are free. */
  predicate IsClaimBatch(queue: map<nat, Delivery>, candidates: set<nat>, limit: nat, batch: set<nat>)
    requires candidates <= queue.Keys
  {
    && batch <= candidates
    && |batch| == Min(limit, |candidates|)
    && forall left, taken :: left in candidates && left !in batch && taken in batch ==>
      !Before(queue[left], queue[taken])
  }

  /** A claim batch in the columns of the rows: what it may take, and what a row that it leaves behind means. */
  lemma BatchInColumns(db: Db, lockedRows: set<nat>, lockedWebhooks: set<nat>, limit: nat, batch: set<nat>)
    requires IsClaimBatch(db.queue, Candidates(db, lockedRows, lockedWebhooks), limit, batch)
    ensures |batch| <= limit
    ensures forall id :: id in batch ==>
      && id in db.queue && db.queue[id].webhookId in db.webhooks
      && (db.queue[id].status == Pending || db.queue[id].status == Failed)
      && db.queue[id].nextAttemptAt <= db.now && db.queue[id].attemptCount < db.queue[id].maxAttempts
      && db.webhooks[db.queue[id].webhookId].revokedAt.None? && db.webhooks[db.queue[id].webhookId].disabledAt.None?
      && id !in lockedRows && db.queue[id].webhookId !in lockedWebhooks
    ensures forall id ::
      && id in db.queue && id !in batch && db.queue[id].webhookId in db.webhooks
      && (db.queue[id].status == Pending || db.queue[id].status == Failed)
      && db.queue[id].nextAttemptAt <= db.now && db.queue[id].attemptCount < db.queue[id].maxAttempts
      && db.webhooks[db.queue[id].webhookId].revokedAt.None? && db.webhooks[db.queue[id].webhookId].disabledAt.None?
      && id !in lockedRows && db.queue[id].webhookId !in lockedWebhooks ==>
        |batch| == limit && forall taken :: taken in batch ==> InColumnOrder(db.queue[taken], db.queue[id])
  {
    var candidates := Candidates(db, lockedRows, lockedWebhooks);
    forall id | id in candidates && id !in batch
      ensures |batch| == limit && forall taken :: taken in batch ==> InColumnOrder(db.queue[taken], db.queue[id])
    {
      LeftBehind(db.queue, candidates, limit, batch, id);
    }
  }

  lemma LeftBehind(queue: map<nat, Delivery>, candidates: set<nat>, limit: nat, batch: set<nat>, id: nat)
    requires candidates <= queue.Keys && IsClaimBatch(queue, candidates, limit, batch) && id in candidates && id !in batch
    ensures |batch| == limit && forall taken :: taken in batch ==> InColumnOrder(queue[taken], queue[id])
  {
    ProperSubsetSize(batch, candidates);
  }

  function Elements(s: seq<nat>): set<nat> {
    set x | x in s
  }

  predicate Distinct(s: seq<nat>) {
    forall i, j :: 0 <= i < j < |s| ==> s[i] != s[j]
  }

  predicate Sorted(queue: map<nat, Delivery>, order: seq<nat>)
    requires Elements(order) <= queue.Keys
  {
    forall i, j :: 0 <= i < j < |order| ==> order[i] in queue && order[j] in queue && !Before(queue[order[j]], queue[order[i]])
  }

  ghost predicate SortedListing(queue: map<nat, Delivery>, candidates: set<nat>, order: seq<nat>)
    requires candidates <= queue.Keys
  {
    Distinct(order) && Elements(order) == candidates && Sorted(queue, order)
  }

  lemma ElementsOfConcatenation(a: seq<nat>, b: seq<nat>)
    ensures Elements(a + b) == Elements(a) + Elements(b)
  {
    assert forall i :: 0 <= i < |a| ==> (a + b)[i] == a[i];
    assert forall i :: 0 <= i < |b| ==> (a + b)[|a| + i] == b[i];
  }

  lemma {:induction false} DistinctSize(s: seq<nat>)
    requires Distinct(s)
    ensures |Elements(s)| == |s|
  {
    if s != [] {
      var n := |s| - 1;
      var front := s[..n];
      DistinctSize(front);
      assert s == front + [s[n]];
      ElementsOfConcatenation(front, [s[n]]);
      assert Elements([s[n]]) == {s[n]};
      assert s[n] !in front;
    }
  }

  lemma {:induction false} LeastExists(queue: map<nat, Delivery>, s: set<nat>) returns (m: nat)
    requires s != {} && s <= queue.Keys
    ensures m in s && forall x :: x in s ==> !Before(queue[x], queue[m])
    decreases |s|
  {
    var x :| x in s;
    m := x;
    var rest := s - {x};
    if rest != {} {
      var n := LeastExists(queue, rest);
      if Before(queue[n], queue[x]) {
        m := n;
      }
    }
    assert forall y :: y in s ==> y == x || y in rest;
  }

  lemma {:induction false} SortedListingExists(queue: map<nat, Delivery>, s: set<nat>) returns (order: seq<nat>)
    requires s <= queue.Keys
    ensures SortedListing(queue, s, order)
    decreases |s|
  {
    if s == {} {
      order := [];
    } else {
      var m := LeastExists(queue, s);
      var rest := SortedListingExists(queue, s - {m});
      order := [m] + rest;
      assert s == {m} + (s - {m});
      hide Distinct, Sorted, Before, Elements;
      OneListed(queue, m);
      Concatenate(queue, {m}, s - {m}, [m], rest);
    }
  }

  lemma OneListed(queue: map<nat, Delivery>, m: nat)
    requires m in queue
    ensures SortedListing(queue, {m}, [m])
  {
    assert [m][0] == m;
  }

  /** Taking a prefix of any sorted listing gives a claim batch. */
  lemma PrefixIsClaimBatch(queue: map<nat, Delivery>, candidates: set<nat>, limit: nat, order: seq<nat>)
    requires candidates <= queue.Keys && SortedListing(queue, candidates, order)
    ensures |order| == |candidates|
    ensures IsClaimBatch(queue, candidates, limit, Elements(order[..Min(limit, |order|)]))
  {
    DistinctSize(order);
    var n := Min(limit, |order|);
    DistinctSize(order[..n]);
    var batch := Elements(order[..n]);
    forall left, taken | left in candidates && left !in batch && taken in batch
      ensures !Before(queue[left], queue[taken])
    {
      assert left in Elements(order);
      assert forall k :: 0 <= k < n ==> order[..n][k] == order[k];
      var i :| 0 <= i < n && order[i] == taken;
      var j :| 0 <= j < |order| && order[j] == left;
    }
  }

  lemma Concatenate(queue: map<nat, Delivery>, a: set<nat>, b: set<nat>, first: seq<nat>, second: seq<nat>)
    requires a + b <= queue.Keys && a !! b
    requires SortedListing(queue, a, first) && SortedListing(queue, b, second)
    requires forall x, y :: x in a && y in b ==> !Before(queue[y], queue[x])
    ensures SortedListing(queue, a + b, first + second)
  {
    hide Before;
    var order := first + second;
    ElementsOfConcatenation(first, second);
    forall i, j | 0 <= i < j < |order|
      ensures order[i] != order[j] && order[i] in queue && order[j] in queue && !Before(queue[order[j]], queue[order[i]])
    {
      PairInOrder(queue, a, b, first, second, i, j);
    }
    assert Sorted(queue, order);
  }

  lemma PairInOrder(queue: map<nat, Delivery>, a: set<nat>, b: set<nat>, first: seq<nat>, second: seq<nat>, i: nat, j: nat)
    requires a + b <= queue.Keys && a !! b
    requires SortedListing(queue, a, first) && SortedListing(queue, b, second)
    requires forall x, y :: x in a && y in b ==> !Before(queue[y], queue[x])
    requires i < j < |first + second|
    ensures var order := first + second;
      order[i] != order[j] && order[i] in queue && order[j] in queue && !Before(queue[order[j]], queue[order[i]])
  {
    hide Before;
    var n := |first|;
    if j < n {
      assert first[i] != first[j] && first[i] in queue && first[j] in queue && !Before(queue[first[j]], queue[first[i]]);
    } else if i < n {
      assert first[i] in Elements(first) && second[j - n] in Elements(second);
    } else {
      assert second[i - n] != second[j - n] && second[i - n] in queue && second[j - n] in queue;
      assert !Before(queue[second[j - n]], queue[second[i - n]]);
    }
  }

  /** The claim batches are exactly the prefixes of sorted listings: lock-and-limit is sort-then-take. */
  lemma ClaimBatchIsSortThenTake(queue: map<nat, Delivery>, candidates: set<nat>, limit: nat, batch: set<nat>)
    requires candidates <= queue.Keys
    ensures IsClaimBatch(queue, candidates, limit, batch) <==>
      exists order :: SortedListing(queue, candidates, order) && batch == Elements(order[..Min(limit, |order|)])
  {
    hide IsClaimBatch;
    if IsClaimBatch(queue, candidates, limit, batch) {
      var order := ListingThatStartsWith(queue, candidates, limit, batch);
    }
    if order :| SortedListing(queue, candidates, order) && batch == Elements(order[..Min(limit, |order|)]) {
      PrefixIsClaimBatch(queue, candidates, limit, order);
    }
  }

  lemma ListingSize(queue: map<nat, Delivery>, s: set<nat>, order: seq<nat>)
    requires s <= queue.Keys && SortedListing(queue, s, order)
    ensures |order| == |s| && Elements(order) == s
  {
    DistinctSize(order);
  }

  /** A listing that starts with the batch and goes on with the rows left behind. */
  lemma ListingThatStartsWith(queue: map<nat, Delivery>, candidates: set<nat>, limit: nat, batch: set<nat>) returns (order: seq<nat>)
    requires candidates <= queue.Keys && IsClaimBatch(queue, candidates, limit, batch)
    ensures SortedListing(queue, candidates, order) && batch == Elements(order[..Min(limit, |order|)])
  {
    hide Before, SortedListing, Elements;
    var left := candidates - batch;
    var first := SortedListingExists(queue, batch);
    var second := SortedListingExists(queue, left);
    order := first + second;
    assert batch + left == candidates;
    Concatenate(queue, batch, left, first, second);
    ListingSize(queue, batch, first);
    ListingSize(queue, candidates, order);
    assert order[..|first|] == first;
  }
}
