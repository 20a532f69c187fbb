/**
  The repository as an object that updates its two tables in place, one statement per method.
  Each method is proved against the meaning of its SQL statement in `QueueTables` and `ClaimOrder`.
*/
module AutomationRepository {
  import opened FiniteSets
  import opened Options
  import opened QueueTables
  import opened ClaimOrder

  class Repository {
    var queue: map<nat, Delivery>
    var webhooks: map<nat, Webhook>
    var clock: nat
    var nextId: nat

    /** The id generator never repeats an id that is in use. */
    predicate Valid()
      reads this
    {
      forall id :: id in queue ==> id < nextId
    }

    function State(): Db
      reads this
    {
      Db(queue, webhooks, clock)
    }

    constructor (now: nat)
      ensures Valid() && State() == Db(map[], map[], now)
    {
      queue, webhooks, clock, nextId := map[], map[], now, 0;
    }

    method Wait(elapsed: nat)
      requires Valid()
      modifies this`clock
      ensures Valid() && State() == old(State()).(now := old(clock) + elapsed)
    {
      clock := clock + elapsed;
    }

    // ---- automation_webhooks ----

    method RevokeWebhook(id: nat, tenantId: nat) returns (revoked: bool)
      requires Valid()
      modifies this`webhooks
      ensures Valid() && State() == QueueTables.RevokeWebhook(old(State()), id, tenantId)
      ensures revoked == (id in old(webhooks) && old(webhooks)[id].tenantId == tenantId && old(webhooks)[id].revokedAt.None?)
      ensures webhooks == if revoked then old(webhooks)[id := old(webhooks)[id].(revokedAt := Some(clock))] else old(webhooks)
    {
      revoked := false;
      if id in webhooks {
        var hook := webhooks[id];
        if hook.tenantId == tenantId && hook.revokedAt.None? {
          webhooks := webhooks[id := hook.(revokedAt := Some(clock))];
          revoked := true;
        }
      }
    }

    method RecordDeliveryFailure(id: nat)
      requires Valid()
      modifies this`webhooks
      ensures Valid() && State() == RecordFailure(old(State()), id)
      ensures id !in old(webhooks) || old(webhooks)[id].revokedAt.Some? || old(webhooks)[id].disabledAt.Some? ==> webhooks == old(webhooks)
      ensures id in old(webhooks) && old(webhooks)[id].revokedAt.None? && old(webhooks)[id].disabledAt.None? ==>
        var count := old(webhooks)[id].failureCount + 1;
        webhooks == old(webhooks)[id := old(webhooks)[id].(failureCount := count, disabledAt := if count >= 5 then Some(clock) else None)]
    {
      if id in webhooks && webhooks[id].revokedAt.None? && webhooks[id].disabledAt.None? {
        var hook := webhooks[id];
        var count := hook.failureCount + 1;
        hook := hook.(failureCount := count);
        if count >= FAILURE_THRESHOLD {
          hook := hook.(disabledAt := Some(clock));
        }
        webhooks := webhooks[id := hook];
      }
    }

    method ResetDeliveryFailure(id: nat)
      requires Valid()
      modifies this`webhooks
      ensures Valid() && State() == ResetFailure(old(State()), id)
      ensures webhooks == if id in old(webhooks) then old(webhooks)[id := old(webhooks)[id].(failureCount := 0)] else old(webhooks)
    {
      if id in webhooks {
        webhooks := webhooks[id := webhooks[id].(failureCount := 0)];
      }
    }

    // ---- webhook_delivery_queue ----

    method HasConflict(webhookId: nat, eventId: nat) returns (found: bool)
      requires Valid()
      ensures found == Conflicts(State(), webhookId, eventId)
      ensures found <==> exists id :: id in queue && queue[id].webhookId == webhookId && queue[id].eventId == eventId && queue[id].dismissedAt.None?
    {
      found := false;
      var todo := queue.Keys;
      while todo != {}
        invariant todo <= queue.Keys
        invariant forall id :: id in queue && id !in todo ==> !Indexed(queue[id], webhookId, eventId)
        decreases todo
      {
        var id :| id in todo;
        if queue[id].webhookId == webhookId && queue[id].eventId == eventId && queue[id].dismissedAt.None? {
          return true;
        }
        todo := todo - {id};
      }
    }

    /** Inserts one pending row for every subscribed active webhook without an undismissed row for the event. */
    method EnqueueWebhookDeliveries(tenantId: nat, event: string, eventId: nat, maxAttempts: nat)
      returns (inserted: map<nat, nat>)
      requires Valid()
      modifies this`queue, this`nextId
      ensures Valid()
      ensures FreshFor(old(State()), EnqueueTargets(old(State()), tenantId, event, eventId), inserted)
      ensures State() == Enqueue(old(State()), tenantId, event, eventId, maxAttempts, inserted)
      ensures queue.Keys == old(queue).Keys + inserted.Keys && inserted.Keys !! old(queue).Keys
      ensures forall id :: id in old(queue) ==> queue[id] == old(queue)[id]
      ensures forall id :: id in inserted ==> queue[id] == Delivery(
        webhookId := inserted[id], tenantId := tenantId, event := event, eventId := eventId, status := Pending,
        attemptCount := 0, maxAttempts := maxAttempts, nextAttemptAt := clock, claimedAt := None, deliveredAt := None,
        lastResponseCode := None, lastError := None, dismissedAt := None, createdAt := clock)
      ensures forall i, j :: i in inserted && j in inserted && inserted[i] == inserted[j] ==> i == j
      ensures forall w :: w in inserted.Values <==>
        && w in webhooks && webhooks[w].tenantId == tenantId && event in webhooks[w].events
        && webhooks[w].revokedAt.None? && webhooks[w].disabledAt.None?
        && forall id :: id in old(queue) && old(queue)[id].webhookId == w && old(queue)[id].eventId == eventId ==> old(queue)[id].dismissedAt.Some?
    {
      ghost var db := State();
      var todo, targets := webhooks.Keys, {};
      while todo != {}
        invariant todo <= webhooks.Keys && Valid() && State() == db
        invariant targets == set w | w in webhooks && w !in todo && w in EnqueueTargets(db, tenantId, event, eventId)
        decreases todo
      {
        var w :| w in todo;
        todo := todo - {w};
        var hook := webhooks[w];
        if hook.tenantId == tenantId && hook.revokedAt.None? && hook.disabledAt.None? && event in hook.events {
          var conflict := HasConflict(w, eventId);
          if !conflict {
            targets := targets + {w};
          }
        }
      }
      assert targets == EnqueueTargets(db, tenantId, event, eventId);
      inserted := InsertRows(targets, tenantId, event, eventId, maxAttempts);
    }

    method InsertRows(targets: set<nat>, tenantId: nat, event: string, eventId: nat, maxAttempts: nat)
      returns (inserted: map<nat, nat>)
      requires Valid()
      modifies this`queue, this`nextId
      ensures Valid() && FreshFor(old(State()), targets, inserted)
      ensures State() == Enqueue(old(State()), tenantId, event, eventId, maxAttempts, inserted)
    {
      ghost var db := State();
      inserted := map[];
      var todo := targets;
      while todo != {}
        invariant todo <= targets && Valid()
        invariant FreshFor(db, targets - todo, inserted)
        invariant forall id :: id in inserted ==> id < nextId
        invariant State() == Enqueue(db, tenantId, event, eventId, maxAttempts, inserted)
        invariant forall id :: id in db.queue ==> id in queue
        decreases todo
      {
        var w :| w in todo;
        OneMoreId(db, targets - todo, inserted, nextId, w);
        OneMoreRow(db, inserted, nextId, w, tenantId, event, eventId, maxAttempts);
        assert targets - (todo - {w}) == (targets - todo) + {w};
        queue := queue[nextId := NewDelivery(w, tenantId, event, eventId, maxAttempts, clock)];
        inserted := inserted[nextId := w];
        nextId := nextId + 1;
        todo := todo - {w};
      }
      assert targets - todo == targets;
    }

    method RetryAbandonedDelivery(id: nat, tenantId: nat) returns (row: Option<Delivery>)
      requires Valid()
      modifies this`queue
      ensures Valid() && State() == Retry(old(State()), id, tenantId)
      ensures row.Some? ==
        (id in old(queue) && old(queue)[id].tenantId == tenantId && old(queue)[id].status == Abandoned && old(queue)[id].dismissedAt.None?)
      ensures row.None? ==> queue == old(queue)
      ensures row.Some? ==> queue == old(queue)[id := row.value]
      ensures row.Some? ==> row.value == old(queue)[id].(status := Pending, attemptCount := 0, nextAttemptAt := clock, lastError := None)
    {
      row := None;
      if id in queue && queue[id].tenantId == tenantId && queue[id].status == Abandoned && queue[id].dismissedAt.None? {
        var d := queue[id];
        d := d.(status := Pending);
        d := d.(attemptCount := 0);
        d := d.(nextAttemptAt := clock);
        d := d.(lastError := None);
        queue := queue[id := d];
        row := Some(d);
      }
    }

    method DismissAbandonedDelivery(id: nat, tenantId: nat) returns (dismissed: bool)
      requires Valid()
      modifies this`queue
      ensures Valid() && State() == Dismiss(old(State()), id, tenantId)
      ensures dismissed ==
        (id in old(queue) && old(queue)[id].tenantId == tenantId && old(queue)[id].status == Abandoned && old(queue)[id].dismissedAt.None?)
      ensures queue == if dismissed then old(queue)[id := old(queue)[id].(dismissedAt := Some(clock))] else old(queue)
    {
      dismissed := false;
      if id in queue && queue[id].tenantId == tenantId && queue[id].status == Abandoned && queue[id].dismissedAt.None? {
        queue := queue[id := queue[id].(dismissedAt := Some(clock))];
        dismissed := true;
      }
    }

    /** ORDER BY: the due rows, locked or not, by repeated selection of a least row. */
    method DueInOrder() returns (order: seq<nat>)
      requires Valid()
      ensures SortedListing(queue, Candidates(State(), {}, {}), order)
      ensures forall i, j :: 0 <= i < j < |order| ==>
        && order[i] != order[j] && order[i] in queue && order[j] in queue
        && InColumnOrder(queue[order[i]], queue[order[j]])
    {
      var due := set id | id in queue && Due(State(), id);
      var rest := due;
      order := [];
      while rest != {}
        invariant rest <= due && SortedListing(queue, due - rest, order)
        invariant forall x, y :: x in due - rest && y in rest ==> !Before(queue[y], queue[x])
        decreases rest
      {
        var least := LeastOf(rest);
        ghost var taken := due - rest;
        Concatenate(queue, taken, {least}, order, [least]);
        assert due - (rest - {least}) == taken + {least};
        order := order + [least];
        rest := rest - {least};
      }
      assert due - rest == due && due == Candidates(State(), {}, {});
      ListingInColumns(queue, due, order);
    }

    method LeastOf(ids: set<nat>) returns (least: nat)
      requires ids != {} && ids <= queue.Keys
      ensures least in ids && forall x :: x in ids ==> !Before(queue[x], queue[least])
    {
      least :| least in ids;
      var todo := ids - {least};
      while todo != {}
        invariant todo <= ids && least in ids
        invariant forall x :: x in ids && x !in todo ==> !Before(queue[x], queue[least])
        decreases todo
      {
        var id :| id in todo;
        todo := todo - {id};
        if Before(queue[id], queue[least]) {
          least := id;
        }
      }
    }

    /** LIMIT n FOR UPDATE SKIP LOCKED: one scan that skips what others hold and stops when full. */
    method LockDue(limit: nat, lockedRows: set<nat>, lockedWebhooks: set<nat>) returns (batch: set<nat>)
      requires Valid()
      ensures IsClaimBatch(queue, Candidates(State(), lockedRows, lockedWebhooks), limit, batch)
      ensures |batch| <= limit
      ensures forall id :: id in batch ==>
        && id in queue && queue[id].webhookId in webhooks
        && (queue[id].status == Pending || queue[id].status == Failed)
        && queue[id].nextAttemptAt <= clock && queue[id].attemptCount < queue[id].maxAttempts
        && webhooks[queue[id].webhookId].revokedAt.None? && webhooks[queue[id].webhookId].disabledAt.None?
        && id !in lockedRows && queue[id].webhookId !in lockedWebhooks
      ensures forall id ::
        && id in queue && id !in batch && queue[id].webhookId in webhooks
        && (queue[id].status == Pending || queue[id].status == Failed)
        && queue[id].nextAttemptAt <= clock && queue[id].attemptCount < queue[id].maxAttempts
        && webhooks[queue[id].webhookId].revokedAt.None? && webhooks[queue[id].webhookId].disabledAt.None?
        && id !in lockedRows && queue[id].webhookId !in lockedWebhooks ==>
          |batch| == limit && forall taken :: taken in batch ==> InColumnOrder(queue[taken], queue[id])
    {
      hide SortedListing, Scanned, IsClaimBatch;
      var order := DueInOrder();
      ListedAreCandidates(queue, Candidates(State(), {}, {}), order);
      ghost var candidates := Candidates(State(), lockedRows, lockedWebhooks);
      batch := {};
      var i := 0;
      NothingScanned(order, candidates);
      while i < |order| && |batch| < limit
        invariant i <= |order| && |batch| <= limit
        invariant batch == Scanned(order, i, candidates)
        decreases |order| - i
      {
        var id := order[i];
        ScannedStep(order, i, candidates);
        if id !in lockedRows && queue[id].webhookId !in lockedWebhooks {
          batch := batch + {id};
        }
        i := i + 1;
      }
      ScanIsClaimBatch(queue, Candidates(State(), {}, {}), candidates, order, i, limit, batch);
      BatchInColumns(State(), lockedRows, lockedWebhooks, limit, batch);
    }

    /** The UPDATE half of the claim, row by row; `at` is the time at which the transaction started. */
    method CommitClaim(batch: set<nat>, at: nat)
      requires Valid() && batch <= queue.Keys
      modifies this`queue
      ensures Valid() && State() == Claim(old(State()), batch, at)
      ensures queue.Keys == old(queue).Keys
      ensures forall id :: id in queue && id !in batch ==> queue[id] == old(queue)[id]
      ensures forall id :: id in batch ==>
        && id in queue
        && queue[id] == old(queue)[id].(status := Processing, attemptCount := old(queue)[id].attemptCount + 1, claimedAt := Some(at))
    {
      ghost var db := State();
      var todo := batch;
      while todo != {}
        invariant todo <= batch && State() == Claim(db, batch - todo, at)
        decreases todo
      {
        var id :| id in todo;
        var d := queue[id];
        d := d.(status := Processing);
        d := d.(attemptCount := d.attemptCount + 1);
        d := d.(claimedAt := Some(at));
        queue := queue[id := d];
        assert batch - (todo - {id}) == (batch - todo) + {id};
        todo := todo - {id};
      }
      assert batch - todo == batch;
    }

    method MarkWebhookDeliveryDelivered(id: nat, responseCode: Option<nat>)
      requires Valid()
      modifies this`queue
      ensures Valid() && State() == MarkDelivered(old(State()), id, responseCode)
      ensures queue == if id in old(queue) then old(queue)[id := old(queue)[id].(
        status := Delivered, deliveredAt := Some(clock), lastResponseCode := responseCode, lastError := None)] else old(queue)
    {
      if id in queue {
        var d := queue[id];
        d := d.(status := Delivered);
        d := d.(deliveredAt := Some(clock));
        d := d.(lastResponseCode := responseCode);
        d := d.(lastError := None);
        queue := queue[id := d];
      }
    }

    method MarkWebhookDeliveryFailed(id: nat, responseCode: Option<nat>, error: Option<string>, retryDelaySeconds: nat)
      requires Valid()
      modifies this`queue
      ensures Valid() && State() == MarkFailed(old(State()), id, responseCode, error, retryDelaySeconds)
      ensures id !in old(queue) ==> queue == old(queue)
      ensures id in old(queue) ==> id in queue && queue == old(queue)[id := queue[id]]
      ensures id in old(queue) && old(queue)[id].attemptCount >= old(queue)[id].maxAttempts ==>
        queue[id] == old(queue)[id].(status := Abandoned, lastResponseCode := responseCode, lastError := queue[id].lastError)
      ensures id in old(queue) && old(queue)[id].attemptCount < old(queue)[id].maxAttempts ==>
        queue[id] == old(queue)[id].(
          status := Failed, nextAttemptAt := clock + retryDelaySeconds * 1_000_000,
          lastResponseCode := responseCode, lastError := queue[id].lastError)
      ensures id in old(queue) ==> match error
        case None => queue[id].lastError == None
        case Some(m) => queue[id].lastError == Some(if |m| <= 500 then m else m[..500])
    {
      if id in queue {
        var d := queue[id];
        if d.attemptCount >= d.maxAttempts {
          d := d.(status := Abandoned);
        } else {
          d := d.(status := Failed);
          d := d.(nextAttemptAt := clock + retryDelaySeconds * SECOND);
        }
        d := d.(lastResponseCode := responseCode);
        d := d.(lastError := match error case None => None case Some(m) => Some(Left(m, MAX_ERROR_LENGTH)));
        queue := queue[id := d];
      }
    }
  }

  lemma ListingInColumns(queue: map<nat, Delivery>, s: set<nat>, order: seq<nat>)
    requires s <= queue.Keys && SortedListing(queue, s, order)
    ensures forall i, j :: 0 <= i < j < |order| ==>
      && order[i] != order[j] && order[i] in queue && order[j] in queue
      && InColumnOrder(queue[order[i]], queue[order[j]])
  {
    forall i, j | 0 <= i < j < |order|
      ensures order[i] != order[j] && order[i] in queue && order[j] in queue && InColumnOrder(queue[order[i]], queue[order[j]])
    {
      assert order[i] in Elements(order) && order[j] in Elements(order);
      assert !Before(queue[order[j]], queue[order[i]]);
    }
  }

  lemma ValuesOfUpdate(m: map<nat, nat>, k: nat, v: nat)
    requires k !in m
    ensures m[k := v].Values == m.Values + {v}
  {
    var n := m[k := v];
    assert n[k] == v;
    forall x | x in m.Values ensures x in n.Values {
      var j :| j in m && m[j] == x;
      assert n[j] == x;
    }
  }

  lemma OneMoreId(db: Db, done: set<nat>, inserted: map<nat, nat>, id: nat, w: nat)
    requires FreshFor(db, done, inserted) && id !in db.queue && id !in inserted && w !in done
    ensures FreshFor(db, done + {w}, inserted[id := w])
  {
    ValuesOfUpdate(inserted, id, w);
    assert forall i :: i in inserted ==> inserted[i] in inserted.Values;
  }

  lemma OneMoreRow(db: Db, inserted: map<nat, nat>, id: nat, w: nat, tenantId: nat, event: string, eventId: nat, maxAttempts: nat)
    ensures Enqueue(db, tenantId, event, eventId, maxAttempts, inserted[id := w]).queue
         == Enqueue(db, tenantId, event, eventId, maxAttempts, inserted).queue[
              id := NewDelivery(w, tenantId, event, eventId, maxAttempts, db.now)]
  {
    var d := NewDelivery(w, tenantId, event, eventId, maxAttempts, db.now);
    var rows := NewRows(tenantId, event, eventId, maxAttempts, inserted, db.now);
    var more := NewRows(tenantId, event, eventId, maxAttempts, inserted[id := w], db.now);
    assert more == rows[id := d];
    AddThenUpdate(db.queue, rows, id, d);
  }

  lemma AddThenUpdate(a: map<nat, Delivery>, b: map<nat, Delivery>, k: nat, v: Delivery)
    ensures a + b[k := v] == (a + b)[k := v]
  {
  }

  /** What a scan has taken when it stands at position i. */
  function Scanned(order: seq<nat>, i: nat, candidates: set<nat>): set<nat>
    requires i <= |order|
  {
    set id | id in order[..i] && id in candidates
  }

  lemma NothingScanned(order: seq<nat>, candidates: set<nat>)
    ensures Scanned(order, 0, candidates) == {}
  {
  }

  lemma ListedAreCandidates(queue: map<nat, Delivery>, candidates: set<nat>, order: seq<nat>)
    requires candidates <= queue.Keys && SortedListing(queue, candidates, order)
    ensures forall i :: 0 <= i < |order| ==> order[i] in candidates
  {
    assert forall i :: 0 <= i < |order| ==> order[i] in Elements(order);
  }

  lemma ScannedStep(order: seq<nat>, i: nat, candidates: set<nat>)
    requires i < |order|
    ensures Scanned(order, i + 1, candidates) == Scanned(order, i, candidates) + if order[i] in candidates then {order[i]} else {}
  {
    assert order[..i + 1] == order[..i] + [order[i]];
  }

  /** A scan of the sorted due rows that stopped at `i` has taken a claim batch of the unlocked ones. */
  lemma ScanIsClaimBatch(queue: map<nat, Delivery>, due: set<nat>, candidates: set<nat>, order: seq<nat>, i: nat, limit: nat, batch: set<nat>)
    requires candidates <= due <= queue.Keys && SortedListing(queue, due, order) && i <= |order|
    requires batch == Scanned(order, i, candidates)
    requires |batch| <= limit && (i < |order| ==> |batch| == limit)
    ensures IsClaimBatch(queue, candidates, limit, batch)
  {
    forall left, taken | left in candidates && left !in batch && taken in batch
      ensures !Before(queue[left], queue[taken])
    {
      assert left in Elements(order);
      var k :| 0 <= k < |order| && order[k] == left;
      var j :| 0 <= j < i && order[j] == taken;
      assert forall x :: 0 <= x < i ==> order[x] in order[..i];
    }
    if i == |order| {
      assert order[..i] == order;
      assert forall id :: id in candidates ==> id in Elements(order);
      assert batch == candidates;
    }
    SubsetSize(batch, candidates);
  }
}
