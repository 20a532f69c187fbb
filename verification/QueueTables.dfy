/**
  The two tables of the webhook delivery queue and the meaning of each SQL statement that changes them.
  Every statement is a function from the database before it to the database after it.
  Timestamps are microseconds, as in a `timestamptz` column; `Db.now` is the database clock.
*/
module QueueTables {
  import opened Options

  const SECOND: nat := 1_000_000
  const FAILURE_THRESHOLD: nat := 5
  const MAX_ERROR_LENGTH: nat := 500

  datatype Status = Pending | Processing | Delivered | Failed | Abandoned

  /** A row of webhook_delivery_queue. */
  datatype Delivery = Delivery(
    webhookId: nat,
    tenantId: nat,
    event: string,
    eventId: nat,
    status: Status,
    attemptCount: nat,
    maxAttempts: nat,
    nextAttemptAt: nat,
    claimedAt: Option<nat>,
    deliveredAt: Option<nat>,
    lastResponseCode: Option<nat>,
    lastError: Option<string>,
    dismissedAt: Option<nat>,
    createdAt: nat)

  /** A row of automation_webhooks. */
  datatype Webhook = Webhook(
    tenantId: nat,
    events: set<string>,
    failureCount: nat,
    disabledAt: Option<nat>,
    revokedAt: Option<nat>)

  datatype Db = Db(queue: map<nat, Delivery>, webhooks: map<nat, Webhook>, now: nat)

  predicate Active(hook: Webhook) {
    hook.revokedAt.None? && hook.disabledAt.None?
  }

  function Left(s: string, n: nat): string {
    if |s| <= n then s else s[..n]
  }

  // ---- automation_webhooks ----

  function InsertWebhook(db: Db, id: nat, tenantId: nat, events: set<string>): Db
    requires id !in db.webhooks
  {
    db.(webhooks := db.webhooks[id := Webhook(tenantId, events, 0, None, None)])
  }

  predicate Revokes(db: Db, id: nat, tenantId: nat) {
    id in db.webhooks && db.webhooks[id].tenantId == tenantId && db.webhooks[id].revokedAt.None?
  }

  function RevokeWebhook(db: Db, id: nat, tenantId: nat): Db {
    if Revokes(db, id, tenantId) then
      db.(webhooks := db.webhooks[id := db.webhooks[id].(revokedAt := Some(db.now))])
    else db
  }

  /** The WHERE clause of recordDeliveryFailure. */
  predicate RecordsFailure(db: Db, id: nat) {
    id in db.webhooks && Active(db.webhooks[id])
  }

  function RecordFailure(db: Db, id: nat): Db {
    if RecordsFailure(db, id) then
      var hook := db.webhooks[id];
      db.(webhooks := db.webhooks[id := hook.(
        failureCount := hook.failureCount + 1,
        disabledAt := if hook.failureCount + 1 >= FAILURE_THRESHOLD then Some(db.now) else hook.disabledAt)])
    else db
  }

  /** The UPDATE of resetDeliveryFailure has no test besides the id: it also hits disabled webhooks. */
  function ResetFailure(db: Db, id: nat): Db {
    if id in db.webhooks then
      db.(webhooks := db.webhooks[id := db.webhooks[id].(failureCount := 0)])
    else db
  }

  // ---- webhook_delivery_queue ----

  /** A row that the partial unique index (webhook_id, event_id) WHERE dismissed_at IS NULL holds. */
  predicate Indexed(d: Delivery, webhookId: nat, eventId: nat) {
    d.webhookId == webhookId && d.eventId == eventId && d.dismissedAt.None?
  }

  predicate Conflicts(db: Db, webhookId: nat, eventId: nat) {
    exists id :: id in db.queue && Indexed(db.queue[id], webhookId, eventId)
  }

  predicate Subscribed(db: Db, webhookId: nat, tenantId: nat, event: string) {
    && webhookId in db.webhooks
    && db.webhooks[webhookId].tenantId == tenantId
    && Active(db.webhooks[webhookId])
    && event in db.webhooks[webhookId].events
  }

  /** The webhooks for which INSERT ... SELECT ... ON CONFLICT DO NOTHING inserts a row. */
  function EnqueueTargets(db: Db, tenantId: nat, event: string, eventId: nat): set<nat> {
    set w | w in db.webhooks && Subscribed(db, w, tenantId, event) && !Conflicts(db, w, eventId)
  }

  function NewDelivery(webhookId: nat, tenantId: nat, event: string, eventId: nat, maxAttempts: nat, now: nat): Delivery {
    Delivery(webhookId, tenantId, event, eventId, Pending, 0, maxAttempts, now, None, None, None, None, None, now)
  }

  /** `newIds` maps each generated row id to its webhook: one unused id for every target. */
  ghost predicate FreshFor(db: Db, targets: set<nat>, newIds: map<nat, nat>) {
    && newIds.Keys !! db.queue.Keys
    && newIds.Values == targets
    && forall i, j :: i in newIds && j in newIds && newIds[i] == newIds[j] ==> i == j
  }

  function NewRows(tenantId: nat, event: string, eventId: nat, maxAttempts: nat, newIds: map<nat, nat>, now: nat): map<nat, Delivery> {
    map id | id in newIds :: NewDelivery(newIds[id], tenantId, event, eventId, maxAttempts, now)
  }

  function Enqueue(db: Db, tenantId: nat, event: string, eventId: nat, maxAttempts: nat, newIds: map<nat, nat>): Db {
    db.(queue := db.queue + NewRows(tenantId, event, eventId, maxAttempts, newIds, db.now))
  }

  predicate RetriesRow(db: Db, id: nat, tenantId: nat) {
    && id in db.queue
    && db.queue[id].tenantId == tenantId
    && db.queue[id].status == Abandoned
    && db.queue[id].dismissedAt.None?
  }

  function Retry(db: Db, id: nat, tenantId: nat): Db {
    if RetriesRow(db, id, tenantId) then
      db.(queue := db.queue[id := db.queue[id].(status := Pending, attemptCount := 0, nextAttemptAt := db.now, lastError := None)])
    else db
  }

  function Dismiss(db: Db, id: nat, tenantId: nat): Db {
    if RetriesRow(db, id, tenantId) then
      db.(queue := db.queue[id := db.queue[id].(dismissedAt := Some(db.now))])
    else db
  }

  /** The WHERE clause of the `due` subquery of claimDueWebhookDeliveries. */
  predicate Due(db: Db, id: nat) {
    && id in db.queue
    && db.queue[id].status in {Pending, Failed}
    && db.queue[id].nextAttemptAt <= db.now
    && db.queue[id].attemptCount < db.queue[id].maxAttempts
    && db.queue[id].webhookId in db.webhooks
    && Active(db.webhooks[db.queue[id].webhookId])
  }

  function ClaimedRow(d: Delivery, at: nat): Delivery {
    d.(status := Processing, attemptCount := d.attemptCount + 1, claimedAt := Some(at))
  }

  /** `at` is the NOW() of the claiming transaction, that is, the time at which it started. */
  function Claim(db: Db, batch: set<nat>, at: nat): Db {
    db.(queue := map id | id in db.queue :: if id in batch then ClaimedRow(db.queue[id], at) else db.queue[id])
  }

  function MarkDelivered(db: Db, id: nat, responseCode: Option<nat>): Db {
    if id in db.queue then
      db.(queue := db.queue[id := db.queue[id].(
        status := Delivered, deliveredAt := Some(db.now), lastResponseCode := responseCode, lastError := None)])
    else db
  }

  function MarkFailed(db: Db, id: nat, responseCode: Option<nat>, error: Option<string>, delaySeconds: nat): Db {
    if id in db.queue then
      var d := db.queue[id];
      var exhausted := d.attemptCount >= d.maxAttempts;
      db.(queue := db.queue[id := d.(
        status := if exhausted then Abandoned else Failed,
        nextAttemptAt := if exhausted then d.nextAttemptAt else db.now + delaySeconds * SECOND,
        lastResponseCode := responseCode,
        lastError := if error.Some? then Some(Left(error.value, MAX_ERROR_LENGTH)) else None)])
    else db
  }
}
