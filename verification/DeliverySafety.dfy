/**
  Safety of every interleaving: what each step keeps, and what follows for every reachable state.
*/
module DeliverySafety {
  import opened Options
  import opened QueueTables
  import opened ClaimOrder
  import opened DeliveryProtocol

  // ---- the invariant ----

  /** Each status fixes the other columns of its row. */
  predicate RowOk(d: Delivery) {
    && 1 <= d.maxAttempts
    && (match d.status
        case Pending => d.attemptCount == 0
        case Failed => 1 <= d.attemptCount < d.maxAttempts
        case Processing => 1 <= d.attemptCount <= d.maxAttempts
        case Delivered => 1 <= d.attemptCount <= d.maxAttempts
        case Abandoned => d.attemptCount == d.maxAttempts)
    && (d.deliveredAt.Some? <==> d.status == Delivered)
    && (d.dismissedAt.Some? ==> d.status == Abandoned)
    && (d.claimedAt.None? ==> d.status == Pending)
    && ErrorOk(d)
  }

  /** The last error is gone after a success or a manual retry, there after a failure, and cut to its column. */
  predicate ErrorOk(d: Delivery) {
    && (d.status == Pending || d.status == Delivered ==> d.lastError.None?)
    && (d.status == Failed || d.status == Abandoned ==> d.lastError.Some?)
    && (d.lastError.Some? ==> |d.lastError.value| <= MAX_ERROR_LENGTH)
    && (d.status == Delivered ==> d.lastResponseCode.Some?)
  }

  ghost predicate TablesOk(db: Db) {
    forall id :: id in db.queue ==>
      && RowOk(db.queue[id])
      && db.queue[id].webhookId in db.webhooks
      && db.queue[id].tenantId == db.webhooks[db.queue[id].webhookId].tenantId
  }

  /** A run works on a row that is still processing, with the attempt number the run was told. */
  predicate AttemptOk(db: Db, a: Attempt) {
    && a.id in db.queue
    && db.queue[a.id].status == Processing
    && db.queue[a.id].webhookId == a.webhookId
    && db.queue[a.id].attemptCount == a.attemptCount
  }

  /** A locked row still passes the test under which it was selected. */
  predicate Claimable(db: Db, id: nat, at: nat) {
    && id in db.queue
    && db.queue[id].status in {Pending, Failed}
    && db.queue[id].nextAttemptAt <= at
    && db.queue[id].attemptCount < db.queue[id].maxAttempts
    && db.queue[id].webhookId in db.webhooks
    && Active(db.webhooks[db.queue[id].webhookId])
  }

  ghost predicate RunOk(db: Db, run: Run) {
    match run
    case Locked(batch, startedAt) =>
      startedAt <= db.now && forall id :: id in batch ==> Claimable(db, id, startedAt)
    case Delivering(todo, _) =>
      todo != [] && forall i :: 0 <= i < |todo| ==> AttemptOk(db, todo[i])
  }

  ghost predicate RunsOk(w: World) {
    forall r :: r in w.runs ==> RunOk(w.db, w.runs[r])
  }

  predicate Holds(w: World, r: nat, i: int) {
    0 <= i && r in w.runs && w.runs[r].Delivering? && i < |w.runs[r].todo|
  }

  ghost predicate HoldersExclusive(w: World) {
    forall r, i, s, j :: Holds(w, r, i) && Holds(w, s, j) && w.runs[r].todo[i].id == w.runs[s].todo[j].id ==> r == s && i == j
  }

  ghost predicate LocksExclusive(w: World) {
    forall r, s, id :: Claiming(w, r) && Claiming(w, s) && id in w.runs[r].batch && id in w.runs[s].batch ==> r == s
  }

  /** Two entries of the partial unique index with the same key. */
  predicate SameKey(a: Delivery, b: Delivery) {
    && a.webhookId == b.webhookId && a.eventId == b.eventId
    && a.dismissedAt.None? && b.dismissedAt.None?
  }

  /** The partial unique index on (webhook_id, event_id). */
  ghost predicate Deduplicated(db: Db) {
    forall i, j :: i in db.queue && j in db.queue && SameKey(db.queue[i], db.queue[j]) ==> i == j
  }

  ghost predicate Inv(w: World) {
    && TablesOk(w.db)
    && RunsOk(w)
    && HoldersExclusive(w)
    && LocksExclusive(w)
    && Deduplicated(w.db)
  }

  // ---- what the statements keep ----

  lemma InsertedRow(db: Db, tenantId: nat, event: string, eventId: nat, newIds: map<nat, nat>, id: nat)
    requires FreshFor(db, EnqueueTargets(db, tenantId, event, eventId), newIds) && id in newIds
    ensures id !in db.queue && Subscribed(db, newIds[id], tenantId, event) && !Conflicts(db, newIds[id], eventId)
  {
    assert newIds[id] in newIds.Values;
  }

  lemma EnqueueKeepsTables(db: Db, tenantId: nat, event: string, eventId: nat, maxAttempts: nat, newIds: map<nat, nat>)
    requires TablesOk(db) && maxAttempts >= 1
    requires FreshFor(db, EnqueueTargets(db, tenantId, event, eventId), newIds)
    ensures TablesOk(Enqueue(db, tenantId, event, eventId, maxAttempts, newIds))
  {
    hide FreshFor, EnqueueTargets, Conflicts;
    var db' := Enqueue(db, tenantId, event, eventId, maxAttempts, newIds);
    forall id | id in db'.queue
      ensures RowOk(db'.queue[id]) && db'.queue[id].webhookId in db'.webhooks
      ensures db'.queue[id].tenantId == db'.webhooks[db'.queue[id].webhookId].tenantId
    {
      if id in newIds {
        InsertedRow(db, tenantId, event, eventId, newIds, id);
      } else {
        assert db'.queue[id] == db.queue[id];
      }
    }
  }

  lemma EnqueueKeepsDeduplicated(db: Db, tenantId: nat, event: string, eventId: nat, maxAttempts: nat, newIds: map<nat, nat>)
    requires Deduplicated(db) && FreshFor(db, EnqueueTargets(db, tenantId, event, eventId), newIds)
    ensures Deduplicated(Enqueue(db, tenantId, event, eventId, maxAttempts, newIds))
  {
    hide EnqueueTargets, Subscribed;
    var db' := Enqueue(db, tenantId, event, eventId, maxAttempts, newIds);
    forall i, j | i in db'.queue && j in db'.queue && SameKey(db'.queue[i], db'.queue[j])
      ensures i == j
    {
      if i in newIds {
        assert j !in newIds ==> Indexed(db'.queue[j], newIds[i], eventId);
        InsertedRow(db, tenantId, event, eventId, newIds, i);
      } else if j in newIds {
        assert Indexed(db'.queue[i], newIds[j], eventId);
        InsertedRow(db, tenantId, event, eventId, newIds, j);
      }
    }
  }

  lemma RowWriteKeepsTables(db: Db, id: nat, d: Delivery)
    requires TablesOk(db) && Deduplicated(db) && id in db.queue && RowOk(d)
    requires d.webhookId == db.queue[id].webhookId && d.tenantId == db.queue[id].tenantId && d.eventId == db.queue[id].eventId
    requires d.dismissedAt.None? ==> db.queue[id].dismissedAt.None?
    ensures TablesOk(db.(queue := db.queue[id := d])) && Deduplicated(db.(queue := db.queue[id := d]))
  {
  }

  lemma ClaimKeepsTables(db: Db, batch: set<nat>, at: nat, startedAt: nat)
    requires TablesOk(db) && Deduplicated(db)
    requires forall id :: id in batch ==> Claimable(db, id, startedAt)
    ensures TablesOk(Claim(db, batch, at)) && Deduplicated(Claim(db, batch, at))
  {
    var db' := Claim(db, batch, at);
    forall id | id in db'.queue
      ensures RowOk(db'.queue[id]) && db'.queue[id].webhookId == db.queue[id].webhookId && db'.queue[id].tenantId == db.queue[id].tenantId
    {
      assert RowOk(db.queue[id]);
    }
  }

  lemma MarkKeepsTables(db: Db, a: Attempt, o: Outcome)
    requires TablesOk(db) && Deduplicated(db) && AttemptOk(db, a)
    ensures TablesOk(MarkStatement(db, a, o)) && Deduplicated(MarkStatement(db, a, o))
  {
    assert RowOk(db.queue[a.id]);
    RowWriteKeepsTables(db, a.id, MarkStatement(db, a, o).queue[a.id]);
  }

  // ---- what keeps a run ----

  predicate Mentions(run: Run, id: nat) {
    match run
    case Locked(batch, _) => id in batch
    case Delivering(todo, _) => exists i :: 0 <= i < |todo| && todo[i].id == id
  }

  lemma RowWriteKeepsRun(db: Db, run: Run, id: nat, d: Delivery)
    requires RunOk(db, run) && !Mentions(run, id)
    ensures RunOk(db.(queue := db.queue[id := d]), run)
  {
  }

  lemma WebhookWriteKeepsRun(db: Db, run: Run, hookId: nat, hook: Webhook)
    requires RunOk(db, run)
    requires Active(hook) || (run.Locked? ==> forall id :: id in run.batch ==> db.queue[id].webhookId != hookId)
    ensures RunOk(db.(webhooks := db.webhooks[hookId := hook]), run)
  {
  }

  // ---- what every step keeps ----

  lemma TickKeeps(w: World, elapsed: nat)
    requires Inv(w)
    ensures Inv(Apply(w, Tick(elapsed)))
  {
    var w' := Apply(w, Tick(elapsed));
    forall r | r in w'.runs ensures RunOk(w'.db, w'.runs[r]) {
      assert RunOk(w.db, w.runs[r]);
    }
  }

  lemma WebhookWriteKeeps(w: World, w': World, hookId: nat, hook: Webhook)
    requires Inv(w) && w' == w.(db := w.db.(webhooks := w.db.webhooks[hookId := hook]))
    requires hookId in w.db.webhooks ==> hook.tenantId == w.db.webhooks[hookId].tenantId
    requires hookId !in LockedWebhooks(w) || Active(hook)
    ensures Inv(w')
  {
    forall r | r in w'.runs ensures RunOk(w'.db, w'.runs[r]) {
      assert RunOk(w.db, w.runs[r]);
      WebhookWriteKeepsRun(w.db, w.runs[r], hookId, hook);
    }
  }

  lemma EnqueueStepKeeps(w: World, step: Step)
    requires Inv(w) && Enabled(w, step) && step.StepEnqueue?
    ensures Inv(Apply(w, step))
  {
    hide EnqueueTargets, FreshFor, Enqueue, TablesOk, RunsOk, HoldersExclusive, LocksExclusive, Deduplicated;
    EnqueueKeepsTables(w.db, step.tenantId, step.event, step.eventId, step.maxAttempts, step.newIds);
    EnqueueKeepsDeduplicated(w.db, step.tenantId, step.event, step.eventId, step.maxAttempts, step.newIds);
    RowsRemainInserted(w.db, step.tenantId, step.event, step.eventId, step.maxAttempts, step.newIds);
    MoreRowsKeepRuns(w, Apply(w, step));
  }

  lemma MoreRowsKeepRuns(w: World, w': World)
    requires Inv(w) && w'.runs == w.runs && w'.db.webhooks == w.db.webhooks && w'.db.now == w.db.now
    requires forall id :: id in w.db.queue ==> id in w'.db.queue && w'.db.queue[id] == w.db.queue[id]
    ensures RunsOk(w') && HoldersExclusive(w') && LocksExclusive(w')
  {
    forall r | r in w'.runs
      ensures RunOk(w'.db, w'.runs[r])
    {
      assert RunOk(w.db, w.runs[r]);
    }
  }

  lemma RowsRemainInserted(db: Db, tenantId: nat, event: string, eventId: nat, maxAttempts: nat, newIds: map<nat, nat>)
    requires FreshFor(db, EnqueueTargets(db, tenantId, event, eventId), newIds)
    ensures var db' := Enqueue(db, tenantId, event, eventId, maxAttempts, newIds);
      && db'.webhooks == db.webhooks && db'.now == db.now
      && forall id :: id in db.queue ==> id in db'.queue && db'.queue[id] == db.queue[id]
  {
    hide EnqueueTargets;
  }

  /** Retry and dismiss write an abandoned row, which no run holds. */
  lemma RowWriteKeeps(w: World, w': World, id: nat, d: Delivery)
    requires Inv(w) && id in w.db.queue && w.db.queue[id].status == Abandoned && id !in LockedRows(w)
    requires w'.db == w.db.(queue := w.db.queue[id := d]) && w'.runs == w.runs
    requires RowOk(d) && d.webhookId == w.db.queue[id].webhookId && d.tenantId == w.db.queue[id].tenantId
    requires d.eventId == w.db.queue[id].eventId && (d.dismissedAt.None? ==> w.db.queue[id].dismissedAt.None?)
    ensures Inv(w')
  {
    RowWriteKeepsTables(w.db, id, d);
    forall r | r in w'.runs ensures RunOk(w'.db, w'.runs[r]) {
      assert RunOk(w.db, w.runs[r]);
      RowWriteKeepsRun(w.db, w.runs[r], id, d);
    }
  }

  lemma RetryAndDismissKeep(w: World, id: nat, tenantId: nat)
    requires Inv(w) && id !in LockedRows(w)
    ensures Inv(Apply(w, StepRetry(id, tenantId)))
    ensures Inv(Apply(w, StepDismiss(id, tenantId)))
  {
    if RetriesRow(w.db, id, tenantId) {
      assert RowOk(w.db.queue[id]);
      RowWriteKeeps(w, Apply(w, StepRetry(id, tenantId)), id, Retry(w.db, id, tenantId).queue[id]);
      RowWriteKeeps(w, Apply(w, StepDismiss(id, tenantId)), id, Dismiss(w.db, id, tenantId).queue[id]);
    }
  }

  lemma SelectKeeps(w: World, r: nat, limit: nat, stray: set<nat>, batch: set<nat>)
    requires Inv(w) && Enabled(w, SelectDue(r, limit, stray, batch))
    ensures Inv(Apply(w, SelectDue(r, limit, stray, batch)))
  {
    var w' := Apply(w, SelectDue(r, limit, stray, batch));
    forall s | s in w'.runs
      ensures RunOk(w'.db, w'.runs[s])
    {
      if s != r {
        assert RunOk(w.db, w.runs[s]);
      }
    }
    SelectKeepsExclusive(w, r, limit, stray, batch);
  }

  /** Nobody else has locked what a claim locks. */
  lemma SelectKeepsExclusive(w: World, r: nat, limit: nat, stray: set<nat>, batch: set<nat>)
    requires Inv(w) && Enabled(w, SelectDue(r, limit, stray, batch))
    ensures HoldersExclusive(Apply(w, SelectDue(r, limit, stray, batch))) && LocksExclusive(Apply(w, SelectDue(r, limit, stray, batch)))
  {
    var w' := Apply(w, SelectDue(r, limit, stray, batch));
    hide TablesOk, RunsOk, Deduplicated, Due;
    assert forall s :: Claiming(w', s) && s != r ==> Claiming(w, s);
    assert forall s, i :: Holds(w', s, i) ==> Holds(w, s, i) && w'.runs[s].todo[i] == w.runs[s].todo[i];
  }

  /** A claimed row is held by the claiming run alone: until now no run held it and no other claim locked it. */
  lemma CommitKeeps(w: World, r: nat, order: seq<nat>)
    requires Inv(w) && Enabled(w, CommitClaim(r, order))
    ensures Inv(Apply(w, CommitClaim(r, order)))
  {
    assert RunOk(w.db, w.runs[r]);
    ClaimKeepsTables(w.db, w.runs[r].batch, w.runs[r].startedAt, w.runs[r].startedAt);
    CommitKeepsRuns(w, r, order);
    CommitKeepsHolders(w, r, order);
    hide RunsOk, HoldersExclusive, TablesOk, Deduplicated, RunOk, Claim, Attempts;
    var w' := Apply(w, CommitClaim(r, order));
    assert forall s :: Claiming(w', s) ==> Claiming(w, s) && w'.runs[s] == w.runs[s];
  }

  lemma CommitKeepsRuns(w: World, r: nat, order: seq<nat>)
    requires Inv(w) && Enabled(w, CommitClaim(r, order))
    ensures RunsOk(Apply(w, CommitClaim(r, order)))
  {
    var w' := Apply(w, CommitClaim(r, order));
    assert RunOk(w.db, w.runs[r]);
    assert forall i :: 0 <= i < |order| ==> order[i] in Elements(order);
    forall s | s in w'.runs
      ensures RunOk(w'.db, w'.runs[s])
    {
      if s != r {
        OtherRunKept(w, r, s);
      }
    }
  }

  lemma OtherRunKept(w: World, r: nat, s: nat)
    requires RunsOk(w) && LocksExclusive(w) && Claiming(w, r) && s in w.runs && s != r
    ensures RunOk(Claim(w.db, w.runs[r].batch, w.runs[r].startedAt), w.runs[s])
  {
    var run := w.runs[s];
    assert RunOk(w.db, run) && RunOk(w.db, w.runs[r]);
    if run.Locked? {
      assert forall id :: id in run.batch ==> id !in w.runs[r].batch;
    } else {
      assert forall i :: 0 <= i < |run.todo| ==> AttemptOk(w.db, run.todo[i]) && run.todo[i].id !in w.runs[r].batch;
    }
  }

  lemma CommitKeepsHolders(w: World, r: nat, order: seq<nat>)
    requires Inv(w) && Enabled(w, CommitClaim(r, order))
    ensures HoldersExclusive(Apply(w, CommitClaim(r, order)))
  {
    var w' := Apply(w, CommitClaim(r, order));
    assert RunOk(w.db, w.runs[r]);
    assert forall i :: 0 <= i < |order| ==> order[i] in Elements(order);
    forall s, i | Holds(w', s, i)
      ensures s == r ==> w'.runs[s].todo[i].id in w.runs[r].batch
      ensures s != r ==> Holds(w, s, i) && w'.runs[s].todo[i] == w.runs[s].todo[i] && w'.runs[s].todo[i].id !in w.runs[r].batch
    {
      if s != r {
        assert RunOk(w.db, w.runs[s]);
      }
    }
  }

  lemma RemoveRunKeeps(w: World, r: nat)
    requires Inv(w)
    ensures Inv(w.(runs := w.runs - {r}))
  {
    var w' := w.(runs := w.runs - {r});
    assert forall s :: s in w'.runs ==> RunOk(w.db, w.runs[s]);
    assert forall s, i :: Holds(w', s, i) ==> Holds(w, s, i) && w'.runs[s] == w.runs[s];
    assert forall s :: Claiming(w', s) ==> Claiming(w, s) && w'.runs[s] == w.runs[s];
  }

  /** A run that only moves to its next stage. */
  lemma StageKeeps(w: World, w': World, r: nat, stage: Stage)
    requires Inv(w) && Working(w, r) && w'.db == w.db && w'.runs == w.runs[r := Delivering(w.runs[r].todo, stage)]
    ensures Inv(w')
  {
    forall s | s in w'.runs ensures RunOk(w'.db, w'.runs[s]) {
      assert RunOk(w.db, w.runs[s]);
    }
    assert forall s, i :: Holds(w', s, i) ==> Holds(w, s, i) && w'.runs[s].todo == w.runs[s].todo;
    assert forall s :: Claiming(w', s) ==> Claiming(w, s) && w'.runs[s] == w.runs[s];
  }

  lemma CountKeeps(w: World, r: nat, lost: bool)
    requires Inv(w) && Enabled(w, CountOutcome(r, lost))
    ensures Inv(Apply(w, CountOutcome(r, lost)))
  {
    var run := w.runs[r];
    var hookId := run.todo[0].webhookId;
    assert RunOk(w.db, run) && AttemptOk(w.db, run.todo[0]);
    var w1 := w.(runs := w.runs[r := Delivering(run.todo, Counted(run.stage.outcome))],
                 log := if lost then w.log else w.log + CountEvents(w.db, hookId, run.stage.outcome));
    StageKeeps(w, w1, r, Counted(run.stage.outcome));
    if !lost {
      assert forall s :: Claiming(w1, s) ==> Claiming(w, s) && w1.runs[s] == w.runs[s];
      var db := CountStatement(w.db, hookId, run.stage.outcome);
      if db != w.db {
        assert db.webhooks == w.db.webhooks[hookId := db.webhooks[hookId]];
        WebhookWriteKeeps(w1, Apply(w, CountOutcome(r, lost)), hookId, db.webhooks[hookId]);
      }
    }
  }

  lemma MarkKeeps(w: World, r: nat, lost: bool)
    requires Inv(w) && Enabled(w, Mark(r, lost))
    ensures Inv(Apply(w, Mark(r, lost)))
  {
    var w' := Apply(w, Mark(r, lost));
    var run := w.runs[r];
    var a := run.todo[0];
    assert RunOk(w.db, run) && AttemptOk(w.db, a);
    assert Holds(w, r, 0);
    MarkKeepsTables(w.db, a, run.stage.outcome);
    forall s | s in w'.runs ensures RunOk(w'.db, w'.runs[s]) {
      assert RunOk(w.db, w.runs[s]);
      MarkKeepsRun(w, r, s);
    }
    MarkKeepsExclusive(w, r, lost);
  }

  /** The other rows of the same run and every row of another run differ from the one being marked. */
  lemma MarkKeepsRun(w: World, r: nat, s: nat)
    requires Inv(w) && Working(w, r) && w.runs[r].stage.Counted? && s in w.runs
    ensures s != r ==> RunOk(MarkStatement(w.db, Head(w, r), w.runs[r].stage.outcome), w.runs[s])
    ensures s == r && |w.runs[r].todo| > 1 ==>
      RunOk(MarkStatement(w.db, Head(w, r), w.runs[r].stage.outcome), Delivering(w.runs[r].todo[1..], Ready))
  {
    var a := Head(w, r);
    var db' := MarkStatement(w.db, a, w.runs[r].stage.outcome);
    assert RunOk(w.db, w.runs[r]) && AttemptOk(w.db, a) && RunOk(w.db, w.runs[s]);
    assert Holds(w, r, 0);
    if s == r && |w.runs[r].todo| > 1 {
      var rest := Delivering(w.runs[r].todo[1..], Ready);
      forall i | 0 <= i < |rest.todo| ensures rest.todo[i].id != a.id && AttemptOk(w.db, rest.todo[i]) {
        assert Holds(w, r, i + 1);
      }
      RowWriteKeepsRun(w.db, rest, a.id, db'.queue[a.id]);
    } else if s != r {
      if w.runs[s].Delivering? {
        assert forall i :: 0 <= i < |w.runs[s].todo| ==> Holds(w, s, i);
      }
      RowWriteKeepsRun(w.db, w.runs[s], a.id, db'.queue[a.id]);
    }
  }

  lemma MarkKeepsExclusive(w: World, r: nat, lost: bool)
    requires Inv(w) && Working(w, r) && w.runs[r].stage.Counted?
    ensures HoldersExclusive(Apply(w, Mark(r, lost))) && LocksExclusive(Apply(w, Mark(r, lost)))
  {
    var w' := Apply(w, Mark(r, lost));
    forall s, i | Holds(w', s, i)
      ensures Holds(w, s, if s == r then i + 1 else i)
      ensures w'.runs[s].todo[i] == w.runs[s].todo[if s == r then i + 1 else i]
    {
    }
    assert forall s :: Claiming(w', s) ==> Claiming(w, s) && w'.runs[s] == w.runs[s];
  }

  lemma InvKept(w: World, step: Step)
    requires Inv(w) && Enabled(w, step)
    ensures Inv(Apply(w, step))
  {
    match step
    case Tick(elapsed) => TickKeeps(w, elapsed);
    case StepCreateWebhook(id, tenantId, events) =>
      WebhookWriteKeeps(w, Apply(w, step), id, Webhook(tenantId, events, 0, None, None));
    case StepRevokeWebhook(id, tenantId) =>
      if Revokes(w.db, id, tenantId) {
        WebhookWriteKeeps(w, Apply(w, step), id, w.db.webhooks[id].(revokedAt := Some(w.db.now)));
      }
    case StepEnqueue(_, _, _, _, _) => EnqueueStepKeeps(w, step);
    case StepRetry(id, tenantId) => RetryAndDismissKeep(w, id, tenantId);
    case StepDismiss(id, tenantId) => RetryAndDismissKeep(w, id, tenantId);
    case SelectDue(r, limit, stray, batch) => SelectKeeps(w, r, limit, stray, batch);
    case CommitClaim(r, order) => CommitKeeps(w, r, order);
    case AbortClaim(r) => RemoveRunKeeps(w, r);
    case Post(r, o) => StageKeeps(w, Apply(w, step), r, Posted(o));
    case CountOutcome(r, lost) => CountKeeps(w, r, lost);
    case Mark(r, lost) => MarkKeeps(w, r, lost);
    case Crash(r) => RemoveRunKeeps(w, r);
  }

  lemma InitIsSafe(w: World)
    requires Init(w)
    ensures Inv(w)
  {
  }

  /** Every reachable state is safe. */
  lemma {:induction false} Reachable(states: seq<World>, steps: seq<Step>, k: nat)
    requires Started(states, steps) && k <= |steps|
    ensures Inv(states[k])
  {
    hide Inv, Enabled, Apply;
    if k == 0 {
      InitIsSafe(states[0]);
    } else {
      LastStep(states, steps, k);
      Reachable(states, steps, k - 1);
      InvKept(states[k - 1], steps[k - 1]);
    }
  }
}
