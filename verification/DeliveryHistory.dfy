/**
  What single steps may do to one row, and what that means for whole executions:
  finality, de-duplication over time, and the conservation law between claims, attempts and manual retries.
*/
module DeliveryHistory {
  import opened Options
  import opened QueueTables
  import opened ClaimOrder
  import opened DeliveryProtocol
  import opened DeliverySafety

  // ---- one step, one row ----

  predicate ClaimsRow(w: World, step: Step, id: nat) {
    step.CommitClaim? && Claiming(w, step.run) && id in w.runs[step.run].batch
  }

  predicate MarksRow(w: World, step: Step, id: nat) {
    step.Mark? && !step.lost && Working(w, step.run) && w.runs[step.run].stage.Counted? && Head(w, step.run).id == id
  }

  predicate RetriesRowNow(w: World, step: Step, id: nat) {
    step.StepRetry? && step.id == id && RetriesRow(w.db, id, step.tenantId)
  }

  predicate DismissesRow(w: World, step: Step, id: nat) {
    step.StepDismiss? && step.id == id && RetriesRow(w.db, id, step.tenantId)
  }

  /** The next value of an existing row. */
  function NextRow(w: World, step: Step, id: nat): Delivery
    requires id in w.db.queue
  {
    if ClaimsRow(w, step, id) then ClaimedRow(w.db.queue[id], w.runs[step.run].startedAt)
    else if MarksRow(w, step, id) then MarkStatement(w.db, Head(w, step.run), w.runs[step.run].stage.outcome).queue[id]
    else if RetriesRowNow(w, step, id) then Retry(w.db, id, step.tenantId).queue[id]
    else if DismissesRow(w, step, id) then Dismiss(w.db, id, step.tenantId).queue[id]
    else w.db.queue[id]
  }

  predicate TouchesRows(step: Step) {
    step.StepEnqueue? || step.StepRetry? || step.StepDismiss? || step.CommitClaim? || step.Mark?
  }

  lemma RowStep(w: World, step: Step, id: nat)
    requires Inv(w) && Enabled(w, step) && id in w.db.queue
    ensures id in Apply(w, step).db.queue && Apply(w, step).db.queue[id] == NextRow(w, step, id)
  {
    hide Inv, Enabled, Apply, NextRow;
    if !TouchesRows(step) {
      QueueUntouched(w, step, id);
    } else if step.StepEnqueue? {
      EnqueueRowStep(w, step, id);
    } else if step.CommitClaim? {
      CommitRowStep(w, step, id);
    } else if step.Mark? {
      MarkRowStep(w, step.run, step.lost, id);
    } else {
      ManualRowStep(w, step, id);
    }
  }

  lemma NowGrows(w: World, step: Step)
    requires Enabled(w, step)
    ensures w.db.now <= Apply(w, step).db.now
  {
  }

  lemma QueueUntouched(w: World, step: Step, id: nat)
    requires Enabled(w, step) && !TouchesRows(step) && id in w.db.queue
    ensures Apply(w, step).db.queue == w.db.queue && NextRow(w, step, id) == w.db.queue[id]
  {
  }

  lemma EnqueueRowStep(w: World, step: Step, id: nat)
    requires step.StepEnqueue? && Enabled(w, step) && id in w.db.queue
    ensures id in Apply(w, step).db.queue && Apply(w, step).db.queue[id] == NextRow(w, step, id) == w.db.queue[id]
  {
    assert id !in step.newIds;
    hide FreshFor, EnqueueTargets;
  }

  lemma ManualRowStep(w: World, step: Step, id: nat)
    requires (step.StepRetry? || step.StepDismiss?) && Enabled(w, step) && id in w.db.queue
    ensures id in Apply(w, step).db.queue && Apply(w, step).db.queue[id] == NextRow(w, step, id)
  {
  }

  lemma CommitRowStep(w: World, step: Step, id: nat)
    requires step.CommitClaim? && Enabled(w, step) && id in w.db.queue
    ensures id in Apply(w, step).db.queue && Apply(w, step).db.queue[id] == NextRow(w, step, id)
  {
    hide Elements, Distinct, Attempts, SetRun;
  }

  lemma MarkRowStep(w: World, r: nat, lost: bool, id: nat)
    requires Inv(w) && Enabled(w, Mark(r, lost)) && id in w.db.queue
    ensures var db := Apply(w, Mark(r, lost)).db;
      id in db.queue && db.queue[id] == NextRow(w, Mark(r, lost), id)
  {
    assert RunOk(w.db, w.runs[r]);
  }

  /** The only ways in which a row moves: claimed when pending or failed, marked when processing, retried or dismissed when abandoned. */
  lemma ChangesByStatus(w: World, step: Step, id: nat)
    requires Inv(w) && Enabled(w, step) && id in w.db.queue
    ensures ClaimsRow(w, step, id) ==> Claimable(w.db, id, w.runs[step.run].startedAt) && w.runs[step.run].startedAt <= w.db.now
    ensures MarksRow(w, step, id) ==> AttemptOk(w.db, Head(w, step.run))
    ensures RetriesRowNow(w, step, id) || DismissesRow(w, step, id) ==> w.db.queue[id].status == Abandoned
  {
    if ClaimsRow(w, step, id) || MarksRow(w, step, id) {
      assert RunOk(w.db, w.runs[step.run]);
    }
  }

  /** Rows appear only by an insert, under a key that no undismissed row has. */
  lemma NewRow(w: World, step: Step, id: nat)
    requires Inv(w) && Enabled(w, step) && id !in w.db.queue && id in Apply(w, step).db.queue
    ensures step.StepEnqueue?
    ensures var d := Apply(w, step).db.queue[id];
      && d == Delivery(
           webhookId := d.webhookId, tenantId := step.tenantId, event := step.event, eventId := step.eventId, status := Pending,
           attemptCount := 0, maxAttempts := step.maxAttempts, nextAttemptAt := w.db.now, claimedAt := None, deliveredAt := None,
           lastResponseCode := None, lastError := None, dismissedAt := None, createdAt := w.db.now)
      && d.webhookId in w.db.webhooks && w.db.webhooks[d.webhookId].tenantId == step.tenantId
      && step.event in w.db.webhooks[d.webhookId].events
      && w.db.webhooks[d.webhookId].revokedAt.None? && w.db.webhooks[d.webhookId].disabledAt.None?
      && forall x :: x in w.db.queue && w.db.queue[x].webhookId == d.webhookId && w.db.queue[x].eventId == step.eventId ==>
           w.db.queue[x].dismissedAt.Some?
  {
    if step.StepEnqueue? {
      var h := step.newIds[id];
      assert h in step.newIds.Values;
      assert forall x :: x in w.db.queue ==> !Indexed(w.db.queue[x], h, step.eventId);
    } else {
      OnlyEnqueueAddsRows(w, step);
    }
  }

  lemma OnlyEnqueueAddsRows(w: World, step: Step)
    requires Enabled(w, step) && !step.StepEnqueue?
    ensures Apply(w, step).db.queue.Keys == w.db.queue.Keys
  {
  }

  // ---- finality ----

  predicate Final(d: Delivery) {
    d.status == Delivered || d.dismissedAt.Some?
  }

  lemma FinalKept(w: World, step: Step, id: nat)
    requires Inv(w) && Enabled(w, step) && id in w.db.queue && Final(w.db.queue[id])
    ensures id in Apply(w, step).db.queue && Apply(w, step).db.queue[id] == w.db.queue[id]
  {
    assert RowOk(w.db.queue[id]);
    hide Inv, Apply, Enabled;
    RowStep(w, step, id);
    ChangesByStatus(w, step, id);
  }

  /** A delivered or dismissed row never changes again. */
  lemma {:induction false} FinalForever(states: seq<World>, steps: seq<Step>, j: nat, k: nat, id: nat)
    requires Started(states, steps) && j <= k <= |steps|
    requires id in states[j].db.queue && Final(states[j].db.queue[id])
    ensures id in states[k].db.queue && states[k].db.queue[id] == states[j].db.queue[id]
  {
    hide Inv, Enabled, Apply, Final;
    if j < k {
      LastStep(states, steps, k);
      FinalForever(states, steps, j, k - 1, id);
      Reachable(states, steps, k - 1);
      FinalKept(states[k - 1], steps[k - 1], id);
    }
  }

  lemma KeyStays(w: World, step: Step, id: nat)
    requires id in w.db.queue
    requires MarksRow(w, step, id) ==> AttemptOk(w.db, Head(w, step.run))
    ensures var d, e := w.db.queue[id], NextRow(w, step, id);
      d.webhookId == e.webhookId && d.tenantId == e.tenantId && d.eventId == e.eventId && d.maxAttempts == e.maxAttempts
  {
  }

  lemma {:induction false} RowsRemain(states: seq<World>, steps: seq<Step>, j: nat, k: nat, id: nat)
    requires Started(states, steps) && j <= k <= |steps| && id in states[j].db.queue
    ensures id in states[k].db.queue
    ensures var d, e := states[j].db.queue[id], states[k].db.queue[id];
      d.webhookId == e.webhookId && d.tenantId == e.tenantId && d.eventId == e.eventId && d.maxAttempts == e.maxAttempts
  {
    hide Inv, Enabled, Apply, NextRow;
    if j < k {
      LastStep(states, steps, k);
      RowsRemain(states, steps, j, k - 1, id);
      Reachable(states, steps, k - 1);
      RowStep(states[k - 1], steps[k - 1], id);
      ChangesByStatus(states[k - 1], steps[k - 1], id);
      KeyStays(states[k - 1], steps[k - 1], id);
    }
  }

  // ---- de-duplication over time ----

  /** All rows ever made for one event on one webhook, dismissed or not. */
  function RowsFor(db: Db, webhookId: nat, eventId: nat): set<nat> {
    set id | id in db.queue && db.queue[id].webhookId == webhookId && db.queue[id].eventId == eventId
  }

  lemma UndismissedBefore(w: World, step: Step, id: nat)
    requires Inv(w) && Enabled(w, step) && id in w.db.queue
    requires id in Apply(w, step).db.queue && Apply(w, step).db.queue[id].dismissedAt.None?
    ensures w.db.queue[id].dismissedAt.None?
  {
    if Final(w.db.queue[id]) {
      FinalKept(w, step, id);
    }
  }

  lemma RowsForStep(w: World, step: Step, id: nat)
    requires Inv(w) && Enabled(w, step) && id in w.db.queue && w.db.queue[id].dismissedAt.None?
    ensures var d := w.db.queue[id];
      RowsFor(Apply(w, step).db, d.webhookId, d.eventId) == RowsFor(w.db, d.webhookId, d.eventId)
  {
    var d := w.db.queue[id];
    var w' := Apply(w, step);
    assert Indexed(d, d.webhookId, d.eventId);
    hide Inv, Enabled, Apply, NextRow;
    forall x
      ensures x in RowsFor(w'.db, d.webhookId, d.eventId) <==> x in RowsFor(w.db, d.webhookId, d.eventId)
    {
      if x in w.db.queue {
        RowStep(w, step, x);
        ChangesByStatus(w, step, x);
        KeyStays(w, step, x);
      } else if x in w'.db.queue {
        NewRow(w, step, x);
      }
    }
  }

  /** While a row stays undismissed, no enqueue adds another one for its event. */
  lemma {:induction false} NoSecondRow(states: seq<World>, steps: seq<Step>, j: nat, k: nat, id: nat)
    requires Started(states, steps) && j <= k <= |steps| && id in states[j].db.queue
    requires id in states[k].db.queue && states[k].db.queue[id].dismissedAt.None?
    ensures var d := states[j].db.queue[id];
      RowsFor(states[k].db, d.webhookId, d.eventId) == RowsFor(states[j].db, d.webhookId, d.eventId)
  {
    hide Inv, Enabled, Apply, RowsFor;
    if j < k {
      LastStep(states, steps, k);
      RowsRemain(states, steps, j, k - 1, id);
      Reachable(states, steps, k - 1);
      UndismissedBefore(states[k - 1], steps[k - 1], id);
      RowsForStep(states[k - 1], steps[k - 1], id);
      NoSecondRow(states, steps, j, k - 1, id);
    }
  }

  // ---- conservation ----

  function Claims(log: seq<Event>, id: nat): nat {
    if log == [] then 0 else
      var e := log[|log| - 1];
      Claims(log[..|log| - 1], id) + if e.Claimed? && id in e.ids then 1 else 0
  }

  function Retries(log: seq<Event>, id: nat): nat {
    if log == [] then 0 else
      Retries(log[..|log| - 1], id) + if log[|log| - 1] == Retried(id) then 1 else 0
  }

  function Posts(log: seq<Event>, id: nat): nat {
    if log == [] then 0 else
      var e := log[|log| - 1];
      Posts(log[..|log| - 1], id) + if e.PostSent? && e.id == id then 1 else 0
  }

  /** Some run holds the row and has not sent its POST yet. */
  ghost predicate AwaitsPost(w: World, id: nat) {
    exists r, i :: Holds(w, r, i) && w.runs[r].todo[i].id == id && (i > 0 || w.runs[r].stage.Ready?)
  }

  ghost predicate ClaimsAccounted(w: World, id: nat) {
    && (id in w.db.queue ==>
          Claims(w.log, id) == w.db.queue[id].attemptCount + w.db.queue[id].maxAttempts * Retries(w.log, id))
    && (id !in w.db.queue ==> Claims(w.log, id) == 0 && Retries(w.log, id) == 0)
  }

  ghost predicate PostsAccounted(w: World, id: nat) {
    Posts(w.log, id) + (if AwaitsPost(w, id) then 1 else 0) <= Claims(w.log, id)
  }

  /** How a step lengthens the log. */
  function NewEvents(w: World, step: Step): seq<Event>
  {
    match step
    case StepRetry(id, tenantId) => if RetriesRow(w.db, id, tenantId) then [Retried(id)] else []
    case CommitClaim(r, _) => if Claiming(w, r) then [Claimed(w.runs[r].batch, w.runs[r].startedAt)] else []
    case Post(r, _) => if Working(w, r) then [PostSent(Head(w, r).id, Head(w, r).webhookId)] else []
    case CountOutcome(r, lost) =>
      if Working(w, r) && w.runs[r].stage.Posted? && !lost then CountEvents(w.db, Head(w, r).webhookId, w.runs[r].stage.outcome)
      else []
    case _ => []
  }

  lemma LogStep(w: World, step: Step)
    requires Enabled(w, step)
    ensures Apply(w, step).log == w.log + NewEvents(w, step)
  {
    assert w.log + [] == w.log;
  }

  lemma CountersOnAppend(log: seq<Event>, e: Event, id: nat)
    ensures Claims(log + [e], id) == Claims(log, id) + if e.Claimed? && id in e.ids then 1 else 0
    ensures Retries(log + [e], id) == Retries(log, id) + if e == Retried(id) then 1 else 0
    ensures Posts(log + [e], id) == Posts(log, id) + if e.PostSent? && e.id == id then 1 else 0
  {
    assert (log + [e])[..|log|] == log;
  }

  lemma CountersStep(w: World, step: Step, id: nat)
    requires Enabled(w, step)
    ensures var log := Apply(w, step).log;
      && Claims(log, id) == Claims(w.log, id) + (if ClaimsRow(w, step, id) then 1 else 0)
      && Retries(log, id) == Retries(w.log, id) + (if RetriesRowNow(w, step, id) then 1 else 0)
      && Posts(log, id) == Posts(w.log, id) + (if step.Post? && Head(w, step.run).id == id then 1 else 0)
  {
    LogStep(w, step);
    var events := NewEvents(w, step);
    if events == [] {
      assert w.log + [] == w.log;
    } else {
      CountersOnAppend(w.log, events[0], id);
      assert events == [events[0]];
    }
  }

  /** Only a claim makes a row await a POST, and the POST itself ends the waiting. */
  lemma AwaitingStep(w: World, step: Step, id: nat)
    requires Inv(w) && Enabled(w, step)
    ensures AwaitsPost(Apply(w, step), id) ==> AwaitsPost(w, id) || ClaimsRow(w, step, id)
    ensures step.Post? && Head(w, step.run).id == id ==> AwaitsPost(w, id) && !AwaitsPost(Apply(w, step), id)
    ensures AwaitsPost(w, id) ==> !ClaimsRow(w, step, id)
  {
    var w' := Apply(w, step);
    if r, i :| Holds(w', r, i) && w'.runs[r].todo[i].id == id && (i > 0 || w'.runs[r].stage.Ready?) && !ClaimsRow(w, step, id) {
      WaitedBefore(w, step, r, i);
    }
    if step.Post? && Head(w, step.run).id == id {
      PostEndsWaiting(w, step.run, step.outcome);
    }
    if AwaitsPost(w, id) {
      WaitingIsNotClaimed(w, step, id);
    }
  }

  /** Where a run that holds a row after a step, other than by claiming it, held it before. */
  lemma HolderBefore(w: World, step: Step, r: nat, i: nat)
    requires Enabled(w, step) && Holds(Apply(w, step), r, i) && !ClaimsRow(w, step, Apply(w, step).runs[r].todo[i].id)
    ensures var j := if step.Mark? && step.run == r then i + 1 else i;
      Holds(w, r, j) && w.runs[r].todo[j] == Apply(w, step).runs[r].todo[i]
  {
    hide LockedRows, LockedWebhooks, CountStatement, MarkStatement;
  }

  lemma WaitedBefore(w: World, step: Step, r: nat, i: nat)
    requires Enabled(w, step) && Holds(Apply(w, step), r, i) && (i > 0 || Apply(w, step).runs[r].stage.Ready?)
    requires !ClaimsRow(w, step, Apply(w, step).runs[r].todo[i].id)
    ensures AwaitsPost(w, Apply(w, step).runs[r].todo[i].id)
  {
    var w' := Apply(w, step);
    if step.Mark? && step.run == r {
      assert Holds(w, r, i + 1);
    } else if !(step.CommitClaim? && step.run == r) {
      assert Holds(w, r, i);
    }
  }

  lemma WaitingIsNotClaimed(w: World, step: Step, id: nat)
    requires Inv(w) && AwaitsPost(w, id)
    ensures !ClaimsRow(w, step, id)
  {
    var r, i :| Holds(w, r, i) && w.runs[r].todo[i].id == id;
    assert RunOk(w.db, w.runs[r]);
    if step.CommitClaim? && step.run in w.runs {
      assert RunOk(w.db, w.runs[step.run]);
    }
  }

  lemma PostEndsWaiting(w: World, r: nat, o: Outcome)
    requires Inv(w) && Enabled(w, Post(r, o))
    ensures AwaitsPost(w, Head(w, r).id) && !AwaitsPost(Apply(w, Post(r, o)), Head(w, r).id)
  {
    var w' := Apply(w, Post(r, o));
    assert Holds(w, r, 0);
    forall s, i | Holds(w', s, i) && w'.runs[s].todo[i].id == Head(w, r).id
      ensures s == r && i == 0
    {
      assert Holds(w, s, i);
    }
  }

  lemma ClaimsAccountedKept(w: World, step: Step, id: nat)
    requires Inv(w) && Enabled(w, step) && ClaimsAccounted(w, id)
    ensures ClaimsAccounted(Apply(w, step), id)
  {
    hide Inv, Apply, Enabled, NextRow, Claims, Retries, Posts;
    CountersStep(w, step, id);
    if id in w.db.queue {
      RowStep(w, step, id);
      RowAttempts(w, step, id);
      if RetriesRowNow(w, step, id) {
        RetryTakesAll(w, step, id);
        OneMoreRound(w.db.queue[id].maxAttempts, Retries(w.log, id));
      }
    } else {
      OnlyRowsAreClaimed(w, step, id);
      if id in Apply(w, step).db.queue {
        NewRow(w, step, id);
      }
    }
  }

  lemma OneMoreRound(max: nat, n: nat)
    ensures max * (n + 1) == max + max * n
  {
  }

  lemma OnlyRowsAreClaimed(w: World, step: Step, id: nat)
    requires Inv(w) && id !in w.db.queue
    ensures !ClaimsRow(w, step, id)
  {
    if step.CommitClaim? && Claiming(w, step.run) {
      assert RunOk(w.db, w.runs[step.run]);
    }
  }

  lemma RowAttempts(w: World, step: Step, id: nat)
    requires Inv(w) && Enabled(w, step) && id in w.db.queue
    ensures NextRow(w, step, id).maxAttempts == w.db.queue[id].maxAttempts
    ensures NextRow(w, step, id).attemptCount ==
      if ClaimsRow(w, step, id) then w.db.queue[id].attemptCount + 1
      else if RetriesRowNow(w, step, id) then 0
      else w.db.queue[id].attemptCount
  {
  }

  /** A manual retry gives up exactly max_attempts used attempts. */
  lemma RetryTakesAll(w: World, step: Step, id: nat)
    requires Inv(w) && Enabled(w, step) && id in w.db.queue && RetriesRowNow(w, step, id)
    ensures w.db.queue[id].attemptCount == w.db.queue[id].maxAttempts
  {
    assert RowOk(w.db.queue[id]);
  }

  lemma PostsAccountedKept(w: World, step: Step, id: nat)
    requires Inv(w) && Enabled(w, step) && PostsAccounted(w, id)
    ensures PostsAccounted(Apply(w, step), id)
  {
    CountersStep(w, step, id);
    AwaitingStep(w, step, id);
  }

  lemma InitIsAccounted(w: World, id: nat)
    requires Init(w)
    ensures ClaimsAccounted(w, id) && PostsAccounted(w, id)
  {
  }

  /**
    Conservation, whatever writes are lost and whichever runs vanish: a row has been claimed once for every
    attempt it counts now and max_attempts times for every manual retry, and never receives more POSTs than claims.
  */
  lemma {:induction false} Conservation(states: seq<World>, steps: seq<Step>, k: nat, id: nat)
    requires Started(states, steps) && k <= |steps|
    ensures ClaimsAccounted(states[k], id) && PostsAccounted(states[k], id)
  {
    hide Inv, Enabled, Apply, ClaimsAccounted, PostsAccounted;
    if k == 0 {
      InitIsAccounted(states[0], id);
    } else {
      LastStep(states, steps, k);
      Conservation(states, steps, k - 1, id);
      Reachable(states, steps, k - 1);
      ClaimsAccountedKept(states[k - 1], steps[k - 1], id);
      PostsAccountedKept(states[k - 1], steps[k - 1], id);
    }
  }

  lemma RowIsOk(w: World, id: nat)
    requires Inv(w) && id in w.db.queue
    ensures RowOk(w.db.queue[id])
  {
  }

  lemma PostsBoundedIn(w: World, id: nat)
    requires id in w.db.queue && RowOk(w.db.queue[id]) && ClaimsAccounted(w, id) && PostsAccounted(w, id)
    ensures Posts(w.log, id) <= w.db.queue[id].maxAttempts * (1 + Retries(w.log, id))
  {
    OneMoreRound(w.db.queue[id].maxAttempts, Retries(w.log, id));
  }

  /** So the POSTs for a row never exceed max_attempts for each manual retry and the first round. */
  lemma PostsBounded(states: seq<World>, steps: seq<Step>, k: nat, id: nat)
    requires Started(states, steps) && k <= |steps| && id in states[k].db.queue
    ensures Posts(states[k].log, id) <= states[k].db.queue[id].maxAttempts * (1 + Retries(states[k].log, id))
  {
    hide Inv, Enabled, Apply;
    Conservation(states, steps, k, id);
    Reachable(states, steps, k);
    RowIsOk(states[k], id);
    PostsBoundedIn(states[k], id);
  }

  // ---- what enqueue and retry promise ----

  /** The webhook takes the event, and every row it already has for it is dismissed. */
  predicate Reached(db: Db, tenantId: nat, event: string, eventId: nat, webhookId: nat) {
    && Subscribed(db, webhookId, tenantId, event)
    && forall id :: id in RowsFor(db, webhookId, eventId) ==> db.queue[id].dismissedAt.Some?
  }

  /** An enqueue gives every webhook that it reaches exactly one more row for the event, due at once, and no other webhook any. */
  lemma EnqueueAddsOne(db: Db, tenantId: nat, event: string, eventId: nat, maxAttempts: nat, newIds: map<nat, nat>, webhookId: nat)
    requires FreshFor(db, EnqueueTargets(db, tenantId, event, eventId), newIds) && maxAttempts >= 1
    ensures var db' := Enqueue(db, tenantId, event, eventId, maxAttempts, newIds);
      var before, after := RowsFor(db, webhookId, eventId), RowsFor(db', webhookId, eventId);
      if Reached(db, tenantId, event, eventId, webhookId)
      then exists id :: id !in db.queue && Due(db', id) && after == before + {id}
      else after == before
  {
    var db' := Enqueue(db, tenantId, event, eventId, maxAttempts, newIds);
    ReachedAreTargets(db, tenantId, event, eventId, webhookId);
    if Reached(db, tenantId, event, eventId, webhookId) {
      assert webhookId in newIds.Values;
      var id :| id in newIds && newIds[id] == webhookId;
      assert RowsFor(db', webhookId, eventId) == RowsFor(db, webhookId, eventId) + {id};
    } else {
      assert forall id :: id in newIds ==> newIds[id] in newIds.Values;
      assert RowsFor(db', webhookId, eventId) == RowsFor(db, webhookId, eventId);
    }
  }

  lemma ReachedAreTargets(db: Db, tenantId: nat, event: string, eventId: nat, webhookId: nat)
    ensures webhookId in EnqueueTargets(db, tenantId, event, eventId) <==> Reached(db, tenantId, event, eventId, webhookId)
  {
    if !Conflicts(db, webhookId, eventId) {
      assert forall id :: id in RowsFor(db, webhookId, eventId) ==> !Indexed(db.queue[id], webhookId, eventId);
    }
  }

  /** A manual retry starts a new epoch: the row is due at once, unless its webhook is no longer active. */
  lemma RetriedIsDue(w: World, id: nat, tenantId: nat)
    requires Inv(w) && RetriesRow(w.db, id, tenantId)
    ensures Due(Retry(w.db, id, tenantId), id) <==> Active(w.db.webhooks[w.db.queue[id].webhookId])
  {
    assert RowOk(w.db.queue[id]);
  }

  // ---- locks on webhooks ----

  /** FOR UPDATE also locks the joined webhook rows: no two claims in flight hold rows of the same webhook. */
  ghost predicate WebhookLocksExclusive(w: World) {
    forall r, s, id, jd ::
      Claiming(w, r) && Claiming(w, s) && id in w.runs[r].batch && jd in w.runs[s].batch && OfSameWebhook(w.db, id, jd) ==> r == s
  }

  predicate OfSameWebhook(db: Db, id: nat, jd: nat) {
    id in db.queue && jd in db.queue && db.queue[id].webhookId == db.queue[jd].webhookId
  }

  lemma LockedRowStays(w: World, step: Step, r: nat, id: nat)
    requires Inv(w) && Enabled(w, step) && Claiming(w, r) && id in w.runs[r].batch
    ensures id in w.db.queue && id in Apply(w, step).db.queue
    ensures Apply(w, step).db.queue[id].webhookId == w.db.queue[id].webhookId
  {
    assert RunOk(w.db, w.runs[r]);
    RowStep(w, step, id);
  }

  lemma NewLocks(w: World, r: nat, limit: nat, stray: set<nat>, batch: set<nat>, s: nat, id: nat, jd: nat)
    requires Enabled(w, SelectDue(r, limit, stray, batch)) && Claiming(w, s) && id in batch && jd in w.runs[s].batch
    ensures !OfSameWebhook(w.db, id, jd)
  {
    assert jd in LockedRows(w);
  }

  lemma OldOrNewClaim(w: World, step: Step, r: nat)
    requires Enabled(w, step) && Claiming(Apply(w, step), r)
    ensures if step.SelectDue? && step.run == r then Apply(w, step).runs[r].batch == step.batch
            else Claiming(w, r) && Apply(w, step).runs[r] == w.runs[r]
  {
  }

  lemma WebhookLocksKept(w: World, step: Step)
    requires Inv(w) && WebhookLocksExclusive(w) && Enabled(w, step)
    ensures WebhookLocksExclusive(Apply(w, step))
  {
    var w' := Apply(w, step);
    forall r, s, id, jd | Claiming(w', r) && Claiming(w', s) && id in w'.runs[r].batch && jd in w'.runs[s].batch && OfSameWebhook(w'.db, id, jd)
      ensures r == s
    {
      SameClaim(w, step, r, s, id, jd);
    }
  }

  lemma SameClaim(w: World, step: Step, r: nat, s: nat, id: nat, jd: nat)
    requires Inv(w) && WebhookLocksExclusive(w) && Enabled(w, step)
    requires Claiming(Apply(w, step), r) && Claiming(Apply(w, step), s)
    requires id in Apply(w, step).runs[r].batch && jd in Apply(w, step).runs[s].batch && OfSameWebhook(Apply(w, step).db, id, jd)
    ensures r == s
  {
    OldOrNewClaim(w, step, r);
    OldOrNewClaim(w, step, s);
    hide Inv, Enabled;
    if step.SelectDue? {
      assert Apply(w, step).db == w.db;
      hide Apply;
      assert OfSameWebhook(w.db, id, jd) && OfSameWebhook(w.db, jd, id);
      if r == step.run && s != step.run {
        NewLocks(w, step.run, step.limit, step.stray, step.batch, s, id, jd);
      } else if s == step.run && r != step.run {
        NewLocks(w, step.run, step.limit, step.stray, step.batch, r, jd, id);
      }
    } else {
      hide Apply;
      LockedRowStays(w, step, r, id);
      LockedRowStays(w, step, s, jd);
      assert OfSameWebhook(w.db, id, jd);
    }
  }

  lemma InitLocksNothing(w: World)
    requires Init(w)
    ensures WebhookLocksExclusive(w)
  {
  }

  lemma {:induction false} WebhookLocksAlways(states: seq<World>, steps: seq<Step>, k: nat)
    requires Started(states, steps) && k <= |steps|
    ensures WebhookLocksExclusive(states[k])
  {
    hide Inv, Enabled, Apply, WebhookLocksExclusive;
    if k == 0 {
      InitLocksNothing(states[0]);
    } else {
      LastStep(states, steps, k);
      WebhookLocksAlways(states, steps, k - 1);
      Reachable(states, steps, k - 1);
      WebhookLocksKept(states[k - 1], steps[k - 1]);
    }
  }
}
