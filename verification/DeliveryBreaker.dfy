/**
  The circuit breaker of a webhook over every interleaving: what failure_count counts, when the webhook is
  disabled, and what can still be sent to it afterwards.
*/
module DeliveryBreaker {
  import opened FiniteSets
  import opened QueueTables
  import opened DeliveryProtocol
  import opened DeliverySafety
  import opened DeliveryHistory
  import opened DeliveryLaws

  // ---- one step, one webhook ----

  /** A written failure that counts: the webhook is neither revoked nor disabled. */
  predicate RecordsOn(w: World, step: Step, h: nat) {
    FailsOn(w, step, h) && h in w.db.webhooks && w.db.webhooks[h].revokedAt.None? && w.db.webhooks[h].disabledAt.None?
  }

  predicate RevokesNow(w: World, step: Step, h: nat) {
    step.StepRevokeWebhook? && step.webhookId == h && Revokes(w.db, h, step.tenantId)
  }

  function NextWebhook(w: World, step: Step, h: nat): Webhook
    requires h in w.db.webhooks
  {
    if RecordsOn(w, step, h) then RecordFailure(w.db, h).webhooks[h]
    else if SucceedsOn(w, step, h) then ResetFailure(w.db, h).webhooks[h]
    else if RevokesNow(w, step, h) then RevokeWebhook(w.db, h, step.tenantId).webhooks[h]
    else w.db.webhooks[h]
  }

  lemma WebhookStep(w: World, step: Step, h: nat)
    requires Enabled(w, step) && h in w.db.webhooks
    ensures h in Apply(w, step).db.webhooks && Apply(w, step).db.webhooks[h] == NextWebhook(w, step, h)
  {
    if step.CountOutcome? {
      hide LockedWebhooks;
    } else {
      OtherWebhookStep(w, step, h);
    }
  }

  lemma OtherWebhookStep(w: World, step: Step, h: nat)
    requires Enabled(w, step) && h in w.db.webhooks && !step.CountOutcome?
    ensures h in Apply(w, step).db.webhooks && Apply(w, step).db.webhooks[h] == NextWebhook(w, step, h)
  {
  }

  lemma NewWebhook(w: World, step: Step, h: nat)
    requires Enabled(w, step) && h !in w.db.webhooks && h in Apply(w, step).db.webhooks
    ensures Apply(w, step).db.webhooks[h].failureCount == 0 && Active(Apply(w, step).db.webhooks[h])
  {
  }

  // ---- what failure_count counts ----

  function FailuresSinceReset(log: seq<Event>, h: nat): nat {
    if log == [] then 0 else
      var e := log[|log| - 1];
      if e == FailureReset(h) then 0
      else FailuresSinceReset(log[..|log| - 1], h) + if e == FailureRecorded(h) then 1 else 0
  }

  lemma FailuresStep(w: World, step: Step, h: nat)
    requires Enabled(w, step)
    ensures FailuresSinceReset(Apply(w, step).log, h) ==
      if SucceedsOn(w, step, h) then 0
      else FailuresSinceReset(w.log, h) + if RecordsOn(w, step, h) then 1 else 0
  {
    LogStep(w, step);
    var events := NewEvents(w, step);
    if events == [] {
      assert w.log + [] == w.log;
    } else {
      assert events == [events[0]];
      assert (w.log + [events[0]])[..|w.log|] == w.log;
    }
  }

  ghost predicate CountExact(w: World, h: nat) {
    && (h in w.db.webhooks ==>
          && w.db.webhooks[h].failureCount == FailuresSinceReset(w.log, h)
          && (w.db.webhooks[h].disabledAt.None? ==> w.db.webhooks[h].failureCount < 5))
    && (h !in w.db.webhooks ==> FailuresSinceReset(w.log, h) == 0)
  }

  lemma OnlyWebhooksAreCounted(w: World, step: Step, h: nat)
    requires Inv(w) && h !in w.db.webhooks
    ensures !RecordsOn(w, step, h) && !SucceedsOn(w, step, h)
  {
    if step.CountOutcome? && Working(w, step.run) {
      assert RunOk(w.db, w.runs[step.run]) && AttemptOk(w.db, Head(w, step.run));
    }
  }

  lemma CountedKept(w: World, step: Step, h: nat)
    requires Inv(w) && Enabled(w, step) && CountExact(w, h)
    ensures CountExact(Apply(w, step), h)
  {
    FailuresStep(w, step, h);
    if h in w.db.webhooks {
      WebhookStep(w, step, h);
    } else {
      OnlyWebhooksAreCounted(w, step, h);
      if h in Apply(w, step).db.webhooks {
        NewWebhook(w, step, h);
      }
    }
  }

  lemma InitCounts(w: World, h: nat)
    requires Init(w)
    ensures CountExact(w, h)
  {
  }

  /** failure_count is the number of failures recorded since the last reset; an enabled webhook is below the threshold. */
  lemma {:induction false} FailureCountIsExact(states: seq<World>, steps: seq<Step>, k: nat, h: nat)
    requires Started(states, steps) && k <= |steps|
    ensures CountExact(states[k], h)
  {
    hide Inv, Enabled, Apply, CountExact;
    if k == 0 {
      InitCounts(states[0], h);
    } else {
      LastStep(states, steps, k);
      FailureCountIsExact(states, steps, k - 1, h);
      Reachable(states, steps, k - 1);
      CountedKept(states[k - 1], steps[k - 1], h);
    }
  }

  /** A webhook becomes disabled exactly when a fifth failure since the last reset is recorded on it. */
  lemma DisabledOnTheFifth(w: World, step: Step, h: nat)
    requires Enabled(w, step) && CountExact(w, h) && h in w.db.webhooks
    requires w.db.webhooks[h].disabledAt.None?
    ensures h in Apply(w, step).db.webhooks
    ensures Apply(w, step).db.webhooks[h].disabledAt.Some? <==>
      RecordsOn(w, step, h) && FailuresSinceReset(w.log, h) == 4
  {
    WebhookStep(w, step, h);
  }

  // ---- after the breaker opened, or the webhook was revoked ----

  lemma InactiveStays(w: World, step: Step, h: nat)
    requires h in w.db.webhooks && !Active(w.db.webhooks[h])
    ensures !Active(NextWebhook(w, step, h))
    ensures w.db.webhooks[h].disabledAt.Some? ==> NextWebhook(w, step, h).disabledAt == w.db.webhooks[h].disabledAt
  {
  }

  /** No operation makes an inactive webhook active again, although a late success still resets its counter. */
  lemma {:induction false} InactiveForever(states: seq<World>, steps: seq<Step>, j: nat, k: nat, h: nat)
    requires Execution(states, steps) && j <= k <= |steps|
    requires h in states[j].db.webhooks && !Active(states[j].db.webhooks[h])
    ensures h in states[k].db.webhooks && !Active(states[k].db.webhooks[h])
    ensures states[j].db.webhooks[h].disabledAt.Some? ==>
      states[k].db.webhooks[h].disabledAt == states[j].db.webhooks[h].disabledAt
  {
    hide Enabled, Apply, NextWebhook, Active;
    if j < k {
      LastStep(states, steps, k);
      InactiveForever(states, steps, j, k - 1, h);
      WebhookStep(states[k - 1], steps[k - 1], h);
      InactiveStays(states[k - 1], steps[k - 1], h);
    }
  }

  ghost function ProcessingRows(w: World, h: nat): set<nat> {
    set id | id in w.db.queue && w.db.queue[id].webhookId == h && w.db.queue[id].status == Processing
  }

  ghost function AwaitingRows(w: World, h: nat): set<nat> {
    set id | id in w.db.queue && w.db.queue[id].webhookId == h && AwaitsPost(w, id)
  }

  function PostsTo(log: seq<Event>, h: nat): nat {
    if log == [] then 0 else
      var e := log[|log| - 1];
      PostsTo(log[..|log| - 1], h) + if e.PostSent? && e.webhookId == h then 1 else 0
  }

  lemma PostsToStep(w: World, step: Step, h: nat)
    requires Enabled(w, step)
    ensures PostsTo(Apply(w, step).log, h) == PostsTo(w.log, h) + if step.Post? && Head(w, step.run).webhookId == h then 1 else 0
  {
    LogStep(w, step);
    var events := NewEvents(w, step);
    if events == [] {
      assert w.log + [] == w.log;
    } else {
      assert events == [events[0]];
      assert (w.log + [events[0]])[..|w.log|] == w.log;
    }
  }

  lemma ProcessingShrinks(w: World, step: Step, h: nat)
    requires Inv(w) && Enabled(w, step) && h in w.db.webhooks && !Active(w.db.webhooks[h])
    ensures ProcessingRows(Apply(w, step), h) <= ProcessingRows(w, h)
  {
    var w' := Apply(w, step);
    hide Inv, Apply, Enabled;
    forall id | id in ProcessingRows(w', h)
      ensures id in ProcessingRows(w, h)
    {
      if id in w.db.queue {
        RowStep(w, step, id);
        ChangesByStatus(w, step, id);
      } else {
        NewRow(w, step, id);
      }
    }
  }

  /** Once a webhook is inactive, none of its rows enters processing again. */
  lemma {:induction false} NothingEntersProcessing(states: seq<World>, steps: seq<Step>, j: nat, k: nat, h: nat)
    requires Started(states, steps) && j <= k <= |steps|
    requires h in states[j].db.webhooks && !Active(states[j].db.webhooks[h])
    ensures ProcessingRows(states[k], h) <= ProcessingRows(states[j], h)
  {
    hide Inv, Enabled, Apply, ProcessingRows, Active;
    if j < k {
      LastStep(states, steps, k);
      NothingEntersProcessing(states, steps, j, k - 1, h);
      InactiveForever(states, steps, j, k - 1, h);
      Reachable(states, steps, k - 1);
      ProcessingShrinks(states[k - 1], steps[k - 1], h);
    }
  }

  lemma AwaitingAreProcessing(w: World, h: nat)
    requires Inv(w)
    ensures AwaitingRows(w, h) <= ProcessingRows(w, h)
  {
    forall id | id in AwaitingRows(w, h)
      ensures id in ProcessingRows(w, h)
    {
      var r, i :| Holds(w, r, i) && w.runs[r].todo[i].id == id;
      assert RunOk(w.db, w.runs[r]);
    }
  }

  lemma AwaitingShrinks(w: World, step: Step, h: nat, id: nat)
    requires Inv(w) && Enabled(w, step) && h in w.db.webhooks && !Active(w.db.webhooks[h])
    requires id in AwaitingRows(Apply(w, step), h)
    ensures id in AwaitingRows(w, h)
    ensures step.Post? ==> Head(w, step.run).id != id
  {
    hide Inv, Apply, Enabled;
    AwaitingStep(w, step, id);
    if id in w.db.queue {
      RowStep(w, step, id);
      ChangesByStatus(w, step, id);
    } else {
      OnlyRowsAreClaimed(w, step, id);
      AwaitingAreRows(w, id);
    }
  }

  lemma AwaitingAreRows(w: World, id: nat)
    requires Inv(w) && AwaitsPost(w, id)
    ensures id in w.db.queue
  {
    var r, i :| Holds(w, r, i) && w.runs[r].todo[i].id == id;
    assert RunOk(w.db, w.runs[r]);
  }

  lemma HeadAwaits(w: World, r: nat, o: Outcome)
    requires Inv(w) && Enabled(w, Post(r, o))
    ensures Head(w, r).id in AwaitingRows(w, Head(w, r).webhookId)
  {
    assert RunOk(w.db, w.runs[r]);
    assert AttemptOk(w.db, Head(w, r));
    assert Holds(w, r, 0);
  }

  lemma PostingWorks(w: World, step: Step)
    requires Enabled(w, step) && step.Post?
    ensures Working(w, step.run)
  {
  }

  /** Each POST to an inactive webhook uses up one of the rows that were waiting for it. */
  lemma PostsUseUpAwaiting(w: World, step: Step, h: nat)
    requires Inv(w) && Enabled(w, step) && h in w.db.webhooks && !Active(w.db.webhooks[h])
    ensures PostsTo(Apply(w, step).log, h) + |AwaitingRows(Apply(w, step), h)| <= PostsTo(w.log, h) + |AwaitingRows(w, h)|
  {
    hide Inv, Apply, Enabled, AwaitingRows, PostsTo;
    var before, after := AwaitingRows(w, h), AwaitingRows(Apply(w, step), h);
    if step.Post? {
      PostingWorks(w, step);
    }
    PostsToStep(w, step, h);
    forall id | id in after
      ensures id in before && (step.Post? ==> id != Head(w, step.run).id)
    {
      AwaitingShrinks(w, step, h, id);
    }
    if step.Post? && Head(w, step.run).webhookId == h {
      HeadAwaits(w, step.run, step.outcome);
      SubsetSize(after, before - {Head(w, step.run).id});
    } else {
      SubsetSize(after, before);
    }
  }

  lemma {:induction false} PostsAndAwaiting(states: seq<World>, steps: seq<Step>, j: nat, k: nat, h: nat)
    requires Started(states, steps) && j <= k <= |steps|
    requires h in states[j].db.webhooks && !Active(states[j].db.webhooks[h])
    ensures PostsTo(states[k].log, h) + |AwaitingRows(states[k], h)| <= PostsTo(states[j].log, h) + |AwaitingRows(states[j], h)|
  {
    hide Inv, Enabled, Apply, AwaitingRows, PostsTo, Active;
    if j < k {
      LastStep(states, steps, k);
      PostsAndAwaiting(states, steps, j, k - 1, h);
      InactiveForever(states, steps, j, k - 1, h);
      Reachable(states, steps, k - 1);
      PostsUseUpAwaiting(states[k - 1], steps[k - 1], h);
    }
  }

  /** The POSTs sent to a webhook after it became inactive number at most its rows in processing at that moment. */
  lemma PostsAfterOpening(states: seq<World>, steps: seq<Step>, j: nat, k: nat, h: nat)
    requires Started(states, steps) && j <= k <= |steps|
    requires h in states[j].db.webhooks && !Active(states[j].db.webhooks[h])
    ensures PostsTo(states[k].log, h) <= PostsTo(states[j].log, h) + |ProcessingRows(states[j], h)|
  {
    hide Inv, Enabled, Apply, AwaitingRows, ProcessingRows, PostsTo, Active;
    PostsAndAwaiting(states, steps, j, k, h);
    Reachable(states, steps, j);
    AwaitingAreProcessing(states[j], h);
    SubsetSize(AwaitingRows(states[j], h), ProcessingRows(states[j], h));
  }
}
