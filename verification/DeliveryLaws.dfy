/**
  What each step writes, column by column and in plain numbers: the tables before and after it, without the functions
  that define the statements.
*/
module DeliveryLaws {
  import opened Decimals
  import opened Options
  import opened QueueTables
  import opened DeliveryProtocol
  import opened DeliverySafety

  // ---- the counters of webhooks ----

  /** A failure counts on a webhook that is neither revoked nor disabled, and disables it from the fifth on. */
  lemma FailureCounts(w: World, step: Step, h: nat)
    requires Enabled(w, step) && step.CountOutcome? && !step.lost && !w.runs[step.run].stage.outcome.Accepted? && h in w.db.webhooks
    ensures Apply(w, step).db.webhooks.Keys == w.db.webhooks.Keys && Apply(w, step).db.queue == w.db.queue
    ensures var before, after := w.db.webhooks[h], Apply(w, step).db.webhooks[h];
      if h == w.runs[step.run].todo[0].webhookId && before.revokedAt.None? && before.disabledAt.None?
      then after == before.(failureCount := before.failureCount + 1, disabledAt := if before.failureCount >= 4 then Some(w.db.now) else None)
      else after == before
  {
  }

  /** A success clears the counter of its webhook, whatever else holds of it. */
  lemma SuccessClears(w: World, step: Step, h: nat)
    requires Enabled(w, step) && step.CountOutcome? && !step.lost && w.runs[step.run].stage.outcome.Accepted? && h in w.db.webhooks
    ensures Apply(w, step).db.webhooks.Keys == w.db.webhooks.Keys && Apply(w, step).db.queue == w.db.queue
    ensures var before, after := w.db.webhooks[h], Apply(w, step).db.webhooks[h];
      after == if h == w.runs[step.run].todo[0].webhookId then before.(failureCount := 0) else before
  {
  }

  lemma OtherStepsKeepCounters(w: World, step: Step, h: nat)
    requires Enabled(w, step) && h in w.db.webhooks && (!step.CountOutcome? || step.lost)
    ensures h in Apply(w, step).db.webhooks
    ensures var before, after := w.db.webhooks[h], Apply(w, step).db.webhooks[h];
      after == if step.StepRevokeWebhook? && step.webhookId == h && before.tenantId == step.tenantId && before.revokedAt.None?
               then before.(revokedAt := Some(w.db.now)) else before
  {
  }

  /** A failed delivery to the webhook is counted, unless the write is lost. */
  predicate FailsOn(w: World, step: Step, h: nat) {
    && step.CountOutcome? && !step.lost && Working(w, step.run) && w.runs[step.run].stage.Posted?
    && w.runs[step.run].todo[0].webhookId == h && !w.runs[step.run].stage.outcome.Accepted?
  }

  predicate SucceedsOn(w: World, step: Step, h: nat) {
    && step.CountOutcome? && !step.lost && Working(w, step.run) && w.runs[step.run].stage.Posted?
    && w.runs[step.run].todo[0].webhookId == h && w.runs[step.run].stage.outcome.Accepted?
  }

  /** How many failures on the webhook the steps from j to k write. */
  function FailuresBetween(states: seq<World>, steps: seq<Step>, j: nat, k: nat, h: nat): nat
    requires j <= k <= |steps| <= |states|
  {
    if j == k then 0 else FailuresBetween(states, steps, j, k - 1, h) + if FailsOn(states[k - 1], steps[k - 1], h) then 1 else 0
  }

  lemma CounterStep(w: World, step: Step, h: nat)
    requires Enabled(w, step) && h in w.db.webhooks && !SucceedsOn(w, step, h)
    ensures h in Apply(w, step).db.webhooks
    ensures var before, after := w.db.webhooks[h], Apply(w, step).db.webhooks[h];
      after.revokedAt.None? && after.disabledAt.None? ==>
        && before.revokedAt.None? && before.disabledAt.None?
        && after.failureCount == before.failureCount + (if FailsOn(w, step, h) then 1 else 0)
        && (FailsOn(w, step, h) ==> after.failureCount <= 4)
  {
    if step.CountOutcome? && !step.lost {
      if w.runs[step.run].stage.outcome.Accepted? {
        SuccessClears(w, step, h);
      } else {
        FailureCounts(w, step, h);
      }
    } else {
      OtherStepsKeepCounters(w, step, h);
    }
  }

  lemma {:induction false} CounterOverSteps(states: seq<World>, steps: seq<Step>, j: nat, k: nat, h: nat)
    requires Execution(states, steps) && j <= k <= |steps| && h in states[j].db.webhooks
    requires forall i :: j <= i < k ==> !SucceedsOn(states[i], steps[i], h)
    ensures h in states[k].db.webhooks
    ensures var hook, n := states[k].db.webhooks[h], FailuresBetween(states, steps, j, k, h);
      hook.revokedAt.None? && hook.disabledAt.None? ==> hook.failureCount >= n && (n > 0 ==> hook.failureCount <= 4)
  {
    hide Enabled, Apply, FailsOn, SucceedsOn;
    if j < k {
      LastStep(states, steps, k);
      CounterOverSteps(states, steps, j, k - 1, h);
      CounterStep(states[k - 1], steps[k - 1], h);
    }
  }

  /** Five failures written without a success in between leave the webhook disabled, unless it was revoked. */
  lemma FiveFailuresDisable(states: seq<World>, steps: seq<Step>, j: nat, k: nat, h: nat)
    requires Execution(states, steps) && j <= k <= |steps| && h in states[j].db.webhooks
    requires forall i :: j <= i < k ==> !SucceedsOn(states[i], steps[i], h)
    requires FailuresBetween(states, steps, j, k, h) >= 5
    ensures h in states[k].db.webhooks && (states[k].db.webhooks[h].disabledAt.Some? || states[k].db.webhooks[h].revokedAt.Some?)
  {
    CounterOverSteps(states, steps, j, k, h);
  }

  // ---- the rows of the queue ----

  /** A success marks the row, a failure gives it up or makes it due after 2 or 10 seconds; no other row changes. */
  lemma MarkWrites(w: World, step: Step)
    requires Inv(w) && Enabled(w, step) && step.Mark? && !step.lost
    ensures var id := w.runs[step.run].todo[0].id; id in w.db.queue && id in Apply(w, step).db.queue
    ensures Apply(w, step).db.webhooks == w.db.webhooks
    ensures var id := w.runs[step.run].todo[0].id; Apply(w, step).db.queue == w.db.queue[id := Apply(w, step).db.queue[id]]
    ensures var id, outcome := w.runs[step.run].todo[0].id, w.runs[step.run].stage.outcome;
      var before, after := w.db.queue[id], Apply(w, step).db.queue[id];
      match outcome
      case Accepted(code) =>
        after == before.(status := Delivered, deliveredAt := Some(w.db.now), lastResponseCode := Some(code), lastError := None)
      case Refused(code) =>
        && after.lastResponseCode == Some(code) && after.lastError == Some(Cut("Webhook returned HTTP " + Decimal(code)))
        && FailsWith(before, after, w.db.now, before.attemptCount == 1)
      case Threw(message) =>
        && after.lastResponseCode == None && after.lastError == Some(Cut(message))
        && FailsWith(before, after, w.db.now, before.attemptCount == 1)
  {
    assert RunOk(w.db, w.runs[step.run]);
    assert AttemptOk(w.db, w.runs[step.run].todo[0]);
    assert RowOk(w.db.queue[w.runs[step.run].todo[0].id]);
  }

  function Cut(s: string): string {
    if |s| > 500 then s[..500] else s
  }

  /** The other columns of a failed attempt: the row is given up after its last one, and due again 2 or 10 seconds later before. */
  predicate FailsWith(before: Delivery, after: Delivery, now: nat, first: bool) {
    after == if before.attemptCount < before.maxAttempts
      then before.(
        status := Failed, nextAttemptAt := now + (if first then 2_000_000 else 10_000_000),
        lastResponseCode := after.lastResponseCode, lastError := after.lastError)
      else before.(status := Abandoned, lastResponseCode := after.lastResponseCode, lastError := after.lastError)
  }

  /** A manual retry resets exactly an abandoned undismissed row of the caller's tenant. */
  lemma RetryWrites(w: World, step: Step)
    requires Enabled(w, step) && step.StepRetry?
    ensures Apply(w, step).runs == w.runs && Apply(w, step).db.webhooks == w.db.webhooks && Apply(w, step).db.now == w.db.now
    ensures Apply(w, step).db.queue ==
      if step.id in w.db.queue && w.db.queue[step.id].tenantId == step.tenantId
        && w.db.queue[step.id].status == Abandoned && w.db.queue[step.id].dismissedAt.None?
      then w.db.queue[step.id := w.db.queue[step.id].(status := Pending, attemptCount := 0, nextAttemptAt := w.db.now, lastError := None)]
      else w.db.queue
  {
  }

  /** A dismissal dates exactly an abandoned undismissed row of the caller's tenant. */
  lemma DismissWrites(w: World, step: Step)
    requires Enabled(w, step) && step.StepDismiss?
    ensures Apply(w, step).runs == w.runs && Apply(w, step).db.webhooks == w.db.webhooks && Apply(w, step).db.now == w.db.now
    ensures Apply(w, step).db.queue ==
      if step.id in w.db.queue && w.db.queue[step.id].tenantId == step.tenantId
        && w.db.queue[step.id].status == Abandoned && w.db.queue[step.id].dismissedAt.None?
      then w.db.queue[step.id := w.db.queue[step.id].(dismissedAt := Some(w.db.now))]
      else w.db.queue
  {
  }

  /** A caller of another tenant changes nothing. */
  lemma TenantsAreApart(w: World, step: Step)
    requires Enabled(w, step) && (step.StepRetry? || step.StepDismiss?)
    requires step.id in w.db.queue && w.db.queue[step.id].tenantId != step.tenantId
    ensures Apply(w, step) == w
  {
    assert w.log + [] == w.log;
  }

  /** A claim takes due rows of active webhooks, and neither a row nor a webhook that another claim in flight holds. */
  lemma ClaimTakes(w: World, step: Step)
    requires Enabled(w, step) && step.SelectDue?
    ensures Apply(w, step).db == w.db && |step.batch| <= step.limit
    ensures forall id :: id in step.batch ==>
      && id in w.db.queue && w.db.queue[id].webhookId in w.db.webhooks
      && (w.db.queue[id].status == Pending || w.db.queue[id].status == Failed)
      && w.db.queue[id].nextAttemptAt <= w.db.now && w.db.queue[id].attemptCount < w.db.queue[id].maxAttempts
      && w.db.webhooks[w.db.queue[id].webhookId].revokedAt.None? && w.db.webhooks[w.db.queue[id].webhookId].disabledAt.None?
      && forall r :: r in w.runs && w.runs[r].Locked? ==>
           id !in w.runs[r].batch && forall x :: x in w.runs[r].batch && x in w.db.queue ==> w.db.queue[x].webhookId != w.db.queue[id].webhookId
  {
    forall id, r, x | id in step.batch && r in w.runs && w.runs[r].Locked? && x in w.runs[r].batch && x in w.db.queue
      ensures x != id && w.db.queue[x].webhookId != w.db.queue[id].webhookId
    {
      assert x in LockedRows(w);
      assert w.db.queue[x].webhookId in LockedWebhooks(w);
    }
    forall id, r | id in step.batch && r in w.runs && w.runs[r].Locked?
      ensures id !in w.runs[r].batch
    {
      assert id in w.runs[r].batch ==> id in LockedRows(w);
    }
  }

  /** A committed claim moves its rows to processing, with one attempt more and the start of the claim as claimed_at. */
  lemma CommitWrites(w: World, step: Step, id: nat)
    requires Enabled(w, step) && step.CommitClaim? && id in w.db.queue
    ensures Apply(w, step).db.webhooks == w.db.webhooks && Apply(w, step).db.queue.Keys == w.db.queue.Keys
    ensures var before, after := w.db.queue[id], Apply(w, step).db.queue[id];
      after == if id in w.runs[step.run].batch
        then before.(status := Processing, attemptCount := before.attemptCount + 1, claimedAt := Some(w.runs[step.run].startedAt))
        else before
  {
  }

  /** No other step writes a row; webhooks start active with a counter of zero, and only the clock moves the time. */
  lemma OtherWrites(w: World, step: Step)
    requires Enabled(w, step)
    ensures (step.StepEnqueue? || step.StepRetry? || step.StepDismiss? || step.CommitClaim? || (step.Mark? && !step.lost))
      || Apply(w, step).db.queue == w.db.queue
    ensures Apply(w, step).db.now == w.db.now + if step.Tick? then step.elapsed else 0
    ensures step.StepCreateWebhook? ==>
      Apply(w, step).db.webhooks == w.db.webhooks[step.webhookId := Webhook(step.tenantId, step.events, 0, None, None)]
  {
  }

  /** The statements of the API wait for the row locks of claims in flight, and for nothing else. */
  lemma ApiWaitsForClaims(w: World, id: nat, tenantId: nat, events: set<string>)
    ensures Enabled(w, StepCreateWebhook(id, tenantId, events)) <==> id !in w.db.webhooks
    ensures Enabled(w, StepRetry(id, tenantId)) <==> forall r :: r in w.runs && w.runs[r].Locked? ==> id !in w.runs[r].batch
    ensures Enabled(w, StepDismiss(id, tenantId)) <==> forall r :: r in w.runs && w.runs[r].Locked? ==> id !in w.runs[r].batch
    ensures Enabled(w, StepRevokeWebhook(id, tenantId)) <==>
      forall r, x :: r in w.runs && w.runs[r].Locked? && x in w.runs[r].batch && x in w.db.queue ==> w.db.queue[x].webhookId != id
  {
    assert id in LockedWebhooks(w) ==> exists x :: x in LockedRows(w) && x in w.db.queue && w.db.queue[x].webhookId == id;
    forall r, x | r in w.runs && w.runs[r].Locked? && x in w.runs[r].batch
      ensures x in LockedRows(w)
    {
    }
  }

  /** A claim may fail, a run may vanish and a write may be lost at any time; none of these touches the tables. */
  lemma FaultsAnyTime(w: World, r: nat)
    requires r in w.runs
    ensures Enabled(w, Crash(r)) && Apply(w, Crash(r)) == w.(runs := w.runs - {r})
    ensures w.runs[r].Locked? ==> Enabled(w, AbortClaim(r)) && Apply(w, AbortClaim(r)) == w.(runs := w.runs - {r})
    ensures Working(w, r) && w.runs[r].stage.Posted? ==> Enabled(w, CountOutcome(r, true)) && Apply(w, CountOutcome(r, true)).db == w.db
    ensures Working(w, r) && w.runs[r].stage.Counted? ==> Enabled(w, Mark(r, true)) && Apply(w, Mark(r, true)).db == w.db
  {
  }
}
