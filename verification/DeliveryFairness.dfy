/**
  Every fair schedule without new work settles the queue.
*/
module DeliveryFairness {
  import opened QueueTables
  import opened ClaimOrder
  import opened DeliveryProtocol
  import opened DeliverySafety
  import opened DeliveryHistory
  import opened DeliveryBreaker
  import opened DeliveryTermination
  import opened DeliveryLiveness
  import opened DeliveryRuns

  /** Nothing is lost, and nobody adds work. */
  predicate Orderly(step: Step) {
    Careful(step) && AddsNoWork(step)
  }

  ghost predicate QuietSchedule(states: nat -> World, steps: nat -> Step) {
    Schedule(states, steps) && forall k: nat :: AddsNoWork(steps(k))
  }

  lemma QuietStepAt(states: nat -> World, steps: nat -> Step, k: nat)
    requires QuietSchedule(states, steps)
    ensures Enabled(states(k), steps(k)) && states(k + 1) == Apply(states(k), steps(k)) && Orderly(steps(k))
  {
    StepAt(states, steps, k);
  }

  // ---- the last progress ----

  lemma {:induction false} PotentialFalls(states: nat -> World, steps: nat -> Step, j: nat, k: nat)
    requires QuietSchedule(states, steps) && j <= k
    ensures Potential(states(k)) <= Potential(states(j))
  {
    hide Inv, Enabled, Apply, AllHeld, Potential;
    if j < k {
      PotentialFalls(states, steps, j, k - 1);
      QuietStepAt(states, steps, k - 1);
      SafeAt(states, steps, k - 1);
      PotentialStep(states(k - 1), steps(k - 1));
    }
  }

  /** The potential is a number, so there is a moment after which no claim, POST or write happens any more. */
  lemma {:induction false} LastProgress(states: nat -> World, steps: nat -> Step, k: nat) returns (last: nat)
    requires QuietSchedule(states, steps)
    ensures k <= last && forall j: nat :: last <= j ==> !Progress(steps(j))
    decreases Potential(states(k))
  {
    hide Inv, Enabled, Apply, AllHeld, Potential;
    if j: nat :| k <= j && Progress(steps(j)) {
      PotentialFalls(states, steps, k, j);
      QuietStepAt(states, steps, j);
      SafeAt(states, steps, j);
      PotentialStep(states(j), steps(j));
      last := LastProgress(states, steps, j + 1);
    } else {
      last := k;
    }
  }

  // ---- after the last progress ----

  /** A run that has nothing to do: it locked no row. */
  predicate Empty(run: Run) {
    run.Locked? && run.batch == {}
  }

  lemma OnlyEmptyRunsIdle(w: World, step: Step, r: nat)
    requires Enabled(w, step) && Orderly(step) && !Progress(step) && Owns(step, r) && r in w.runs
    ensures Empty(w.runs[r])
  {
    hide LockedRows, LockedWebhooks, Candidates, IsClaimBatch, Distinct;
  }

  lemma OnlyEmptyRuns(states: nat -> World, steps: nat -> Step, last: nat, k: nat, r: nat)
    requires QuietSchedule(states, steps) && RunsMove(states, steps) && last <= k && r in states(k).runs
    requires forall j: nat :: last <= j ==> !Progress(steps(j))
    ensures Empty(states(k).runs[r])
  {
    hide Inv, Enabled, Apply, AllHeld, Owns, Progress;
    assert Moves(steps, k, r);
    var j: nat :| k <= j && Owns(steps(j), r);
    var first := FirstOwnStep(states, steps, k, j, r);
    QuietStepAt(states, steps, first);
    OnlyEmptyRunsIdle(states(first), steps(first), r);
  }

  /** No run holds or locks anything. */
  ghost predicate Idle(w: World) {
    forall r :: r in w.runs ==> Empty(w.runs[r])
  }

  lemma IdleAt(states: nat -> World, steps: nat -> Step, last: nat, k: nat)
    requires QuietSchedule(states, steps) && RunsMove(states, steps) && last <= k
    requires forall j: nat :: last <= j ==> !Progress(steps(j))
    ensures Idle(states(k))
  {
    hide Inv, Enabled, Apply, AllHeld, Progress;
    forall r | r in states(k).runs
      ensures Empty(states(k).runs[r])
    {
      OnlyEmptyRuns(states, steps, last, k, r);
    }
  }

  // ---- a row that is not finished then must be claimed ----

  lemma NothingProcessing(w: World, id: nat)
    requires AllHeld(w) && Idle(w) && id in w.db.queue
    ensures w.db.queue[id].status != Processing
  {
    forall r, i: int
      ensures !Holds(w, r, i)
    {
      if r in w.runs {
        assert Empty(w.runs[r]);
      }
    }
  }

  lemma IdleRowStays(w: World, step: Step, id: nat)
    requires Inv(w) && Idle(w) && Enabled(w, step) && Orderly(step) && !Progress(step) && Open(w, id)
    ensures id in Apply(w, step).db.queue && Apply(w, step).db.queue[id] == w.db.queue[id]
  {
    hide Inv, Enabled, Apply;
    RowStep(w, step, id);
    if step.CommitClaim? && Claiming(w, step.run) {
      assert Empty(w.runs[step.run]);
    }
  }

  lemma IdleLocksNothing(w: World)
    requires Idle(w)
    ensures LockedRows(w) == {} && LockedWebhooks(w) == {}
  {
  }

  /** A poll with room takes something whenever an open row is due. */
  lemma PollTakes(w: World, step: Step, id: nat)
    requires Idle(w) && AllHeld(w) && Inv(w) && Enabled(w, step) && Selects(step)
    requires Open(w, id) && w.db.queue[id].nextAttemptAt <= w.db.now
    ensures !Idle(Apply(w, step))
  {
    IdleLocksNothing(w);
    NothingProcessing(w, id);
    assert RowOk(w.db.queue[id]);
    assert id in Candidates(w.db, {}, {});
    hide Inv, AllHeld, Candidates, LockedRows, LockedWebhooks;
    assert |step.batch| > 0;
    assert !Empty(Apply(w, step).runs[step.run]);
  }

  /** While a row stays open after the last progress, nothing changes it. */
  lemma {:induction false} OpenRowStays(states: nat -> World, steps: nat -> Step, last: nat, k: nat, j: nat, id: nat)
    requires QuietSchedule(states, steps) && RunsMove(states, steps) && last <= k <= j
    requires forall i: nat :: last <= i ==> !Progress(steps(i))
    requires forall i: nat :: k <= i ==> Open(states(i), id)
    ensures id in states(j).db.queue && id in states(k).db.queue && states(j).db.queue[id] == states(k).db.queue[id]
    decreases j - k
  {
    hide Inv, Enabled, Apply, AllHeld, Progress, Idle, Open, RunsMove;
    OpenRow(states(k), id);
    if k < j {
      OpenRowStays(states, steps, last, k, j - 1, id);
      QuietStepAt(states, steps, j - 1);
      SafeAt(states, steps, j - 1);
      IdleAt(states, steps, last, j - 1);
      IdleRowStays(states(j - 1), steps(j - 1), id);
    }
  }

  lemma OpenRow(w: World, id: nat)
    requires Open(w, id)
    ensures id in w.db.queue
  {
  }

  /** So every row stops being open: delivered, abandoned, or its webhook revoked or disabled. */
  lemma RowSettles(states: nat -> World, steps: nat -> Step, last: nat, k: nat, id: nat) returns (settled: nat)
    requires QuietSchedule(states, steps) && Fair(states, steps) && last <= k
    requires forall j: nat :: last <= j ==> !Progress(steps(j))
    ensures k <= settled && !Open(states(settled), id)
  {
    hide Inv, Enabled, Apply, AllHeld, Progress, Idle, Open;
    if j: nat :| k <= j && !Open(states(j), id) {
      settled := j;
    } else {
      OpenRow(states(k), id);
      var due := states(k).db.queue[id].nextAttemptAt;
      assert Passes(states, k, due);
      var later: nat :| k <= later && due <= states(later).db.now;
      assert Polls(steps, later);
      var poll: nat :| later <= poll && Selects(steps(poll));
      TimeGrows(states, steps, later, poll);
      OpenRowStays(states, steps, last, k, poll, id);
      QuietStepAt(states, steps, poll);
      SafeAt(states, steps, poll);
      IdleAt(states, steps, last, poll);
      IdleAt(states, steps, last, poll + 1);
      PollTakes(states(poll), steps(poll), id);
      assert false;
    }
  }

  // ---- the whole queue ----

  /** Without new work, what is finished or inactive stays so. */
  lemma ClosedStays(w: World, step: Step, id: nat)
    requires Inv(w) && Enabled(w, step) && AddsNoWork(step) && !Open(w, id)
    ensures !Open(Apply(w, step), id)
  {
    if id !in w.db.queue {
      AbsentStays(w, step, id);
    } else {
      var h := w.db.queue[id].webhookId;
      assert h in w.db.webhooks;
      hide Inv, Enabled, Apply, NextWebhook;
      RowStep(w, step, id);
      ChangesByStatus(w, step, id);
      KeyStays(w, step, id);
      if Active(w.db.webhooks[h]) {
        FinishedStays(w, step, id);
      } else {
        WebhookStep(w, step, h);
        InactiveStays(w, step, h);
      }
    }
  }

  lemma AbsentStays(w: World, step: Step, id: nat)
    requires Inv(w) && Enabled(w, step) && AddsNoWork(step) && id !in w.db.queue
    ensures id !in Apply(w, step).db.queue
  {
    hide Inv, Enabled, Apply;
    if id in Apply(w, step).db.queue {
      NewRow(w, step, id);
    }
  }

  lemma FinishedStays(w: World, step: Step, id: nat)
    requires Inv(w) && Enabled(w, step) && AddsNoWork(step) && id in w.db.queue && Finished(w.db.queue[id])
    ensures Finished(NextRow(w, step, id))
  {
    ChangesByStatus(w, step, id);
  }

  lemma {:induction false} ClosedForever(states: nat -> World, steps: nat -> Step, j: nat, k: nat, id: nat)
    requires QuietSchedule(states, steps) && j <= k && !Open(states(j), id)
    ensures !Open(states(k), id)
  {
    hide Inv, Enabled, Apply, AllHeld, Open;
    if j < k {
      ClosedForever(states, steps, j, k - 1, id);
      QuietStepAt(states, steps, k - 1);
      SafeAt(states, steps, k - 1);
      ClosedStays(states(k - 1), steps(k - 1), id);
    }
  }

  lemma {:induction false} RowsSettle(states: nat -> World, steps: nat -> Step, last: nat, ids: set<nat>) returns (settled: nat)
    requires QuietSchedule(states, steps) && Fair(states, steps)
    requires forall j: nat :: last <= j ==> !Progress(steps(j))
    ensures last <= settled && forall id :: id in ids ==> !Open(states(settled), id)
    decreases |ids|
  {
    hide Inv, Enabled, Apply, AllHeld, Progress, Open, Fair;
    if ids == {} {
      settled := last;
    } else {
      var id :| id in ids;
      var before := RowsSettle(states, steps, last, ids - {id});
      settled := RowSettles(states, steps, last, before, id);
      forall other | other in ids
        ensures !Open(states(settled), other)
      {
        if other != id {
          ClosedForever(states, steps, before, settled, other);
        }
      }
    }
  }

  lemma OpenIsInQueue(w: World, ids: set<nat>)
    requires w.db.queue.Keys <= ids
    ensures forall id :: id !in ids ==> !Open(w, id)
  {
  }

  /**
    Every fair schedule settles: from some moment on no run holds or locks anything, and every row is delivered
    or abandoned unless its webhook was revoked or disabled meanwhile.
  */
  lemma EveryFairScheduleSettles(states: nat -> World, steps: nat -> Step) returns (settled: nat)
    requires QuietSchedule(states, steps) && Fair(states, steps)
    ensures forall k: nat :: settled <= k ==> Idle(states(k))
    ensures forall k: nat, id :: settled <= k ==> !Open(states(k), id)
  {
    hide Inv, Enabled, Apply, AllHeld, Progress, Open, Idle, RunsMove, ClockPasses, KeepsPolling;
    var last := LastProgress(states, steps, 0);
    var ids := states(last).db.queue.Keys;
    OpenIsInQueue(states(last), ids);
    settled := RowsSettle(states, steps, last, ids);
    forall k: nat | settled <= k
      ensures Idle(states(k))
    {
      IdleAt(states, steps, last, k);
    }
    forall k: nat, id | settled <= k
      ensures !Open(states(k), id)
    {
      if id in ids {
        ClosedForever(states, steps, settled, k, id);
      } else {
        ClosedForever(states, steps, last, k, id);
      }
    }
  }
}
