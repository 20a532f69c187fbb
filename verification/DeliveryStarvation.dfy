/**
  No row starves. However many rows are enqueued and retried meanwhile, and however the claims of other runs overlap,
  every open row is some time delivered or abandoned, or its webhook is revoked or disabled.
*/
module DeliveryStarvation {
  import opened FiniteSets
  import opened QueueTables
  import opened ClaimOrder
  import opened DeliveryProtocol
  import opened DeliverySafety
  import opened DeliveryHistory
  import opened DeliveryLiveness
  import opened DeliveryRuns

  /** The row stays open from moment k on: what the proof refutes. */
  ghost predicate OpenFrom(states: nat -> World, k: nat, id: nat) {
    forall j: nat :: k <= j ==> Open(states(j), id)
  }

  lemma OpenAt(states: nat -> World, k: nat, j: nat, id: nat)
    requires OpenFrom(states, k, id) && k <= j
    ensures Open(states(j), id) && id in states(j).db.queue
  {
  }

  // ---- the row is claimed for the last time ----

  function AttemptsLeft(d: Delivery): nat {
    if d.attemptCount <= d.maxAttempts then d.maxAttempts - d.attemptCount else 0
  }

  /** An open row cannot be retried, so its attempts only go up, by one with each claim. */
  lemma AttemptsFall(w: World, step: Step, id: nat)
    requires Inv(w) && Enabled(w, step) && Open(w, id)
    ensures id in Apply(w, step).db.queue
    ensures AttemptsLeft(Apply(w, step).db.queue[id]) + (if ClaimsRow(w, step, id) then 1 else 0) <= AttemptsLeft(w.db.queue[id])
  {
    hide Inv, Enabled, Apply, NextRow;
    RowStep(w, step, id);
    RowAttempts(w, step, id);
    ChangesByStatus(w, step, id);
  }

  lemma {:induction false} AttemptsFallLater(states: nat -> World, steps: nat -> Step, k: nat, j: nat, id: nat)
    requires Schedule(states, steps) && OpenFrom(states, k, id) && k <= j
    ensures id in states(k).db.queue && id in states(j).db.queue
    ensures AttemptsLeft(states(j).db.queue[id]) <= AttemptsLeft(states(k).db.queue[id])
  {
    hide Inv, Enabled, Apply, AllHeld, Open, AttemptsLeft;
    OpenAt(states, k, k, id);
    if k < j {
      AttemptsFallLater(states, steps, k, j - 1, id);
      OpenAt(states, k, j - 1, id);
      StepAt(states, steps, j - 1);
      SafeAt(states, steps, j - 1);
      AttemptsFall(states(j - 1), steps(j - 1), id);
    }
  }

  lemma {:induction false} LastClaim(states: nat -> World, steps: nat -> Step, k: nat, id: nat) returns (last: nat)
    requires Schedule(states, steps) && OpenFrom(states, k, id) && id in states(k).db.queue
    ensures k <= last && forall j: nat :: last <= j ==> !ClaimsRow(states(j), steps(j), id)
    decreases AttemptsLeft(states(k).db.queue[id])
  {
    hide Inv, Enabled, Apply, AllHeld, Open, AttemptsLeft, ClaimsRow;
    if j: nat :| k <= j && ClaimsRow(states(j), steps(j), id) {
      AttemptsFallLater(states, steps, k, j, id);
      OpenAt(states, k, j, id);
      StepAt(states, steps, j);
      SafeAt(states, steps, j);
      AttemptsFall(states(j), steps(j), id);
      last := LastClaim(states, steps, j + 1, id);
    } else {
      last := k;
    }
  }

  // ---- a held row is marked ----

  /** Each step of its own brings a run nearer to the mark of a row that it holds. */
  lemma OwnStepAdvances(w: World, step: Step, r: nat, i: nat)
    requires Enabled(w, step) && Careful(step) && Owns(step, r) && Holds(w, r, i)
    requires !MarksRow(w, step, w.runs[r].todo[i].id)
    ensures var runs := Apply(w, step).runs;
      && r in runs && runs[r].Delivering?
      && if step.Mark? then i > 0 && runs[r].todo == w.runs[r].todo[1..]
         else runs[r].todo == w.runs[r].todo && Remaining(runs[r].stage) < Remaining(w.runs[r].stage)
  {
    hide LockedRows, LockedWebhooks, Candidates, IsClaimBatch;
  }

  lemma {:induction false} HeldIsMarked(states: nat -> World, steps: nat -> Step, k: nat, r: nat, i: nat) returns (j: nat)
    requires Schedule(states, steps) && RunsMove(states, steps) && Holds(states(k), r, i)
    ensures k <= j && MarksRow(states(j), steps(j), states(k).runs[r].todo[i].id)
    decreases i, Remaining(states(k).runs[r].stage)
  {
    hide Inv, Enabled, Apply, AllHeld, Owns, MarksRow, Remaining, Careful;
    assert Moves(steps, k, r);
    var some: nat :| k <= some && Owns(steps(some), r);
    var m := FirstOwnStep(states, steps, k, some, r);
    var id := states(k).runs[r].todo[i].id;
    if MarksRow(states(m), steps(m), id) {
      j := m;
    } else {
      StepAt(states, steps, m);
      OwnStepAdvances(states(m), steps(m), r, i);
      if steps(m).Mark? {
        j := HeldIsMarked(states, steps, m + 1, r, i - 1);
      } else {
        j := HeldIsMarked(states, steps, m + 1, r, i);
      }
    }
  }

  lemma MarkedIsOut(w: World, step: Step, id: nat)
    requires Inv(w) && Enabled(w, step) && MarksRow(w, step, id) && id in w.db.queue
    ensures id in Apply(w, step).db.queue && Apply(w, step).db.queue[id].status != Processing
  {
    hide Inv, Enabled, Apply;
    RowStep(w, step, id);
  }

  lemma HolderOf(w: World, id: nat) returns (r: nat, i: nat)
    requires AllHeld(w) && id in w.db.queue && w.db.queue[id].status == Processing
    ensures Holds(w, r, i) && w.runs[r].todo[i].id == id
  {
    assert HeldBySome(w, id);
    var s, j :| Holds(w, s, j) && w.runs[s].todo[j].id == id;
    r, i := s, j;
  }

  /** After its last claim the row leaves processing, if it is there. */
  lemma LeavesProcessing(states: nat -> World, steps: nat -> Step, k: nat, id: nat) returns (j: nat)
    requires Schedule(states, steps) && RunsMove(states, steps) && OpenFrom(states, k, id)
    ensures k <= j && id in states(j).db.queue && states(j).db.queue[id].status != Processing
  {
    hide Inv, Enabled, Apply, AllHeld, Open, OpenFrom, MarksRow, RunsMove;
    OpenAt(states, k, k, id);
    if states(k).db.queue[id].status != Processing {
      j := k;
    } else {
      SafeAt(states, steps, k);
      var r, i := HolderOf(states(k), id);
      var m := HeldIsMarked(states, steps, k, r, i);
      OpenAt(states, k, m, id);
      StepAt(states, steps, m);
      SafeAt(states, steps, m);
      MarkedIsOut(states(m), steps(m), id);
      j := m + 1;
    }
  }

  // ---- from then on it waits, unchanged and unlocked ----

  lemma WaitingRowStays(w: World, step: Step, id: nat)
    requires Inv(w) && Enabled(w, step) && Open(w, id) && w.db.queue[id].status != Processing && !ClaimsRow(w, step, id)
    ensures id in Apply(w, step).db.queue && Apply(w, step).db.queue[id] == w.db.queue[id]
  {
    hide Inv, Enabled, Apply, ClaimsRow;
    RowStep(w, step, id);
    ChangesByStatus(w, step, id);
  }

  lemma {:induction false} WaitingRowStaysLater(states: nat -> World, steps: nat -> Step, k: nat, j: nat, id: nat)
    requires Schedule(states, steps) && OpenFrom(states, k, id) && k <= j
    requires forall i: nat :: k <= i ==> !ClaimsRow(states(i), steps(i), id)
    requires id in states(k).db.queue && states(k).db.queue[id].status != Processing
    ensures id in states(j).db.queue && states(j).db.queue[id] == states(k).db.queue[id]
  {
    hide Inv, Enabled, Apply, AllHeld, Open, ClaimsRow;
    if k < j {
      WaitingRowStaysLater(states, steps, k, j - 1, id);
      OpenAt(states, k, j - 1, id);
      StepAt(states, steps, j - 1);
      SafeAt(states, steps, j - 1);
      WaitingRowStays(states(j - 1), steps(j - 1), id);
    }
  }

  // ---- the rows that may come first ----

  /** The claimable rows that are not after `d`: a claim that passes over `d` takes only these. */
  function Rivals(queue: map<nat, Delivery>, d: Delivery): set<nat> {
    set x | x in queue && queue[x].status in {Pending, Failed} && !Before(d, queue[x])
  }

  /** Once the clock is past the due time of `d`, no row becomes a rival, and a claim takes its rows out. */
  lemma RivalsShrink(w: World, step: Step, d: Delivery)
    requires Inv(w) && Enabled(w, step) && d.nextAttemptAt < w.db.now
    ensures Rivals(Apply(w, step).db.queue, d) <= Rivals(w.db.queue, d)
    ensures step.CommitClaim? ==> Rivals(Apply(w, step).db.queue, d) !! w.runs[step.run].batch
  {
    var queue := Apply(w, step).db.queue;
    if step.CommitClaim? {
      CommitIsClaim(w, step);
    }
    hide Inv, Enabled, Apply;
    forall x | x in Rivals(queue, d)
      ensures x in Rivals(w.db.queue, d) && !ClaimsRow(w, step, x)
    {
      if x in w.db.queue {
        RowStep(w, step, x);
        NewcomersAreLater(w, step, d, x);
      } else {
        NewRow(w, step, x);
      }
    }
  }

  lemma CommitIsClaim(w: World, step: Step)
    requires Enabled(w, step) && step.CommitClaim?
    ensures Claiming(w, step.run)
  {
  }

  lemma NewcomersAreLater(w: World, step: Step, d: Delivery, x: nat)
    requires x in w.db.queue && d.nextAttemptAt < w.db.now
    requires NextRow(w, step, x).status in {Pending, Failed} && !Before(d, NextRow(w, step, x))
    ensures x in Rivals(w.db.queue, d) && !ClaimsRow(w, step, x)
  {
  }

  lemma {:induction false} RivalsShrinkLater(states: nat -> World, steps: nat -> Step, k: nat, j: nat, d: Delivery)
    requires Schedule(states, steps) && k <= j && d.nextAttemptAt < states(k).db.now
    ensures Rivals(states(j).db.queue, d) <= Rivals(states(k).db.queue, d)
  {
    hide Inv, Enabled, Apply, AllHeld, Rivals;
    if k < j {
      RivalsShrinkLater(states, steps, k, j - 1, d);
      TimeGrows(states, steps, k, j - 1);
      StepAt(states, steps, j - 1);
      SafeAt(states, steps, j - 1);
      RivalsShrink(states(j - 1), steps(j - 1), d);
    }
  }

  ghost predicate SameRivals(states: nat -> World, k: nat, d: Delivery) {
    forall j: nat :: k <= j ==> Rivals(states(j).db.queue, d) == Rivals(states(k).db.queue, d)
  }

  /** So from some moment on the rivals stay the same. */
  lemma {:induction false} RivalsSettle(states: nat -> World, steps: nat -> Step, k: nat, d: Delivery) returns (last: nat)
    requires Schedule(states, steps) && d.nextAttemptAt < states(k).db.now
    ensures k <= last && SameRivals(states, last, d)
    decreases |Rivals(states(k).db.queue, d)|
  {
    hide Inv, Enabled, Apply, AllHeld, Rivals;
    if j: nat :| k <= j && Rivals(states(j).db.queue, d) != Rivals(states(k).db.queue, d) {
      RivalsShrinkLater(states, steps, k, j, d);
      TimeGrows(states, steps, k, j);
      SubsetSize(Rivals(states(j).db.queue, d), Rivals(states(k).db.queue, d));
      ProperSubsetSize(Rivals(states(j).db.queue, d), Rivals(states(k).db.queue, d));
      last := RivalsSettle(states, steps, j, d);
    } else {
      last := k;
    }
  }

  // ---- no claim in flight holds a rival ----

  lemma RivalsUnlocked(states: nat -> World, steps: nat -> Step, k: nat, j: nat, d: Delivery, r: nat)
    requires Schedule(states, steps) && RunsMove(states, steps) && SameRivals(states, k, d) && k <= j
    requires d.nextAttemptAt < states(k).db.now && Claiming(states(j), r)
    ensures states(j).runs[r].batch !! Rivals(states(j).db.queue, d)
  {
    hide Inv, Enabled, Apply, AllHeld, Owns, Rivals, Careful;
    assert Moves(steps, j, r);
    var some: nat :| j <= some && Owns(steps(some), r);
    var m := FirstOwnStep(states, steps, j, some, r);
    StepAt(states, steps, m);
    SafeAt(states, steps, m);
    LockedCommits(states(m), steps(m), r);
    TimeGrows(states, steps, k, m);
    RivalsShrink(states(m), steps(m), d);
    assert Rivals(states(m + 1).db.queue, d) == Rivals(states(k).db.queue, d) == Rivals(states(j).db.queue, d);
  }

  /** The only thing a locked run may do, when nothing is lost, is to commit its claim. */
  lemma LockedCommits(w: World, step: Step, r: nat)
    requires Enabled(w, step) && Careful(step) && Owns(step, r) && Claiming(w, r)
    ensures step.CommitClaim? && step.run == r
  {
    hide LockedRows, LockedWebhooks, Candidates, IsClaimBatch;
  }

  // ---- but a poll would take one ----

  /** A claim with room that finds the row unlocked takes it or, if it takes others first, only rivals. */
  lemma SelectionTakesRival(w: World, step: Step, id: nat)
    requires Inv(w) && Enabled(w, step) && step.SelectDue? && (step.limit >= 1 || step.batch != {}) && id !in step.stray
    requires Due(w.db, id) && id !in LockedRows(w) && w.db.queue[id].webhookId !in LockedWebhooks(w)
    ensures Claiming(Apply(w, step), step.run)
    ensures !(Apply(w, step).runs[step.run].batch !! Rivals(Apply(w, step).db.queue, w.db.queue[id]))
  {
    var d := w.db.queue[id];
    var candidates := Candidates(w.db, LockedRows(w) + step.stray, LockedWebhooks(w));
    assert id in candidates;
    hide LockedRows, LockedWebhooks, Inv;
    assert |step.batch| > 0;
    var taken :| taken in step.batch;
    if id in step.batch {
      assert id in Rivals(w.db.queue, d);
    } else {
      assert taken in candidates && !Before(d, w.db.queue[taken]);
      assert taken in Rivals(w.db.queue, d);
    }
  }

  /** What the row is like from some moment on, if it stays open for ever. */
  ghost predicate Waits(states: nat -> World, steps: nat -> Step, k: nat, id: nat, d: Delivery) {
    && SameRivals(states, k, d) && d.nextAttemptAt < states(k).db.now && OpenFrom(states, k, id)
    && d.status in {Pending, Failed}
    && forall j: nat :: k <= j ==> id in states(j).db.queue && states(j).db.queue[id] == d
  }

  lemma WaitsAt(states: nat -> World, steps: nat -> Step, k: nat, j: nat, id: nat, d: Delivery)
    requires Schedule(states, steps) && RunsMove(states, steps) && Waits(states, steps, k, id, d) && k <= j
    ensures id in states(j).db.queue && states(j).db.queue[id] == d
    ensures Due(states(j).db, id) && id !in LockedRows(states(j))
  {
    hide Enabled, Apply, AllHeld, RunsMove, SameRivals;
    assert states(j).db.queue[id] == d;
    OpenAt(states, k, j, id);
    SafeAt(states, steps, j);
    TimeGrows(states, steps, k, j);
    assert RowOk(d);
    hide Inv;
    assert id in Rivals(states(j).db.queue, d);
    forall r | Claiming(states(j), r)
      ensures id !in states(j).runs[r].batch
    {
      RivalsUnlocked(states, steps, k, j, d, r);
    }
  }

  /** While it waits, every claim selected with something in it finds its webhook locked. */
  lemma WebhookMustBeLocked(states: nat -> World, steps: nat -> Step, k: nat, j: nat, id: nat, d: Delivery)
    requires Schedule(states, steps) && RunsMove(states, steps) && Waits(states, steps, k, id, d) && k <= j
    requires steps(j).SelectDue? && (steps(j).limit >= 1 || steps(j).batch != {}) && id !in steps(j).stray
    ensures d.webhookId in LockedWebhooks(states(j))
  {
    hide Inv, Enabled, Apply, AllHeld, RunsMove, Rivals, LockedRows, LockedWebhooks, Due;
    if d.webhookId !in LockedWebhooks(states(j)) {
      WaitsAt(states, steps, k, j, id, d);
      StepAt(states, steps, j);
      SafeAt(states, steps, j);
      SelectionTakesRival(states(j), steps(j), id);
      RivalsUnlocked(states, steps, k, j + 1, d, steps(j).run);
      assert false;
    }
  }

  // ---- who locks the webhook ----

  predicate LocksHook(w: World, r: nat, h: nat) {
    Claiming(w, r) && exists x :: x in w.runs[r].batch && x in w.db.queue && w.db.queue[x].webhookId == h
  }

  lemma HookLocker(w: World, h: nat) returns (r: nat)
    requires h in LockedWebhooks(w)
    ensures LocksHook(w, r, h)
  {
    var x :| x in LockedRows(w) && x in w.db.queue && w.db.queue[x].webhookId == h;
    r :| Claiming(w, r) && x in w.runs[r].batch;
  }

  /** A claim that locks a webhook did so when it was selected, and nobody had locked it then. */
  lemma LockerBefore(w: World, step: Step, r: nat, h: nat)
    requires Inv(w) && Enabled(w, step) && LocksHook(Apply(w, step), r, h)
    ensures LocksHook(w, r, h) || (step.SelectDue? && step.run == r && step.batch != {} && h !in LockedWebhooks(w))
  {
    var w' := Apply(w, step);
    OldOrNewClaim(w, step, r);
    var x :| x in w'.runs[r].batch && x in w'.db.queue && w'.db.queue[x].webhookId == h;
    if step.SelectDue? && step.run == r {
      assert x in Candidates(w.db, LockedRows(w) + step.stray, LockedWebhooks(w));
    } else {
      hide Inv, Enabled, Apply;
      LockedRowStays(w, step, r, x);
    }
  }

  /** Nobody who waits sees a claim lock its webhook anew, so whoever locks it later locks it now. */
  lemma {:induction false} LockerEarlier(states: nat -> World, steps: nat -> Step, k: nat, i: nat, j: nat, id: nat, d: Delivery, r: nat)
    requires Schedule(states, steps) && RunsMove(states, steps) && Waits(states, steps, k, id, d) && k <= i <= j
    requires forall m: nat :: steps(m).SelectDue? ==> id !in steps(m).stray
    requires LocksHook(states(j), r, d.webhookId)
    ensures LocksHook(states(i), r, d.webhookId)
    decreases j
  {
    hide Inv, Enabled, Apply, AllHeld, RunsMove, LocksHook, Waits, LockedWebhooks;
    if i < j {
      StepAt(states, steps, j - 1);
      SafeAt(states, steps, j - 1);
      LockerBefore(states(j - 1), steps(j - 1), r, d.webhookId);
      if !LocksHook(states(j - 1), r, d.webhookId) {
        WebhookMustBeLocked(states, steps, k, j - 1, id, d);
        assert false;
      }
      LockerEarlier(states, steps, k, i, j - 1, id, d, r);
    }
  }

  /** A claim in flight ends. */
  lemma ClaimEnds(states: nat -> World, steps: nat -> Step, k: nat, r: nat) returns (j: nat)
    requires Schedule(states, steps) && RunsMove(states, steps) && Claiming(states(k), r)
    ensures k < j && !Claiming(states(j), r)
  {
    hide Inv, Enabled, Apply, AllHeld, Owns, Careful;
    assert Moves(steps, k, r);
    var some: nat :| k <= some && Owns(steps(some), r);
    var m := FirstOwnStep(states, steps, k, some, r);
    StepAt(states, steps, m);
    LockedCommits(states(m), steps(m), r);
    CommitEnds(states(m), steps(m));
    j := m + 1;
  }

  lemma CommitEnds(w: World, step: Step)
    requires Enabled(w, step) && step.CommitClaim?
    ensures !Claiming(Apply(w, step), step.run)
  {
  }

  lemma {:induction false} LocksExclusiveAt(states: nat -> World, steps: nat -> Step, k: nat)
    requires Schedule(states, steps) && WebhookLocksExclusive(states(0))
    ensures WebhookLocksExclusive(states(k))
  {
    hide Inv, Enabled, Apply, AllHeld, WebhookLocksExclusive;
    if k > 0 {
      LocksExclusiveAt(states, steps, k - 1);
      StepAt(states, steps, k - 1);
      SafeAt(states, steps, k - 1);
      WebhookLocksKept(states(k - 1), steps(k - 1));
    }
  }

  lemma OneLocker(w: World, r: nat, s: nat, h: nat)
    requires WebhookLocksExclusive(w) && LocksHook(w, r, h) && LocksHook(w, s, h)
    ensures r == s
  {
    var x :| x in w.runs[r].batch && x in w.db.queue && w.db.queue[x].webhookId == h;
    var y :| y in w.runs[s].batch && y in w.db.queue && w.db.queue[y].webhookId == h;
    assert OfSameWebhook(w.db, x, y);
  }

  lemma NobodyWaits(states: nat -> World, steps: nat -> Step, k: nat, id: nat, d: Delivery)
    requires Schedule(states, steps) && Fair(states, steps) && WebhookLocksExclusive(states(0))
    requires forall m: nat :: steps(m).SelectDue? ==> id !in steps(m).stray
    ensures !Waits(states, steps, k, id, d)
  {
    hide Inv, Enabled, Apply, AllHeld, RunsMove, ClockPasses, LocksHook, LockedWebhooks, WebhookLocksExclusive;
    if Waits(states, steps, k, id, d) {
      hide Waits;
      assert Polls(steps, k);
      var p: nat :| k <= p && Selects(steps(p));
      WebhookMustBeLocked(states, steps, k, p, id, d);
      var r := HookLocker(states(p), d.webhookId);
      LockerClaims(states(p), r, d.webhookId);
      var over := ClaimEnds(states, steps, p, r);
      assert Polls(steps, over);
      var q: nat :| over <= q && Selects(steps(q));
      WebhookMustBeLocked(states, steps, k, q, id, d);
      var s := HookLocker(states(q), d.webhookId);
      LockerEarlier(states, steps, k, over, q, id, d, s);
      LockerEarlier(states, steps, k, p, over, id, d, s);
      LocksExclusiveAt(states, steps, p);
      OneLocker(states(p), r, s, d.webhookId);
      LockerClaims(states(over), s, d.webhookId);
      assert false;
    }
  }

  lemma LockerClaims(w: World, r: nat, h: nat)
    requires LocksHook(w, r, h)
    ensures Claiming(w, r)
  {
  }

  /** A row that stays open for ever would wait from some moment on. */
  lemma WouldWait(states: nat -> World, steps: nat -> Step, k: nat, id: nat) returns (last: nat, d: Delivery)
    requires Schedule(states, steps) && Fair(states, steps) && OpenFrom(states, k, id)
    ensures Waits(states, steps, last, id, d)
  {
    hide Inv, Enabled, Apply, AllHeld, RunsMove, KeepsPolling, Open, ClaimsRow, SameRivals;
    OpenAt(states, k, k, id);
    var claimed := LastClaim(states, steps, k, id);
    var out := LeavesProcessing(states, steps, claimed, id);
    d := states(out).db.queue[id];
    assert Passes(states, out, d.nextAttemptAt + 1);
    var due: nat :| out <= due && d.nextAttemptAt + 1 <= states(due).db.now;
    last := RivalsSettle(states, steps, due, d);
    TimeGrows(states, steps, due, last);
    OpenAt(states, k, out, id);
    OpenAndOut(states(out), id);
    forall j: nat | last <= j
      ensures id in states(j).db.queue && states(j).db.queue[id] == d
    {
      WaitingRowStaysLater(states, steps, out, j, id);
    }
  }

  lemma OpenAndOut(w: World, id: nat)
    requires Open(w, id) && w.db.queue[id].status != Processing
    ensures w.db.queue[id].status in {Pending, Failed}
  {
  }

  /**
    No row starves: under every fair schedule without losses, with any enqueues and retries, every row is some later
    time delivered or abandoned, or its webhook revoked or disabled, provided that no claim meets a stray lock on it.
  */
  lemma NoRowStarves(states: nat -> World, steps: nat -> Step, k: nat, id: nat) returns (j: nat)
    requires Schedule(states, steps) && Fair(states, steps) && WebhookLocksExclusive(states(0))
    requires forall m: nat :: steps(m).SelectDue? ==> id !in steps(m).stray
    ensures k <= j && !Open(states(j), id)
  {
    hide Inv, Enabled, Apply, AllHeld, Open, Fair, WebhookLocksExclusive, Waits;
    if m: nat :| k <= m && !Open(states(m), id) {
      j := m;
    } else {
      var last, d := WouldWait(states, steps, k, id);
      NobodyWaits(states, steps, last, id, d);
      assert false;
    }
  }
}
