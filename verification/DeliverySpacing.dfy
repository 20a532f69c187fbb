/**
  Retry spacing over whole runs: how far apart the claims of one row lie within a retry epoch,
  that is, since the row was enqueued or last retried by hand.
*/
module DeliverySpacing {
  import opened Options
  import opened QueueTables
  import opened DeliveryProtocol
  import opened DeliverySafety
  import opened DeliveryHistory

  /** The claim times of the current epoch, oldest first. */
  function ClaimTimes(log: seq<Event>, id: nat): seq<nat> {
    if log == [] then [] else
      var e := log[|log| - 1];
      if e == Retried(id) then []
      else ClaimTimes(log[..|log| - 1], id) + if e.Claimed? && id in e.ids then [e.at] else []
  }

  /** The pause in microseconds after attempt k: two seconds after the first, ten after every later one. */
  function Pause(k: nat): nat {
    if k == 1 then 2_000_000 else 10_000_000
  }

  /** The k-th claim (counted from 1) is followed by the pause after attempt k. */
  predicate Spaced(times: seq<nat>) {
    forall k :: 1 <= k < |times| ==> times[k - 1] + Pause(k) <= times[k]
  }

  /** How the claim times of the epoch fit the row. */
  predicate Fits(times: seq<nat>, d: Delivery, now: nat) {
    && Spaced(times)
    && |times| == d.attemptCount
    && (times != [] ==> d.claimedAt == Some(times[|times| - 1]))
    && (d.status == Processing && times != [] ==> times[|times| - 1] <= now)
    && (d.status == Delivered && times != [] ==> d.deliveredAt.Some? && times[|times| - 1] <= d.deliveredAt.value <= now)
    && (d.status == Failed && times != [] ==> times[|times| - 1] + Pause(|times|) <= d.nextAttemptAt)
  }

  predicate SpacingOk(w: World, id: nat) {
    var times := ClaimTimes(w.log, id);
    if id in w.db.queue then Fits(times, w.db.queue[id], w.db.now) else times == []
  }

  lemma TimesStep(w: World, step: Step, id: nat)
    requires Enabled(w, step)
    ensures ClaimTimes(Apply(w, step).log, id) ==
      if RetriesRowNow(w, step, id) then []
      else ClaimTimes(w.log, id) + if ClaimsRow(w, step, id) then [w.runs[step.run].startedAt] else []
  {
    LogStep(w, step);
    var events := NewEvents(w, step);
    if events == [] {
      assert w.log + [] == w.log;
    } else {
      assert events == [events[0]];
      assert (w.log + [events[0]])[..|w.log|] == w.log;
    }
  }

  /** When a claim extends the epoch, the row was due: the previous delay has passed. */
  lemma ClaimFits(times: seq<nat>, d: Delivery, at: nat, now: nat)
    requires Fits(times, d, now) && RowOk(d) && d.status in {Pending, Failed} && d.nextAttemptAt <= at <= now
    ensures Fits(times + [at], ClaimedRow(d, at), now)
  {
  }

  /** A failed attempt sets next_attempt_at the chosen delay after now, which is not before the claim. */
  lemma MarkFits(times: seq<nat>, db: Db, a: Attempt, o: Outcome)
    requires AttemptOk(db, a) && Fits(times, db.queue[a.id], db.now)
    ensures Fits(times, MarkStatement(db, a, o).queue[a.id], db.now)
  {
  }

  lemma SpacingKept(w: World, step: Step, id: nat)
    requires Inv(w) && Enabled(w, step) && SpacingOk(w, id)
    ensures SpacingOk(Apply(w, step), id)
  {
    hide Apply, Enabled, Fits;
    TimesStep(w, step, id);
    if id in w.db.queue {
      RowStep(w, step, id);
      RowSpacingKept(w, step, id);
      NowGrows(w, step);
      LaterFits(ClaimTimes(Apply(w, step).log, id), NextRow(w, step, id), w.db.now, Apply(w, step).db.now);
    } else {
      OnlyRowsAreClaimed(w, step, id);
      if id in Apply(w, step).db.queue {
        NewRow(w, step, id);
        NewRowFits(Apply(w, step).db.queue[id], Apply(w, step).db.now);
      }
    }
  }

  lemma NewRowFits(d: Delivery, now: nat)
    requires d.attemptCount == 0
    ensures Fits([], d, now)
  {
  }

  lemma LaterFits(times: seq<nat>, d: Delivery, now: nat, later: nat)
    requires Fits(times, d, now) && now <= later
    ensures Fits(times, d, later)
  {
  }

  lemma RowSpacingKept(w: World, step: Step, id: nat)
    requires Inv(w) && Enabled(w, step) && id in w.db.queue && Fits(ClaimTimes(w.log, id), w.db.queue[id], w.db.now)
    ensures Fits(
      if RetriesRowNow(w, step, id) then []
      else ClaimTimes(w.log, id) + if ClaimsRow(w, step, id) then [w.runs[step.run].startedAt] else [],
      NextRow(w, step, id), w.db.now)
  {
    var times, d := ClaimTimes(w.log, id), w.db.queue[id];
    assert RowOk(d);
    assert times + [] == times;
    ChangesByStatus(w, step, id);
    hide Inv, Enabled, Fits, RowOk, ClaimTimes, MarkStatement, AttemptOk;
    if ClaimsRow(w, step, id) {
      ClaimFits(times, d, w.runs[step.run].startedAt, w.db.now);
    } else if MarksRow(w, step, id) {
      MarkFits(times, w.db, Head(w, step.run), w.runs[step.run].stage.outcome);
    } else {
      ManualFits(w, step, id, times);
    }
  }

  /** A retry begins a new epoch; a dismissal leaves the epoch as it is. */
  lemma ManualFits(w: World, step: Step, id: nat, times: seq<nat>)
    requires id in w.db.queue && Fits(times, w.db.queue[id], w.db.now) && !ClaimsRow(w, step, id) && !MarksRow(w, step, id)
    ensures Fits(if RetriesRowNow(w, step, id) then [] else times, NextRow(w, step, id), w.db.now)
  {
  }

  lemma InitIsSpaced(w: World, id: nat)
    requires Init(w)
    ensures SpacingOk(w, id)
  {
  }

  lemma {:induction false} SpacingAlways(states: seq<World>, steps: seq<Step>, k: nat, id: nat)
    requires Started(states, steps) && k <= |steps|
    ensures SpacingOk(states[k], id)
  {
    hide Inv, Enabled, Apply, SpacingOk;
    if k == 0 {
      InitIsSpaced(states[0], id);
    } else {
      LastStep(states, steps, k);
      SpacingAlways(states, steps, k - 1, id);
      Reachable(states, steps, k - 1);
      SpacingKept(states[k - 1], steps[k - 1], id);
    }
  }

  lemma {:induction false} SpacedFromTheFirst(times: seq<nat>, n: nat)
    requires Spaced(times) && 2 <= n <= |times|
    ensures times[0] + 2_000_000 + 10_000_000 * (n - 2) <= times[n - 1]
  {
    if n > 2 {
      SpacedFromTheFirst(times, n - 1);
    }
  }

  lemma SpacedInOrder(w: World, id: nat)
    requires SpacingOk(w, id)
    ensures Spaced(ClaimTimes(w.log, id))
  {
  }

  /** In one epoch the n-th claim of a row comes at least 2 + 10 (n - 2) seconds after its first. */
  lemma RetrySpacing(states: seq<World>, steps: seq<Step>, k: nat, id: nat, n: nat)
    requires Started(states, steps) && k <= |steps|
    requires 2 <= n <= |ClaimTimes(states[k].log, id)|
    ensures var times := ClaimTimes(states[k].log, id); times[0] + 2_000_000 + 10_000_000 * (n - 2) <= times[n - 1]
  {
    hide Inv, Enabled, Apply;
    SpacingAlways(states, steps, k, id);
    SpacedInOrder(states[k], id);
    SpacedFromTheFirst(ClaimTimes(states[k].log, id), n);
  }
}
