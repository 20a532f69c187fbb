/**
  Infinite runs of the protocol: `states(k + 1)` follows `states(k)` by `steps(k)`. Nothing is lost in them;
  the workers may be slow, overlap and interleave in any way.
*/
module DeliveryRuns {
  import opened ClaimOrder
  import opened DeliveryProtocol
  import opened DeliverySafety
  import opened DeliveryHistory
  import opened DeliveryLiveness

  ghost predicate Taken(states: nat -> World, steps: nat -> Step, k: nat) {
    Enabled(states(k), steps(k)) && states(k + 1) == Apply(states(k), steps(k))
  }

  ghost predicate Infinite(states: nat -> World, steps: nat -> Step) {
    forall k: nat :: Taken(states, steps, k)
  }

  /** No write is lost, the claim's own included, and no run vanishes. */
  predicate Careful(step: Step) {
    Lossless(step) && !step.AbortClaim?
  }

  predicate Owns(step: Step, r: nat) {
    match step
    case SelectDue(run, _, _, _) => run == r
    case CommitClaim(run, _) => run == r
    case AbortClaim(run) => run == r
    case Post(run, _) => run == r
    case CountOutcome(run, _) => run == r
    case Mark(run, _) => run == r
    case Crash(run) => run == r
    case _ => false
  }

  predicate Selects(step: Step) {
    step.SelectDue? && step.limit >= 1 && step.stray == {}
  }

  ghost predicate Moves(steps: nat -> Step, k: nat, r: nat) {
    exists j: nat :: k <= j && Owns(steps(j), r)
  }

  /** Every run that is under way takes a step of its own some time. */
  ghost predicate RunsMove(states: nat -> World, steps: nat -> Step) {
    forall k: nat, r :: r in states(k).runs ==> Moves(steps, k, r)
  }

  ghost predicate Passes(states: nat -> World, k: nat, time: nat) {
    exists j: nat :: k <= j && time <= states(j).db.now
  }

  /** No time is beyond the clock. */
  ghost predicate ClockPasses(states: nat -> World) {
    forall k: nat, time: nat :: Passes(states, k, time)
  }

  ghost predicate Polls(steps: nat -> Step, k: nat) {
    exists j: nat :: k <= j && Selects(steps(j))
  }

  /** The worker polls again and again, with room for at least one row and without meeting stray locks. */
  ghost predicate KeepsPolling(steps: nat -> Step) {
    forall k: nat :: Polls(steps, k)
  }

  ghost predicate Fair(states: nat -> World, steps: nat -> Step) {
    RunsMove(states, steps) && ClockPasses(states) && KeepsPolling(steps)
  }

  ghost predicate Schedule(states: nat -> World, steps: nat -> Step) {
    && Infinite(states, steps) && (forall k: nat :: Careful(steps(k)))
    && Inv(states(0)) && AllHeld(states(0))
  }

  // ---- every moment ----

  lemma StepAt(states: nat -> World, steps: nat -> Step, k: nat)
    requires Schedule(states, steps)
    ensures Enabled(states(k), steps(k)) && states(k + 1) == Apply(states(k), steps(k)) && Careful(steps(k))
  {
    assert Taken(states, steps, k);
  }

  lemma {:induction false} SafeAt(states: nat -> World, steps: nat -> Step, k: nat)
    requires Schedule(states, steps)
    ensures Inv(states(k)) && AllHeld(states(k))
  {
    hide Inv, Enabled, Apply, AllHeld;
    if k > 0 {
      SafeAt(states, steps, k - 1);
      StepAt(states, steps, k - 1);
      InvKept(states(k - 1), steps(k - 1));
      AllHeldKept(states(k - 1), steps(k - 1));
    }
  }

  lemma OthersLeaveRun(w: World, step: Step, r: nat)
    requires Enabled(w, step) && r in w.runs && !Owns(step, r)
    ensures r in Apply(w, step).runs && Apply(w, step).runs[r] == w.runs[r]
  {
    hide LockedRows, LockedWebhooks, Candidates, IsClaimBatch;
  }

  /** The first step that a run takes finds it as it was. */
  lemma {:induction false} FirstOwnStep(states: nat -> World, steps: nat -> Step, k: nat, j: nat, r: nat) returns (first: nat)
    requires Schedule(states, steps) && k <= j && r in states(k).runs && Owns(steps(j), r)
    ensures k <= first && Owns(steps(first), r) && r in states(first).runs && states(first).runs[r] == states(k).runs[r]
    decreases j - k
  {
    hide Inv, Enabled, Apply, AllHeld, Owns;
    if Owns(steps(k), r) {
      first := k;
    } else {
      StepAt(states, steps, k);
      OthersLeaveRun(states(k), steps(k), r);
      first := FirstOwnStep(states, steps, k + 1, j, r);
    }
  }

  lemma {:induction false} TimeGrows(states: nat -> World, steps: nat -> Step, j: nat, k: nat)
    requires Schedule(states, steps) && j <= k
    ensures states(j).db.now <= states(k).db.now
  {
    hide Inv, Enabled, Apply, AllHeld;
    if j < k {
      TimeGrows(states, steps, j, k - 1);
      StepAt(states, steps, k - 1);
      NowGrows(states(k - 1), steps(k - 1));
    }
  }
}
