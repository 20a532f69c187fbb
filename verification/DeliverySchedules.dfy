/**
  Fair schedules exist from every state: settle, then poll for ever. So the premises of `DeliveryFairness`
  can always be met, whatever the receivers answer.
*/
module DeliverySchedules {
  import opened QueueTables
  import opened ClaimOrder
  import opened DeliveryProtocol
  import opened DeliverySafety
  import opened DeliveryLiveness
  import opened DeliveryFairness
  import opened DeliveryRuns

  // ---- polling a settled queue ----

  /** The clock ticks, a claim finds nothing, and returns. */
  function PollStep(k: nat): Step {
    if k % 3 == 0 then Tick(1) else if k % 3 == 1 then SelectDue(0, 1, {}, {}) else CommitClaim(0, [])
  }

  ghost function Polled(w: World, k: nat): World {
    if k == 0 then w else
      var before := Polled(w, k - 1);
      if Enabled(before, PollStep(k - 1)) then Apply(before, PollStep(k - 1)) else before
  }

  /** What polling leaves of a settled state: the tables, and a claim in flight in every third moment. */
  ghost predicate Polling(w: World, k: nat, v: World) {
    && v.db.queue == w.db.queue && v.db.webhooks == w.db.webhooks
    && v.db.now == w.db.now + (k + 2) / 3
    && v.runs == if k % 3 == 2 then map[0 := Locked({}, v.db.now)] else map[]
  }

  lemma NothingToClaim(w: World)
    requires forall id :: !Open(w, id)
    ensures forall now :: Candidates(w.db.(now := now), {}, {}) == {}
  {
    forall now, id | id in Candidates(w.db.(now := now), {}, {})
      ensures false
    {
      assert Open(w, id);
    }
  }

  lemma PollEnabled(w: World, k: nat, v: World)
    requires Settled(w) && Polling(w, k, v)
    ensures Enabled(v, PollStep(k)) && Polling(w, k + 1, Apply(v, PollStep(k)))
  {
    if k % 3 == 1 {
      NothingToClaim(w);
      assert v.db == w.db.(now := v.db.now);
      assert LockedRows(v) == {} && LockedWebhooks(v) == {};
    } else if k % 3 == 2 {
      assert Elements([]) == {};
      assert Claim(v.db, {}, v.db.now) == v.db;
    }
  }

  lemma {:induction false} PolledAt(w: World, k: nat)
    requires Settled(w)
    ensures Polling(w, k, Polled(w, k)) && Enabled(Polled(w, k), PollStep(k))
    ensures Polled(w, k + 1) == Apply(Polled(w, k), PollStep(k))
  {
    hide Enabled, Apply, PollStep, Settled;
    if k > 0 {
      PolledAt(w, k - 1);
      PollEnabled(w, k - 1, Polled(w, k - 1));
    } else {
      NotPolledYet(w);
    }
    PollEnabled(w, k, Polled(w, k));
  }

  lemma NotPolledYet(w: World)
    requires Settled(w)
    ensures Polling(w, 0, w)
  {
  }

  // ---- first settle, then poll ----

  ghost function StateAt(states: seq<World>, k: nat): World
    requires states != []
  {
    if k < |states| then states[k] else Polled(states[|states| - 1], k - (|states| - 1))
  }

  function StepAfter(steps: seq<Step>, k: nat): Step {
    if k < |steps| then steps[k] else PollStep(k - |steps|)
  }

  lemma Joined(states: seq<World>, steps: seq<Step>, answer: World -> Outcome, k: nat)
    requires WorkerExecution(states, steps, answer) && Settled(states[|steps|])
    ensures Enabled(StateAt(states, k), StepAfter(steps, k))
    ensures StateAt(states, k + 1) == Apply(StateAt(states, k), StepAfter(steps, k))
    ensures Orderly(StepAfter(steps, k))
  {
    hide Enabled, Apply, Settled;
    if k < |steps| {
      assert WorkerStep(states[k], steps[k], answer);
    } else {
      PolledAt(states[|steps|], k - |steps|);
    }
  }

  /** A run that is gone at the end of the execution took a step of its own. */
  lemma {:induction false} GoneHasMoved(states: seq<World>, steps: seq<Step>, k: nat, r: nat) returns (j: nat)
    requires Execution(states, steps) && k <= |steps| && r in states[k].runs && r !in states[|steps|].runs
    ensures k <= j < |steps| && Owns(steps[j], r)
    decreases |steps| - k
  {
    hide Enabled, Apply, Owns;
    if Owns(steps[k], r) {
      j := k;
    } else {
      OthersLeaveRun(states[k], steps[k], r);
      j := GoneHasMoved(states, steps, k + 1, r);
    }
  }

  lemma RunMoves(states: seq<World>, steps: seq<Step>, answer: World -> Outcome, k: nat, r: nat)
    requires WorkerExecution(states, steps, answer) && Settled(states[|steps|]) && r in StateAt(states, k).runs
    ensures exists j: nat :: k <= j && Owns(StepAfter(steps, j), r)
  {
    hide Enabled, Apply;
    if k <= |steps| {
      var j := GoneHasMoved(states, steps, k, r);
      assert Owns(StepAfter(steps, j), r);
    } else {
      PolledAt(states[|steps|], k - |steps|);
      assert Owns(StepAfter(steps, k), r);
    }
  }

  lemma PollsLater(steps: seq<Step>, k: nat) returns (j: nat)
    ensures k <= j && Selects(StepAfter(steps, j))
  {
    j := |steps| + 3 * k + 1;
    assert (3 * k + 1) % 3 == 1;
  }

  lemma ClockLater(states: seq<World>, k: nat, time: nat) returns (j: nat)
    requires states != [] && Settled(states[|states| - 1])
    ensures k <= j && time <= StateAt(states, j).db.now
  {
    j := |states| + 3 * (k + time);
    PolledAt(states[|states| - 1], j - (|states| - 1));
  }

  /** From every state in which nothing is stuck, and for all answers, some fair schedule begins. */
  lemma FairScheduleExists(w: World, answer: World -> Outcome) returns (states: nat -> World, steps: nat -> Step)
    requires Inv(w) && AllHeld(w)
    ensures states(0) == w && QuietSchedule(states, steps) && Fair(states, steps)
  {
    hide Inv, AllHeld, Enabled, Apply, Settled, WorkerExecution, Owns, Selects, StateAt, StepAfter;
    var s, t := CanSettle(w, answer);
    ExecutionLength(s, t, answer);
    states, steps := (k: nat) => StateAt(s, k), (k: nat) => StepAfter(t, k);
    forall k: nat
      ensures Taken(states, steps, k) && Orderly(steps(k))
    {
      Joined(s, t, answer, k);
    }
    forall k: nat, r | r in states(k).runs
      ensures Moves(steps, k, r)
    {
      RunMoves(s, t, answer, k, r);
      var j: nat :| k <= j && Owns(StepAfter(t, j), r);
      assert Owns(steps(j), r);
    }
    forall k: nat, time: nat
      ensures Passes(states, k, time)
    {
      var j := ClockLater(s, k, time);
      assert time <= states(j).db.now;
    }
    forall k: nat
      ensures Polls(steps, k)
    {
      var j := PollsLater(t, k);
      assert Selects(steps(j));
    }
    BeginsWith(s);
  }

  lemma ExecutionLength(states: seq<World>, steps: seq<Step>, answer: World -> Outcome)
    requires WorkerExecution(states, steps, answer)
    ensures |states| == |steps| + 1
  {
  }

  lemma BeginsWith(states: seq<World>)
    requires states != []
    ensures StateAt(states, 0) == states[0]
  {
  }
}
