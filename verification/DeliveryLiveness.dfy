/**
  Progress when nothing is lost: a quiet system is a finished one, and from every state the workers can finish,
  whatever the receivers answer.
*/
module DeliveryLiveness {
  import opened QueueTables
  import opened ClaimOrder
  import opened DeliveryProtocol
  import opened DeliverySafety
  import opened DeliveryHistory
  import opened DeliveryTermination

  /** No write is swallowed and no run vanishes. */
  predicate Lossless(step: Step) {
    match step
    case CountOutcome(_, lost) => !lost
    case Mark(_, lost) => !lost
    case Crash(_) => false
    case _ => true
  }

  /** Every row in processing is being worked on. */
  ghost predicate AllHeld(w: World) {
    forall id :: id in w.db.queue && w.db.queue[id].status == Processing ==> HeldBySome(w, id)
  }

  ghost predicate HeldBySome(w: World, id: nat) {
    exists r, i :: Holds(w, r, i) && w.runs[r].todo[i].id == id
  }

  lemma HoldKept(w: World, step: Step, id: nat)
    requires Inv(w) && Enabled(w, step) && Lossless(step) && HeldBySome(w, id) && !MarksRow(w, step, id)
    ensures HeldBySome(Apply(w, step), id)
  {
    var r, i :| Holds(w, r, i) && w.runs[r].todo[i].id == id;
    if step.Mark? && step.run == r {
      assert i > 0;
      assert Holds(Apply(w, step), r, i - 1);
    } else {
      RunGoesOn(w, step, r);
      assert Holds(Apply(w, step), r, i);
    }
  }

  lemma RunGoesOn(w: World, step: Step, r: nat)
    requires Enabled(w, step) && Lossless(step) && Working(w, r) && !(step.Mark? && step.run == r)
    ensures var runs := Apply(w, step).runs;
      r in runs && runs[r].Delivering? && runs[r].todo == w.runs[r].todo
  {
    hide LockedRows, LockedWebhooks, IsClaimBatch, Candidates;
  }

  lemma ClaimHolds(w: World, r: nat, order: seq<nat>, id: nat)
    requires Inv(w) && Enabled(w, CommitClaim(r, order)) && id in w.runs[r].batch
    ensures HeldBySome(Apply(w, CommitClaim(r, order)), id)
  {
    var w' := Apply(w, CommitClaim(r, order));
    assert id in Elements(order);
    var i :| 0 <= i < |order| && order[i] == id;
    assert Holds(w', r, i) && w'.runs[r].todo[i].id == id;
  }

  lemma AllHeldKept(w: World, step: Step)
    requires Inv(w) && Enabled(w, step) && Lossless(step) && AllHeld(w)
    ensures AllHeld(Apply(w, step))
  {
    hide Inv, Enabled, Apply, HeldBySome;
    var w' := Apply(w, step);
    forall id | id in w'.db.queue && w'.db.queue[id].status == Processing
      ensures HeldBySome(w', id)
    {
      if id in w.db.queue {
        RowStep(w, step, id);
        ChangesByStatus(w, step, id);
        if ClaimsRow(w, step, id) {
          ClaimHolds(w, step.run, step.order, id);
        } else {
          HoldKept(w, step, id);
        }
      } else {
        NewRow(w, step, id);
      }
    }
  }

  lemma InitHoldsAll(w: World)
    requires Init(w)
    ensures AllHeld(w)
  {
  }

  /** As long as nothing is lost, no row is stuck in processing. */
  lemma {:induction false} NothingStuck(states: seq<World>, steps: seq<Step>, k: nat)
    requires Started(states, steps) && k <= |steps|
    requires forall i :: 0 <= i < k ==> Lossless(steps[i])
    ensures AllHeld(states[k])
  {
    hide Inv, Enabled, Apply, AllHeld;
    if k == 0 {
      InitHoldsAll(states[0]);
    } else {
      LastStep(states, steps, k);
      NothingStuck(states, steps, k - 1);
      Reachable(states, steps, k - 1);
      AllHeldKept(states[k - 1], steps[k - 1]);
    }
  }

  // ---- quiet means finished ----

  predicate Finished(d: Delivery) {
    d.status == Delivered || d.status == Abandoned
  }

  /** A row of an active webhook that is neither delivered nor abandoned. */
  predicate Open(w: World, id: nat) {
    && id in w.db.queue
    && w.db.queue[id].webhookId in w.db.webhooks
    && Active(w.db.webhooks[w.db.queue[id].webhookId])
    && !Finished(w.db.queue[id])
  }

  ghost predicate Settled(w: World) {
    w.runs == map[] && forall id :: !Open(w, id)
  }

  /** What a claim could take after waiting. */
  function Later(w: World, elapsed: nat): set<nat> {
    Candidates(w.db.(now := w.db.now + elapsed), {}, {})
  }

  lemma WillBeDue(w: World, id: nat)
    requires Inv(w) && AllHeld(w) && w.runs == map[] && Open(w, id)
    ensures id in Later(w, w.db.queue[id].nextAttemptAt)
  {
    assert RowOk(w.db.queue[id]);
    assert !HeldBySome(w, id);
  }

  /** With no run left, the queue stays quiet for ever exactly when every row of an active webhook is delivered or abandoned. */
  lemma QuietIffSettled(states: seq<World>, steps: seq<Step>, k: nat)
    requires Started(states, steps) && k <= |steps| && states[k].runs == map[]
    requires forall i :: 0 <= i < k ==> Lossless(steps[i])
    ensures Settled(states[k]) <==> forall elapsed: nat :: Later(states[k], elapsed) == {}
  {
    hide Apply, Enabled;
    var w := states[k];
    NothingStuck(states, steps, k);
    Reachable(states, steps, k);
    forall id | Open(w, id)
      ensures id in Later(w, w.db.queue[id].nextAttemptAt)
    {
      WillBeDue(w, id);
    }
  }

  // ---- the workers can always finish ----

  /** Own steps of a run before it marks its first row. */
  function Remaining(stage: Stage): nat {
    match stage
    case Ready => 2
    case Posted(_) => 1
    case Counted(_) => 0
  }

  /** A step that some worker or the clock takes, with POSTs answered by `answer`. */
  predicate WorkerStep(w: World, step: Step, answer: World -> Outcome) {
    match step
    case Tick(_) => true
    case SelectDue(_, _, _, _) => true
    case CommitClaim(_, _) => true
    case Post(_, o) => o == answer(w)
    case CountOutcome(_, lost) => !lost
    case Mark(_, lost) => !lost
    case _ => false
  }

  ghost predicate WorkerExecution(states: seq<World>, steps: seq<Step>, answer: World -> Outcome) {
    Execution(states, steps) && forall k :: 0 <= k < |steps| ==> WorkerStep(states[k], steps[k], answer)
  }

  lemma Prepend(w: World, step: Step, states: seq<World>, steps: seq<Step>, answer: World -> Outcome)
    returns (all: seq<World>, more: seq<Step>)
    requires Enabled(w, step) && WorkerStep(w, step, answer)
    requires WorkerExecution(states, steps, answer) && states[0] == Apply(w, step)
    ensures WorkerExecution(all, more, answer) && all[0] == w && all[|more|] == states[|steps|]
  {
    hide Apply, Enabled, WorkerStep;
    all, more := [w] + states, [step] + steps;
    Precede(w, step, states, steps);
    forall k | 0 <= k < |more|
      ensures WorkerStep(all[k], more[k], answer)
    {
      if k > 0 {
        assert all[k] == states[k - 1] && more[k] == steps[k - 1];
      }
    }
  }

  lemma Stop(w: World, answer: World -> Outcome) returns (states: seq<World>, steps: seq<Step>)
    ensures steps == [] && states == [w] && WorkerExecution(states, steps, answer)
  {
    states, steps := [w], [];
  }

  ghost function ClaimingRuns(w: World): set<nat> {
    set r | r in w.runs && w.runs[r].Locked?
  }

  /** The next step of a run that holds rows, when no claim is in flight. */
  function NextWork(w: World, r: nat, answer: World -> Outcome): Step
    requires Working(w, r)
  {
    match w.runs[r].stage
    case Ready => Post(r, answer(w))
    case Posted(_) => CountOutcome(r, false)
    case Counted(_) => Mark(r, false)
  }

  /** After waiting long enough, a claim of everything that is due takes at least this row. */
  lemma ClaimAfterWaiting(w: World, id: nat, answer: World -> Outcome) returns (wait: Step, select: Step, commit: Step)
    requires Inv(w) && AllHeld(w) && w.runs == map[] && Open(w, id)
    ensures wait.Tick? && select.SelectDue? && commit.CommitClaim? && commit.order != []
    ensures Enabled(w, wait) && Enabled(Apply(w, wait), select) && Enabled(Apply(Apply(w, wait), select), commit)
  {
    WillBeDue(w, id);
    wait := Tick(w.db.queue[id].nextAttemptAt);
    var w1 := Apply(w, wait);
    var batch := Later(w, w.db.queue[id].nextAttemptAt);
    assert LockedRows(w1) + {} == {} && LockedWebhooks(w1) == {};
    assert Candidates(w1.db, {}, {}) == batch;
    select := SelectDue(0, |batch|, {}, batch);
    var order := SortedListingExists(w.db.queue, batch);
    assert id in Elements(order);
    commit := CommitClaim(0, order);
  }

  lemma SafeStep(w: World, step: Step, answer: World -> Outcome)
    requires Inv(w) && AllHeld(w) && Enabled(w, step) && WorkerStep(w, step, answer)
    ensures Inv(Apply(w, step)) && AllHeld(Apply(w, step))
    ensures Potential(Apply(w, step)) + (if Progress(step) then 1 else 0) <= Potential(w)
  {
    InvKept(w, step);
    AllHeldKept(w, step);
    PotentialStep(w, step);
  }

  /** A claim in flight can be committed, in any order; one claim fewer is then in flight. */
  lemma CommitEnabled(w: World, r: nat) returns (step: Step)
    requires Inv(w) && Claiming(w, r)
    ensures step.CommitClaim? && Enabled(w, step)
    ensures ClaimingRuns(Apply(w, step)) < ClaimingRuns(w)
  {
    assert RunOk(w.db, w.runs[r]);
    var order := SortedListingExists(w.db.queue, w.runs[r].batch);
    step := CommitClaim(r, order);
    assert r in ClaimingRuns(w) && r !in ClaimingRuns(Apply(w, step));
  }

  lemma WorkEnabled(w: World, r: nat, answer: World -> Outcome)
    requires Inv(w) && r in w.runs && ClaimingRuns(w) == {}
    ensures Working(w, r)
    ensures var step := NextWork(w, r, answer); Enabled(w, step) && WorkerStep(w, step, answer) && Progress(step)
  {
    assert RunOk(w.db, w.runs[r]);
    assert forall s :: s in w.runs ==> s !in ClaimingRuns(w);
    assert LockedRows(w) == {};
  }

  /**
    From every reachable state in which nothing was lost, some continuation by the workers alone settles the queue,
    whatever the receivers answer. Together with the bound on all work, no schedule can keep it busy for ever.
  */
  lemma {:induction false} CanSettle(w: World, answer: World -> Outcome) returns (states: seq<World>, steps: seq<Step>)
    requires Inv(w) && AllHeld(w)
    ensures WorkerExecution(states, steps, answer) && states[0] == w && Settled(states[|steps|])
    decreases Potential(w), ClaimingRuns(w)
  {
    hide Inv, Apply, Enabled, AllHeld, Potential, NextWork, WorkerExecution, Open;
    if r :| r in ClaimingRuns(w) {
      var step := CommitEnabled(w, r);
      SafeStep(w, step, answer);
      states, steps := CanSettle(Apply(w, step), answer);
      states, steps := Prepend(w, step, states, steps, answer);
    } else if r :| r in w.runs {
      WorkEnabled(w, r, answer);
      var step := NextWork(w, r, answer);
      SafeStep(w, step, answer);
      states, steps := CanSettle(Apply(w, step), answer);
      states, steps := Prepend(w, step, states, steps, answer);
    } else if id :| Open(w, id) {
      var wait, select, commit := ClaimAfterWaiting(w, id, answer);
      var w1 := Apply(w, wait);
      SafeStep(w, wait, answer);
      var w2 := Apply(w1, select);
      SafeStep(w1, select, answer);
      SafeStep(w2, commit, answer);
      states, steps := CanSettle(Apply(w2, commit), answer);
      states, steps := Prepend(w2, commit, states, steps, answer);
      states, steps := Prepend(w1, select, states, steps, answer);
      states, steps := Prepend(w, wait, states, steps, answer);
    } else {
      states, steps := Stop(w, answer);
    }
  }
}
