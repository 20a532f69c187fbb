/**
  What a lost write or a vanished run costs: a row in processing that no run holds is stuck for ever,
  and no other row in processing is.
*/
module DeliveryLosses {
  import opened QueueTables
  import opened DeliveryProtocol
  import opened DeliverySafety
  import opened DeliveryHistory
  import opened DeliveryLiveness

  predicate InProcessing(w: World, id: nat) {
    id in w.db.queue && w.db.queue[id].status == Processing
  }

  // ---- unheld means stuck ----

  lemma MarkedIsHeld(w: World, step: Step, id: nat)
    requires MarksRow(w, step, id)
    ensures HeldBySome(w, id)
  {
    assert Holds(w, step.run, 0);
  }

  lemma StuckStep(w: World, step: Step, id: nat)
    requires Inv(w) && Enabled(w, step) && InProcessing(w, id) && !HeldBySome(w, id)
    ensures id in Apply(w, step).db.queue && Apply(w, step).db.queue[id] == w.db.queue[id]
    ensures !HeldBySome(Apply(w, step), id)
  {
    hide Inv, Enabled, Apply;
    RowStep(w, step, id);
    ChangesByStatus(w, step, id);
    if MarksRow(w, step, id) {
      MarkedIsHeld(w, step, id);
    }
    if r, i :| Holds(Apply(w, step), r, i) && Apply(w, step).runs[r].todo[i].id == id {
      HolderBefore(w, step, r, i);
    }
  }

  /** A row in processing that no run holds never changes again, whatever is done later. */
  lemma {:induction false} StuckForever(states: seq<World>, steps: seq<Step>, id: nat)
    requires Execution(states, steps) && Inv(states[0]) && InProcessing(states[0], id) && !HeldBySome(states[0], id)
    ensures Inv(states[|steps|]) && !HeldBySome(states[|steps|], id)
    ensures id in states[|steps|].db.queue && states[|steps|].db.queue[id] == states[0].db.queue[id]
  {
    hide Inv, Enabled, Apply, HeldBySome;
    if steps != [] {
      var n := |steps| - 1;
      LastStep(states, steps, n + 1);
      StuckForever(states[..n + 1], steps[..n], id);
      InvKept(states[n], steps[n]);
      StuckStep(states[n], steps[n], id);
    }
  }

  // ---- held means it can still move on ----

  /** The run goes on as if all went well, except that it does not wait for the counter of the webhook. */
  function GoOn(w: World, r: nat): Step
    requires Working(w, r)
  {
    match w.runs[r].stage
    case Ready => Post(r, Accepted(200))
    case Posted(_) => CountOutcome(r, true)
    case Counted(_) => Mark(r, false)
  }

  lemma GoOnEnabled(w: World, r: nat)
    requires Inv(w) && Working(w, r)
    ensures Enabled(w, GoOn(w, r))
  {
    assert RunOk(w.db, w.runs[r]);
    assert AttemptOk(w.db, Head(w, r));
    forall s | Claiming(w, s)
      ensures Head(w, r).id !in w.runs[s].batch
    {
      assert RunOk(w.db, w.runs[s]);
    }
  }

  /** Before the last mark the run comes nearer to the row; the mark of the row takes it out of processing. */
  lemma GoOnMoves(w: World, r: nat, i: nat)
    requires Inv(w) && Working(w, r) && Holds(w, r, i) && Enabled(w, GoOn(w, r))
    ensures var w', id := Apply(w, GoOn(w, r)), w.runs[r].todo[i].id;
      if !w.runs[r].stage.Counted? then
        Working(w', r) && w'.runs[r].todo == w.runs[r].todo && Remaining(w'.runs[r].stage) < Remaining(w.runs[r].stage)
      else if i > 0 then Working(w', r) && w'.runs[r].todo == w.runs[r].todo[1..]
      else id in w'.db.queue && !InProcessing(w', id)
  {
    hide LockedRows, LockedWebhooks, HoldersExclusive, LocksExclusive, TablesOk, Deduplicated, CountStatement;
    assert RunOk(w.db, w.runs[r]);
    assert AttemptOk(w.db, Head(w, r));
  }

  lemma {:induction false} LeavesProcessing(w: World, r: nat, i: nat) returns (states: seq<World>, steps: seq<Step>)
    requires Inv(w) && Working(w, r) && Holds(w, r, i)
    ensures Execution(states, steps) && states[0] == w
    ensures var id := w.runs[r].todo[i].id; id in states[|steps|].db.queue && !InProcessing(states[|steps|], id)
    decreases i, Remaining(w.runs[r].stage)
  {
    hide Inv, Enabled, Apply, GoOn, InProcessing;
    var step := GoOn(w, r);
    GoOnEnabled(w, r);
    GoOnMoves(w, r, i);
    InvKept(w, step);
    var next := Apply(w, step);
    if !w.runs[r].stage.Counted? {
      states, steps := LeavesProcessing(next, r, i);
    } else if i > 0 {
      states, steps := LeavesProcessing(next, r, i - 1);
    } else {
      states, steps := [next], [];
    }
    Precede(w, step, states, steps);
    states, steps := [w] + states, [step] + steps;
  }

  ghost predicate MovesOn(states: seq<World>, steps: seq<Step>, id: nat) {
    Execution(states, steps) && id in states[|steps|].db.queue && !InProcessing(states[|steps|], id)
  }

  /** Some continuation takes the row out of processing. */
  ghost predicate CanMoveOn(w: World, id: nat) {
    exists states, steps :: MovesOn(states, steps, id) && states[0] == w
  }

  /** A row in processing can still move on if and only if some run holds it. */
  lemma MovesOnIffHeld(w: World, id: nat)
    requires Inv(w) && InProcessing(w, id)
    ensures CanMoveOn(w, id) <==> HeldBySome(w, id)
  {
    hide Inv, Enabled, Apply;
    if HeldBySome(w, id) {
      var r, i :| Holds(w, r, i) && w.runs[r].todo[i].id == id;
      var states, steps := LeavesProcessing(w, r, i);
      assert MovesOn(states, steps, id);
    } else if states, steps :| MovesOn(states, steps, id) && states[0] == w {
      StuckForever(states, steps, id);
      assert false;
    }
  }
}
