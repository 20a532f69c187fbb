/**
  The end-to-end promise of the queue: after one POST for a row was answered with `ok`, no other is ever sent for it,
  and a row counts as delivered only after such an answer.
*/
module DeliverySuccess {
  import opened QueueTables
  import opened DeliveryProtocol
  import opened DeliverySafety
  import opened DeliveryHistory

  predicate PostsRow(w: World, step: Step, id: nat) {
    step.Post? && Working(w, step.run) && Head(w, step.run).id == id
  }

  /** The receiver answers the POST for the row with `ok`. */
  predicate Succeeds(w: World, step: Step, id: nat) {
    PostsRow(w, step, id) && step.outcome.Accepted?
  }

  predicate PastSuccess(stage: Stage) {
    !stage.Ready? && stage.outcome.Accepted?
  }

  // ---- never again ----

  /** Nobody who holds the row still has to post it. */
  ghost predicate OnlyPastSuccess(w: World, id: nat) {
    forall r, i :: Holds(w, r, i) && w.runs[r].todo[i].id == id ==> i == 0 && PastSuccess(w.runs[r].stage)
  }

  /** Delivered, or about to be: the run that had the success holds the row, or nobody does. */
  ghost predicate Succeeded(w: World, id: nat) {
    && id in w.db.queue
    && w.db.queue[id].status in {Delivered, Processing}
    && (w.db.queue[id].status == Processing ==> OnlyPastSuccess(w, id))
  }

  lemma SuccessBegins(w: World, step: Step, id: nat)
    requires Inv(w) && Enabled(w, step) && Succeeds(w, step, id)
    ensures Succeeded(Apply(w, step), id)
  {
    var r, w' := step.run, Apply(w, step);
    assert RunOk(w.db, w.runs[r]);
    assert AttemptOk(w.db, Head(w, r));
    assert Holds(w, r, 0);
    hide TablesOk, LocksExclusive, Deduplicated, RunsOk;
    forall s, i | Holds(w', s, i) && w'.runs[s].todo[i].id == id
      ensures s == r && i == 0
    {
      assert Holds(w, s, i) && w.runs[s].todo[i].id == id;
    }
  }

  /** A run past a success stays past it, or sends the next POST. */
  lemma StaysPast(w: World, step: Step, r: nat, i: nat)
    requires Enabled(w, step) && Holds(w, r, 0) && PastSuccess(w.runs[r].stage)
    requires Holds(Apply(w, step), r, i) && !(step.Mark? && step.run == r)
    ensures PostsRow(w, step, w.runs[r].todo[0].id) || PastSuccess(Apply(w, step).runs[r].stage)
  {
    hide LockedRows, LockedWebhooks, CountStatement, MarkStatement;
  }

  lemma NoPostAfter(w: World, step: Step, id: nat)
    requires Inv(w) && Enabled(w, step) && Succeeded(w, id)
    ensures !PostsRow(w, step, id)
  {
    if step.Post? && Working(w, step.run) {
      assert RunOk(w.db, w.runs[step.run]);
      assert AttemptOk(w.db, Head(w, step.run));
      assert Holds(w, step.run, 0);
    }
  }

  lemma SuccessStays(w: World, step: Step, id: nat)
    requires Inv(w) && Enabled(w, step) && Succeeded(w, id)
    ensures Succeeded(Apply(w, step), id)
  {
    hide Inv, Enabled, Apply;
    RowStep(w, step, id);
    ChangesByStatus(w, step, id);
    NoPostAfter(w, step, id);
    if MarksRow(w, step, id) {
      MarkedIsDelivered(w, step, id);
    } else {
      var w' := Apply(w, step);
      forall r, i | Holds(w', r, i) && w'.runs[r].todo[i].id == id && w.db.queue[id].status == Processing
        ensures i == 0 && PastSuccess(w'.runs[r].stage)
      {
        HolderBefore(w, step, r, i);
        StaysPast(w, step, r, i);
      }
    }
  }

  lemma MarkedIsDelivered(w: World, step: Step, id: nat)
    requires Inv(w) && Succeeded(w, id) && MarksRow(w, step, id)
    ensures NextRow(w, step, id).status == Delivered
  {
    assert RunOk(w.db, w.runs[step.run]);
    assert AttemptOk(w.db, Head(w, step.run));
    assert Holds(w, step.run, 0);
  }

  lemma {:induction false} SucceededLater(states: seq<World>, steps: seq<Step>, j: nat, k: nat, id: nat)
    requires Started(states, steps) && j < k <= |steps| && Succeeds(states[j], steps[j], id)
    ensures Succeeded(states[k], id)
  {
    hide Inv, Enabled, Apply, Succeeds, Succeeded;
    LastStep(states, steps, k);
    Reachable(states, steps, k - 1);
    if k == j + 1 {
      SuccessBegins(states[j], steps[j], id);
    } else {
      SucceededLater(states, steps, j, k - 1, id);
      SuccessStays(states[k - 1], steps[k - 1], id);
    }
  }

  /**
    After a POST for a row was answered with `ok`, none is ever sent for it again, whatever writes are lost,
    runs vanish, claims overlap or retries are asked for.
  */
  lemma NoPostAfterSuccess(states: seq<World>, steps: seq<Step>, j: nat, k: nat, id: nat)
    requires Started(states, steps) && j < k < |steps| && Succeeds(states[j], steps[j], id)
    ensures !PostsRow(states[k], steps[k], id)
  {
    hide Inv, Enabled, Apply, Succeeds, Succeeded, PostsRow;
    SucceededLater(states, steps, j, k, id);
    Reachable(states, steps, k);
    LastStep(states, steps, k + 1);
    NoPostAfter(states[k], steps[k], id);
  }

  // ---- only then ----

  ghost predicate SucceededBefore(states: seq<World>, steps: seq<Step>, k: nat, id: nat) {
    exists j :: 0 <= j < k && j < |steps| && j < |states| && Succeeds(states[j], steps[j], id)
  }

  /** A delivered row, and a row whose run is past a success. */
  predicate ShowsSuccess(w: World, id: nat) {
    || (id in w.db.queue && w.db.queue[id].status == Delivered)
    || exists r :: r in w.runs && Working(w, r) && Head(w, r).id == id && PastSuccess(w.runs[r].stage)
  }

  lemma ShownBefore(w: World, step: Step, id: nat)
    requires Inv(w) && Enabled(w, step) && ShowsSuccess(Apply(w, step), id)
    ensures ShowsSuccess(w, id) || Succeeds(w, step, id)
  {
    var w' := Apply(w, step);
    hide Inv, Enabled, Apply, PastSuccess;
    if id in w'.db.queue && w'.db.queue[id].status == Delivered {
      DeliveredBefore(w, step, id);
    } else {
      var r :| r in w'.runs && Working(w', r) && Head(w', r).id == id && PastSuccess(w'.runs[r].stage);
      StageBefore(w, step, r);
    }
  }

  lemma DeliveredBefore(w: World, step: Step, id: nat)
    requires Inv(w) && Enabled(w, step) && id in Apply(w, step).db.queue && Apply(w, step).db.queue[id].status == Delivered
    ensures ShowsSuccess(w, id)
  {
    hide Inv, Enabled, Apply;
    if id in w.db.queue {
      RowStep(w, step, id);
      if MarksRow(w, step, id) {
        assert Working(w, step.run) && Head(w, step.run).id == id;
      }
    } else {
      NewRow(w, step, id);
    }
  }

  lemma StageBefore(w: World, step: Step, r: nat)
    requires Enabled(w, step) && Working(Apply(w, step), r) && PastSuccess(Apply(w, step).runs[r].stage)
    ensures Working(w, r) && Head(w, r) == Head(Apply(w, step), r)
    ensures PastSuccess(w.runs[r].stage) || Succeeds(w, step, Head(w, r).id)
  {
    hide LockedRows, LockedWebhooks, CountStatement, MarkStatement;
  }

  lemma {:induction false} ShownOnlyAfter(states: seq<World>, steps: seq<Step>, k: nat, id: nat)
    requires Started(states, steps) && k <= |steps| && ShowsSuccess(states[k], id)
    ensures SucceededBefore(states, steps, k, id)
  {
    hide Inv, Enabled, Apply, ShowsSuccess, Succeeds;
    if k == 0 {
      NothingShown(states[0], id);
    } else {
      LastStep(states, steps, k);
      Reachable(states, steps, k - 1);
      ShownBefore(states[k - 1], steps[k - 1], id);
      if !Succeeds(states[k - 1], steps[k - 1], id) {
        ShownOnlyAfter(states, steps, k - 1, id);
      }
    }
  }

  lemma NothingShown(w: World, id: nat)
    requires Init(w)
    ensures !ShowsSuccess(w, id)
  {
  }

  ghost predicate OnlySuccess(states: seq<World>, steps: seq<Step>, j: nat, id: nat) {
    && j < |steps| <= |states| && Succeeds(states[j], steps[j], id)
    && forall i :: 0 <= i < |steps| && i != j ==> !Succeeds(states[i], steps[i], id)
  }

  /** A row is delivered only after a POST for it was answered with `ok`, and after exactly one. */
  lemma DeliveredAfterOneSuccess(states: seq<World>, steps: seq<Step>, k: nat, id: nat)
    requires Started(states, steps) && k <= |steps| && id in states[k].db.queue && states[k].db.queue[id].status == Delivered
    ensures exists j :: 0 <= j < k && OnlySuccess(states, steps, j, id)
  {
    hide Inv, Enabled, Apply, Succeeds;
    ShownOnlyAfter(states, steps, k, id);
    var j :| 0 <= j < k && j < |steps| && j < |states| && Succeeds(states[j], steps[j], id);
    forall i | 0 <= i < |steps| && i != j
      ensures !Succeeds(states[i], steps[i], id)
    {
      if Succeeds(states[i], steps[i], id) {
        OnlyOne(states, steps, if i < j then i else j, if i < j then j else i, id);
      }
    }
    assert OnlySuccess(states, steps, j, id);
  }

  lemma OnlyOne(states: seq<World>, steps: seq<Step>, j: nat, k: nat, id: nat)
    requires Started(states, steps) && j < k < |steps| && Succeeds(states[j], steps[j], id)
    ensures !Succeeds(states[k], steps[k], id)
  {
    NoPostAfterSuccess(states, steps, j, k, id);
  }
}
