/**
  approve and reject as the methods they are: one statement after another, any of which may throw.
  An undisturbed call does to the tables what the protocol does when only that call advances.
*/
module ApprovalService {
  import opened Options
  import opened Approvals

  datatype Outcome = Done | NotFound | AlreadyDecided | RecordMissing | Threw

  /** Call `c` alone advances for up to `n` steps; if it is still running then, it throws. */
  function RunCall(w: World, c: nat, n: nat): World
    decreases n
  {
    if c !in w.calls then w
    else if n == 0 then w.(calls := w.calls - {c})
    else RunCall(AdvanceCall(w, c), c, n - 1)
  }

  /** A call that has reached `phase`, with an empty log of its own. */
  function At(desk: Desk, decision: Decision, user: nat, phase: Phase, log: seq<Event>): World {
    World(desk, map[0 := Call(decision, user, phase)], log)
  }

  lemma StepFrom(desk: Desk, decision: Decision, user: nat, phase: Phase, log: seq<Event>, n: nat)
    ensures var effect := CallEffect(desk, Call(decision, user, phase), 0);
      RunCall(At(desk, decision, user, phase, log), 0, n + 1) ==
        if effect.next.Some? then RunCall(At(effect.desk, decision, user, effect.next.value, log + Entry(effect.event)), 0, n)
        else World(effect.desk, map[], log + Entry(effect.event))
  {
    var w := At(desk, decision, user, phase, log);
    var effect := CallEffect(desk, Call(decision, user, phase), 0);
    assert w.calls - {0} == map[];
    if effect.next.Some? {
      assert AdvanceCall(w, 0).calls == map[0 := Call(decision, user, effect.next.value)];
    }
  }

  lemma ThrowFrom(desk: Desk, decision: Decision, user: nat, phase: Phase, log: seq<Event>)
    ensures RunCall(At(desk, decision, user, phase, log), 0, 0) == World(desk, map[], log)
  {
    assert At(desk, decision, user, phase, log).calls - {0} == map[];
  }

  /** What a call does to the tables, and how often it runs the action. */
  function Result(desk: Desk, decision: Decision, user: nat, phase: Phase, log: seq<Event>, n: nat): (Desk, nat) {
    var w := RunCall(At(desk, decision, user, phase, log), 0, n);
    (w.desk, Actions(w.log))
  }

  lemma ActionCounted(desk: Desk, decision: Decision, user: nat, phase: Phase, log: seq<Event>)
    ensures Actions(log + Entry(CallEffect(desk, Call(decision, user, phase), 0).event)) == Actions(log) + if phase.RunAction? then 1 else 0
  {
    var e := CallEffect(desk, Call(decision, user, phase), 0).event;
    assert e.Some? && e.value.Acted? <==> phase.RunAction?;
    hide CallEffect, Actions;
    CountsOnAppend(log, e);
  }

  lemma ResultStep(desk: Desk, decision: Decision, user: nat, phase: Phase, log: seq<Event>, n: nat)
    ensures var effect := CallEffect(desk, Call(decision, user, phase), 0);
      Result(desk, decision, user, phase, log, n) ==
        if n == 0 then (desk, Actions(log))
        else if effect.next.Some? then Result(effect.desk, decision, user, effect.next.value, log + Entry(effect.event), n - 1)
        else (effect.desk, Actions(log + Entry(effect.event)))
    ensures var effect := CallEffect(desk, Call(decision, user, phase), 0);
      Actions(log + Entry(effect.event)) == Actions(log) + if phase.RunAction? then 1 else 0
  {
    ActionCounted(desk, decision, user, phase, log);
    hide CallEffect, Actions, RunCall, At, Entry;
    if n == 0 {
      ThrowFrom(desk, decision, user, phase, log);
    } else {
      StepFrom(desk, decision, user, phase, log, n - 1);
    }
  }

  // ---- the two calls, from the last statement to the first ----

  lemma FromSetResult(desk: Desk, decision: Decision, user: nat, log: seq<Event>, n: nat)
    ensures Result(desk, decision, user, SetResult, log, n) ==
      (if n >= 1 then UpdateResult(desk, if decision == Decision.Approve then Success else Failed) else desk, Actions(log))
  {
    hide Result, Actions, UpdateResult;
    ResultStep(desk, decision, user, SetResult, log, n);
    if n > 0 {
      var effect := SetResultEffect(desk, decision, 0);
      ResultStep(effect.desk, decision, user, WriteAudit, log + Entry(effect.event), n - 1);
    }
  }

  lemma FromAction(desk: Desk, user: nat, action: ActionType, log: seq<Event>, n: nat)
    ensures Result(desk, Decision.Approve, user, RunAction(action), log, n) ==
      (if n >= 2 then UpdateResult(desk, Success) else desk, Actions(log) + if n >= 1 then 1 else 0)
  {
    hide Result, Actions, UpdateResult;
    ResultStep(desk, Decision.Approve, user, RunAction(action), log, n);
    if n > 0 {
      FromSetResult(desk, Decision.Approve, user, log + Entry(Some(Acted(0, action))), n - 1);
    }
  }

  lemma FromMark(desk: Desk, decision: Decision, user: nat, seen: Option<ActionType>, log: seq<Event>, n: nat)
    requires IsPending(desk) && Actions(log) == 0 && desk.record.Some? == seen.Some? && (decision == Decision.Approve ==> seen.Some?)
    ensures Result(desk, decision, user, MarkRequest(seen), log, n) == DecisionResult(desk, decision, user, n)
  {
    hide Result, Actions;
    ResultStep(desk, decision, user, MarkRequest(seen), log, n);
    if n > 0 {
      var effect := MarkEffect(desk, Call(decision, user, MarkRequest(seen)), seen, 0);
      var more := log + Entry(effect.event);
      if decision == Decision.Approve {
        FromAction(effect.desk, user, seen.value, more, n - 1);
      } else if seen.Some? {
        FromSetResult(effect.desk, decision, user, more, n - 1);
      } else {
        ResultStep(effect.desk, decision, user, WriteAudit, more, n - 1);
      }
    }
  }

  /** What a decision on a pending request does in its next `n` statements, the first of which marks the request. */
  function DecisionResult(desk: Desk, decision: Decision, user: nat, n: nat): (Desk, nat) {
    if n == 0 then (desk, 0)
    else if decision == Decision.Approve then
      var marked := MarkDecided(desk, Approved, user);
      (if n >= 3 then UpdateResult(marked, Success) else marked, if n >= 2 then 1 else 0)
    else
      var marked := MarkDecided(desk, Rejected, user);
      (if n >= 2 then UpdateResult(marked, Failed) else marked, 0)
  }

  lemma FromRecord(desk: Desk, decision: Decision, user: nat, log: seq<Event>, n: nat)
    requires IsPending(desk) && Actions(log) == 0
    ensures Result(desk, decision, user, FindRecord, log, n) ==
      if (decision == Decision.Approve ==> desk.record.Some?) && n >= 1 then DecisionResult(desk, decision, user, n - 1) else (desk, 0)
  {
    hide Result, Actions, DecisionResult;
    ResultStep(desk, decision, user, FindRecord, log, n);
    var effect := FindRecordEffect(desk, decision);
    if n > 0 && effect.next.Some? {
      FromMark(desk, decision, user, effect.next.value.seen, log + Entry(None), n - 1);
    }
  }

  /** A whole call: only reads until the mark, and no mark without a pending request or, for approve, without a record. */
  lemma WholeCall(desk: Desk, decision: Decision, user: nat, n: nat)
    ensures Result(desk, decision, user, FindRequest, [], n) ==
      if IsPending(desk) && (decision == Decision.Approve ==> desk.record.Some?) && n >= 2 then DecisionResult(desk, decision, user, n - 2)
      else (desk, 0)
  {
    NoActions();
    hide Result, Actions, DecisionResult, Entry;
    ResultStep(desk, decision, user, FindRequest, [], n);
    if n > 0 && IsPending(desk) {
      FromRecord(desk, decision, user, [] + Entry(Some(SawPending(0))), n - 1);
    }
  }

  lemma NoActions()
    ensures Actions([]) == 0
  {
  }

  class Service {
    var request: Option<Request>
    var record: Option<PublishRecord>
    var actions: seq<ActionType>

    function Tables(): Desk
      reads this
    {
      Desk(request, record)
    }

    constructor (desk: Desk)
      ensures Tables() == desk && actions == []
    {
      request, record, actions := desk.request, desk.record, [];
    }

    method MarkApproved(user: nat) returns (updated: bool)
      modifies this`request
      ensures Tables() == MarkDecided(old(Tables()), Approved, user)
      ensures updated == (old(request).Some? && old(request).value.status == Pending)
      ensures request == if updated then Some(Request(Approved, Some(user))) else old(request)
    {
      updated := false;
      if request.Some? && request.value.status == Pending {
        request := Some(Request(Approved, Some(user)));
        updated := true;
      }
    }

    method MarkRejected(user: nat) returns (updated: bool)
      modifies this`request
      ensures Tables() == MarkDecided(old(Tables()), Rejected, user)
      ensures updated == (old(request).Some? && old(request).value.status == Pending)
      ensures request == if updated then Some(Request(Rejected, Some(user))) else old(request)
    {
      updated := false;
      if request.Some? && request.value.status == Pending {
        request := Some(Request(Rejected, Some(user)));
        updated := true;
      }
    }

    method UpdatePublishRecordResult(result: PublishResult)
      modifies this`record
      ensures Tables() == UpdateResult(old(Tables()), result)
      ensures record == if old(record).Some? then Some(old(record).value.(result := result)) else None
    {
      if record.Some? {
        record := Some(record.value.(result := result));
      }
    }

    /** publish or rollback: opaque, but written down. */
    method RunLifecycleAction(action: ActionType)
      modifies this`actions
      ensures actions == old(actions) + [action]
    {
      actions := actions + [action];
    }

    /** `completing` is the number of statements that complete before one throws. */
    method Approve(user: nat, completing: nat) returns (outcome: Outcome)
      modifies this
      ensures (Tables(), |actions| - |old(actions)|) == Result(old(Tables()), Decision.Approve, user, FindRequest, [], completing)
      ensures outcome == NotFound <==> completing > 0 && old(request).None?
      ensures outcome == AlreadyDecided <==> completing > 0 && old(request).Some? && !IsPending(old(Tables()))
      ensures outcome == RecordMissing <==> completing > 1 && IsPending(old(Tables())) && old(record).None?
      ensures outcome == Done <==> completing > 5 && IsPending(old(Tables())) && old(record).Some?
      ensures var marked := completing > 2 && old(request).Some? && old(request).value.status == Pending && old(record).Some?;
        && request == (if marked then Some(Request(Approved, Some(user))) else old(request))
        && actions == old(actions) + (if marked && completing > 3 then [old(record).value.action] else [])
        && record == (if marked && completing > 4 then Some(old(record).value.(result := Success)) else old(record))
    {
      hide Result;
      WholeCall(Tables(), Decision.Approve, user, completing);
      if completing == 0 { return Threw; }
      if request.None? { return NotFound; }
      if request.value.status != Pending { return AlreadyDecided; }
      if completing == 1 { return Threw; }
      if record.None? { return RecordMissing; }
      var action := record.value.action;
      if completing == 2 { return Threw; }
      var ignored := MarkApproved(user);
      if completing == 3 { return Threw; }
      RunLifecycleAction(action);
      if completing == 4 { return Threw; }
      UpdatePublishRecordResult(Success);
      return if completing == 5 then Threw else Done;
    }

    method Reject(user: nat, completing: nat) returns (outcome: Outcome)
      modifies this
      ensures (Tables(), |actions| - |old(actions)|) == Result(old(Tables()), Decision.Reject, user, FindRequest, [], completing)
      ensures outcome == NotFound <==> completing > 0 && old(request).None?
      ensures outcome == AlreadyDecided <==> completing > 0 && old(request).Some? && !IsPending(old(Tables()))
      ensures outcome != RecordMissing
      ensures outcome == Done <==> completing > (if old(record).Some? then 4 else 3) && IsPending(old(Tables()))
      ensures var marked := completing > 2 && old(request).Some? && old(request).value.status == Pending;
        && request == (if marked then Some(Request(Rejected, Some(user))) else old(request))
        && actions == old(actions)
        && record == (if marked && completing > 3 && old(record).Some? then Some(old(record).value.(result := Failed)) else old(record))
    {
      hide Result;
      WholeCall(Tables(), Decision.Reject, user, completing);
      if completing == 0 { return Threw; }
      if request.None? { return NotFound; }
      if request.value.status != Pending { return AlreadyDecided; }
      if completing == 1 { return Threw; }
      var seen := if record.Some? then Some(record.value.action) else None;
      if completing == 2 { return Threw; }
      var updated := MarkRejected(user);
      if !updated { return AlreadyDecided; }
      var left := completing - 3;
      if seen.Some? {
        if left == 0 { return Threw; }
        UpdatePublishRecordResult(Failed);
        left := left - 1;
      }
      return if left == 0 then Threw else Done;
    }
  }
}
