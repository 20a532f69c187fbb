/**
  Two more promises under overlapping calls: that a publish record says success only of an approved request whose
  action ran once, and that the action of a request that is still pending will run at most once.
*/
module ApprovalSuccess {
  import opened FiniteSets
  import opened Options
  import opened Approvals
  import opened ApprovalOverlap

  lemma {:induction false} Compose(w: World, first: seq<Step>, second: seq<Step>)
    requires CanRun(w, first) && CanRun(Final(w, first), second)
    ensures CanRun(w, first + second) && Final(w, first + second) == Final(Final(w, first), second)
    decreases |first|
  {
    hide Apply, Enabled;
    if first == [] {
      assert first + second == second;
    } else {
      assert (first + second)[1..] == first[1..] + second;
      Compose(Apply(w, first[0]), first[1..], second);
    }
  }

  // ---- success ----

  predicate SaysSuccess(desk: Desk) {
    desk.record.Some? && desk.record.value.result == Success
  }

  predicate IsApproved(desk: Desk) {
    desk.request.Some? && desk.request.value.status == Approved
  }

  /** The third promise for one state. */
  predicate Honest(w: World) {
    SaysSuccess(w.desk) ==> IsApproved(w.desk) && Actions(w.log) == 1
  }

  /** An approve call whose action has run, and that will set the result. */
  predicate WillSet(call: Call) {
    call.decision == Approve && call.phase.SetResult?
  }

  ghost function Setters(w: World): set<nat> {
    set c | c in w.calls && WillSet(w.calls[c])
  }

  /** Success is said only after an action. */
  ghost predicate SuccessActed(w: World) {
    SaysSuccess(w.desk) || Setters(w) != {} ==> Actions(w.log) >= 1
  }

  /** Success is said, or some call is on its way to say it. */
  ghost predicate SuccessAhead(w: World) {
    w.desk.record.Some? && (SaysSuccess(w.desk) || Publishers(w) != {} || Setters(w) != {})
  }

  ghost predicate AtMostOne(w: World) {
    IsApproved(w.desk) && Actions(w.log) + |Publishers(w)| <= 1
  }

  /** Success comes from a setter, and a setter from an action. */
  lemma SuccessEffect(desk: Desk, call: Call, c: nat)
    ensures var effect := CallEffect(desk, call, c);
      && (SaysSuccess(effect.desk) ==> SaysSuccess(desk) || WillSet(call))
      && (effect.next.Some? && WillSet(call.(phase := effect.next.value)) ==>
            call.phase.RunAction? && effect.event == Some(Acted(c, call.phase.action)))
      && (WillSet(call) && desk.record.Some? ==> SaysSuccess(effect.desk))
  {
  }

  lemma SettersStep(w: World, step: Step)
    requires Enabled(w, step)
    ensures Setters(Apply(w, step)) != {} ==> Setters(w) != {} || StepActs(w, step)
    ensures SaysSuccess(Apply(w, step).desk) ==> SaysSuccess(w.desk) || Setters(w) != {}
    ensures StepActs(w, step) ==> Apply(w, step).log == w.log + [Acted(step.call, w.calls[step.call].phase.action)]
  {
    if step.Advance? {
      SuccessEffect(w.desk, w.calls[step.call], step.call);
      assert WillSet(w.calls[step.call]) ==> step.call in Setters(w);
    }
    if c :| c in Setters(Apply(w, step)) {
      if c != step.call {
        assert c in w.calls && w.calls[c] == Apply(w, step).calls[c];
        assert c in Setters(w);
      }
    }
  }

  predicate StepActs(w: World, step: Step) {
    step.Advance? && step.call in w.calls && w.calls[step.call].phase.RunAction?
  }

  lemma ActionsGrow(w: World, step: Step)
    requires Enabled(w, step)
    ensures Actions(w.log) + (if StepActs(w, step) then 1 else 0) <= Actions(Apply(w, step).log)
  {
    if step.Advance? {
      CountsOnAppend(w.log, CallEffect(w.desk, w.calls[step.call], step.call).event);
    }
  }

  lemma SuccessActedKept(w: World, step: Step)
    requires Enabled(w, step) && SuccessActed(w)
    ensures SuccessActed(Apply(w, step))
  {
    SettersStep(w, step);
    ActionsGrow(w, step);
    hide Enabled, Apply, Setters, StepActs, Actions;
  }

  lemma {:induction false} SuccessAlwaysActed(states: seq<World>, steps: seq<Step>, k: nat)
    requires Execution(states, steps) && k <= |steps|
    ensures SuccessActed(states[k])
  {
    hide Enabled, Apply, SuccessActed;
    if k == 0 {
      NoSuccessYet(states[0]);
    } else {
      LastStep(states, steps, k);
      SuccessAlwaysActed(states, steps, k - 1);
      SuccessActedKept(states[k - 1], steps[k - 1]);
    }
  }

  lemma NoSuccessYet(w: World)
    requires Init(w)
    ensures SuccessActed(w)
  {
    assert Setters(w) == {};
  }

  // ---- the condition suffices ----

  /** A decided state in which the promise will be kept. */
  ghost predicate Safe(w: World) {
    && !IsPending(w.desk) && w.desk.request.Some? && ActionsApproved(w) && SuccessActed(w)
    && (SuccessAhead(w) ==> AtMostOne(w))
  }

  lemma SafeIsHonest(w: World)
    requires Safe(w)
    ensures Honest(w)
  {
    hide Publishers, Setters, Actions;
  }

  lemma NothingAheadStays(w: World, step: Step)
    requires Enabled(w, step) && !IsPending(w.desk) && ActionsApproved(w) && !SuccessAhead(w)
    ensures !SuccessAhead(Apply(w, step))
  {
    RecordStays(w, step);
    SettersStep(w, step);
    PublishersStep(w, step);
    ActionsGrow(w, step);
    assert StepActs(w, step) ==> step.call in Publishers(w);
    hide Enabled, Apply, Setters, Publishers, StepActs, Actions;
  }

  lemma DecidedStays(w: World, step: Step)
    requires Enabled(w, step) && !IsPending(w.desk) && w.desk.request.Some?
    ensures Apply(w, step).desk.request == w.desk.request
  {
    if step.Advance? {
      DecideEffect(w.desk, w.calls[step.call], step.call);
    }
  }

  lemma SafeKept(w: World, step: Step)
    requires Enabled(w, step) && Safe(w)
    ensures Safe(Apply(w, step))
  {
    hide Enabled, Apply, Publishers, Setters, Actions, SuccessAhead, ActionsApproved, SuccessActed;
    DecidedStays(w, step);
    ActionsApprovedKept(w, step);
    SuccessActedKept(w, step);
    PublishersStep(w, step);
    if !SuccessAhead(w) {
      NothingAheadStays(w, step);
    }
  }

  lemma {:induction false} SafeForever(w: World, steps: seq<Step>)
    requires CanRun(w, steps) && Safe(w)
    ensures Honest(Final(w, steps))
    decreases |steps|
  {
    hide Enabled, Apply, Safe, Honest;
    if steps == [] {
      SafeIsHonest(w);
    } else {
      SafeKept(w, steps[0]);
      SafeForever(Apply(w, steps[0]), steps[1..]);
    }
  }

  // ---- the condition is needed ----

  /** Runs one call to the moment at which success is said; actions run and actions to come are as many as before. */
  lemma {:induction false} ReachSuccess(w: World, c: nat) returns (steps: seq<Step>)
    requires !IsPending(w.desk) && w.desk.request.Some? && ActionsApproved(w) && w.desk.record.Some?
    requires c in Publishers(w) || c in Setters(w)
    ensures CanRun(w, steps)
    ensures var v := Final(w, steps);
      && SaysSuccess(v.desk) && v.desk.request == w.desk.request && ActionsApproved(v)
      && Actions(v.log) + |Publishers(v)| == Actions(w.log) + |Publishers(w)|
    decreases if c in Publishers(w) then Distance(w.calls[c].phase) else 0
  {
    var v := Apply(w, Advance(c));
    DecidedStays(w, Advance(c));
    PublishersAdvance(w, c);
    ActionsApprovedKept(w, Advance(c));
    RecordStays(w, Advance(c));
    NextOfCall(w, c);
    hide Publishers, Setters, ActionsApproved, Actions, AdvanceCall, SaysSuccess;
    var rest: seq<Step> := [];
    if c in Publishers(w) {
      rest := ReachSuccess(v, c);
    }
    steps := [Advance(c)] + rest;
    assert steps[1..] == rest;
  }

  lemma NextOfCall(w: World, c: nat)
    requires !IsPending(w.desk) && ActionsApproved(w) && w.desk.record.Some? && (c in Publishers(w) || c in Setters(w))
    ensures var v := AdvanceCall(w, c);
      if c in Publishers(w)
      then c in v.calls && Distance(v.calls[c].phase) < Distance(w.calls[c].phase) && (c in Publishers(v) || c in Setters(v))
      else SaysSuccess(v.desk)
  {
  }

  /** Some continuation says success and then runs every action that is still to come. */
  lemma SuccessAndAll(w: World) returns (steps: seq<Step>)
    requires !IsPending(w.desk) && w.desk.request.Some? && ActionsApproved(w) && SuccessAhead(w)
    ensures CanRun(w, steps)
    ensures var v := Final(w, steps);
      SaysSuccess(v.desk) && v.desk.request == w.desk.request && Actions(v.log) == Actions(w.log) + |Publishers(w)|
  {
    hide Enabled, Apply, Publishers, Setters, ActionsApproved, Actions;
    steps := [];
    if !SaysSuccess(w.desk) {
      var c :| c in Publishers(w) || c in Setters(w);
      steps := ReachSuccess(w, c);
    }
    var v := Final(w, steps);
    if d :| d in Publishers(v) {
      var more := AllPublish(v, d);
      Compose(w, steps, more);
      steps := steps + more;
    } else {
      assert Publishers(v) == {};
    }
  }

  /** Whatever continues, the promise is kept. */
  ghost predicate StaysHonest(w: World) {
    forall steps :: CanRun(w, steps) ==> Honest(Final(w, steps))
  }

  /**
    For a decided request: in every continuation a record that says success belongs to an approved request whose action
    ran exactly once, if and only if no success is said or under way, or the request is approved and
    the actions run and to come are at most one.
  */
  lemma HonestIff(w: World)
    requires !IsPending(w.desk) && w.desk.request.Some? && ActionsApproved(w) && SuccessActed(w)
    ensures StaysHonest(w) <==> SuccessAhead(w) ==> AtMostOne(w)
  {
    hide ActionsApproved, Publishers, Actions, SuccessAhead, SuccessActed;
    if SuccessAhead(w) ==> AtMostOne(w) {
      forall steps | CanRun(w, steps)
        ensures Honest(Final(w, steps))
      {
        SafeForever(w, steps);
      }
    } else {
      var steps := SuccessAndAll(w);
      assert !Honest(Final(w, steps));
    }
  }

  lemma {:induction false} RunKeeps(w: World, steps: seq<Step>)
    requires CanRun(w, steps) && ActionsApproved(w)
    ensures ActionsApproved(Final(w, steps)) && Final(w, steps).desk.record.Some? == w.desk.record.Some?
    decreases |steps|
  {
    hide Enabled, Apply, ActionsApproved;
    if steps != [] {
      ActionsApprovedKept(w, steps[0]);
      RecordStays(w, steps[0]);
      RunKeeps(Apply(w, steps[0]), steps[1..]);
    }
  }

  /** A rejection that overlaps an approval, continued: the request is rejected and its record says success. */
  lemma RejectedYetSuccess() returns (steps: seq<Step>)
    ensures Init(PENDING) && CanRun(PENDING, steps) && Overlap(Reject, 2) <= steps
    ensures var v := Final(PENDING, steps);
      v.desk.request == Some(Request(Rejected, Some(22))) && SaysSuccess(v.desk)
  {
    RejectedYetPublished();
    var w := Final(PENDING, Overlap(Reject, 2));
    RunKeeps(PENDING, Overlap(Reject, 2));
    hide ActionsApproved, Actions, Overlap, CanRun, Final;
    var more := SuccessAndAll(w);
    Compose(PENDING, Overlap(Reject, 2), more);
    steps := Overlap(Reject, 2) + more;
  }

  // ---- a request that is still pending ----

  /** A call that saw a record has one. */
  ghost predicate RecordsSeen(w: World) {
    forall c :: c in w.calls && SawRecord(w.calls[c]) ==> w.desk.record.Some?
  }

  predicate SawRecord(call: Call) {
    call.phase.RunAction? || (call.phase.MarkRequest? && call.phase.seen.Some?)
  }

  lemma SeenEffect(desk: Desk, call: Call, c: nat)
    requires SawRecord(call) ==> desk.record.Some?
    ensures var effect := CallEffect(desk, call, c);
      && (effect.next.Some? && SawRecord(call.(phase := effect.next.value)) ==> desk.record.Some?)
      && (effect.event.Some? && effect.event.value.Acted? ==> desk.record.Some?)
  {
  }

  lemma RecordsSeenKept(w: World, step: Step)
    requires Enabled(w, step) && RecordsSeen(w)
    ensures RecordsSeen(Apply(w, step))
    ensures w.desk.record.None? ==> Actions(Apply(w, step).log) == Actions(w.log)
  {
    RecordStays(w, step);
    if step.Advance? {
      var effect := CallEffect(w.desk, w.calls[step.call], step.call);
      SeenEffect(w.desk, w.calls[step.call], step.call);
      CountsOnAppend(w.log, effect.event);
      hide CallEffect, Actions;
    }
  }

  lemma {:induction false} RecordsAlwaysSeen(states: seq<World>, steps: seq<Step>, k: nat)
    requires Execution(states, steps) && k <= |steps|
    ensures RecordsSeen(states[k])
  {
    hide Enabled, Apply;
    if k > 0 {
      LastStep(states, steps, k);
      RecordsAlwaysSeen(states, steps, k - 1);
      RecordsSeenKept(states[k - 1], steps[k - 1]);
    }
  }

  lemma {:induction false} NoRecordNoAction(w: World, steps: seq<Step>)
    requires CanRun(w, steps) && RecordsSeen(w) && w.desk.record.None?
    ensures Actions(Final(w, steps).log) == Actions(w.log)
    decreases |steps|
  {
    hide Enabled, Apply, RecordsSeen, Actions;
    if steps != [] {
      RecordStays(w, steps[0]);
      RecordsSeenKept(w, steps[0]);
      NoRecordNoAction(Apply(w, steps[0]), steps[1..]);
    }
  }

  lemma {:induction false} Above(s: set<nat>) returns (bound: nat)
    ensures forall x :: x in s ==> x < bound
    decreases |s|
  {
    bound := 0;
    if s != {} {
      var x :| x in s;
      var b := Above(s - {x});
      bound := if x < b then b else x + 1;
      assert forall y :: y in s ==> y == x || y in s - {x};
    }
  }

  lemma FreshFrom(w: World) returns (bound: nat)
    ensures forall c: nat :: bound <= c ==> Fresh(w, c)
  {
    var used := set i | 0 <= i < |w.log| :: w.log[i].call;
    bound := Above(w.calls.Keys + used);
    assert forall i :: 0 <= i < |w.log| ==> w.log[i].call in used;
    assert forall x :: x in w.calls || x in used ==> x in w.calls.Keys + used;
  }

  /** Two new approve calls read the pending request before either marks it. */
  lemma TwoMoreApprovals(w: World) returns (steps: seq<Step>)
    requires IsPending(w.desk) && w.desk.record.Some? && ActionsApproved(w)
    ensures CanRun(w, steps)
    ensures !IsPending(Final(w, steps).desk) && ActionsApproved(Final(w, steps)) && |Publishers(Final(w, steps))| >= 2
  {
    var c := FreshFrom(w);
    var d := c + 1;
    var w1, w2, w3 := FirstReads(w, c, d);
    steps := [Begin(c, Approve, 1), Begin(d, Approve, 2), Advance(c), Advance(d), Advance(c), Advance(c)];
    var w4, w5, w6 := ThenOneMarks(w3, c, d);
    RunSix([w, w1, w2, w3, w4, w5, w6], steps);
    RunKeeps(w, steps);
    SubsetSize({c, d}, Publishers(w6));
  }

  lemma FirstReads(w: World, c: nat, d: nat) returns (w1: World, w2: World, w3: World)
    requires IsPending(w.desk) && Fresh(w, c) && Fresh(w, d) && c != d
    ensures Takes(w, Begin(c, Approve, 1), w1) && Takes(w1, Begin(d, Approve, 2), w2) && Takes(w2, Advance(c), w3)
    ensures w3.desk == w.desk && c in w3.calls && d in w3.calls
    ensures w3.calls[c] == Call(Approve, 1, FindRecord) && w3.calls[d] == Call(Approve, 2, FindRequest)
  {
    w1 := Apply(w, Begin(c, Approve, 1));
    w2 := Apply(w1, Begin(d, Approve, 2));
    w3 := Apply(w2, Advance(c));
  }

  lemma ThenOneMarks(w3: World, c: nat, d: nat) returns (w4: World, w5: World, w6: World)
    requires IsPending(w3.desk) && w3.desk.record.Some? && c != d && c in w3.calls && d in w3.calls
    requires w3.calls[c] == Call(Approve, 1, FindRecord) && w3.calls[d] == Call(Approve, 2, FindRequest)
    ensures Takes(w3, Advance(d), w4) && Takes(w4, Advance(c), w5) && Takes(w5, Advance(c), w6)
    ensures !IsPending(w6.desk) && {c, d} <= Publishers(w6)
  {
    w4 := Apply(w3, Advance(d));
    w5 := Apply(w4, Advance(c));
    w6 := Apply(w5, Advance(c));
  }

  /** For a request that is still pending: at most once in every continuation, if and only if it has no publish record (and did not run twice before). */
  lemma PendingAtMostOnceIff(w: World)
    requires IsPending(w.desk) && ActionsApproved(w) && RecordsSeen(w)
    ensures AtMostOnce(w) <==> w.desk.record.None? && Actions(w.log) <= 1
  {
    hide ActionsApproved, RecordsSeen, Publishers, Actions, IsPending;
    assert CanRun(w, []) && Final(w, []) == w;
    if w.desk.record.None? {
      forall steps | CanRun(w, steps)
        ensures Actions(Final(w, steps).log) == Actions(w.log)
      {
        NoRecordNoAction(w, steps);
      }
    } else {
      var steps := TwoMoreApprovals(w);
      var v := Final(w, steps);
      assert Publishers(v) != {};
      var c :| c in Publishers(v);
      var more := AllPublish(v, c);
      Compose(w, steps, more);
      assert Actions(Final(w, steps + more).log) >= 2;
    }
  }
}
