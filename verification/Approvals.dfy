/**
  Decisions on one approval request: approve and reject as calls that touch the database step by step,
  interleaved in any way. The lifecycle action (publish or rollback) is an opaque counted step,
  and every step may throw.
*/
module Approvals {
  import opened FiniteSets
  import opened Options

  datatype Status = Pending | Approved | Rejected | Expired

  datatype Request = Request(status: Status, decisionBy: Option<nat>)

  datatype ActionType = Publish | Rollback

  datatype PublishResult = PendingApproval | Success | Failed

  datatype PublishRecord = PublishRecord(action: ActionType, result: PublishResult)

  /** The rows that a decision reads and writes: the request and its associated publish record. */
  datatype Desk = Desk(request: Option<Request>, record: Option<PublishRecord>)

  datatype Decision = Approve | Reject

  /** Where a call stands, with what it has read. */
  datatype Phase =
    | FindRequest
    | FindRecord
    | MarkRequest(seen: Option<ActionType>)
    | RunAction(action: ActionType)
    | SetResult
    | WriteAudit

  datatype Call = Call(decision: Decision, user: nat, phase: Phase)

  datatype Event =
    | SawPending(call: nat)
    | Decided(call: nat, status: Status)
    | Acted(call: nat, action: ActionType)
    | ResultSet(call: nat, result: PublishResult)

  datatype World = World(desk: Desk, calls: map<nat, Call>, log: seq<Event>)

  datatype Step = Begin(call: nat, decision: Decision, user: nat) | Advance(call: nat) | Throw(call: nat)

  // ---- statements ----

  predicate IsPending(desk: Desk) {
    desk.request.Some? && desk.request.value.status == Pending
  }

  /** markApproved and markRejected: conditional on the status still being pending. */
  function MarkDecided(desk: Desk, status: Status, user: nat): Desk {
    if IsPending(desk) then desk.(request := Some(Request(status, Some(user)))) else desk
  }

  function UpdateResult(desk: Desk, result: PublishResult): Desk {
    if desk.record.Some? then desk.(record := Some(desk.record.value.(result := result))) else desk
  }

  // ---- one step of a call ----

  /** What one step of a call does: the rows after it, where the call goes (None: it returns or throws), and the log entry. */
  datatype Effect = Effect(desk: Desk, next: Option<Phase>, event: Option<Event>)

  function FindRequestEffect(desk: Desk, c: nat): Effect {
    if IsPending(desk) then Effect(desk, Some(FindRecord), Some(SawPending(c))) else Effect(desk, None, None)
  }

  /** Only approve insists on a publish record. */
  function FindRecordEffect(desk: Desk, decision: Decision): Effect {
    if desk.record.Some? then Effect(desk, Some(MarkRequest(Some(desk.record.value.action))), None)
    else if decision == Reject then Effect(desk, Some(MarkRequest(None)), None)
    else Effect(desk, None, None)
  }

  /** approve goes on whether or not its update matched; reject stops when it did not. */
  function MarkEffect(desk: Desk, call: Call, seen: Option<ActionType>, c: nat): Effect {
    var status := if call.decision == Approve then Approved else Rejected;
    var event := if IsPending(desk) then Some(Decided(c, status)) else None;
    var next :=
      if call.decision == Approve then (if seen.Some? then Some(RunAction(seen.value)) else None)
      else if !IsPending(desk) then None
      else if seen.Some? then Some(SetResult)
      else Some(WriteAudit);
    Effect(MarkDecided(desk, status, call.user), next, event)
  }

  function SetResultEffect(desk: Desk, decision: Decision, c: nat): Effect {
    var result := if decision == Approve then Success else Failed;
    Effect(UpdateResult(desk, result), Some(WriteAudit), Some(ResultSet(c, result)))
  }

  function CallEffect(desk: Desk, call: Call, c: nat): Effect {
    match call.phase
    case FindRequest => FindRequestEffect(desk, c)
    case FindRecord => FindRecordEffect(desk, call.decision)
    case MarkRequest(seen) => MarkEffect(desk, call, seen, c)
    case RunAction(action) => Effect(desk, Some(SetResult), Some(Acted(c, action)))
    case SetResult => SetResultEffect(desk, call.decision, c)
    case WriteAudit => Effect(desk, None, None)
  }

  function Entry(e: Option<Event>): seq<Event> {
    if e.Some? then [e.value] else []
  }

  function AdvanceCall(w: World, c: nat): World
    requires c in w.calls
  {
    var call := w.calls[c];
    var effect := CallEffect(w.desk, call, c);
    World(effect.desk,
          if effect.next.Some? then w.calls[c := call.(phase := effect.next.value)] else w.calls - {c},
          w.log + Entry(effect.event))
  }

  /** A call identifier is used once: it is neither active nor in the log. */
  predicate Fresh(w: World, c: nat) {
    c !in w.calls && forall i :: 0 <= i < |w.log| ==> w.log[i].call != c
  }

  predicate Enabled(w: World, step: Step) {
    match step
    case Begin(c, _, _) => Fresh(w, c)
    case Advance(c) => c in w.calls
    case Throw(c) => c in w.calls
  }

  function Apply(w: World, step: Step): World
    requires Enabled(w, step)
  {
    match step
    case Begin(c, decision, user) => w.(calls := w.calls[c := Call(decision, user, FindRequest)])
    case Advance(c) => AdvanceCall(w, c)
    case Throw(c) => w.(calls := w.calls - {c})
  }

  predicate Init(w: World) {
    && IsPending(w.desk) && w.desk.request.value.decisionBy.None?
    && (w.desk.record.Some? ==> w.desk.record.value.result == PendingApproval)
    && w.calls == map[] && w.log == []
  }

  predicate Path(states: seq<World>, steps: seq<Step>) {
    && |states| == |steps| + 1
    && forall k :: 0 <= k < |steps| ==> Enabled(states[k], steps[k]) && states[k + 1] == Apply(states[k], steps[k])
  }

  predicate Execution(states: seq<World>, steps: seq<Step>) {
    Path(states, steps) && Init(states[0])
  }

  lemma LastStep(states: seq<World>, steps: seq<Step>, k: nat)
    requires Execution(states, steps) && 0 < k <= |steps|
    ensures k < |states| && Enabled(states[k - 1], steps[k - 1]) && states[k] == Apply(states[k - 1], steps[k - 1])
  {
  }

  /** Any call may advance or throw at any time; a throw leaves the rows as they are. */
  lemma ThrowsAnyTime(w: World, c: nat)
    requires c in w.calls
    ensures Enabled(w, Advance(c)) && Enabled(w, Throw(c)) && Apply(w, Throw(c)) == World(w.desk, w.calls - {c}, w.log)
  {
  }

  // ---- finality, for every interleaving ----

  function Decisions(log: seq<Event>): nat {
    if log == [] then 0 else Decisions(log[..|log| - 1]) + if log[|log| - 1].Decided? then 1 else 0
  }

  function Actions(log: seq<Event>): nat {
    if log == [] then 0 else Actions(log[..|log| - 1]) + if log[|log| - 1].Acted? then 1 else 0
  }

  /** Calls that found the request pending. */
  function Readers(log: seq<Event>): nat {
    if log == [] then 0 else Readers(log[..|log| - 1]) + if log[|log| - 1].SawPending? then 1 else 0
  }

  lemma CountsOnAppend(log: seq<Event>, e: Option<Event>)
    ensures Decisions(log + Entry(e)) == Decisions(log) + if e.Some? && e.value.Decided? then 1 else 0
    ensures Actions(log + Entry(e)) == Actions(log) + if e.Some? && e.value.Acted? then 1 else 0
    ensures Readers(log + Entry(e)) == Readers(log) + if e.Some? && e.value.SawPending? then 1 else 0
  {
    if e.Some? {
      assert (log + Entry(e))[..|log|] == log;
    } else {
      assert log + Entry(e) == log;
    }
  }

  ghost predicate DecidedOnce(w: World) {
    && w.desk.request.Some?
    && Decisions(w.log) == (if IsPending(w.desk) then 0 else 1)
  }

  lemma DecideEffect(desk: Desk, call: Call, c: nat)
    requires desk.request.Some?
    ensures var effect := CallEffect(desk, call, c);
      && effect.desk.request.Some?
      && (effect.event.Some? && effect.event.value.Decided? <==> IsPending(desk) && !IsPending(effect.desk))
      && (!IsPending(desk) ==> effect.desk.request == desk.request)
  {
  }

  lemma DecidedOnceKept(w: World, step: Step)
    requires DecidedOnce(w) && Enabled(w, step)
    ensures DecidedOnce(Apply(w, step))
    ensures !IsPending(w.desk) ==> Apply(w, step).desk.request == w.desk.request
  {
    if step.Advance? {
      DecideEffect(w.desk, w.calls[step.call], step.call);
      hide CallEffect, Decisions, IsPending;
      CountsOnAppend(w.log, CallEffect(w.desk, w.calls[step.call], step.call).event);
    }
  }

  lemma InitIsUndecided(w: World)
    requires Init(w)
    ensures DecidedOnce(w)
  {
  }

  /** A request leaves pending at most once. */
  lemma {:induction false} LeavesPendingOnce(states: seq<World>, steps: seq<Step>, k: nat)
    requires Execution(states, steps) && k <= |steps|
    ensures DecidedOnce(states[k])
  {
    hide Apply, Enabled, DecidedOnce;
    if k == 0 {
      InitIsUndecided(states[0]);
    } else {
      LastStep(states, steps, k);
      LeavesPendingOnce(states, steps, k - 1);
      DecidedOnceKept(states[k - 1], steps[k - 1]);
    }
  }

  /** After the decision, neither the status nor decision_by changes again. */
  lemma {:induction false} DecisionIsFinal(states: seq<World>, steps: seq<Step>, j: nat, k: nat)
    requires Execution(states, steps) && j <= k <= |steps| && !IsPending(states[j].desk)
    ensures states[k].desk.request == states[j].desk.request
  {
    hide Apply, Enabled, DecidedOnce;
    if j < k {
      LastStep(states, steps, k);
      DecisionIsFinal(states, steps, j, k - 1);
      LeavesPendingOnce(states, steps, k - 1);
      DecidedOnceKept(states[k - 1], steps[k - 1]);
    }
  }

  // ---- the action that runs ----

  /** The action a call has read and not yet run. */
  predicate Intends(call: Call, action: ActionType) {
    call.phase == MarkRequest(Some(action)) || call.phase == RunAction(action)
  }

  /** What was run, and what any call still means to run, is the action of the associated record. */
  ghost predicate ActionsFit(w: World) {
    && (forall i :: 0 <= i < |w.log| && w.log[i].Acted? ==> w.desk.record.Some? && w.log[i].action == w.desk.record.value.action)
    && (forall c, action :: c in w.calls && Intends(w.calls[c], action) ==> w.desk.record.Some? && w.desk.record.value.action == action)
  }

  lemma ActionsFitKept(w: World, step: Step)
    requires ActionsFit(w) && Enabled(w, step)
    ensures ActionsFit(Apply(w, step))
  {
    if step.Advance? && w.calls[step.call].phase.RunAction? {
      assert Intends(w.calls[step.call], w.calls[step.call].phase.action);
    }
    if step.Advance? && w.calls[step.call].phase.MarkRequest? && w.calls[step.call].phase.seen.Some? {
      assert Intends(w.calls[step.call], w.calls[step.call].phase.seen.value);
    }
  }

  /** No interleaving runs another action than the one of the associated publish record. */
  lemma {:induction false} OnlyTheRecordedAction(states: seq<World>, steps: seq<Step>, k: nat)
    requires Execution(states, steps) && k <= |steps|
    ensures ActionsFit(states[k])
  {
    if k > 0 {
      hide Apply, Enabled, ActionsFit;
      LastStep(states, steps, k);
      OnlyTheRecordedAction(states, steps, k - 1);
      ActionsFitKept(states[k - 1], steps[k - 1]);
    }
  }

  // ---- calls that do not overlap ----

  /** A call begins only when no other is running. */
  predicate Serial(states: seq<World>, steps: seq<Step>) {
    |states| == |steps| + 1 && forall k :: 0 <= k < |steps| && steps[k].Begin? ==> states[k].calls == map[]
  }

  /** What holds between two calls. */
  predicate Settled(desk: Desk, log: seq<Event>) {
    && desk.request.Some?
    && Actions(log) <= 1
    && (IsPending(desk) ==> Actions(log) == 0)
    && (desk.request.value.status == Rejected ==> Actions(log) == 0)
    && (desk.record.Some? && desk.record.value.result == Success ==>
          desk.request.value.status == Approved && Actions(log) == 1)
  }

  predicate OnlyCall(w: World, c: nat) {
    w.calls.Keys == {c}
  }

  /** What holds at each phase of the only running call. */
  predicate PhaseOk(desk: Desk, call: Call, log: seq<Event>) {
    match call.phase
    case FindRequest => true
    case FindRecord => IsPending(desk)
    case MarkRequest(_) => IsPending(desk)
    case RunAction(_) =>
      call.decision == Approve && desk.request.Some? && desk.request.value.status == Approved && Actions(log) == 0
    case SetResult =>
      desk.request.Some? &&
      if call.decision == Approve then desk.request.value.status == Approved && Actions(log) == 1
      else desk.request.value.status == Rejected
    case WriteAudit => true
  }

  ghost predicate SerialOk(w: World) {
    && Settled(w.desk, w.log)
    && forall c :: c in w.calls ==> OnlyCall(w, c) && PhaseOk(w.desk, w.calls[c], w.log)
  }

  lemma CallEffectOk(desk: Desk, call: Call, c: nat, log: seq<Event>)
    requires Settled(desk, log) && PhaseOk(desk, call, log)
    ensures var effect := CallEffect(desk, call, c);
      && Settled(effect.desk, log + Entry(effect.event))
      && (effect.next.Some? ==> PhaseOk(effect.desk, call.(phase := effect.next.value), log + Entry(effect.event)))
  {
    CountsOnAppend(log, CallEffect(desk, call, c).event);
  }

  lemma AdvanceSerial(w: World, c: nat)
    requires SerialOk(w) && c in w.calls
    ensures SerialOk(AdvanceCall(w, c))
  {
    hide CallEffect, Settled, PhaseOk;
    var w' := AdvanceCall(w, c);
    assert OnlyCall(w, c) && PhaseOk(w.desk, w.calls[c], w.log);
    CallEffectOk(w.desk, w.calls[c], c, w.log);
    OnlyCallLeft(w, w', c);
  }

  lemma SerialKept(w: World, step: Step)
    requires SerialOk(w) && Enabled(w, step) && (step.Begin? ==> w.calls == map[])
    ensures SerialOk(Apply(w, step))
  {
    hide AdvanceCall, Settled;
    match step
    case Begin(c, decision, user) =>
      assert Apply(w, step).calls.Keys == {c};
    case Advance(c) =>
      AdvanceSerial(w, c);
    case Throw(c) =>
      assert OnlyCall(w, c);
      assert Apply(w, step).calls == map[];
  }

  lemma OnlyCallLeft(w: World, w': World, c: nat)
    requires OnlyCall(w, c)
    requires w'.calls == w.calls - {c} || (c in w'.calls && w'.calls == w.calls[c := w'.calls[c]])
    ensures forall d :: d in w'.calls ==> d == c && OnlyCall(w', d)
  {
    if c in w'.calls {
      assert w'.calls.Keys == {c};
    }
  }

  lemma InitIsSettled(w: World)
    requires Init(w)
    ensures SerialOk(w)
  {
  }

  /**
    When decision calls do not overlap: the action runs at most once, a publish record says success only if the
    request is approved and the action ran, and a rejected request is never published.
  */
  lemma {:induction false} SerialDecisions(states: seq<World>, steps: seq<Step>, k: nat)
    requires Execution(states, steps) && Serial(states, steps) && k <= |steps|
    ensures SerialOk(states[k])
  {
    hide Apply, Enabled, SerialOk;
    if k == 0 {
      InitIsSettled(states[0]);
    } else {
      LastStep(states, steps, k);
      SerialDecisions(states, steps, k - 1);
      SerialKept(states[k - 1], steps[k - 1]);
    }
  }

  // ---- calls that overlap ----

  /** The action is still to be run for every active approve call between its read and its action. */
  predicate WillAct(call: Call) {
    call.phase.FindRecord? || call.phase.MarkRequest? || call.phase.RunAction?
  }

  ghost function Acting(w: World): set<nat> {
    set c | c in w.calls && WillAct(w.calls[c])
  }

  lemma ActingEffect(desk: Desk, call: Call, c: nat)
    ensures var effect := CallEffect(desk, call, c);
      var acts := if effect.event.Some? && effect.event.value.Acted? then 1 else 0;
      var sawIt := if effect.event.Some? && effect.event.value.SawPending? then 1 else 0;
      var after := if effect.next.Some? && WillAct(call.(phase := effect.next.value)) then 1 else 0;
      acts + after <= sawIt + if WillAct(call) then 1 else 0
  {
  }

  lemma ActingSize(w: World, w': World, c: nat)
    requires w'.calls - {c} == w.calls - {c}
    ensures |Acting(w')| + (if c in w.calls && WillAct(w.calls[c]) then 1 else 0)
         == |Acting(w)| + if c in w'.calls && WillAct(w'.calls[c]) then 1 else 0
  {
    hide WillAct;
    forall d
      ensures d in Acting(w') - {c} <==> d in Acting(w) - {c}
    {
      assert d in w'.calls - {c} <==> d in w.calls - {c};
      if d in w.calls - {c} {
        assert (w'.calls - {c})[d] == (w.calls - {c})[d];
      }
    }
    assert Acting(w') - {c} == Acting(w) - {c};
    SizeWithout(Acting(w), c);
    SizeWithout(Acting(w'), c);
  }

  lemma AdvanceActing(w: World, c: nat)
    requires c in w.calls
    ensures var w' := AdvanceCall(w, c);
      Actions(w'.log) + |Acting(w')| + Readers(w.log) <= Actions(w.log) + |Acting(w)| + Readers(w'.log)
  {
    hide Acting, Actions, Readers, CallEffect, WillAct;
    var w' := AdvanceCall(w, c);
    ActingEffect(w.desk, w.calls[c], c);
    CountsOnAppend(w.log, CallEffect(w.desk, w.calls[c], c).event);
    assert w'.calls - {c} == w.calls - {c};
    ActingSize(w, w', c);
  }

  lemma ActingStep(w: World, step: Step)
    requires Enabled(w, step)
    ensures var w' := Apply(w, step);
      Actions(w'.log) + |Acting(w')| + Readers(w.log) <= Actions(w.log) + |Acting(w)| + Readers(w'.log)
  {
    hide Acting, Actions, Readers, CallEffect, AdvanceCall;
    match step
    case Begin(c, _, _) =>
      assert Apply(w, step).calls - {c} == w.calls - {c};
      ActingSize(w, Apply(w, step), c);
    case Advance(c) =>
      AdvanceActing(w, c);
    case Throw(c) =>
      ActingSize(w, Apply(w, step), c);
  }

  lemma NobodyActs(w: World)
    requires w.calls == map[]
    ensures Acting(w) == {}
  {
  }

  /** In every interleaving, the action runs at most once for each call that found the request pending. */
  lemma {:induction false} ActionsBounded(states: seq<World>, steps: seq<Step>, k: nat)
    requires Execution(states, steps) && k <= |steps|
    ensures Actions(states[k].log) + |Acting(states[k])| <= Readers(states[k].log)
  {
    hide Apply, Enabled, Acting;
    if k == 0 {
      NobodyActs(states[0]);
    } else {
      LastStep(states, steps, k);
      ActionsBounded(states, steps, k - 1);
      ActingStep(states[k - 1], steps[k - 1]);
    }
  }
}
