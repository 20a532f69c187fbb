/**
  Decision calls that overlap. approve ignores whether its conditional update matched, so finality of the
  decision does not carry over to the action: these lemmas say exactly how often the action can still run.
*/
module ApprovalOverlap {
  import opened FiniteSets
  import opened Options
  import opened Approvals

  /** Steps that can be taken one after another from `w`. */
  ghost predicate CanRun(w: World, steps: seq<Step>)
    decreases |steps|
  {
    steps == [] || (Enabled(w, steps[0]) && CanRun(Apply(w, steps[0]), steps[1..]))
  }

  ghost function Final(w: World, steps: seq<Step>): World
    requires CanRun(w, steps)
    decreases |steps|
  {
    if steps == [] then w else Final(Apply(w, steps[0]), steps[1..])
  }

  /** An approve call that read the request as pending and has not run the action yet. */
  predicate WillPublish(desk: Desk, call: Call) {
    && call.decision == Approve
    && (call.phase.RunAction? || (call.phase.MarkRequest? && call.phase.seen.Some?) || (call.phase.FindRecord? && desk.record.Some?))
  }

  ghost function Publishers(w: World): set<nat> {
    set c | c in w.calls && WillPublish(w.desk, w.calls[c])
  }

  lemma RecordStays(w: World, step: Step)
    requires Enabled(w, step)
    ensures Apply(w, step).desk.record.Some? == w.desk.record.Some?
  {
  }

  /** A step moves only its own call. */
  lemma OthersStay(w: World, step: Step)
    requires Enabled(w, step)
    ensures Publishers(Apply(w, step)) - {step.call} == Publishers(w) - {step.call}
  {
    var w' := Apply(w, step);
    RecordStays(w, step);
    hide CallEffect;
    forall d
      ensures d in Publishers(w') - {step.call} <==> d in Publishers(w) - {step.call}
    {
      if d != step.call {
        assert d in w'.calls <==> d in w.calls;
        assert d in w.calls ==> w'.calls[d] == w.calls[d];
      }
    }
  }

  /** Once the request is decided, a call either stays a publisher or runs the action; nobody becomes one. */
  lemma PublisherEffect(desk: Desk, call: Call, c: nat)
    requires !IsPending(desk)
    ensures var effect := CallEffect(desk, call, c);
      && !IsPending(effect.desk)
      && (if effect.event.Some? && effect.event.value.Acted? then 1 else 0)
         + (if effect.next.Some? && WillPublish(effect.desk, call.(phase := effect.next.value)) then 1 else 0)
         == if WillPublish(desk, call) then 1 else if call.phase.RunAction? then 1 else 0
  {
  }

  /** Only approve calls reach the action. */
  ghost predicate ActionsApproved(w: World) {
    forall c :: c in w.calls && w.calls[c].phase.RunAction? ==> w.calls[c].decision == Approve
  }

  lemma ActionsApprovedKept(w: World, step: Step)
    requires ActionsApproved(w) && Enabled(w, step)
    ensures ActionsApproved(Apply(w, step))
  {
  }

  lemma {:induction false} ActionsAlwaysApproved(states: seq<World>, steps: seq<Step>, k: nat)
    requires Execution(states, steps) && k <= |steps|
    ensures ActionsApproved(states[k])
  {
    hide Apply, Enabled;
    if k > 0 {
      LastStep(states, steps, k);
      ActionsAlwaysApproved(states, steps, k - 1);
      ActionsApprovedKept(states[k - 1], steps[k - 1]);
    }
  }

  lemma PublishersAdvance(w: World, c: nat)
    requires c in w.calls && !IsPending(w.desk) && ActionsApproved(w)
    ensures var w' := AdvanceCall(w, c);
      && !IsPending(w'.desk)
      && Actions(w'.log) + |Publishers(w')| == Actions(w.log) + |Publishers(w)|
  {
    var w' := AdvanceCall(w, c);
    OthersStay(w, Advance(c));
    SizeWithout(Publishers(w), c);
    SizeWithout(Publishers(w'), c);
    PublisherEffect(w.desk, w.calls[c], c);
    CountsOnAppend(w.log, CallEffect(w.desk, w.calls[c], c).event);
    hide CallEffect, WillPublish, IsPending, Actions;
    assert c in Publishers(w') <==> c in w'.calls && WillPublish(w'.desk, w'.calls[c]);
  }

  lemma PublishersStep(w: World, step: Step)
    requires Enabled(w, step) && !IsPending(w.desk) && ActionsApproved(w)
    ensures var w' := Apply(w, step);
      && !IsPending(w'.desk)
      && Actions(w'.log) + |Publishers(w')| <= Actions(w.log) + |Publishers(w)|
  {
    hide CallEffect;
    match step
    case Advance(c) => PublishersAdvance(w, c);
    case _ =>
      var w' := Apply(w, step);
      OthersStay(w, step);
      SizeWithout(Publishers(w), step.call);
      SizeWithout(Publishers(w'), step.call);
  }

  lemma {:induction false} AtMost(w: World, steps: seq<Step>)
    requires CanRun(w, steps) && !IsPending(w.desk) && ActionsApproved(w)
    ensures Actions(Final(w, steps).log) <= Actions(w.log) + |Publishers(w)|
    decreases |steps|
  {
    if steps != [] {
      hide Apply, Enabled, Publishers, ActionsApproved, Actions;
      PublishersStep(w, steps[0]);
      ActionsApprovedKept(w, steps[0]);
      AtMost(Apply(w, steps[0]), steps[1..]);
    }
  }

  /** How many steps a publisher still needs before its action. */
  function Distance(phase: Phase): nat {
    match phase
    case FindRecord => 3
    case MarkRequest(_) => 2
    case RunAction(_) => 1
    case _ => 0
  }

  lemma PublisherMoves(w: World, c: nat)
    requires c in Publishers(w) && !IsPending(w.desk) && ActionsApproved(w)
    ensures var w' := AdvanceCall(w, c);
      if w.calls[c].phase.RunAction? then c !in Publishers(w') && Publishers(w') < Publishers(w)
      else Publishers(w') == Publishers(w) && Distance(w'.calls[c].phase) < Distance(w.calls[c].phase)
    ensures AdvanceCall(w, c).desk == w.desk
  {
    var w' := AdvanceCall(w, c);
    OthersStay(w, Advance(c));
    if w.calls[c].phase.RunAction? {
      assert c !in Publishers(w');
      assert Publishers(w') == Publishers(w) - {c};
    } else {
      assert c in Publishers(w');
      assert Publishers(w') == Publishers(w);
    }
  }

  /** Advances one publisher until its action has run. */
  lemma {:induction false} AllPublish(w: World, c: nat) returns (steps: seq<Step>)
    requires c in Publishers(w) && !IsPending(w.desk) && ActionsApproved(w)
    ensures CanRun(w, steps) && Actions(Final(w, steps).log) == Actions(w.log) + |Publishers(w)|
    ensures Final(w, steps).desk == w.desk
    decreases Publishers(w), Distance(w.calls[c].phase)
  {
    var w' := Apply(w, Advance(c));
    PublisherMoves(w, c);
    PublishersAdvance(w, c);
    ActionsApprovedKept(w, Advance(c));
    hide Publishers, AdvanceCall, ActionsApproved, Actions;
    var rest: seq<Step> := [];
    if d :| d in Publishers(w') && (!w.calls[c].phase.RunAction? ==> d == c) {
      rest := AllPublish(w', d);
    }
    steps := [Advance(c)] + rest;
    assert steps[1..] == rest;
  }

  /** Whatever continues, the action runs at most once. */
  ghost predicate AtMostOnce(w: World) {
    forall steps :: CanRun(w, steps) ==> Actions(Final(w, steps).log) <= 1
  }

  /**
    For a decided request: in every continuation the action runs at most once if and only if
    the actions already run and the approve calls that still will run it are together at most one.
  */
  lemma AtMostOnceIff(w: World)
    requires !IsPending(w.desk) && ActionsApproved(w)
    ensures AtMostOnce(w) <==> Actions(w.log) + |Publishers(w)| <= 1
  {
    forall steps | CanRun(w, steps)
      ensures Actions(Final(w, steps).log) <= Actions(w.log) + |Publishers(w)|
    {
      AtMost(w, steps);
    }
    if c :| c in Publishers(w) {
      var steps := AllPublish(w, c);
      assert CanRun(w, steps);
    } else {
      assert Publishers(w) == {};
      assert CanRun(w, []) && Final(w, []) == w;
    }
  }

  /** The promise for a rejected request: whatever happens next, the action has not run and never will. */
  ghost predicate NeverPublished(w: World) {
    forall steps :: CanRun(w, steps) ==> Actions(Final(w, steps).log) == 0
  }

  /** A rejected request is never published if and only if it was not yet, and no approve call is past its read. */
  lemma NeverPublishedIff(w: World)
    requires w.desk.request.Some? && w.desk.request.value.status == Rejected && ActionsApproved(w)
    ensures NeverPublished(w) <==> Actions(w.log) == 0 && Publishers(w) == {}
  {
    hide ActionsApproved, Publishers, Actions;
    assert CanRun(w, []) && Final(w, []) == w;
    if Actions(w.log) == 0 && Publishers(w) == {} {
      forall steps | CanRun(w, steps)
        ensures Actions(Final(w, steps).log) == 0
      {
        AtMost(w, steps);
      }
    } else if c :| c in Publishers(w) {
      var steps := AllPublish(w, c);
      assert |Publishers(w)| > 0;
    }
  }

  /** What can run from a state is a stretch of an execution. */
  lemma {:induction false} RunIsPath(w: World, steps: seq<Step>) returns (states: seq<World>)
    requires CanRun(w, steps)
    ensures Path(states, steps) && states[0] == w && states[|steps|] == Final(w, steps)
    decreases |steps|
  {
    hide Apply, Enabled;
    if steps == [] {
      states := [w];
    } else {
      var rest := RunIsPath(Apply(w, steps[0]), steps[1..]);
      states := [w] + rest;
      forall k | 0 <= k < |steps|
        ensures Enabled(states[k], steps[k]) && states[k + 1] == Apply(states[k], steps[k])
      {
        if k > 0 {
          assert steps[k] == steps[1..][k - 1] && states[k] == rest[k - 1] && states[k + 1] == rest[k];
        }
      }
    }
  }

  // ---- two concrete overlaps ----

  const PENDING: World := World(Desk(Some(Request(Pending, None)), Some(PublishRecord(Publish, PendingApproval))), map[], [])

  /** Both calls have read `pending`; then the first one to mark decides. */
  function Overlap(second: Decision, marker: nat): seq<Step> {
    [Begin(1, Approve, 11), Begin(2, second, 22), Advance(1), Advance(2), Advance(marker), Advance(marker)]
  }

  lemma RunFirst(w: World, a: Step, next: World, rest: seq<Step>, last: World)
    requires Enabled(w, a) && Apply(w, a) == next && CanRun(next, rest) && Final(next, rest) == last
    ensures CanRun(w, [a] + rest) && Final(w, [a] + rest) == last
  {
    assert ([a] + rest)[1..] == rest;
  }

  ghost predicate Takes(w: World, a: Step, next: World) {
    Enabled(w, a) && Apply(w, a) == next
  }

  lemma RunSix(w: seq<World>, s: seq<Step>)
    requires |w| == 7 && |s| == 6 && forall i :: 0 <= i < 6 ==> Takes(w[i], s[i], w[i + 1])
    ensures CanRun(w[0], s) && Final(w[0], s) == w[6]
  {
    hide Apply, Enabled;
    var i := 6;
    while i > 0
      invariant 0 <= i <= 6 && CanRun(w[i], s[i..]) && Final(w[i], s[i..]) == w[6]
    {
      i := i - 1;
      assert Takes(w[i], s[i], w[i + 1]);
      RunFirst(w[i], s[i], w[i + 1], s[i + 1..], w[6]);
      assert s[i..] == [s[i]] + s[i + 1..];
    }
    assert s[0..] == s;
  }

  /** Both calls have begun and read the request. */
  function BothRead(second: Decision): World {
    World(PENDING.desk, map[1 := Call(Approve, 11, FindRecord), 2 := Call(second, 22, FindRecord)], [SawPending(1), SawPending(2)])
  }

  lemma ReachBothRead(second: Decision) returns (w1: World, w2: World, w3: World)
    ensures Takes(PENDING, Begin(1, Approve, 11), w1) && Takes(w1, Begin(2, second, 22), w2)
    ensures Takes(w2, Advance(1), w3) && Takes(w3, Advance(2), BothRead(second))
  {
    w1 := World(PENDING.desk, map[1 := Call(Approve, 11, FindRequest)], []);
    w2 := World(PENDING.desk, map[1 := Call(Approve, 11, FindRequest), 2 := Call(second, 22, FindRequest)], []);
    w3 := World(PENDING.desk, map[1 := Call(Approve, 11, FindRecord), 2 := Call(second, 22, FindRequest)], [SawPending(1)]);
    assert w3.calls[2 := Call(second, 22, FindRecord)] == BothRead(second).calls;
  }

  lemma MarkFirst() returns (w5: World, w6: World)
    ensures Takes(BothRead(Approve), Advance(1), w5) && Takes(w5, Advance(1), w6)
    ensures w6.desk.request == Some(Request(Approved, Some(11))) && Actions(w6.log) == 0 && Publishers(w6) == {1, 2}
  {
    w5 := Apply(BothRead(Approve), Advance(1));
    w6 := Apply(w5, Advance(1));
    assert w6.calls == map[1 := Call(Approve, 11, RunAction(Publish)), 2 := Call(Approve, 22, FindRecord)];
    assert w6.log == [SawPending(1), SawPending(2), Decided(1, Approved)];
    NoActionIn(w6.log);
  }

  lemma MarkSecond() returns (w5: World, w6: World)
    ensures Takes(BothRead(Reject), Advance(2), w5) && Takes(w5, Advance(2), w6)
    ensures w6.desk.request == Some(Request(Rejected, Some(22))) && Actions(w6.log) == 0 && Publishers(w6) == {1}
  {
    w5 := Apply(BothRead(Reject), Advance(2));
    w6 := Apply(w5, Advance(2));
    assert w6.calls == map[1 := Call(Approve, 11, FindRecord), 2 := Call(Reject, 22, SetResult)];
    assert w6.log == [SawPending(1), SawPending(2), Decided(2, Rejected)];
    NoActionIn(w6.log);
  }

  lemma {:induction false} NoActionIn(log: seq<Event>)
    requires forall i :: 0 <= i < |log| ==> !log[i].Acted?
    ensures Actions(log) == 0
  {
    if log != [] {
      NoActionIn(log[..|log| - 1]);
    }
  }

  /** Two overlapping approvals: the request is approved once, yet both calls will run the action. */
  lemma TwoApprovals()
    ensures Init(PENDING) && CanRun(PENDING, Overlap(Approve, 1))
    ensures var w := Final(PENDING, Overlap(Approve, 1));
      && w.desk.request == Some(Request(Approved, Some(11)))
      && Actions(w.log) + |Publishers(w)| == 2
  {
    hide Takes, Publishers;
    var w1, w2, w3 := ReachBothRead(Approve);
    var w5, w6 := MarkFirst();
    RunSix([PENDING, w1, w2, w3, BothRead(Approve), w5, w6], Overlap(Approve, 1));
  }

  /** A rejection that overlaps an approval: the request is rejected, yet the approval will still publish. */
  lemma RejectedYetPublished()
    ensures Init(PENDING) && CanRun(PENDING, Overlap(Reject, 2))
    ensures var w := Final(PENDING, Overlap(Reject, 2));
      && w.desk.request == Some(Request(Rejected, Some(22)))
      && Actions(w.log) == 0 && Publishers(w) == {1}
  {
    hide Takes, Publishers;
    var w1, w2, w3 := ReachBothRead(Reject);
    var w5, w6 := MarkSecond();
    RunSix([PENDING, w1, w2, w3, BothRead(Reject), w5, w6], Overlap(Reject, 2));
  }
}
