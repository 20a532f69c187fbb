/**
  One call of processDueWebhookDeliveries, as the loop it is, and the proof that an undisturbed call
  is one execution of the protocol.
*/
module AutomationService {
  import opened FiniteSets
  import opened Options
  import opened QueueTables
  import opened ClaimOrder
  import opened Decimals
  import opened DeliveryProtocol
  import opened DeliveryLaws
  import opened AutomationRepository

  /** What the outside world does to one delivery: the POST, the time it takes, and which writes fail unnoticed. */
  datatype Answer = Answer(outcome: Outcome, elapsed: nat, countLost: bool, markLost: bool)

  function Deliver(db: Db, a: Attempt, x: Answer): Db {
    var waited := db.(now := db.now + x.elapsed);
    var counted := if x.countLost then waited else CountStatement(waited, a.webhookId, x.outcome);
    if x.markLost then counted else MarkStatement(counted, a, x.outcome)
  }

  function DeliverAll(db: Db, todo: seq<Attempt>, answers: seq<Answer>): Db
    requires |todo| == |answers|
    decreases |todo|
  {
    if todo == [] then db else DeliverAll(Deliver(db, todo[0], answers[0]), todo[1..], answers[1..])
  }

  /** The deliveries among the first n whose POST was answered with `ok`. */
  function AcceptedAmong(answers: seq<Answer>, n: nat): set<nat>
    requires n <= |answers|
  {
    set i | 0 <= i < n && answers[i].outcome.Accepted?
  }

  lemma BatchFits(db: Db, lockedRows: set<nat>, lockedWebhooks: set<nat>, limit: nat, order: seq<nat>)
    requires Distinct(order) && IsClaimBatch(db.queue, Candidates(db, lockedRows, lockedWebhooks), limit, Elements(order))
    ensures |order| <= limit && Elements(order) <= db.queue.Keys
    ensures forall i :: 0 <= i < |order| ==> order[i] in db.queue
  {
    DistinctSize(order);
    assert forall i :: 0 <= i < |order| ==> order[i] in Elements(order);
  }

  lemma NothingDelivered(db: Db, answers: seq<Answer>)
    ensures DeliverAll(db, [], []) == db && AcceptedAmong(answers, 0) == {}
  {
  }

  lemma DeliverAllStep(db: Db, todo: seq<Attempt>, answers: seq<Answer>, i: nat, n: nat)
    requires i < n == |todo| <= |answers|
    ensures DeliverAll(db, todo[i..], answers[i..n]) == DeliverAll(Deliver(db, todo[i], answers[i]), todo[i + 1..], answers[i + 1..n])
  {
    assert todo[i..][1..] == todo[i + 1..];
    assert answers[i..n][1..] == answers[i + 1..n];
  }

  lemma AcceptedStep(answers: seq<Answer>, i: nat)
    requires i < |answers|
    ensures |AcceptedAmong(answers, i + 1)| == |AcceptedAmong(answers, i)| + if answers[i].outcome.Accepted? then 1 else 0
  {
    assert AcceptedAmong(answers, i + 1) == AcceptedAmong(answers, i) + if answers[i].outcome.Accepted? then {i as nat} else {};
  }

  class Service {
    const repo: Repository

    constructor (repo: Repository)
      ensures this.repo == repo
    {
      this.repo := repo;
    }

    method DeliverClaimedWebhook(a: Attempt, x: Answer) returns (ok: bool)
      requires repo.Valid()
      modifies repo
      ensures repo.Valid() && repo.State() == Deliver(old(repo.State()), a, x)
      ensures ok == x.outcome.Accepted?
      ensures repo.clock == old(repo.clock) + x.elapsed
      ensures x.markLost || a.id !in old(repo.queue) ==> repo.queue == old(repo.queue)
      ensures !x.markLost && a.id in old(repo.queue) && x.outcome.Accepted? ==>
        repo.queue == old(repo.queue)[a.id := old(repo.queue)[a.id].(
          status := Delivered, deliveredAt := Some(repo.clock), lastResponseCode := Some(x.outcome.code), lastError := None)]
      ensures !x.markLost && a.id in old(repo.queue) && !x.outcome.Accepted? ==>
        a.id in repo.queue && repo.queue == old(repo.queue)[a.id := repo.queue[a.id]]
      ensures !x.markLost && a.id in old(repo.queue) && !x.outcome.Accepted? ==>
        && repo.queue[a.id].lastResponseCode == (if x.outcome.Refused? then Some(x.outcome.code) else None)
        && repo.queue[a.id].lastError == Some(
             Cut(if x.outcome.Refused? then "Webhook returned HTTP " + Decimal(x.outcome.code) else x.outcome.message))
        && FailsWith(old(repo.queue)[a.id], repo.queue[a.id], repo.clock, a.attemptCount <= 1)
      ensures x.countLost || a.webhookId !in old(repo.webhooks) ==> repo.webhooks == old(repo.webhooks)
      ensures !x.countLost && a.webhookId in old(repo.webhooks) ==> var hook := old(repo.webhooks)[a.webhookId];
        repo.webhooks == old(repo.webhooks)[a.webhookId :=
          if x.outcome.Accepted? then hook.(failureCount := 0)
          else if hook.revokedAt.None? && hook.disabledAt.None?
          then hook.(failureCount := hook.failureCount + 1, disabledAt := if hook.failureCount >= 4 then Some(repo.clock) else None)
          else hook]
    {
      hide MarkFailed, MarkDelivered, RecordFailure, ResetFailure, Decimal;
      var success := false;
      var responseCode: Option<nat> := None;
      var errorMessage: Option<string> := None;

      repo.Wait(x.elapsed);
      match x.outcome {
        case Accepted(code) =>
          responseCode := Some(code);
          success := true;
          if !x.countLost { repo.ResetDeliveryFailure(a.webhookId); }
        case Refused(code) =>
          responseCode := Some(code);
          errorMessage := Some("Webhook returned HTTP " + Decimal(code));
          if !x.countLost { repo.RecordDeliveryFailure(a.webhookId); }
        case Threw(message) =>
          errorMessage := Some(message);
          if !x.countLost { repo.RecordDeliveryFailure(a.webhookId); }
      }

      if success {
        if !x.markLost { repo.MarkWebhookDeliveryDelivered(a.id, responseCode); }
        return true;
      }
      if !x.markLost {
        repo.MarkWebhookDeliveryFailed(a.id, responseCode, errorMessage, if a.attemptCount <= 1 then 2 else 10);
      }
      return false;
    }

    /** The rows arrive in any order; `answers` is long enough for the largest batch. */
    method ProcessDueWebhookDeliveries(limit: nat, lockedRows: set<nat>, lockedWebhooks: set<nat>, answers: seq<Answer>)
      returns (claimed: nat, delivered: nat, failed: nat, order: seq<nat>)
      requires repo.Valid() && |answers| >= limit
      modifies repo
      ensures repo.Valid()
      ensures Distinct(order) && claimed == |order| <= limit
      ensures IsClaimBatch(old(repo.queue), Candidates(old(repo.State()), lockedRows, lockedWebhooks), limit, Elements(order))
      ensures forall i :: 0 <= i < |order| ==> order[i] in old(repo.queue)
      ensures var db := Claim(old(repo.State()), Elements(order), old(repo.clock));
        repo.State() == DeliverAll(db, Attempts(db, order), answers[..claimed])
      ensures delivered == |set i | 0 <= i < claimed && answers[i].outcome.Accepted?| && claimed == delivered + failed
    {
      hide IsClaimBatch, Candidates, Elements, Distinct, DeliverAll, Deliver;
      var batch := repo.LockDue(limit, lockedRows, lockedWebhooks);
      order := AnyOrder(batch);
      BatchFits(repo.State(), lockedRows, lockedWebhooks, limit, order);
      repo.CommitClaim(batch, repo.clock);
      ghost var db := repo.State();
      var deliveries := Attempts(repo.State(), order);
      delivered, failed := 0, 0;
      var i := 0;
      NothingDelivered(db, answers);
      assert deliveries[0..] == deliveries;
      while i < |deliveries|
        invariant i <= |deliveries| && repo.Valid()
        invariant DeliverAll(repo.State(), deliveries[i..], answers[i..|order|]) == DeliverAll(db, deliveries, answers[..|order|])
        invariant delivered == |AcceptedAmong(answers, i)| && i == delivered + failed
      {
        DeliverAllStep(repo.State(), deliveries, answers, i, |order|);
        AcceptedStep(answers, i);
        var ok := DeliverClaimedWebhook(deliveries[i], answers[i]);
        if ok {
          delivered := delivered + 1;
        } else {
          failed := failed + 1;
        }
        i := i + 1;
      }
      claimed := |deliveries|;
      NothingDelivered(repo.State(), answers);
      assert deliveries[i..] == [] && answers[i..|order|] == [];
    }
  }

  /** RETURNING promises no order. */
  method AnyOrder(batch: set<nat>) returns (order: seq<nat>)
    ensures Distinct(order) && Elements(order) == batch
  {
    order := [];
    var todo := batch;
    while todo != {}
      invariant todo <= batch && Distinct(order) && Elements(order) == batch - todo
      decreases todo
    {
      var id :| id in todo;
      ElementsOfConcatenation(order, [id]);
      assert forall i :: 0 <= i < |order| ==> order[i] in Elements(order);
      order := order + [id];
      todo := todo - {id};
    }
  }

  // ---- an insert is a step of the protocol ----

  lemma {:induction false} IdsFor(db: Db, targets: set<nat>) returns (newIds: map<nat, nat>)
    ensures FreshFor(db, targets, newIds)
    decreases |targets|
  {
    newIds := map[];
    if targets != {} {
      var w :| w in targets;
      var rest := IdsFor(db, targets - {w});
      var id := Unused(db.queue.Keys + rest.Keys);
      OneMoreId(db, targets - {w}, rest, id, w);
      assert (targets - {w}) + {w} == targets;
      newIds := rest[id := w];
    }
  }

  /** An insert never waits: with suitable new ids it is a step in every state. */
  lemma EnqueueNeverWaits(w: World, tenantId: nat, event: string, eventId: nat, maxAttempts: nat) returns (newIds: map<nat, nat>)
    requires maxAttempts >= 1
    ensures Enabled(w, StepEnqueue(tenantId, event, eventId, maxAttempts, newIds))
  {
    newIds := IdsFor(w.db, EnqueueTargets(w.db, tenantId, event, eventId));
  }

  // ---- an undisturbed call is an execution of the protocol ----

  ghost predicate Leads(w: World, steps: seq<Step>, w': World) {
    exists states :: Execution(states, steps) && states[0] == w && states[|steps|] == w'
  }

  lemma OneStep(w: World, step: Step)
    requires Enabled(w, step)
    ensures Leads(w, [step], Apply(w, step))
  {
    assert Execution([w, Apply(w, step)], [step]);
  }

  lemma Chain(a: World, first: seq<Step>, b: World, second: seq<Step>, c: World)
    requires Leads(a, first, b) && Leads(b, second, c)
    ensures Leads(a, first + second, c)
  {
    hide Apply, Enabled;
    var s :| Execution(s, first) && s[0] == a && s[|first|] == b;
    var t :| Execution(t, second) && t[0] == b && t[|second|] == c;
    var states := s + t[1..];
    forall k | 0 <= k < |first + second|
      ensures Enabled(states[k], (first + second)[k]) && states[k + 1] == Apply(states[k], (first + second)[k])
    {
      if k >= |first| {
        assert states[k] == t[k - |first|] && states[k + 1] == t[k + 1 - |first|];
      }
    }
    assert Execution(states, first + second);
  }

  function DeliverySteps(r: nat, x: Answer): seq<Step> {
    [Post(r, x.outcome), Tick(x.elapsed), CountOutcome(r, x.countLost), Mark(r, x.markLost)]
  }

  /** Run `r` is at `stage` with `todo` left, and no claim in flight has locked what it works on. */
  ghost predicate At(w: World, r: nat, todo: seq<Attempt>, stage: Stage) {
    && todo != [] && r in w.runs && w.runs[r] == Delivering(todo, stage)
    && Unlocked(w, todo)
  }

  ghost predicate Unlocked(w: World, todo: seq<Attempt>) {
    forall i :: 0 <= i < |todo| ==> todo[i].id !in LockedRows(w) && todo[i].webhookId !in LockedWebhooks(w)
  }

  /** The same rows for the same webhooks. */
  predicate SameRows(db: Db, db': Db) {
    && db'.queue.Keys == db.queue.Keys
    && forall id :: id in db.queue ==> db'.queue[id].webhookId == db.queue[id].webhookId
  }

  lemma PostFrom(w: World, r: nat, todo: seq<Attempt>, o: Outcome) returns (w': World)
    requires At(w, r, todo, Ready)
    ensures Leads(w, [Post(r, o)], w') && At(w', r, todo, Posted(o)) && w'.db == w.db && w'.runs - {r} == w.runs - {r}
  {
    OneStep(w, Post(r, o));
    w' := Apply(w, Post(r, o));
    SameLocks(w, w', r);
  }

  lemma TickFrom(w: World, r: nat, todo: seq<Attempt>, o: Outcome, elapsed: nat) returns (w': World)
    requires At(w, r, todo, Posted(o))
    ensures Leads(w, [Tick(elapsed)], w') && At(w', r, todo, Posted(o))
    ensures w'.db == w.db.(now := w.db.now + elapsed) && w'.runs == w.runs
  {
    OneStep(w, Tick(elapsed));
    w' := Apply(w, Tick(elapsed));
    SameLocks(w, w', r);
  }

  lemma CountFrom(w: World, r: nat, todo: seq<Attempt>, o: Outcome, lost: bool) returns (w': World)
    requires At(w, r, todo, Posted(o))
    ensures Leads(w, [CountOutcome(r, lost)], w') && At(w', r, todo, Counted(o)) && w'.runs - {r} == w.runs - {r}
    ensures w'.db == if lost then w.db else CountStatement(w.db, todo[0].webhookId, o)
  {
    OneStep(w, CountOutcome(r, lost));
    w' := Apply(w, CountOutcome(r, lost));
    SameLocks(w, w', r);
  }

  lemma MarkFrom(w: World, r: nat, todo: seq<Attempt>, o: Outcome, lost: bool) returns (w': World)
    requires At(w, r, todo, Counted(o))
    ensures Leads(w, [Mark(r, lost)], w') && w'.runs == SetRun(w.runs, r, todo[1..], Ready)
    ensures w'.db == if lost then w.db else MarkStatement(w.db, todo[0], o)
    ensures SameRows(w.db, w'.db)
  {
    OneStep(w, Mark(r, lost));
    w' := Apply(w, Mark(r, lost));
  }

  predicate NotClaiming(w: World, r: nat) {
    r in w.runs ==> w.runs[r].Delivering?
  }

  /** What run `r` does while it delivers leaves the locks of the others as they are. */
  lemma SameLocks(w: World, w': World, r: nat)
    requires NotClaiming(w, r) && NotClaiming(w', r)
    requires w'.runs - {r} == w.runs - {r} && SameRows(w.db, w'.db)
    ensures LockedRows(w') == LockedRows(w) && LockedWebhooks(w') == LockedWebhooks(w)
  {
    LocksKept(w, w', r);
    LocksKept(w', w, r);
  }

  lemma LocksKept(w: World, w': World, r: nat)
    requires NotClaiming(w, r) && w'.runs - {r} == w.runs - {r} && SameRows(w.db, w'.db)
    ensures LockedRows(w) <= LockedRows(w') && LockedWebhooks(w) <= LockedWebhooks(w')
  {
    forall s | Claiming(w, s)
      ensures Claiming(w', s) && w'.runs[s] == w.runs[s]
    {
      RunKept(w.runs, w'.runs, r, s);
    }
    RowsKeepWebhooks(w, w');
  }

  lemma RunKept(runs: map<nat, Run>, runs': map<nat, Run>, r: nat, s: nat)
    requires runs' - {r} == runs - {r} && s in runs && s != r
    ensures s in runs' && runs'[s] == runs[s]
  {
    assert s in runs - {r} && (runs - {r})[s] == runs[s];
    assert s in runs' - {r} && (runs' - {r})[s] == runs'[s];
  }

  lemma RowsKeepWebhooks(w: World, w': World)
    requires SameRows(w.db, w'.db)
    ensures LockedRows(w) <= LockedRows(w') ==> LockedWebhooks(w) <= LockedWebhooks(w')
  {
    hide LockedRows;
  }

  lemma DeliverIsFourSteps(w: World, r: nat, todo: seq<Attempt>, x: Answer) returns (w': World)
    requires At(w, r, todo, Ready)
    ensures Leads(w, DeliverySteps(r, x), w')
    ensures w'.db == Deliver(w.db, todo[0], x)
    ensures |todo| > 1 ==> At(w', r, todo[1..], Ready)
    ensures w'.runs - {r} == w.runs - {r} && (|todo| == 1 ==> w'.runs == w.runs - {r})
  {
    hide Leads, At, CountStatement, MarkStatement;
    var w1 := PostFrom(w, r, todo, x.outcome);
    var w2 := TickFrom(w1, r, todo, x.outcome, x.elapsed);
    var w3 := CountFrom(w2, r, todo, x.outcome, x.countLost);
    w' := MarkFrom(w3, r, todo, x.outcome, x.markLost);
    ChainFour(w, w1, w2, w3, w', Post(r, x.outcome), Tick(x.elapsed), CountOutcome(r, x.countLost), Mark(r, x.markLost));
    AfterMark(w3, w', r, todo, Counted(x.outcome));
    assert w3.runs - {r} == w.runs - {r};
  }

  lemma AfterMark(w: World, w': World, r: nat, todo: seq<Attempt>, stage: Stage)
    requires At(w, r, todo, stage) && w'.runs == SetRun(w.runs, r, todo[1..], Ready) && SameRows(w.db, w'.db)
    ensures |todo| > 1 ==> At(w', r, todo[1..], Ready)
    ensures w'.runs - {r} == w.runs - {r} && (|todo| == 1 ==> w'.runs == w.runs - {r})
  {
    assert w'.runs - {r} == w.runs - {r};
    if |todo| > 1 {
      SameLocks(w, w', r);
    }
  }

  lemma ChainFour(w: World, w1: World, w2: World, w3: World, w4: World, a: Step, b: Step, c: Step, d: Step)
    requires Leads(w, [a], w1) && Leads(w1, [b], w2) && Leads(w2, [c], w3) && Leads(w3, [d], w4)
    ensures Leads(w, [a, b, c, d], w4)
  {
    hide Leads;
    Chain(w, [a], w1, [b], w2);
    Chain(w, [a] + [b], w2, [c], w3);
    Chain(w, [a] + [b] + [c], w3, [d], w4);
    assert [a] + [b] + [c] + [d] == [a, b, c, d];
  }

  function AllSteps(r: nat, answers: seq<Answer>): seq<Step> {
    if answers == [] then [] else DeliverySteps(r, answers[0]) + AllSteps(r, answers[1..])
  }

  lemma {:induction false} DeliverAllIsExecution(w: World, r: nat, todo: seq<Attempt>, answers: seq<Answer>) returns (w': World)
    requires At(w, r, todo, Ready) && |todo| == |answers|
    ensures Leads(w, AllSteps(r, answers), w')
    ensures w'.db == DeliverAll(w.db, todo, answers) && w'.runs == w.runs - {r}
    decreases |todo|
  {
    assert todo != [];
    hide Leads, At, Deliver;
    var mid := DeliverIsFourSteps(w, r, todo, answers[0]);
    if |todo| == 1 {
      w' := mid;
      assert AllSteps(r, answers[1..]) == [];
      assert AllSteps(r, answers) == DeliverySteps(r, answers[0]);
    } else {
      w' := DeliverAllIsExecution(mid, r, todo[1..], answers[1..]);
      Chain(w, DeliverySteps(r, answers[0]), mid, AllSteps(r, answers[1..]), w');
    }
  }

  /** A claim for any locks that other claims hold: one step selects around them, the next updates and unlocks. */
  lemma ClaimIsTwoSteps(w: World, r: nat, limit: nat, stray: set<nat>, order: seq<nat>) returns (w': World)
    requires r !in w.runs && Distinct(order)
    requires IsClaimBatch(w.db.queue, Candidates(w.db, LockedRows(w) + stray, LockedWebhooks(w)), limit, Elements(order))
    requires forall i :: 0 <= i < |order| ==> order[i] in w.db.queue
    ensures Leads(w, [SelectDue(r, limit, stray, Elements(order)), CommitClaim(r, order)], w')
    ensures w'.db == Claim(w.db, Elements(order), w.db.now) && forall i :: 0 <= i < |order| ==> order[i] in w'.db.queue
    ensures w'.runs == SetRun(w.runs[r := Locked(Elements(order), w.db.now)], r, Attempts(w'.db, order), Ready)
  {
    hide Candidates, IsClaimBatch, LockedRows, LockedWebhooks, Leads;
    var select, commit := SelectDue(r, limit, stray, Elements(order)), CommitClaim(r, order);
    OneStep(w, select);
    var w1 := Apply(w, select);
    OneStep(w1, commit);
    w' := Apply(w1, commit);
    Chain(w, [select], w1, [commit], w');
    assert [select] + [commit] == [select, commit];
  }

  /** The claimed rows and their webhooks are locked by nobody else. */
  lemma ClaimedAreUnlocked(w: World, w': World, r: nat, limit: nat, stray: set<nat>, order: seq<nat>)
    requires r !in w.runs && NotClaiming(w', r) && w'.runs - {r} == w.runs
    requires IsClaimBatch(w.db.queue, Candidates(w.db, LockedRows(w) + stray, LockedWebhooks(w)), limit, Elements(order))
    requires forall i :: 0 <= i < |order| ==> order[i] in w.db.queue
    requires w'.db == Claim(w.db, Elements(order), w.db.now)
    ensures Unlocked(w', Attempts(w'.db, order))
  {
    hide LockedRows, LockedWebhooks;
    assert w.runs - {r} == w.runs;
    SameLocks(w, w', r);
    forall i | 0 <= i < |order|
      ensures order[i] in Candidates(w.db, LockedRows(w) + stray, LockedWebhooks(w))
    {
      assert order[i] in Elements(order);
    }
  }

  /**
    Refinement: whatever ProcessDueWebhookDeliveries makes of the tables, with any claims of other runs in flight,
    the protocol can do with one run: select, commit, then POST, count and mark row by row.
  */
  lemma ProcessRefinesProtocol(w: World, r: nat, limit: nat, stray: set<nat>, order: seq<nat>, answers: seq<Answer>)
    returns (steps: seq<Step>, w': World)
    requires r !in w.runs && Distinct(order) && |answers| == |order|
    requires IsClaimBatch(w.db.queue, Candidates(w.db, LockedRows(w) + stray, LockedWebhooks(w)), limit, Elements(order))
    requires forall i :: 0 <= i < |order| ==> order[i] in w.db.queue
    ensures Leads(w, steps, w') && w'.runs == w.runs
    ensures var db := Claim(w.db, Elements(order), w.db.now); w'.db == DeliverAll(db, Attempts(db, order), answers)
  {
    hide Leads, Claim, IsClaimBatch, Candidates, LockedRows, LockedWebhooks, Unlocked, Elements, Distinct;
    var mid := ClaimIsTwoSteps(w, r, limit, stray, order);
    steps := [SelectDue(r, limit, stray, Elements(order)), CommitClaim(r, order)];
    assert mid.runs - {r} == w.runs;
    if order == [] {
      w' := mid;
      assert mid.runs == w.runs;
    } else {
      ClaimedAreUnlocked(w, mid, r, limit, stray, order);
      w' := DeliverAllIsExecution(mid, r, Attempts(mid.db, order), answers);
      Chain(w, steps, mid, AllSteps(r, answers), w');
      steps := steps + AllSteps(r, answers);
    }
  }
}
