/**
  The webhook delivery worker as a protocol: any number of overlapping runs of processDueWebhookDeliveries,
  in any number of processes, interleaved with the operations of the API.
  One claim is two steps (select and lock, then update and unlock), every POST and every later write is a step,
  a write may be lost (`ignoreDeliveryError` swallows database errors), and a run may vanish between two steps.
  A claim may meet stray locks: rows that another claim locked and then skipped because their webhook was locked;
  it keeps those locks to its end although the rows are in no batch.
  `World.log` records what happened; no step reads it.
*/
module DeliveryProtocol {
  import opened Options
  import opened QueueTables
  import opened ClaimOrder
  import opened Decimals

  /** What a run keeps of a claimed row: the columns returned by the claim that later statements use. */
  datatype Attempt = Attempt(id: nat, webhookId: nat, attemptCount: nat)

  /** How a POST ended: a response with `ok`, another response, or an exception of fetch. */
  datatype Outcome = Accepted(code: nat) | Refused(code: nat) | Threw(message: string)

  datatype Stage = Ready | Posted(outcome: Outcome) | Counted(outcome: Outcome)

  datatype Run =
    | Locked(batch: set<nat>, startedAt: nat)
    | Delivering(todo: seq<Attempt>, stage: Stage)

  datatype Event =
    | Claimed(ids: set<nat>, at: nat)
    | PostSent(id: nat, webhookId: nat)
    | FailureRecorded(webhookId: nat)
    | FailureReset(webhookId: nat)
    | Retried(id: nat)

  datatype World = World(db: Db, runs: map<nat, Run>, log: seq<Event>)

  datatype Step =
    | Tick(elapsed: nat)
    | StepCreateWebhook(webhookId: nat, tenantId: nat, events: set<string>)
    | StepRevokeWebhook(webhookId: nat, tenantId: nat)
    | StepEnqueue(tenantId: nat, event: string, eventId: nat, maxAttempts: nat, newIds: map<nat, nat>)
    | StepRetry(id: nat, tenantId: nat)
    | StepDismiss(id: nat, tenantId: nat)
    | SelectDue(run: nat, limit: nat, stray: set<nat>, batch: set<nat>)
    | CommitClaim(run: nat, order: seq<nat>)
    | AbortClaim(run: nat)
    | Post(run: nat, outcome: Outcome)
    | CountOutcome(run: nat, lost: bool)
    | Mark(run: nat, lost: bool)
    | Crash(run: nat)

  // ---- who holds what ----

  predicate Claiming(w: World, r: nat) {
    r in w.runs && w.runs[r].Locked?
  }

  predicate Working(w: World, r: nat) {
    r in w.runs && w.runs[r].Delivering? && w.runs[r].todo != []
  }

  function LockedRows(w: World): set<nat> {
    set r, id | r in w.runs && w.runs[r].Locked? && id in w.runs[r].batch :: id
  }

  /** FOR UPDATE without OF also locks the joined rows of automation_webhooks. */
  function LockedWebhooks(w: World): set<nat> {
    set id | id in LockedRows(w) && id in w.db.queue :: w.db.queue[id].webhookId
  }

  function Head(w: World, r: nat): Attempt
    requires Working(w, r)
  {
    w.runs[r].todo[0]
  }

  // ---- the statements a run issues ----

  function RetryDelaySeconds(attemptCount: nat): nat {
    if attemptCount <= 1 then 2 else 10
  }

  function ResponseCode(o: Outcome): Option<nat> {
    match o
    case Accepted(code) => Some(code)
    case Refused(code) => Some(code)
    case Threw(_) => None
  }

  function ErrorMessage(o: Outcome): Option<string> {
    match o
    case Accepted(_) => None
    case Refused(code) => Some("Webhook returned HTTP " + Decimal(code))
    case Threw(message) => Some(message)
  }

  /** resetDeliveryFailure after a response with `ok`, recordDeliveryFailure otherwise. */
  function CountStatement(db: Db, webhookId: nat, o: Outcome): Db {
    if o.Accepted? then ResetFailure(db, webhookId) else RecordFailure(db, webhookId)
  }

  function MarkStatement(db: Db, a: Attempt, o: Outcome): Db {
    if o.Accepted? then MarkDelivered(db, a.id, ResponseCode(o))
    else MarkFailed(db, a.id, ResponseCode(o), ErrorMessage(o), RetryDelaySeconds(a.attemptCount))
  }

  /** The rows returned by the claim, in the order in which the run will visit them. */
  function Attempts(db: Db, order: seq<nat>): (s: seq<Attempt>)
    requires forall i :: 0 <= i < |order| ==> order[i] in db.queue
  {
    seq(|order|, i requires 0 <= i < |order| =>
      Attempt(order[i], db.queue[order[i]].webhookId, db.queue[order[i]].attemptCount))
  }

  /** A run with nothing left to do has returned. */
  function SetRun(runs: map<nat, Run>, r: nat, todo: seq<Attempt>, stage: Stage): map<nat, Run> {
    if todo == [] then runs - {r} else runs[r := Delivering(todo, stage)]
  }

  // ---- steps ----

  ghost predicate Enabled(w: World, step: Step) {
    match step
    case Tick(_) => true
    case StepCreateWebhook(id, _, _) => id !in w.db.webhooks
    case StepRevokeWebhook(id, _) => id !in LockedWebhooks(w)
    case StepEnqueue(tenantId, event, eventId, maxAttempts, newIds) =>
      maxAttempts >= 1 && FreshFor(w.db, EnqueueTargets(w.db, tenantId, event, eventId), newIds)
    case StepRetry(id, _) => id !in LockedRows(w)
    case StepDismiss(id, _) => id !in LockedRows(w)
    case SelectDue(r, limit, stray, batch) =>
      r !in w.runs && IsClaimBatch(w.db.queue, Candidates(w.db, LockedRows(w) + stray, LockedWebhooks(w)), limit, batch)
    case CommitClaim(r, order) =>
      Claiming(w, r) && Distinct(order) && Elements(order) == w.runs[r].batch && w.runs[r].batch <= w.db.queue.Keys
    case AbortClaim(r) => Claiming(w, r)
    case Post(r, _) => Working(w, r) && w.runs[r].stage.Ready?
    case CountOutcome(r, lost) =>
      Working(w, r) && w.runs[r].stage.Posted? && (lost || Head(w, r).webhookId !in LockedWebhooks(w))
    case Mark(r, lost) => Working(w, r) && w.runs[r].stage.Counted? && (lost || Head(w, r).id !in LockedRows(w))
    case Crash(r) => r in w.runs
  }

  function CommitClaimStep(w: World, r: nat, order: seq<nat>): World
    requires Claiming(w, r) && Elements(order) == w.runs[r].batch && w.runs[r].batch <= w.db.queue.Keys
  {
    var run := w.runs[r];
    var db := Claim(w.db, run.batch, run.startedAt);
    assert forall i :: 0 <= i < |order| ==> order[i] in Elements(order);
    World(db, SetRun(w.runs, r, Attempts(db, order), Ready), w.log + [Claimed(run.batch, run.startedAt)])
  }

  function PostStep(w: World, r: nat, o: Outcome): World
    requires Working(w, r)
  {
    var a := Head(w, r);
    w.(runs := w.runs[r := Delivering(w.runs[r].todo, Posted(o))], log := w.log + [PostSent(a.id, a.webhookId)])
  }

  function CountEvents(db: Db, webhookId: nat, o: Outcome): seq<Event> {
    if o.Accepted? then [FailureReset(webhookId)]
    else if RecordsFailure(db, webhookId) then [FailureRecorded(webhookId)] else []
  }

  function CountStep(w: World, r: nat, lost: bool): World
    requires Working(w, r) && w.runs[r].stage.Posted?
  {
    var run := w.runs[r];
    var hook := run.todo[0].webhookId;
    World(if lost then w.db else CountStatement(w.db, hook, run.stage.outcome),
          w.runs[r := Delivering(run.todo, Counted(run.stage.outcome))],
          if lost then w.log else w.log + CountEvents(w.db, hook, run.stage.outcome))
  }

  function MarkStep(w: World, r: nat, lost: bool): World
    requires Working(w, r) && w.runs[r].stage.Counted?
  {
    var run := w.runs[r];
    w.(db := if lost then w.db else MarkStatement(w.db, run.todo[0], run.stage.outcome),
       runs := SetRun(w.runs, r, run.todo[1..], Ready))
  }

  function Apply(w: World, step: Step): World
    requires Enabled(w, step)
  {
    match step
    case Tick(elapsed) => w.(db := w.db.(now := w.db.now + elapsed))
    case StepCreateWebhook(id, tenantId, events) => w.(db := InsertWebhook(w.db, id, tenantId, events))
    case StepRevokeWebhook(id, tenantId) => w.(db := RevokeWebhook(w.db, id, tenantId))
    case StepEnqueue(tenantId, event, eventId, maxAttempts, newIds) =>
      w.(db := Enqueue(w.db, tenantId, event, eventId, maxAttempts, newIds))
    case StepRetry(id, tenantId) =>
      w.(db := Retry(w.db, id, tenantId), log := w.log + if RetriesRow(w.db, id, tenantId) then [Retried(id)] else [])
    case StepDismiss(id, tenantId) => w.(db := Dismiss(w.db, id, tenantId))
    case SelectDue(r, _, _, batch) => w.(runs := w.runs[r := Locked(batch, w.db.now)])
    case CommitClaim(r, order) => CommitClaimStep(w, r, order)
    case AbortClaim(r) => w.(runs := w.runs - {r})
    case Post(r, o) => PostStep(w, r, o)
    case CountOutcome(r, lost) => CountStep(w, r, lost)
    case Mark(r, lost) => MarkStep(w, r, lost)
    case Crash(r) => w.(runs := w.runs - {r})
  }

  // ---- executions ----

  ghost predicate Init(w: World) {
    w.db.queue == map[] && w.db.webhooks == map[] && w.runs == map[] && w.log == []
  }

  /** `states[k + 1]` is the result of the enabled step `steps[k]` in `states[k]`. */
  ghost predicate Execution(states: seq<World>, steps: seq<Step>) {
    && |states| == |steps| + 1
    && forall k :: 0 <= k < |steps| ==> Enabled(states[k], steps[k]) && states[k + 1] == Apply(states[k], steps[k])
  }

  ghost predicate Started(states: seq<World>, steps: seq<Step>) {
    Execution(states, steps) && Init(states[0])
  }

  lemma LastStep(states: seq<World>, steps: seq<Step>, k: nat)
    requires Execution(states, steps) && 0 < k <= |steps|
    ensures k < |states| && Enabled(states[k - 1], steps[k - 1]) && states[k] == Apply(states[k - 1], steps[k - 1])
  {
  }

  /** One step before an execution. */
  lemma Precede(w: World, step: Step, states: seq<World>, steps: seq<Step>)
    requires Enabled(w, step) && Execution(states, steps) && states[0] == Apply(w, step)
    ensures Execution([w] + states, [step] + steps)
  {
    hide Apply, Enabled;
    var all, more := [w] + states, [step] + steps;
    forall k | 0 <= k < |more|
      ensures Enabled(all[k], more[k]) && all[k + 1] == Apply(all[k], more[k])
    {
      if k > 0 {
        assert all[k] == states[k - 1] && all[k + 1] == states[k] && more[k] == steps[k - 1];
      }
    }
  }
}
