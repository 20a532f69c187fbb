/**
  Termination of the workers: without new rows and manual retries only finitely many claims, POSTs and writes
  can still happen, and when nothing is lost the work can always be brought to its end,
  with every row of a still active webhook delivered or abandoned.
*/
module DeliveryTermination {
  import opened QueueTables
  import opened ClaimOrder
  import opened DeliveryProtocol
  import opened DeliverySafety
  import opened DeliveryHistory

  // ---- sums over finite maps ----

  ghost function Sum(m: map<nat, nat>): nat {
    if m == map[] then 0 else
      var k :| k in m;
      m[k] + Sum(m - {k})
  }

  lemma {:induction false} SumWithout(m: map<nat, nat>, k: nat)
    requires k in m
    ensures Sum(m) == m[k] + Sum(m - {k})
    decreases |m|
  {
    var j :| j in m && Sum(m) == m[j] + Sum(m - {j});
    if j != k {
      SumWithout(m - {j}, k);
      SumWithout(m - {k}, j);
      assert m - {j} - {k} == m - {k} - {j};
    }
  }

  lemma SumUpdate(m: map<nat, nat>, k: nat, v: nat)
    ensures Sum(m[k := v]) == v + Sum(m - {k})
    ensures Sum(m) == (if k in m then m[k] else 0) + Sum(m - {k})
  {
    SumWithout(m[k := v], k);
    assert m[k := v] - {k} == m - {k};
    if k in m {
      SumWithout(m, k);
    } else {
      assert m - {k} == m;
    }
  }

  lemma Distribute(c: nat, n: nat)
    ensures c * (n + 1) == c * n + c
  {
  }

  lemma {:induction false} SumLowered(m: map<nat, nat>, n: map<nat, nat>, s: set<nat>, c: nat)
    requires m.Keys == n.Keys && s <= m.Keys
    requires forall k :: k in m ==> m[k] == n[k] + if k in s then c else 0
    ensures Sum(m) == Sum(n) + c * |s|
    decreases |s|
  {
    if s == {} {
      assert m == n;
    } else {
      var k :| k in s;
      SumWithout(m, k);
      SumWithout(n, k);
      SumLowered(m - {k}, n - {k}, s - {k}, c);
      Distribute(c, |s - {k}|);
    }
  }

  // ---- the potential ----

  /** Each remaining attempt of a row pays for its claim, its POST and the two writes after it. */
  function RowWork(d: Delivery): nat {
    if d.attemptCount <= d.maxAttempts then 4 * (d.maxAttempts - d.attemptCount) else 0
  }

  function RunWork(run: Run): nat {
    match run
    case Locked(_, _) => 0
    case Delivering(todo, stage) =>
      var spent := match stage case Ready => 0 case Posted(_) => 1 case Counted(_) => 2;
      if spent <= 3 * |todo| then 3 * |todo| - spent else 0
  }

  function RowWorks(w: World): map<nat, nat> {
    map id | id in w.db.queue :: RowWork(w.db.queue[id])
  }

  function RunWorks(w: World): map<nat, nat> {
    map r | r in w.runs :: RunWork(w.runs[r])
  }

  ghost function Potential(w: World): nat {
    Sum(RowWorks(w)) + Sum(RunWorks(w))
  }

  predicate Progress(step: Step) {
    (step.CommitClaim? && step.order != []) || step.Post? || step.CountOutcome? || step.Mark?
  }

  /** Neither new rows nor fresh attempts for old ones. */
  predicate AddsNoWork(step: Step) {
    !step.StepEnqueue? && !step.StepRetry?
  }

  lemma RunWritten(w: World, w': World, r: nat, run: Run)
    requires w'.runs == w.runs[r := run]
    ensures Sum(RunWorks(w')) + (if r in w.runs then RunWork(w.runs[r]) else 0) == Sum(RunWorks(w)) + RunWork(run)
  {
    SumUpdate(RunWorks(w), r, RunWork(run));
    assert RunWorks(w') == RunWorks(w)[r := RunWork(run)];
  }

  lemma RunRemoved(w: World, w': World, r: nat)
    requires r in w.runs && w'.runs == w.runs - {r}
    ensures Sum(RunWorks(w')) + RunWork(w.runs[r]) == Sum(RunWorks(w))
  {
    SumWithout(RunWorks(w), r);
    assert RunWorks(w') == RunWorks(w) - {r};
  }

  /** Steps other than claims leave every attempt_count alone. */
  lemma RowWorksSame(w: World, step: Step)
    requires Inv(w) && Enabled(w, step) && AddsNoWork(step) && !step.CommitClaim?
    ensures RowWorks(Apply(w, step)) == RowWorks(w)
  {
    hide Inv, Enabled, Apply, NextRow;
    forall id
      ensures id in RowWorks(Apply(w, step)) <==> id in RowWorks(w)
      ensures id in RowWorks(w) ==> RowWorks(Apply(w, step))[id] == RowWorks(w)[id]
    {
      if id in w.db.queue {
        RowStep(w, step, id);
        RowAttempts(w, step, id);
      } else if id in Apply(w, step).db.queue {
        NewRow(w, step, id);
      }
    }
  }

  /** A claim takes one attempt, worth four units, from every row of the batch. */
  lemma ClaimLowersRows(w: World, r: nat, order: seq<nat>)
    requires Inv(w) && Enabled(w, CommitClaim(r, order))
    ensures Sum(RowWorks(w)) == Sum(RowWorks(Apply(w, CommitClaim(r, order)))) + 4 * |order|
  {
    var w' := Apply(w, CommitClaim(r, order));
    assert RunOk(w.db, w.runs[r]);
    hide Inv, RunOk, Attempts, SetRun;
    DistinctSize(order);
    SumLowered(RowWorks(w), RowWorks(w'), w.runs[r].batch, 4);
  }

  lemma ClaimSpends(w: World, r: nat, order: seq<nat>)
    requires Inv(w) && Enabled(w, CommitClaim(r, order))
    ensures Potential(Apply(w, CommitClaim(r, order))) + |order| == Potential(w)
  {
    hide Inv, Sum, RowWorks, RunWorks, Claim;
    var w' := Apply(w, CommitClaim(r, order));
    ClaimLowersRows(w, r, order);
    if order == [] {
      RunRemoved(w, w', r);
    } else {
      RunWritten(w, w', r, w'.runs[r]);
    }
  }

  /** A POST, a count or a mark takes one unit from its own run, which returns after its last mark. */
  lemma RunSpends(w: World, step: Step)
    requires Inv(w) && Enabled(w, step) && (step.Post? || step.CountOutcome? || step.Mark?)
    ensures step.run in w.runs
    ensures var runs := Apply(w, step).runs;
      if step.run in runs
      then runs == w.runs[step.run := runs[step.run]] && RunWork(runs[step.run]) + 1 == RunWork(w.runs[step.run])
      else runs == w.runs - {step.run} && RunWork(w.runs[step.run]) == 1
  {
    hide Inv, CountStatement, MarkStatement, LockedRows, LockedWebhooks;
  }

  lemma WorkSpends(w: World, step: Step)
    requires Inv(w) && Enabled(w, step) && (step.Post? || step.CountOutcome? || step.Mark?)
    ensures Potential(Apply(w, step)) + 1 == Potential(w)
  {
    hide Inv, Enabled, Apply, RowWorks, RunWorks, RunWork, Sum;
    var w' := Apply(w, step);
    RowWorksSame(w, step);
    RunSpends(w, step);
    if step.run in w'.runs {
      RunWritten(w, w', step.run, w'.runs[step.run]);
    } else {
      RunRemoved(w, w', step.run);
    }
  }

  lemma OtherStepsAddNothing(w: World, step: Step)
    requires Inv(w) && Enabled(w, step) && AddsNoWork(step) && !step.CommitClaim? && !step.Post? && !step.CountOutcome? && !step.Mark?
    ensures Potential(Apply(w, step)) <= Potential(w)
  {
    RowWorksSame(w, step);
    hide Inv, RowWorks, RunWorks, Enabled;
    var w' := Apply(w, step);
    if step.SelectDue? {
      RunWritten(w, w', step.run, Locked(step.batch, w.db.now));
    } else if step.AbortClaim? || step.Crash? {
      RunRemoved(w, w', step.run);
    } else {
      assert w'.runs == w.runs;
      assert RunWorks(w') == RunWorks(w);
    }
  }

  lemma PotentialStep(w: World, step: Step)
    requires Inv(w) && Enabled(w, step) && AddsNoWork(step)
    ensures Potential(Apply(w, step)) + (if Progress(step) then 1 else 0) <= Potential(w)
  {
    if step.CommitClaim? {
      hide Inv, Enabled, Apply, Potential;
      ClaimSpends(w, step.run, step.order);
    } else if step.Post? || step.CountOutcome? || step.Mark? {
      hide Inv, Enabled, Apply, Potential;
      WorkSpends(w, step);
    } else {
      OtherStepsAddNothing(w, step);
    }
  }

  function ProgressCount(steps: seq<Step>): nat {
    if steps == [] then 0 else ProgressCount(steps[..|steps| - 1]) + if Progress(steps[|steps| - 1]) then 1 else 0
  }

  /** Whatever is lost: from a reachable state, the claims, POSTs and writes still to come are bounded by its potential. */
  lemma {:induction false} WorkIsBounded(states: seq<World>, steps: seq<Step>)
    requires Execution(states, steps) && Inv(states[0])
    requires forall k :: 0 <= k < |steps| ==> AddsNoWork(steps[k])
    ensures Inv(states[|steps|])
    ensures ProgressCount(steps) + Potential(states[|steps|]) <= Potential(states[0])
  {
    hide Inv, Enabled, Apply, Potential, Progress;
    if steps != [] {
      var n := |steps| - 1;
      LastStep(states, steps, n + 1);
      WorkIsBounded(states[..n + 1], steps[..n]);
      InvKept(states[n], steps[n]);
      PotentialStep(states[n], steps[n]);
    }
  }
}
