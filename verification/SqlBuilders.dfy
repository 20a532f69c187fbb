/**
  The two places that build SQL text from optional inputs, seen as small compilers:
  the builder pushes fragments with numbered placeholders and their values, the database evaluates them,
  and the result must be the direct update or filter.
*/
module SqlBuilders {
  import opened Numbers
  import opened Options

  datatype Value = Text(text: string) | Number(number: int)

  /** $1, $2, ... each once and in order. */
  function Numbering(n: nat): seq<nat> {
    seq(n, i => i + 1)
  }

  /** The value bound to a placeholder; None is the database's error for a missing parameter. */
  function Bound(values: seq<Value>, placeholder: nat): Option<Value> {
    if 1 <= placeholder <= |values| then Some(values[placeholder - 1]) else None
  }

  // ---- AgentWorkspaceRepository.update ----

  datatype Profile = Profile(
    id: string, tenantId: string, userId: string,
    displayName: Value, maxConcurrentCalls: Value, status: Value,
    createdAt: int, updatedAt: int)

  datatype Column = DisplayName | MaxConcurrentCalls | Status

  /** `column = $k`, or the fragment `updated_at = NOW()` that takes no value. */
  datatype Assignment = SetColumn(column: Column, placeholder: nat) | TouchUpdatedAt

  datatype Changes = Changes(displayName: Option<Value>, maxConcurrentCalls: Option<Value>, status: Option<Value>)

  datatype UpdateStatement = UpdateStatement(assignments: seq<Assignment>, idPlaceholder: nat, tenantPlaceholder: nat)

  function SetField(row: Profile, column: Column, v: Value): Profile {
    match column
    case DisplayName => row.(displayName := v)
    case MaxConcurrentCalls => row.(maxConcurrentCalls := v)
    case Status => row.(status := v)
  }

  /** The SET list, from left to right. */
  function Assign(row: Profile, assignments: seq<Assignment>, values: seq<Value>, now: int): Option<Profile>
    decreases |assignments|
  {
    if assignments == [] then Some(row)
    else
      match assignments[0]
      case TouchUpdatedAt => Assign(row.(updatedAt := now), assignments[1..], values, now)
      case SetColumn(column, placeholder) =>
        match Bound(values, placeholder)
        case None => None
        case Some(v) => Assign(SetField(row, column, v), assignments[1..], values, now)
  }

  type Table = map<string, Profile>

  /** UPDATE agent_profiles SET ... WHERE id = $a AND tenant_id = $b RETURNING ...; None is a database error. */
  function ExecuteUpdate(table: Table, stmt: UpdateStatement, values: seq<Value>, now: int): Option<(Table, Option<Profile>)> {
    match (Bound(values, stmt.idPlaceholder), Bound(values, stmt.tenantPlaceholder))
    case (Some(Text(id)), Some(Text(tenantId))) =>
      if id in table && table[id].tenantId == tenantId then
        match Assign(table[id], stmt.assignments, values, now)
        case None => None
        case Some(row) => Some((table[id := row], Some(row)))
      else Some((table, None))
    case _ => None
  }

  function AssignmentPlaceholders(assignments: seq<Assignment>): seq<nat> {
    if assignments == [] then []
    else (match assignments[0] case TouchUpdatedAt => [] case SetColumn(_, k) => [k]) + AssignmentPlaceholders(assignments[1..])
  }

  // The direct meaning.

  function Keep(change: Option<Value>, current: Value): Value {
    if change.Some? then change.value else current
  }

  function ChangedRow(row: Profile, changes: Changes, now: int): Profile {
    row.(displayName := Keep(changes.displayName, row.displayName),
         maxConcurrentCalls := Keep(changes.maxConcurrentCalls, row.maxConcurrentCalls),
         status := Keep(changes.status, row.status),
         updatedAt := now)
  }

  predicate NoChanges(changes: Changes) {
    changes.displayName.None? && changes.maxConcurrentCalls.None? && changes.status.None?
  }

  /** Only the row with that id and tenant, only the given columns; an empty change is a read. */
  function DirectUpdate(table: Table, id: string, tenantId: string, changes: Changes, now: int): (Table, Option<Profile>) {
    if id !in table || table[id].tenantId != tenantId then (table, None)
    else if NoChanges(changes) then (table, Some(table[id]))
    else
      var row := ChangedRow(table[id], changes, now);
      (table[id := row], Some(row))
  }

  class AgentWorkspaceRepository {
    var table: Table

    constructor (table: Table)
      ensures this.table == table
    {
      this.table := table;
    }

    method Update(id: string, tenantId: string, changes: Changes, now: int) returns (row: Option<Profile>)
      modifies this
      ensures (table, row) == DirectUpdate(old(table), id, tenantId, changes, now)
      ensures id !in old(table) || old(table)[id].tenantId != tenantId ==> row.None? && table == old(table)
      ensures id in old(table) && old(table)[id].tenantId == tenantId ==>
        var before := old(table)[id];
        && row.Some? && table == old(table)[id := row.value]
        && row.value == before.(
             displayName := if changes.displayName.Some? then changes.displayName.value else before.displayName,
             maxConcurrentCalls := if changes.maxConcurrentCalls.Some? then changes.maxConcurrentCalls.value else before.maxConcurrentCalls,
             status := if changes.status.Some? then changes.status.value else before.status,
             updatedAt := if changes == Changes(None, None, None) then before.updatedAt else now)
    {
      var fields, values, idx := BuildUpdate(changes);
      if |fields| == 0 {
        return if id in table && table[id].tenantId == tenantId then Some(table[id]) else None;
      }
      ghost var columns, bound := fields, values;
      fields := fields + [TouchUpdatedAt];
      values := values + [Text(id), Text(tenantId)];
      var result := ExecuteUpdate(table, UpdateStatement(fields, idx, idx + 1), values, now);
      if id in table && table[id].tenantId == tenantId {
        UpdateMeansDirect(table[id], columns, bound, Text(id), Text(tenantId), changes, now);
      }
      match result {
        case Some((newTable, newRow)) =>
          table := newTable;
          return newRow;
      }
    }
  }

  /** The three pushes: fragments and values grow together, and `idx` stays one ahead. */
  method BuildUpdate(changes: Changes) returns (fields: seq<Assignment>, values: seq<Value>, idx: nat)
    ensures fields == Fragments(Present(changes)) && values == Values(Present(changes))
    ensures idx == |values| + 1
    ensures AssignmentPlaceholders(fields) == Numbering(|values|)
    ensures fields == [] <==> NoChanges(changes)
  {
    hide AssignmentPlaceholders, Numbering;
    ghost var present: seq<(Column, Value)> := [];
    fields, values, idx := [], [], 1;
    if changes.displayName.Some? {
      fields := fields + [SetColumn(DisplayName, idx)];
      idx := idx + 1;
      values := values + [changes.displayName.value];
      present := Pushed(present, DisplayName, changes.displayName.value);
    }
    if changes.maxConcurrentCalls.Some? {
      fields := fields + [SetColumn(MaxConcurrentCalls, idx)];
      idx := idx + 1;
      values := values + [changes.maxConcurrentCalls.value];
      present := Pushed(present, MaxConcurrentCalls, changes.maxConcurrentCalls.value);
    }
    if changes.status.Some? {
      fields := fields + [SetColumn(Status, idx)];
      idx := idx + 1;
      values := values + [changes.status.value];
      present := Pushed(present, Status, changes.status.value);
    }
    assert present == Present(changes);
    FragmentsAreNumbered(present);
  }

  /** The present changes, in column order. */
  function Present(changes: Changes): seq<(Column, Value)> {
    (if changes.displayName.Some? then [(DisplayName, changes.displayName.value)] else [])
    + (if changes.maxConcurrentCalls.Some? then [(MaxConcurrentCalls, changes.maxConcurrentCalls.value)] else [])
    + (if changes.status.Some? then [(Status, changes.status.value)] else [])
  }

  function Fragments(p: seq<(Column, Value)>): seq<Assignment> {
    seq(|p|, i requires 0 <= i < |p| => SetColumn(p[i].0, i + 1))
  }

  function Values(p: seq<(Column, Value)>): seq<Value> {
    seq(|p|, i requires 0 <= i < |p| => p[i].1)
  }

  ghost function Pushed(p: seq<(Column, Value)>, column: Column, v: Value): (q: seq<(Column, Value)>)
    ensures q == p + [(column, v)]
    ensures Fragments(q) == Fragments(p) + [SetColumn(column, |p| + 1)] && Values(q) == Values(p) + [v]
  {
    p + [(column, v)]
  }

  lemma {:induction false} NumberedInOrder(fields: seq<Assignment>, first: nat)
    requires forall i :: 0 <= i < |fields| ==> fields[i].SetColumn? && fields[i].placeholder == first + i
    ensures AssignmentPlaceholders(fields) == seq(|fields|, i => first + i)
    decreases |fields|
  {
    if fields != [] {
      var rest := fields[1..];
      forall i | 0 <= i < |rest|
        ensures rest[i].SetColumn? && rest[i].placeholder == first + 1 + i
      {
        assert rest[i] == fields[i + 1];
      }
      NumberedInOrder(rest, first + 1);
      assert AssignmentPlaceholders(fields) == [first] + AssignmentPlaceholders(rest);
      hide AssignmentPlaceholders;
    }
  }

  lemma FragmentsAreNumbered(p: seq<(Column, Value)>)
    ensures AssignmentPlaceholders(Fragments(p)) == Numbering(|p|)
  {
    NumberedInOrder(Fragments(p), 1);
    assert seq(|p|, i => 1 + i) == Numbering(|p|);
  }

  function SetAll(row: Profile, present: seq<(Column, Value)>): Profile
    decreases |present|
  {
    if present == [] then row else SetAll(SetField(row, present[0].0, present[0].1), present[1..])
  }

  /** Evaluating numbered fragments from position k on applies the values from position k on. */
  lemma {:induction false} AssignFrom(row: Profile, present: seq<(Column, Value)>, k: nat, fields: seq<Assignment>, values: seq<Value>, now: int)
    requires k <= |present| == |fields| - 1 && |values| >= |present| && fields[|present|] == TouchUpdatedAt
    requires forall i :: 0 <= i < |present| ==> fields[i] == SetColumn(present[i].0, i + 1) && values[i] == present[i].1
    ensures Assign(row, fields[k..], values, now) == Some(SetAll(row, present[k..]).(updatedAt := now))
    decreases |present| - k
  {
    if k < |present| {
      assert fields[k..][1..] == fields[k + 1..] && present[k..][1..] == present[k + 1..];
      AssignFrom(SetField(row, present[k].0, present[k].1), present, k + 1, fields, values, now);
    } else {
      assert fields[k..] == [TouchUpdatedAt];
      assert Assign(row.(updatedAt := now), [], values, now) == Some(row.(updatedAt := now));
    }
  }

  lemma UpdateMeansDirect(row: Profile, fields: seq<Assignment>, values: seq<Value>, id: Value, tenantId: Value, changes: Changes, now: int)
    requires fields == Fragments(Present(changes)) && values == Values(Present(changes))
    ensures Assign(row, fields + [TouchUpdatedAt], values + [id, tenantId], now) == Some(ChangedRow(row, changes, now))
  {
    var present := Present(changes);
    AssignFrom(row, present, 0, fields + [TouchUpdatedAt], values + [id, tenantId], now);
    assert (fields + [TouchUpdatedAt])[0..] == fields + [TouchUpdatedAt];
    SetAllIsChanged(row, changes, now);
    assert present[0..] == present;
  }

  lemma SetAllIsChanged(row: Profile, changes: Changes, now: int)
    ensures SetAll(row, Present(changes)).(updatedAt := now) == ChangedRow(row, changes, now)
  {
    var c := changes.status;
    var b := (if c.Some? then [(Status, c.value)] else []);
    var a := (if changes.maxConcurrentCalls.Some? then [(MaxConcurrentCalls, changes.maxConcurrentCalls.value)] else []) + b;
    StepAll(row, DisplayName, changes.displayName, a);
    var row1 := if changes.displayName.Some? then SetField(row, DisplayName, changes.displayName.value) else row;
    StepAll(row1, MaxConcurrentCalls, changes.maxConcurrentCalls, b);
    var row2 := if changes.maxConcurrentCalls.Some? then SetField(row1, MaxConcurrentCalls, changes.maxConcurrentCalls.value) else row1;
    StepAll(row2, Status, c, []);
    assert b == (if c.Some? then [(Status, c.value)] else []) + [];
    assert Present(changes) == (if changes.displayName.Some? then [(DisplayName, changes.displayName.value)] else []) + a;
  }

  lemma StepAll(row: Profile, column: Column, change: Option<Value>, rest: seq<(Column, Value)>)
    ensures SetAll(row, (if change.Some? then [(column, change.value)] else []) + rest)
         == SetAll(if change.Some? then SetField(row, column, change.value) else row, rest)
  {
    if change.Some? {
      assert ([(column, change.value)] + rest)[1..] == rest;
    } else {
      assert [] + rest == rest;
    }
  }

  // ---- AuditRepository.find ----

  datatype Entry = Entry(
    tenantId: string, action: string, resourceType: string,
    actorId: Option<string>, actorRole: Option<string>, createdAt: int)

  datatype Filter = Filter(
    action: Option<string>, resourceType: Option<string>, actorId: Option<string>,
    actorRole: Option<string>, since: Option<string>, limit: Option<int>)

  datatype AuditColumn = TenantId | Action | ResourceType | ActorId | ActorRole

  datatype Condition = Equals(column: AuditColumn, placeholder: nat) | CreatedSince(placeholder: nat)

  /** A column that is NULL equals nothing. */
  function ColumnValue(row: Entry, column: AuditColumn): Option<string> {
    match column
    case TenantId => Some(row.tenantId)
    case Action => Some(row.action)
    case ResourceType => Some(row.resourceType)
    case ActorId => row.actorId
    case ActorRole => row.actorRole
  }

  /** `time` reads a timestamp as the database does. */
  predicate Holds(row: Entry, c: Condition, values: seq<string>, time: string -> int) {
    match c
    case Equals(column, k) => 1 <= k <= |values| && ColumnValue(row, column) == Some(values[k - 1])
    case CreatedSince(k) => 1 <= k <= |values| && row.createdAt >= time(values[k - 1])
  }

  predicate AllHold(row: Entry, conditions: seq<Condition>, values: seq<string>, time: string -> int) {
    forall i :: 0 <= i < |conditions| ==> Holds(row, conditions[i], values, time)
  }

  /** A filter field counts when it is present and not the empty string. */
  predicate Given(s: Option<string>) {
    s.Some? && s.value != ""
  }

  /** The direct meaning of a filter: the tenant and, of its five optional tests, those with a number below n. */
  predicate MatchesFirst(n: nat, row: Entry, tenantId: string, filter: Filter, time: string -> int) {
    && row.tenantId == tenantId
    && (n > 0 && Given(filter.action) ==> row.action == filter.action.value)
    && (n > 1 && Given(filter.resourceType) ==> row.resourceType == filter.resourceType.value)
    && (n > 2 && Given(filter.actorId) ==> row.actorId == filter.actorId)
    && (n > 3 && Given(filter.actorRole) ==> row.actorRole == filter.actorRole)
    && (n > 4 && Given(filter.since) ==> row.createdAt >= time(filter.since.value))
  }

  predicate Matches(row: Entry, tenantId: string, filter: Filter, time: string -> int) {
    MatchesFirst(5, row, tenantId, filter, time)
  }

  /** On every row the conditions say what the tenant and the first n optional tests say; for n = 5 that is the whole filter. */
  ghost predicate Means(n: nat, conditions: seq<Condition>, values: seq<string>, tenantId: string, filter: Filter, time: string -> int) {
    forall row: Entry :: AllHold(row, conditions, values, time) <==> MatchesFirst(n, row, tenantId, filter, time)
  }

  function ConditionPlaceholder(c: Condition): nat {
    c.placeholder
  }

  /** The pushes of find: every placeholder 1..n is used once, and the conditions mean the filter on every row. */
  method BuildConditions(tenantId: string, filter: Filter, ghost time: string -> int)
    returns (conditions: seq<Condition>, values: seq<string>)
    ensures |conditions| == |values| && Numbered(conditions)
    ensures Means(5, conditions, values, tenantId, filter, time)
  {
    conditions, values := [Equals(TenantId, 1)], [tenantId];
    TenantFirst(tenantId, filter, time);
    hide Means, Numbered, AllHold, MatchesFirst, Matches;
    var idx := 2;
    conditions, values, idx := PushIf(0, filter.action, Equals(Action, idx), conditions, values, idx, tenantId, filter, time);
    conditions, values, idx := PushIf(1, filter.resourceType, Equals(ResourceType, idx), conditions, values, idx, tenantId, filter, time);
    conditions, values, idx := PushIf(2, filter.actorId, Equals(ActorId, idx), conditions, values, idx, tenantId, filter, time);
    conditions, values, idx := PushIf(3, filter.actorRole, Equals(ActorRole, idx), conditions, values, idx, tenantId, filter, time);
    conditions, values, idx := PushIf(4, filter.since, CreatedSince(idx), conditions, values, idx, tenantId, filter, time);
  }

  /** One `if (field) { conditions.push(...); values.push(...); }`. */
  method PushIf(ghost n: nat, field: Option<string>, condition: Condition, conditions: seq<Condition>, values: seq<string>, idx: nat,
                ghost tenantId: string, ghost filter: Filter, ghost time: string -> int)
    returns (newConditions: seq<Condition>, newValues: seq<string>, newIdx: nat)
    requires n < 5 && field == TestField(n, filter) && condition == TestCondition(n, idx)
    requires idx == |conditions| + 1 == |values| + 1 && Numbered(conditions)
    requires Means(n, conditions, values, tenantId, filter, time)
    ensures newIdx == |newConditions| + 1 == |newValues| + 1 && Numbered(newConditions)
    ensures Means(n + 1, newConditions, newValues, tenantId, filter, time)
  {
    newConditions, newValues, newIdx := conditions, values, idx;
    PushOrSkip(n, conditions, values, tenantId, filter, time);
    if Given(field) {
      newConditions := newConditions + [condition];
      newIdx := newIdx + 1;
      newValues := newValues + [field.value];
    }
  }

  /** The n-th optional test: its field and the condition pushed for it. */
  function TestField(n: nat, filter: Filter): Option<string> {
    match n
    case 0 => filter.action
    case 1 => filter.resourceType
    case 2 => filter.actorId
    case 3 => filter.actorRole
    case _ => filter.since
  }

  function TestCondition(n: nat, k: nat): Condition {
    match n
    case 0 => Equals(Action, k)
    case 1 => Equals(ResourceType, k)
    case 2 => Equals(ActorId, k)
    case 3 => Equals(ActorRole, k)
    case _ => CreatedSince(k)
  }

  lemma TenantFirst(tenantId: string, filter: Filter, time: string -> int)
    ensures Numbered([Equals(TenantId, 1)]) && Means(0, [Equals(TenantId, 1)], [tenantId], tenantId, filter, time)
  {
    forall row: Entry
      ensures AllHold(row, [Equals(TenantId, 1)], [tenantId], time) <==> MatchesFirst(0, row, tenantId, filter, time)
    {
      assert [Equals(TenantId, 1)][0] == Equals(TenantId, 1);
    }
  }

  lemma NextTest(n: nat, row: Entry, values: seq<string>, tenantId: string, filter: Filter, time: string -> int)
    requires n < 5
    ensures var f := TestField(n, filter);
      MatchesFirst(n + 1, row, tenantId, filter, time) <==>
        MatchesFirst(n, row, tenantId, filter, time) &&
        (Given(f) ==> Holds(row, TestCondition(n, |values| + 1), values + [f.value], time))
  {
  }

  lemma PushOrSkip(n: nat, conditions: seq<Condition>, values: seq<string>, tenantId: string, filter: Filter, time: string -> int)
    requires n < 5 && |conditions| == |values| && Numbered(conditions) && Means(n, conditions, values, tenantId, filter, time)
    ensures var f := TestField(n, filter);
      if Given(f) then
        && Numbered(conditions + [TestCondition(n, |values| + 1)])
        && Means(n + 1, conditions + [TestCondition(n, |values| + 1)], values + [f.value], tenantId, filter, time)
      else Means(n + 1, conditions, values, tenantId, filter, time)
  {
    var f := TestField(n, filter);
    if Given(f) {
      PushKeepsOthers(conditions, values, TestCondition(n, |values| + 1), f.value, time);
    }
    forall row: Entry
      ensures if Given(f)
              then AllHold(row, conditions + [TestCondition(n, |values| + 1)], values + [f.value], time)
                <==> MatchesFirst(n + 1, row, tenantId, filter, time)
              else AllHold(row, conditions, values, time) <==> MatchesFirst(n + 1, row, tenantId, filter, time)
    {
      NextTest(n, row, values, tenantId, filter, time);
      hide AllHold, Holds, MatchesFirst;
    }
  }

  predicate Numbered(conditions: seq<Condition>) {
    forall i :: 0 <= i < |conditions| ==> ConditionPlaceholder(conditions[i]) == i + 1
  }

  /** Pushing a condition with its value adds one conjunct and leaves the others as they were. */
  lemma PushKeepsOthers(conditions: seq<Condition>, values: seq<string>, c: Condition, v: string, time: string -> int)
    requires |conditions| == |values| && Numbered(conditions) && ConditionPlaceholder(c) == |values| + 1
    ensures forall row: Entry ::
      AllHold(row, conditions + [c], values + [v], time) <==>
        AllHold(row, conditions, values, time) && Holds(row, c, values + [v], time)
  {
    forall row: Entry
      ensures AllHold(row, conditions + [c], values + [v], time)
        <==> AllHold(row, conditions, values, time) && Holds(row, c, values + [v], time)
    {
      forall i | 0 <= i < |conditions|
        ensures Holds(row, conditions[i], values + [v], time) == Holds(row, conditions[i], values, time)
        ensures (conditions + [c])[i] == conditions[i]
      {
        assert ConditionPlaceholder(conditions[i]) == i + 1;
      }
      assert (conditions + [c])[|conditions|] == c;
    }
  }

  const DEFAULT_LIMIT: int := 100
  const MAX_LIMIT: int := 500

  function EffectiveLimit(limit: Option<int>): int {
    var asked := if limit.Some? then limit.value else DEFAULT_LIMIT;
    if asked <= MAX_LIMIT then asked else MAX_LIMIT
  }

  /** The rows of a log that pass a test, in log order. */
  function Selected(log: seq<Entry>, test: Entry -> bool): seq<Entry> {
    if log == [] then [] else (if test(log[0]) then [log[0]] else []) + Selected(log[1..], test)
  }

  // ---- the statement and its answer ----

  predicate NewestFirst(rows: seq<Entry>) {
    forall i, j :: 0 <= i < j < |rows| ==> rows[i].createdAt >= rows[j].createdAt
  }

  /** SELECT ... WHERE conditions ORDER BY created_at DESC LIMIT n: some newest-first listing, cut; ties are free. A negative limit is an error. */
  ghost predicate IsAnswer(log: seq<Entry>, conditions: seq<Condition>, values: seq<string>, limit: int, time: string -> int, answer: Option<seq<Entry>>) {
    if limit < 0 then answer.None?
    else answer.Some? && exists order ::
      && multiset(order) == multiset(Selected(log, row => AllHold(row, conditions, values, time)))
      && NewestFirst(order)
      && answer.value == order[..Min(limit, |order|)]
  }

  /** What find promises, said of the filter alone: the newest matching rows, as many as the limit allows. */
  ghost predicate Finds(log: seq<Entry>, tenantId: string, filter: Filter, time: string -> int, answer: seq<Entry>) {
    var limit := EffectiveLimit(filter.limit);
    && multiset(answer) <= multiset(log)
    && (forall row :: row in answer ==> Matches(row, tenantId, filter, time))
    && NewestFirst(answer)
    && limit >= 0 && |answer| == Min(limit, |MatchingPositions(log, tenantId, filter, time)|)
    && (forall left, taken :: LeftBehind(log, answer, left) && Matches(left, tenantId, filter, time) && taken in answer ==>
          left.createdAt <= taken.createdAt)
  }

  function MatchingPositions(log: seq<Entry>, tenantId: string, filter: Filter, time: string -> int): set<nat> {
    set i | 0 <= i < |log| && Matches(log[i], tenantId, filter, time)
  }

  /** Some copy of the row is in the log and not in the answer. */
  predicate LeftBehind(log: seq<Entry>, answer: seq<Entry>, row: Entry) {
    multiset(answer)[row] < multiset(log)[row]
  }

  lemma {:induction false} SelectedRows(log: seq<Entry>, test: Entry -> bool, row: Entry)
    ensures multiset(Selected(log, test))[row] == if test(row) then multiset(log)[row] else 0
  {
    if log != [] {
      SelectedRows(log[1..], test, row);
      assert log == [log[0]] + log[1..];
      assert multiset(log) == multiset{log[0]} + multiset(log[1..]);
      assert Selected(log, test) == (if test(log[0]) then [log[0]] else []) + Selected(log[1..], test);
    }
  }

  lemma {:induction false} SelectedCount(log: seq<Entry>, conditions: seq<Condition>, values: seq<string>, tenantId: string, filter: Filter, time: string -> int)
    requires Means(5, conditions, values, tenantId, filter, time)
    ensures |Selected(log, row => AllHold(row, conditions, values, time))| == |MatchingPositions(log, tenantId, filter, time)|
    decreases |log|
  {
    hide AllHold, Matches;
    if log != [] {
      var n := |log| - 1;
      SelectedCount(log[..n], conditions, values, tenantId, filter, time);
      assert log == log[..n] + [log[n]];
      SelectedAfter(log[..n], log[n], row => AllHold(row, conditions, values, time));
      SameTest(conditions, values, tenantId, filter, time, log[n]);
      assert MatchingPositions(log, tenantId, filter, time) == MatchingPositions(log[..n], tenantId, filter, time)
        + if Matches(log[n], tenantId, filter, time) then {n} else {};
    }
  }

  lemma SameTest(conditions: seq<Condition>, values: seq<string>, tenantId: string, filter: Filter, time: string -> int, row: Entry)
    requires Means(5, conditions, values, tenantId, filter, time)
    ensures AllHold(row, conditions, values, time) <==> Matches(row, tenantId, filter, time)
  {
  }

  /** Every answer the database may give to a statement that means the filter is what find promises. */
  lemma AnswerIsFound(log: seq<Entry>, conditions: seq<Condition>, values: seq<string>, tenantId: string, filter: Filter, time: string -> int, answer: Option<seq<Entry>>)
    requires Means(5, conditions, values, tenantId, filter, time)
    requires IsAnswer(log, conditions, values, EffectiveLimit(filter.limit), time, answer)
    ensures answer.None? <==> EffectiveLimit(filter.limit) < 0
    ensures answer.Some? ==> Finds(log, tenantId, filter, time, answer.value)
  {
    hide AllHold, Matches, EffectiveLimit, Means;
    var limit := EffectiveLimit(filter.limit);
    if limit >= 0 {
      var test := row => AllHold(row, conditions, values, time);
      var order :| multiset(order) == multiset(Selected(log, test)) && NewestFirst(order) && answer.value == order[..Min(limit, |order|)];
      SelectedCount(log, conditions, values, tenantId, filter, time);
      assert |order| == |multiset(order)| == |Selected(log, test)|;
      forall row
        ensures multiset(order)[row] == if Matches(row, tenantId, filter, time) then multiset(log)[row] else 0
      {
        SelectedRows(log, test, row);
        SameTest(conditions, values, tenantId, filter, time, row);
      }
      CutIsNewest(log, order, Min(limit, |order|), tenantId, filter, time);
    }
  }

  /** A filter in the columns of a row: an absent or empty field passes every row. */
  lemma MatchesInColumns(row: Entry, tenantId: string, filter: Filter, time: string -> int)
    ensures Matches(row, tenantId, filter, time) <==>
      && row.tenantId == tenantId
      && (filter.action in {None, Some("")} || filter.action == Some(row.action))
      && (filter.resourceType in {None, Some("")} || filter.resourceType == Some(row.resourceType))
      && (filter.actorId in {None, Some("")} || filter.actorId == row.actorId)
      && (filter.actorRole in {None, Some("")} || filter.actorRole == row.actorRole)
      && (filter.since in {None, Some("")} || time(filter.since.value) <= row.createdAt)
  {
  }

  /** The answer of find in plain numbers: 100 rows unless a limit is given, never more than 500, the newest ones, newest first. */
  lemma FoundInNumbers(log: seq<Entry>, tenantId: string, filter: Filter, time: string -> int, answer: seq<Entry>)
    requires Finds(log, tenantId, filter, time, answer)
    ensures var limit: int := if filter.limit.None? then 100 else if filter.limit.value > 500 then 500 else filter.limit.value;
      var matching := set i | 0 <= i < |log| && Matches(log[i], tenantId, filter, time);
      && |answer| == (if limit <= |matching| then limit else |matching|)
      && (forall row :: row in answer ==> exists i :: i in matching && log[i] == row)
      && (forall i, taken :: i in matching && multiset(answer)[log[i]] < multiset(log)[log[i]] && taken in answer ==>
            log[i].createdAt <= taken.createdAt)
    ensures multiset(answer) <= multiset(log)
    ensures forall i, j :: 0 <= i < j < |answer| ==> answer[i].createdAt >= answer[j].createdAt
  {
    hide Matches;
    forall row | row in answer
      ensures exists i :: 0 <= i < |log| && log[i] == row
    {
      assert row in multiset(answer);
      assert row in multiset(log);
    }
  }

  lemma CutIsNewest(log: seq<Entry>, order: seq<Entry>, n: nat, tenantId: string, filter: Filter, time: string -> int)
    requires n <= |order| && NewestFirst(order)
    requires forall row :: multiset(order)[row] == if Matches(row, tenantId, filter, time) then multiset(log)[row] else 0
    ensures multiset(order[..n]) <= multiset(log) && NewestFirst(order[..n])
    ensures forall row :: row in order[..n] ==> Matches(row, tenantId, filter, time)
    ensures forall left, taken :: LeftBehind(log, order[..n], left) && Matches(left, tenantId, filter, time) && taken in order[..n] ==>
      left.createdAt <= taken.createdAt
  {
    hide Matches, LeftBehind;
    assert order == order[..n] + order[n..];
    forall row | row in order[..n]
      ensures Matches(row, tenantId, filter, time)
    {
      assert row in multiset(order);
    }
    forall left, taken | LeftBehind(log, order[..n], left) && Matches(left, tenantId, filter, time) && taken in order[..n]
      ensures left.createdAt <= taken.createdAt
    {
      LeftIsOlder(log, order, n, left, taken);
    }
  }

  lemma LeftIsOlder(log: seq<Entry>, order: seq<Entry>, n: nat, left: Entry, taken: Entry)
    requires n <= |order| && NewestFirst(order) && multiset(order)[left] == multiset(log)[left]
    requires LeftBehind(log, order[..n], left) && taken in order[..n]
    ensures left.createdAt <= taken.createdAt
  {
    hide NewestFirst;
    assert order == order[..n] + order[n..];
    assert left in multiset(order[n..]);
    var i :| 0 <= i < n && order[i] == taken;
    var j :| 0 <= j < |order| - n && order[n..][j] == left;
    InOrder(order, i, n + j);
  }

  lemma InOrder(order: seq<Entry>, i: nat, j: nat)
    requires NewestFirst(order) && i < j < |order|
    ensures order[i].createdAt >= order[j].createdAt
  {
  }

  // ---- a database that answers ----

  /** Before the first row that is not newer. */
  function Position(row: Entry, rows: seq<Entry>): (k: nat)
    ensures k <= |rows|
    ensures forall i :: 0 <= i < k ==> rows[i].createdAt > row.createdAt
    ensures k < |rows| ==> row.createdAt >= rows[k].createdAt
  {
    if rows == [] || row.createdAt >= rows[0].createdAt then 0 else 1 + Position(row, rows[1..])
  }

  function Insert(row: Entry, rows: seq<Entry>): seq<Entry> {
    var k := Position(row, rows);
    rows[..k] + [row] + rows[k..]
  }

  lemma InsertKeepsOrder(row: Entry, rows: seq<Entry>)
    requires NewestFirst(rows)
    ensures NewestFirst(Insert(row, rows))
  {
    var k := Position(row, rows);
    hide Position;
    assert forall i :: k <= i < |rows| ==> rows[k].createdAt >= rows[i].createdAt;
  }

  lemma InsertKeepsRows(row: Entry, rows: seq<Entry>)
    ensures multiset(Insert(row, rows)) == multiset(rows) + multiset{row}
  {
    hide Position;
    assert rows == rows[..Position(row, rows)] + rows[Position(row, rows)..];
  }

  lemma SelectedBefore(row: Entry, rest: seq<Entry>, test: Entry -> bool)
    ensures Selected([row] + rest, test) == (if test(row) then [row] else []) + Selected(rest, test)
  {
    assert ([row] + rest)[1..] == rest;
  }

  lemma NothingSelected(test: Entry -> bool)
    ensures Selected([], test) == []
  {
  }

  lemma {:induction false} SelectedAfter(log: seq<Entry>, row: Entry, test: Entry -> bool)
    ensures Selected(log + [row], test) == Selected(log, test) + if test(row) then [row] else []
  {
    hide Selected;
    NothingSelected(test);
    if log == [] {
      assert log + [row] == [row] + [];
      SelectedBefore(row, [], test);
    } else {
      assert log == [log[0]] + log[1..];
      assert log + [row] == [log[0]] + (log[1..] + [row]);
      SelectedBefore(log[0], log[1..], test);
      SelectedBefore(log[0], log[1..] + [row], test);
      SelectedAfter(log[1..], row, test);
    }
  }

  /** What a scan of the log has gathered: the rows selected so far, newest first. */
  ghost predicate Gathered(log: seq<Entry>, test: Entry -> bool, rows: seq<Entry>) {
    NewestFirst(rows) && multiset(rows) == multiset(Selected(log, test))
  }

  lemma GatherNext(log: seq<Entry>, test: Entry -> bool, rows: seq<Entry>, i: nat)
    requires i < |log| && Gathered(log[..i], test, rows)
    ensures Gathered(log[..i + 1], test, if test(log[i]) then Insert(log[i], rows) else rows)
  {
    hide Insert, Selected, NewestFirst;
    assert log[..i + 1] == log[..i] + [log[i]];
    SelectedAfter(log[..i], log[i], test);
    InsertKeepsOrder(log[i], rows);
    InsertKeepsRows(log[i], rows);
  }

  class AuditRepository {
    var log: seq<Entry>

    constructor (log: seq<Entry>)
      ensures this.log == log
    {
      this.log := log;
    }

    /** Evaluates the statement; of rows with equal times the later one in the log comes first. */
    method Query(conditions: seq<Condition>, values: seq<string>, limit: int, time: string -> int) returns (answer: Option<seq<Entry>>)
      ensures IsAnswer(log, conditions, values, limit, time, answer)
    {
      ghost var test := row => AllHold(row, conditions, values, time);
      var rows: seq<Entry> := [];
      var i := 0;
      assert Gathered(log[..0], test, rows);
      hide Gathered, AllHold, Insert, Selected;
      while i < |log|
        invariant i <= |log| && Gathered(log[..i], test, rows)
      {
        GatherNext(log, test, rows, i);
        if AllHold(log[i], conditions, values, time) {
          rows := Insert(log[i], rows);
        }
        i := i + 1;
      }
      assert log[..i] == log;
      answer := if limit < 0 then None else Some(rows[..Min(limit, |rows|)]);
      GatheredIsAnswer(log, conditions, values, limit, time, rows);
    }

    /** None is the database's error for a negative limit. */
    method Find(tenantId: string, filter: Filter, time: string -> int) returns (answer: Option<seq<Entry>>)
      ensures answer.None? <==> filter.limit.Some? && filter.limit.value < 0
      ensures answer.Some? ==> Finds(log, tenantId, filter, time, answer.value)
    {
      var conditions, values := BuildConditions(tenantId, filter, time);
      answer := Query(conditions, values, EffectiveLimit(filter.limit), time);
      AnswerIsFound(log, conditions, values, tenantId, filter, time, answer);
    }
  }

  lemma GatheredIsAnswer(log: seq<Entry>, conditions: seq<Condition>, values: seq<string>, limit: int, time: string -> int, rows: seq<Entry>)
    requires Gathered(log, row => AllHold(row, conditions, values, time), rows)
    ensures IsAnswer(log, conditions, values, limit, time, if limit < 0 then None else Some(rows[..Min(limit, |rows|)]))
  {
    hide AllHold, NewestFirst, Selected;
  }
}
