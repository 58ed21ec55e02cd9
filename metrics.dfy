/**
 * The metrics a product owner sees for one of their projects: the number
 * cards, the status pie, the priority bar and the open-task load per
 * developer. Dates are day numbers and `today` is the server's current day.
 */
module ProjectMetricsController {
  import opened Common
  import opened Database
  import Query

  /** `->where(...)->count()` over the rows `ts`. */
  function Count(ts: seq<Task>, p: Task -> bool): (n: nat)
    ensures n <= |ts|
  {
    if ts == [] then 0
    else Count(ts[..|ts| - 1], p) + (if p(ts[|ts| - 1]) then 1 else 0)
  }

  /** Counting with a predicate that holds for more rows gives no fewer. */
  lemma {:induction false} CountMono(ts: seq<Task>, p: Task -> bool, q: Task -> bool)
    requires forall i :: 0 <= i < |ts| ==> p(ts[i]) ==> q(ts[i])
    ensures Count(ts, p) <= Count(ts, q)
  {
    if ts != [] {
      CountMono(ts[..|ts| - 1], p, q);
    }
  }

  /** Two predicates that agree on every row count the same. */
  lemma CountSame(ts: seq<Task>, p: Task -> bool, q: Task -> bool)
    requires forall i :: 0 <= i < |ts| ==> (p(ts[i]) <==> q(ts[i]))
    ensures Count(ts, p) == Count(ts, q)
  {
    CountMono(ts, p, q);
    CountMono(ts, q, p);
  }

  /** `r` holds exactly where one of the exclusive `p`, `q` holds: the counts add up. */
  lemma {:induction false} CountDisjointUnion(ts: seq<Task>, p: Task -> bool, q: Task -> bool, r: Task -> bool)
    requires forall i :: 0 <= i < |ts| ==> (r(ts[i]) <==> p(ts[i]) || q(ts[i]))
    requires forall i :: 0 <= i < |ts| ==> !(p(ts[i]) && q(ts[i]))
    ensures Count(ts, r) == Count(ts, p) + Count(ts, q)
  {
    if ts != [] {
      CountDisjointUnion(ts[..|ts| - 1], p, q, r);
    }
  }

  /** A predicate that holds on every row counts them all. */
  lemma {:induction false} CountAll(ts: seq<Task>, p: Task -> bool)
    requires forall i :: 0 <= i < |ts| ==> p(ts[i])
    ensures Count(ts, p) == |ts|
  {
    if ts != [] {
      CountAll(ts[..|ts| - 1], p);
    }
  }

  /** A predicate that holds on some row counts at least one. */
  lemma {:induction false} CountWitness(ts: seq<Task>, p: Task -> bool, k: nat)
    requires k < |ts| && p(ts[k])
    ensures Count(ts, p) >= 1
  {
    if k < |ts| - 1 {
      CountWitness(ts[..|ts| - 1], p, k);
    }
  }

  predicate Done(t: Task) { t.status == "done" }
  predicate Open(t: Task) { t.status != "done" }

  /** Open, with a due date before today. */
  predicate Overdue(t: Task, today: int) {
    Open(t) && t.dueDate.Some? && t.dueDate.value < today
  }

  /** Open, due between today and seven days on, both ends included. */
  predicate DueSoon(t: Task, today: int) {
    Open(t) && t.dueDate.Some? && today <= t.dueDate.value <= today + 7
  }

  datatype Cards = Cards(total: nat, open: nat, done: nat, overdue: nat, dueSoon: nat)

  /** The five cards over the project's rows `ts`. */
  function ComputeCards(ts: seq<Task>, today: int): (c: Cards)
    ensures c.total == |ts|
    ensures c.done + c.open == c.total
    ensures c.overdue + c.dueSoon <= c.open
    ensures c.done == Count(ts, Done) && c.open == Count(ts, Open)
    ensures c.overdue == Count(ts, t => Overdue(t, today)) && c.dueSoon == Count(ts, t => DueSoon(t, today))
  {
    var c := Cards(|ts|, Count(ts, Open), Count(ts, Done),
                   Count(ts, t => Overdue(t, today)), Count(ts, t => DueSoon(t, today)));
    CountAll(ts, t => true);
    CountDisjointUnion(ts, Done, Open, t => true);
    CountDisjointUnion(ts, t => Overdue(t, today), t => DueSoon(t, today),
                       t => Overdue(t, today) || DueSoon(t, today));
    CountMono(ts, t => Overdue(t, today) || DueSoon(t, today), Open);
    c
  }

  /** One `['key' => ..., 'value' => ...]` entry of a chart. */
  datatype Slice = Slice(key: string, value: nat)

  /** `(int) ($counts[$key] ?? 0)`: the rows whose `field` is `key`. */
  function KeyCount(ts: seq<Task>, field: Task -> string, key: string): nat {
    Count(ts, t => field(t) == key)
  }

  /** The chart for `keys` in their given order. */
  function Tally(ts: seq<Task>, keys: seq<string>, field: Task -> string): (slices: seq<Slice>)
    ensures |slices| == |keys|
    ensures forall i :: 0 <= i < |keys| ==> slices[i] == Slice(keys[i], KeyCount(ts, field, keys[i]))
  {
    if keys == [] then []
    else Tally(ts, keys[..|keys| - 1], field) + [Slice(keys[|keys| - 1], KeyCount(ts, field, keys[|keys| - 1]))]
  }

  /** The `foreach` that builds a chart from the grouped counts. */
  method Breakdown(ts: seq<Task>, keys: seq<string>, field: Task -> string) returns (slices: seq<Slice>)
    ensures slices == Tally(ts, keys, field)
  {
    slices := [];
    for i := 0 to |keys|
      invariant slices == Tally(ts, keys[..i], field)
    {
      assert keys[..i + 1][..i] == keys[..i];
      slices := slices + [Slice(keys[i], KeyCount(ts, field, keys[i]))];
    }
    assert keys[..|keys|] == keys;
  }

  function SumValues(slices: seq<Slice>): nat {
    if slices == [] then 0 else SumValues(slices[..|slices| - 1]) + slices[|slices| - 1].value
  }

  predicate Distinct<T(==)>(xs: seq<T>) {
    forall i, j :: 0 <= i < j < |xs| ==> xs[i] != xs[j]
  }

  /** The rows whose `field` is one of `keys`. */
  function FieldIn(field: Task -> string, keys: seq<string>): Task -> bool {
    t => field(t) in keys
  }

  /** A chart over distinct keys counts each row whose `field` is one of the keys, once. */
  lemma {:induction false} TallySum(ts: seq<Task>, keys: seq<string>, field: Task -> string)
    requires Distinct(keys)
    ensures SumValues(Tally(ts, keys, field)) == Count(ts, FieldIn(field, keys))
  {
    if keys == [] {
      ZeroCount(ts, FieldIn(field, keys));
    } else {
      var init := keys[..|keys| - 1];
      var last := keys[|keys| - 1];
      TallySum(ts, init, field);
      assert Tally(ts, keys, field)[..|keys| - 1] == Tally(ts, init, field);
      assert last !in init;
      CountDisjointUnion(ts, FieldIn(field, init), t => field(t) == last, FieldIn(field, keys));
    }
  }

  lemma {:induction false} ZeroCount(ts: seq<Task>, p: Task -> bool)
    requires forall i :: 0 <= i < |ts| ==> !p(ts[i])
    ensures Count(ts, p) == 0
  {
    if ts != [] {
      ZeroCount(ts[..|ts| - 1], p);
    }
  }

  function Status(t: Task): string { t.status }
  function Priority(t: Task): string { t.priority }

  /** A chart over distinct keys that every row's `field` is among adds up to the number of rows. */
  lemma TallyCoversRows(ts: seq<Task>, keys: seq<string>, field: Task -> string)
    requires Distinct(keys)
    requires forall i :: 0 <= i < |ts| ==> field(ts[i]) in keys
    ensures SumValues(Tally(ts, keys, field)) == |ts|
  {
    TallySum(ts, keys, field);
    CountAll(ts, FieldIn(field, keys));
  }

  /** When every status is one of the four, the pie's slices add up to the total card. */
  lemma StatusPieCoversTotal(ts: seq<Task>)
    requires forall i :: 0 <= i < |ts| ==> Status(ts[i]) in STATUSES
    ensures SumValues(Tally(ts, STATUSES, Status)) == |ts|
  {
    StatusesDistinct();
    TallyCoversRows(ts, STATUSES, Status);
  }

  /** When every priority is one of the three, the bar adds up to the total card. */
  lemma PriorityBarCoversTotal(ts: seq<Task>)
    requires forall i :: 0 <= i < |ts| ==> Priority(ts[i]) in PRIORITIES
    ensures SumValues(Tally(ts, PRIORITIES, Priority)) == |ts|
  {
    PrioritiesDistinct();
    TallyCoversRows(ts, PRIORITIES, Priority);
  }

  /** A row of the `assigned_to` grouping: an assignee and their open task count. */
  datatype LoadRaw = LoadRaw(assignee: Id, total: nat)

  predicate OpenAssigned(t: Task) { Open(t) && t.assignedTo.Some? }

  /** The open tasks assigned to `id`. */
  function OpenLoad(ts: seq<Task>, id: Id): nat {
    Count(ts, t => OpenAssigned(t) && t.assignedTo.value == id)
  }

  /** The assignees of the open assigned rows, each once. */
  function Assignees(ts: seq<Task>): (ids: seq<Id>)
    ensures Distinct(ids)
    ensures forall x :: x in ids ==> exists i :: 0 <= i < |ts| && OpenAssigned(ts[i]) && ts[i].assignedTo.value == x
    ensures forall i :: 0 <= i < |ts| && OpenAssigned(ts[i]) ==> ts[i].assignedTo.value in ids
  {
    if ts == [] then []
    else
      var ids := Assignees(ts[..|ts| - 1]);
      var t := ts[|ts| - 1];
      if OpenAssigned(t) && t.assignedTo.value !in ids then ids + [t.assignedTo.value] else ids
  }

  /** `groupBy('assigned_to')`: one row per assignee in `ids`. */
  function Group(ts: seq<Task>, ids: seq<Id>): (rows: seq<LoadRaw>)
    ensures |rows| == |ids|
    ensures forall i :: 0 <= i < |ids| ==> rows[i] == LoadRaw(ids[i], OpenLoad(ts, ids[i]))
  {
    if ids == [] then [] else [LoadRaw(ids[0], OpenLoad(ts, ids[0]))] + Group(ts, ids[1..])
  }

  function SumTotals(rows: seq<LoadRaw>): nat {
    if rows == [] then 0 else rows[0].total + SumTotals(rows[1..])
  }

  /** Grouping over distinct assignees counts each open task of theirs once. */
  lemma {:induction false} GroupSum(ts: seq<Task>, ids: seq<Id>)
    requires Distinct(ids)
    ensures SumTotals(Group(ts, ids)) == Count(ts, t => OpenAssigned(t) && t.assignedTo.value in ids)
  {
    if ids == [] {
      ZeroCount(ts, t => OpenAssigned(t) && t.assignedTo.value in ids);
    } else {
      var rest := ids[1..];
      GroupSum(ts, rest);
      assert ids[0] !in rest;
      assert forall x :: x in ids <==> x == ids[0] || x in rest by {
        assert ids == [ids[0]] + rest;
      }
      CountDisjointUnion(ts, t => OpenAssigned(t) && t.assignedTo.value == ids[0],
                         t => OpenAssigned(t) && t.assignedTo.value in rest,
                         t => OpenAssigned(t) && t.assignedTo.value in ids);
    }
  }

  predicate SortedByLoad(rows: seq<LoadRaw>) {
    forall i, j :: 0 <= i < j < |rows| ==> rows[i].total >= rows[j].total
  }

  lemma ConsSortedByLoad(head: LoadRaw, rows: seq<LoadRaw>)
    requires SortedByLoad(rows)
    requires rows != [] ==> head.total >= rows[0].total
    ensures SortedByLoad([head] + rows)
  {
  }

  lemma SortedTail(rows: seq<LoadRaw>)
    requires rows != [] && SortedByLoad(rows)
    ensures SortedByLoad(rows[1..])
  {
  }

  function InsertByLoad(x: LoadRaw, rows: seq<LoadRaw>): (r: seq<LoadRaw>)
    ensures |r| == |rows| + 1
    ensures r[0] == x || (rows != [] && r[0] == rows[0])
  {
    if rows == [] || x.total >= rows[0].total then [x] + rows
    else [rows[0]] + InsertByLoad(x, rows[1..])
  }

  /** Inserting into a list sorted by load keeps it sorted. */
  lemma {:induction false} InsertByLoadSorted(x: LoadRaw, rows: seq<LoadRaw>)
    requires SortedByLoad(rows)
    ensures SortedByLoad(InsertByLoad(x, rows))
  {
    if rows == [] || x.total >= rows[0].total {
      ConsSortedByLoad(x, rows);
    } else {
      SortedTail(rows);
      InsertByLoadSorted(x, rows[1..]);
      assert |rows| > 1 ==> rows[0].total >= rows[1].total;
      ConsSortedByLoad(rows[0], InsertByLoad(x, rows[1..]));
    }
  }

  /** Inserting adds exactly `x`. */
  lemma {:induction false} InsertByLoadAdds(x: LoadRaw, rows: seq<LoadRaw>)
    ensures multiset(InsertByLoad(x, rows)) == multiset(rows) + multiset{x}
  {
    if rows != [] && x.total < rows[0].total {
      InsertByLoadAdds(x, rows[1..]);
      assert rows == [rows[0]] + rows[1..];
    }
  }

  /** Inserting adds exactly `x`'s load to the sum. */
  lemma {:induction false} InsertByLoadSum(x: LoadRaw, rows: seq<LoadRaw>)
    ensures SumTotals(InsertByLoad(x, rows)) == x.total + SumTotals(rows)
  {
    var r := InsertByLoad(x, rows);
    if rows == [] || x.total >= rows[0].total {
      assert r[1..] == rows;
    } else {
      InsertByLoadSum(x, rows[1..]);
      assert r[1..] == InsertByLoad(x, rows[1..]);
    }
  }

  /** `orderByDesc('total')`: a permutation of the grouped rows, largest load first. */
  function SortByLoad(rows: seq<LoadRaw>): (r: seq<LoadRaw>)
    ensures multiset(r) == multiset(rows)
    ensures SortedByLoad(r)
    ensures SumTotals(r) == SumTotals(rows)
  {
    if rows == [] then []
    else
      assert rows == [rows[0]] + rows[1..];
      InsertByLoadAdds(rows[0], SortByLoad(rows[1..]));
      InsertByLoadSum(rows[0], SortByLoad(rows[1..]));
      InsertByLoadSorted(rows[0], SortByLoad(rows[1..]));
      InsertByLoad(rows[0], SortByLoad(rows[1..]))
  }

  /** Every assignee listed holds at least one open task. */
  lemma {:induction false} GroupedLoadsPositive(ts: seq<Task>)
    ensures forall row :: row in Group(ts, Assignees(ts)) ==> row.total >= 1
  {
    var ids := Assignees(ts);
    var grouped := Group(ts, ids);
    forall row | row in grouped ensures row.total >= 1 {
      var k :| 0 <= k < |ids| && grouped[k] == row;
      assert ids[k] in ids;
      var i :| 0 <= i < |ts| && OpenAssigned(ts[i]) && ts[i].assignedTo.value == ids[k];
      CountWitness(ts, t => OpenAssigned(t) && t.assignedTo.value == ids[k], i);
    }
  }

  /** Every assignee of an open task is listed, and the loads add up to the open assigned tasks. */
  lemma {:induction false} GroupedLoadsCover(ts: seq<Task>)
    ensures forall i :: 0 <= i < |ts| && OpenAssigned(ts[i]) ==>
      exists row :: row in Group(ts, Assignees(ts)) && row.assignee == ts[i].assignedTo.value
    ensures SumTotals(Group(ts, Assignees(ts))) == Count(ts, OpenAssigned)
  {
    var ids := Assignees(ts);
    var grouped := Group(ts, ids);
    forall i | 0 <= i < |ts| && OpenAssigned(ts[i])
      ensures exists row :: row in grouped && row.assignee == ts[i].assignedTo.value
    {
      var k :| 0 <= k < |ids| && ids[k] == ts[i].assignedTo.value;
      assert grouped[k] in grouped;
    }
    GroupSum(ts, ids);
    CountSame(ts, t => OpenAssigned(t) && t.assignedTo.value in ids, OpenAssigned);
  }

  /** The developer load rows of the project's tasks `ts`. */
  function LoadRows(ts: seq<Task>): (rows: seq<LoadRaw>)
    ensures SortedByLoad(rows)
    ensures forall row :: row in rows ==> row.total == OpenLoad(ts, row.assignee) && row.total >= 1
    ensures forall i :: 0 <= i < |ts| && OpenAssigned(ts[i]) ==>
      exists row :: row in rows && row.assignee == ts[i].assignedTo.value
    ensures SumTotals(rows) == Count(ts, OpenAssigned)
  {
    var grouped := Group(ts, Assignees(ts));
    var rows := SortByLoad(grouped);
    assert forall row :: row in rows <==> row in grouped by {
      assert forall row :: row in rows <==> row in multiset(grouped);
    }
    GroupedLoadsPositive(ts);
    GroupedLoadsCover(ts);
    rows
  }

  /** The open tasks with an assignee are among the open tasks: the load never exceeds the open card. */
  lemma LoadWithinOpen(ts: seq<Task>, today: int)
    ensures SumTotals(LoadRows(ts)) <= ComputeCards(ts, today).open
  {
    CountMono(ts, OpenAssigned, Open);
  }

  /** One entry of `developer_load`: the assignee's user row (absent if there is none) and the count. */
  datatype LoadRow = LoadRow(developer: Option<User>, openTasks: nat)

  function DeveloperLoad(users: map<Id, User>, rows: seq<LoadRaw>): (load: seq<LoadRow>)
    ensures |load| == |rows|
    ensures forall i :: 0 <= i < |rows| ==> load[i].openTasks == rows[i].total
    ensures forall i :: 0 <= i < |rows| ==> (load[i].developer.Some? <==> rows[i].assignee in users)
    ensures forall i :: 0 <= i < |rows| && rows[i].assignee in users ==> load[i].developer.value == users[rows[i].assignee]
  {
    seq(|rows|, i requires 0 <= i < |rows| =>
      LoadRow(if rows[i].assignee in users then Some(users[rows[i].assignee]) else None, rows[i].total))
  }

  datatype Metrics = Metrics(
    projectId: Id,
    cards: Cards,
    statusPie: seq<Slice>,
    priorityBar: seq<Slice>,
    developerLoad: seq<LoadRow>)

  function TaskId(t: Task): Id { t.id }

  /** `Task::where('project_id', $project->id)`: the project's rows, newest first. */
  function ProjectTasks(tasks: map<Id, Task>, projectId: Id, bound: nat): (ts: seq<Task>)
    requires TasksKeyed(tasks, bound)
    ensures forall t :: t in ts <==> t.id in tasks && tasks[t.id] == t && t.projectId == projectId
    ensures forall i, j :: 0 <= i < j < |ts| ==> ts[i].id > ts[j].id
  {
    Query.Select(tasks, (t: Task) => t.projectId == projectId, bound, TaskId)
  }

  /** `show`. Reads the store and changes nothing. */
  method Show(s: Store, caller: User, projectId: Id, today: int) returns (r: Reply<Metrics>)
    requires s.Valid()
    ensures projectId !in s.projects ==> r == Err(NotFound)
    ensures projectId in s.projects && (caller.role != ProductOwner || !IsMember(caller.id, s.projects[projectId])) ==>
      r == Err(Forbidden)
    ensures r.Ok? <==> projectId in s.projects && caller.role == ProductOwner && IsMember(caller.id, s.projects[projectId])
    ensures r.Ok? ==>
      var ts := ProjectTasks(s.tasks, projectId, s.nextTask);
      r == Ok(200, Metrics(projectId, ComputeCards(ts, today),
                           Tally(ts, STATUSES, Status), Tally(ts, PRIORITIES, Priority),
                           DeveloperLoad(s.users, LoadRows(ts))))
  {
    if projectId !in s.projects {
      return Err(NotFound);
    }
    if caller.role != ProductOwner {
      return Err(Forbidden);
    }
    if !IsMember(caller.id, s.projects[projectId]) {
      return Err(Forbidden);
    }
    var ts := ProjectTasks(s.tasks, projectId, s.nextTask);
    var cards := ComputeCards(ts, today);
    var statusPie := Breakdown(ts, STATUSES, Status);
    var priorityBar := Breakdown(ts, PRIORITIES, Priority);
    var load := DeveloperLoad(s.users, LoadRows(ts));
    r := Ok(200, Metrics(projectId, cards, statusPie, priorityBar, load));
  }
}
