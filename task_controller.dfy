/**
 * The product owner's task list of a project, with the optional `status`,
 * `priority` and `tag_id` query filters.
 */
module TaskController {
  import opened Common
  import opened Database
  import Query

  predicate IsDigit(c: char) { '0' <= c <= '9' }

  /** The number of leading characters satisfying `p`. */
  function Span(s: string, p: char -> bool): (n: nat)
    ensures n <= |s|
    ensures forall i :: 0 <= i < n ==> p(s[i])
    ensures n < |s| ==> !p(s[n])
  {
    if s == [] || !p(s[0]) then 0 else 1 + Span(s[1..], p)
  }

  /** The value of a run of decimal digits. */
  function DigitsValue(d: string): nat
    requires forall i :: 0 <= i < |d| ==> IsDigit(d[i])
  {
    if d == [] then 0
    else
      assert IsDigit(d[|d| - 1]);
      DigitsValue(d[..|d| - 1]) * 10 + (d[|d| - 1] as int - '0' as int)
  }

  /** PHP's `(int)` cast of a decimal string: leading whitespace is skipped, an optional
      sign is read, then the longest run of digits; anything else yields 0. */
  function PhpIntCast(s: string): int {
    var rest := s[Span(s, c => c == ' ' || c == '\t' || c == '\n' || c == '\r' || c == 11 as char || c == 12 as char)..];
    if rest != [] && (rest[0] == '-' || rest[0] == '+') then
      var digits := rest[1..][..Span(rest[1..], IsDigit)];
      if rest[0] == '-' then -(DigitsValue(digits) as int) else DigitsValue(digits)
    else
      DigitsValue(rest[..Span(rest, IsDigit)])
  }

  /** The decimal rendering of `n`, as a browser sends a numeric query parameter. */
  function Decimal(n: nat): (d: string)
    ensures |d| > 0 && IsDigit(d[0])
    ensures forall i :: 0 <= i < |d| ==> IsDigit(d[i])
  {
    if n < 10 then [('0' as int + n) as char]
    else Decimal(n / 10) + [('0' as int + n % 10) as char]
  }

  lemma {:induction false} DigitsOfDecimal(n: nat)
    ensures DigitsValue(Decimal(n)) == n
  {
    var d := Decimal(n);
    if n >= 10 {
      assert d[..|d| - 1] == Decimal(n / 10);
      DigitsOfDecimal(n / 10);
    }
  }

  /** The `tag_id` filter reads back the id it was given in decimal. */
  lemma {:induction false} CastOfDecimal(n: nat)
    ensures PhpIntCast(Decimal(n)) == n
  {
    var d := Decimal(n);
    assert Span(d, IsDigit) == |d|;
    assert d[..|d|] == d;
    DigitsOfDecimal(n);
  }

  datatype Filters = Filters(status: Option<string>, priority: Option<string>, tagId: Option<string>)

  /** The `where` clauses the request adds to `project_id = ...`. */
  predicate Matches(f: Filters, projectId: Id, t: Task) {
    && t.projectId == projectId
    && (Filled(f.status) ==> t.status == f.status.value)
    && (Filled(f.priority) ==> t.priority == f.priority.value)
    && (Filled(f.tagId) ==> t.tagId as int == PhpIntCast(f.tagId.value))
  }

  function TaskId(t: Task): Id { t.id }

  /** `index`: the project's tasks that pass every filled filter, newest first. */
  function Index(caller: User, projects: map<Id, Project>, tasks: map<Id, Task>, bound: nat,
                 projectId: Id, f: Filters): (r: Reply<seq<Task>>)
    requires TasksKeyed(tasks, bound)
    ensures projectId !in projects ==> r == Err(NotFound)
    ensures projectId in projects && (caller.role != ProductOwner || !IsMember(caller.id, projects[projectId])) ==>
      r == Err(Forbidden)
    ensures r.Ok? <==> projectId in projects && caller.role == ProductOwner && IsMember(caller.id, projects[projectId])
    ensures r.Ok? ==> r.code == 200
    ensures r.Ok? ==> forall t :: t in r.data <==> t.id in tasks && tasks[t.id] == t && Matches(f, projectId, t)
    ensures r.Ok? ==> forall i, j :: 0 <= i < j < |r.data| ==> r.data[i].id > r.data[j].id
  {
    if projectId !in projects then Err(NotFound)
    else if caller.role != ProductOwner then Err(Forbidden)
    else if !IsMember(caller.id, projects[projectId]) then Err(Forbidden)
    else Ok(200, Query.Select(tasks, (t: Task) => Matches(f, projectId, t), bound, TaskId))
  }

  /** With no filter filled the list is every task of the project. */
  lemma NoFilterListsProject(caller: User, projects: map<Id, Project>, tasks: map<Id, Task>, bound: nat,
                             projectId: Id, f: Filters)
    requires TasksKeyed(tasks, bound) && !Filled(f.status) && !Filled(f.priority) && !Filled(f.tagId)
    requires Index(caller, projects, tasks, bound, projectId, f).Ok?
    ensures forall t :: t in Index(caller, projects, tasks, bound, projectId, f).data <==>
      t.id in tasks && tasks[t.id] == t && t.projectId == projectId
  {
  }

  /** Filling one more filter only removes tasks from the list. */
  lemma StatusFilterNarrows(caller: User, projects: map<Id, Project>, tasks: map<Id, Task>, bound: nat,
                            projectId: Id, f: Filters, status: string)
    requires TasksKeyed(tasks, bound) && !Filled(f.status)
    requires Index(caller, projects, tasks, bound, projectId, f).Ok?
    ensures forall t :: t in Index(caller, projects, tasks, bound, projectId, f.(status := Some(status))).data ==>
      t in Index(caller, projects, tasks, bound, projectId, f).data
  {
  }

  /** A filled `tag_id` that does not start with a number casts to 0 and so matches no task. */
  lemma {:induction false} NonNumericTagFilterMatchesNothing(f: Filters, projectId: Id, t: Task)
    requires Filled(f.tagId) && |f.tagId.value| > 0 && !IsDigit(f.tagId.value[0])
    requires f.tagId.value[0] != '-' && f.tagId.value[0] != '+'
    requires !(f.tagId.value[0] in " \t\n\r" || f.tagId.value[0] == 11 as char || f.tagId.value[0] == 12 as char)
    ensures !Matches(f, projectId, t)
  {
    var s := f.tagId.value;
    assert s[0..] == s;
    assert s[..0] == [];
  }
}
