/**
 * Entities of the task tracker's relational store and the outcomes its
 * controller actions return.
 */
module Common {

  datatype Option<T> = None | Some(value: T)

  /** Primary keys are auto-increment values, so never 0. */
  type Id = n: nat | n > 0 witness 1

  datatype Role = ProductOwner | Developer | TaskAdmin

  datatype User = User(id: Id, name: string, email: string, role: Role, password: string)

  /** A project row together with its `project_user` pivot rows. */
  datatype Project = Project(
    id: Id,
    title: string,
    description: Option<string>,
    startDate: Option<int>,   // day number
    endDate: Option<int>,
    members: set<Id>)

  datatype Tag = Tag(id: Id, name: string)

  datatype Task = Task(
    id: Id,
    projectId: Id,
    tagId: Id,
    createdBy: Id,
    assignedTo: Option<Id>,
    title: string,
    description: Option<string>,
    status: string,
    priority: string,
    dueDate: Option<int>)     // day number

  datatype Comment = Comment(id: Id, taskId: Id, userId: Id, content: string)

  /** Why an action did not succeed. Forbidden and BadCredentials are responses the
      controllers build themselves; the others surface as exceptions. */
  datatype Error =
    | Unauthenticated
    | BadCredentials
    | Forbidden
    | NotFound
    | Invalid(fields: set<string>)
    | DbError

  datatype Reply<T> = Ok(code: int, data: T) | Err(error: Error)

  const STATUSES: seq<string> := ["created", "started", "in_progress", "done"]
  const PRIORITIES: seq<string> := ["low", "medium", "high"]

  /** No status is listed twice: the four differ in their first letter. */
  lemma StatusesDistinct()
    ensures forall i, j :: 0 <= i < j < |STATUSES| ==> STATUSES[i] != STATUSES[j]
  {
    assert |STATUSES| == 4;
    assert STATUSES[0][0] == 'c' && STATUSES[1][0] == 's' && STATUSES[2][0] == 'i' && STATUSES[3][0] == 'd';
  }

  /** No priority is listed twice. */
  lemma PrioritiesDistinct()
    ensures forall i, j :: 0 <= i < j < |PRIORITIES| ==> PRIORITIES[i] != PRIORITIES[j]
  {
    assert |PRIORITIES| == 3;
    assert PRIORITIES[0][0] == 'l' && PRIORITIES[1][0] == 'm' && PRIORITIES[2][0] == 'h';
  }

  /** PHP's `(int)` cast of a nullable user column: null becomes 0. */
  function IntCast(fk: Option<Id>): (n: nat)
    ensures n == 0 <==> fk.None?
  {
    if fk.Some? then fk.value else 0
  }

  /** A character PHP's `trim` removes. */
  predicate IsTrimmed(c: char) {
    c == ' ' || c == '\t' || c == '\n' || c == '\r' || c == '\0' || c == 11 as char
  }

  /** `$request->filled(key)`: present, and not empty once trimmed. */
  predicate Filled(v: Option<string>) {
    v.Some? && exists i :: 0 <= i < |v.value| && !IsTrimmed(v.value[i])
  }

  /** Laravel `required|string|max:hi` on a field the input middleware leaves untouched
      (a password): `required` fails on a value that is empty once trimmed. */
  predicate RequiredRaw(s: Option<string>, hi: nat) {
    Filled(s) && |s.value| <= hi
  }

  /** Laravel `required|string|min:lo|max:hi`. */
  predicate RequiredLength(s: Option<string>, lo: nat, hi: nat) {
    s.Some? && lo <= |s.value| <= hi
  }

  /** Laravel `nullable|string|max:hi`. */
  predicate NullableMaxLength(s: Option<string>, hi: nat) {
    s.None? || |s.value| <= hi
  }

  /** Laravel `nullable` + `Rule::in(allowed)`. */
  predicate NullableIn(s: Option<string>, allowed: seq<string>) {
    s.None? || s.value in allowed
  }

  /** Laravel `required` + `Rule::in(allowed)`. */
  predicate RequiredIn(s: Option<string>, allowed: seq<string>) {
    s.Some? && s.value in allowed
  }

  /** Laravel `nullable|date`, with `parseDate` standing for PHP's date parsing. */
  predicate NullableDate(s: Option<string>, parseDate: string -> Option<int>) {
    s.None? || parseDate(s.value).Some?
  }

  /** The stored value of a validated `nullable|date` field. */
  function DateValue(s: Option<string>, parseDate: string -> Option<int>): Option<int> {
    if s.Some? then parseDate(s.value) else None
  }

  /** `$validated[key] ?? default`. */
  function OrDefault(s: Option<string>, fallback: string): string {
    if s.Some? then s.value else fallback
  }

  /** The caller is in the project's pivot rows (`$project->users()->where('users.id', ...)->exists()`). */
  predicate IsMember(userId: Id, project: Project) {
    userId in project.members
  }

  /** The caller is the task's current assignee, compared after `(int)` casts as the controllers do. */
  predicate IsAssignee(userId: Id, task: Task) {
    IntCast(task.assignedTo) == userId
  }

  lemma {:induction false} IsAssigneeExactly(userId: Id, task: Task)
    ensures IsAssignee(userId, task) <==> task.assignedTo == Some(userId)
  {
    if task.assignedTo.None? {
      assert IntCast(task.assignedTo) == 0;
    }
  }
}
