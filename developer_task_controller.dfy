/**
 * The developer's side of the task table: the tasks assigned to the caller,
 * moving one of them to another status, and adding a personal task to a
 * project the caller belongs to.
 */
module DeveloperTaskController {
  import opened Common
  import opened Database
  import Query

  function TaskId(t: Task): Id { t.id }

  /** `index`: every task assigned to the caller, newest first. */
  function Index(caller: User, tasks: map<Id, Task>, bound: nat): (r: Reply<seq<Task>>)
    requires TasksKeyed(tasks, bound)
    ensures caller.role != Developer <==> r == Err(Forbidden)
    ensures r.Ok? ==> r.code == 200
    ensures r.Ok? ==> forall t :: t in r.data <==>
      t.id in tasks && tasks[t.id] == t && t.assignedTo == Some(caller.id)
    ensures r.Ok? ==> forall i, j :: 0 <= i < j < |r.data| ==> r.data[i].id > r.data[j].id
  {
    if caller.role != Developer then Err(Forbidden)
    else Ok(200, Query.Select(tasks, (t: Task) => t.assignedTo == Some(caller.id), bound, TaskId))
  }

  function ListedIds(list: seq<Task>): set<Id> {
    set t | t in list :: t.id
  }

  /** Changing the status of a task never adds a task to, or drops one from, a developer's list. */
  lemma StatusChangeKeepsList(caller: User, tasks: map<Id, Task>, bound: nat, taskId: Id, status: string)
    requires TasksKeyed(tasks, bound) && taskId in tasks && caller.role == Developer
    ensures TasksKeyed(tasks[taskId := tasks[taskId].(status := status)], bound)
    ensures ListedIds(Index(caller, tasks[taskId := tasks[taskId].(status := status)], bound).data)
         == ListedIds(Index(caller, tasks, bound).data)
  {
    var after := tasks[taskId := tasks[taskId].(status := status)];
    var before := Index(caller, tasks, bound).data;
    var now := Index(caller, after, bound).data;
    forall k | k in ListedIds(now) ensures k in ListedIds(before) {
      var t :| t in now && t.id == k;
      assert tasks[k] in before;
    }
    forall k | k in ListedIds(before) ensures k in ListedIds(now) {
      var t :| t in before && t.id == k;
      assert after[k] in now;
    }
  }

  /** `updateStatus`: the assignee moves the task to one of the four statuses; nothing else changes. */
  method UpdateStatus(s: Store, caller: User, taskId: Id, status: Option<string>) returns (r: Reply<Task>)
    requires s.Valid()
    modifies s`tasks
    ensures s.Valid()
    ensures taskId !in old(s.tasks) ==> r == Err(NotFound) && unchanged(s)
    ensures taskId in old(s.tasks) && (caller.role != Developer || !IsAssignee(caller.id, old(s.tasks)[taskId])) ==>
      r == Err(Forbidden) && unchanged(s)
    ensures taskId in old(s.tasks) && caller.role == Developer && IsAssignee(caller.id, old(s.tasks)[taskId])
            && !RequiredIn(status, STATUSES) ==>
      r == Err(Invalid({"status"})) && unchanged(s)
    ensures r.Ok? <==>
      taskId in old(s.tasks) && caller.role == Developer && IsAssignee(caller.id, old(s.tasks)[taskId])
      && RequiredIn(status, STATUSES)
    ensures r.Ok? ==>
      && r.code == 200
      && r.data == old(s.tasks)[taskId].(status := status.value)
      && r.data.status in STATUSES
      && s.tasks == old(s.tasks)[taskId := r.data]
  {
    if taskId !in s.tasks {
      return Err(NotFound);
    }
    if caller.role != Developer {
      return Err(Forbidden);
    }
    var task := s.tasks[taskId];
    if !IsAssignee(caller.id, task) {
      return Err(Forbidden);
    }
    if !RequiredIn(status, STATUSES) {
      return Err(Invalid({"status"}));
    }
    var updated := task.(status := status.value);
    s.tasks := s.tasks[taskId := updated];
    r := Ok(200, updated);
  }

  /** The request body of `storePersonal`. `assignedTo` is accepted and ignored. */
  datatype PersonalTaskInput = PersonalTaskInput(
    title: Option<string>,
    description: Option<string>,
    tagId: Option<int>,
    priority: Option<string>,
    dueDate: Option<string>,
    status: Option<string>,
    assignedTo: Option<int>)

  /** `required|integer|exists:tags,id`. */
  predicate TagExists(tags: map<Id, Tag>, tagId: Option<int>) {
    tagId.Some? && tagId.value > 0 && tagId.value as Id in tags
  }

  /** The fields `storePersonal` rejects. */
  function PersonalTaskErrors(tags: map<Id, Tag>, input: PersonalTaskInput, parseDate: string -> Option<int>)
    : (errs: set<string>)
    ensures errs <= {"title", "description", "tag_id", "priority", "due_date", "status"}
    ensures "title" !in errs <==> RequiredLength(input.title, 2, 160)
    ensures "description" !in errs <==> NullableMaxLength(input.description, 3000)
    ensures "tag_id" !in errs <==> TagExists(tags, input.tagId)
    ensures "priority" !in errs <==> NullableIn(input.priority, PRIORITIES)
    ensures "due_date" !in errs <==> NullableDate(input.dueDate, parseDate)
    ensures "status" !in errs <==> NullableIn(input.status, STATUSES)
  {
    (if RequiredLength(input.title, 2, 160) then {} else {"title"})
    + (if NullableMaxLength(input.description, 3000) then {} else {"description"})
    + (if TagExists(tags, input.tagId) then {} else {"tag_id"})
    + (if NullableIn(input.priority, PRIORITIES) then {} else {"priority"})
    + (if NullableDate(input.dueDate, parseDate) then {} else {"due_date"})
    + (if NullableIn(input.status, STATUSES) then {} else {"status"})
  }

  /** `storePersonal`: a member developer adds a task to the project, created by and
      assigned to the caller. The unique (project_id, title) index is not checked by
      validation, so a repeated title is refused by the store. */
  method StorePersonal(s: Store, caller: User, projectId: Id, input: PersonalTaskInput,
                       parseDate: string -> Option<int>)
    returns (r: Reply<Task>)
    requires s.Valid()
    modifies s`tasks, s`nextTask
    ensures s.Valid()
    ensures projectId !in old(s.projects) ==> r == Err(NotFound) && unchanged(s)
    ensures projectId in old(s.projects)
            && (caller.role != Developer || !IsMember(caller.id, old(s.projects)[projectId])) ==>
      r == Err(Forbidden) && unchanged(s)
    ensures projectId in old(s.projects) && caller.role == Developer && IsMember(caller.id, old(s.projects)[projectId])
            && PersonalTaskErrors(old(s.tags), input, parseDate) != {} ==>
      r == Err(Invalid(PersonalTaskErrors(old(s.tags), input, parseDate))) && unchanged(s)
    ensures projectId in old(s.projects) && caller.role == Developer && IsMember(caller.id, old(s.projects)[projectId])
            && PersonalTaskErrors(old(s.tags), input, parseDate) == {}
            && TitleTaken(old(s.tasks), projectId, input.title.value) ==>
      r == Err(DbError) && unchanged(s)
    ensures r.Ok? <==>
      && projectId in old(s.projects) && caller.role == Developer && IsMember(caller.id, old(s.projects)[projectId])
      && PersonalTaskErrors(old(s.tags), input, parseDate) == {}
      && !TitleTaken(old(s.tasks), projectId, input.title.value)
    ensures r.Ok? ==>
      && r.code == 201
      && r.data.id == old(s.nextTask) && r.data.id !in old(s.tasks)
      && r.data.projectId == projectId
      && r.data.createdBy == caller.id
      && r.data.assignedTo == Some(caller.id)
      && r.data.title == input.title.value
      && r.data.description == input.description
      && r.data.tagId as int == input.tagId.value && r.data.tagId in s.tags
      && r.data.status == OrDefault(input.status, "created") && r.data.status in STATUSES
      && r.data.priority == OrDefault(input.priority, "medium") && r.data.priority in PRIORITIES
      && r.data.dueDate == DateValue(input.dueDate, parseDate)
      && s.tasks == old(s.tasks)[r.data.id := r.data]
      // the title is now taken: the same request again gets `DbError`
      && TitleTaken(s.tasks, projectId, r.data.title)
  {
    if projectId !in s.projects {
      return Err(NotFound);
    }
    if caller.role != Developer {
      return Err(Forbidden);
    }
    if !IsMember(caller.id, s.projects[projectId]) {
      return Err(Forbidden);
    }
    var errs := PersonalTaskErrors(s.tags, input, parseDate);
    if errs != {} {
      return Err(Invalid(errs));
    }
    var row := Task(s.nextTask, projectId, input.tagId.value as Id, caller.id, Some(caller.id),
                    input.title.value, input.description,
                    OrDefault(input.status, "created"), OrDefault(input.priority, "medium"),
                    DateValue(input.dueDate, parseDate));
    var id := s.InsertTask(row);
    if id.None? {
      return Err(DbError);
    }
    var task := s.tasks[id.value];
    assert task.id in s.tasks;
    r := Ok(201, task);
  }
}
