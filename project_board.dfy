/**
 * The product owner's board page: tasks grouped into one column per status,
 * tag colours, the error line shown after a failed request, and the create,
 * edit and quick-move forms with the request bodies they send.
 * The request itself is the parameter `send`, given the endpoint and the body:
 * `None` is a success, `Some(err)` the rejected promise. Reloading the lists after a success is not modelled.
 */
module ProjectBoard {
  import opened Common
  import ExceptionRender

  datatype Column = Column(key: string, caption: string)

  /** The board's columns, left to right. */
  const COLUMNS: seq<Column> := [
    Column("created", "Created"), Column("started", "Started"),
    Column("in_progress", "In progress"), Column("done", "Done")]

  /** The board's columns are the backend's four statuses, in the same order. */
  lemma ColumnsMatchStatuses()
    ensures |COLUMNS| == |STATUSES|
    ensures forall i :: 0 <= i < |COLUMNS| ==> COLUMNS[i].key == STATUSES[i]
  {
  }

  datatype Ref = Ref(id: nat, name: string)

  /** A task as the board receives it. */
  datatype BoardTask = BoardTask(
    id: nat,
    title: string,
    description: Option<string>,
    status: string,
    priority: Option<string>,
    dueDate: Option<string>,
    tag: Option<Ref>,
    assignee: Option<Ref>)

  /** `a` is what remains of `b` after deleting some elements: its elements appear in `b`
      in the same order. */
  predicate IsSubsequence<T(==)>(a: seq<T>, b: seq<T>)
    decreases |b|
  {
    if a == [] then true
    else if b == [] then false
    else if a[|a| - 1] == b[|b| - 1] then IsSubsequence(a[..|a| - 1], b[..|b| - 1])
    else IsSubsequence(a, b[..|b| - 1])
  }

  /** `groupByStatus`: the tasks of one column, in list order. Being a subsequence of the list
      made of tasks with that status, as many as the list has, it is exactly the list with
      every other task removed. */
  function GroupByStatus(tasks: seq<BoardTask>, key: string): (col: seq<BoardTask>)
    ensures IsSubsequence(col, tasks)
    ensures forall i :: 0 <= i < |col| ==> col[i].status == key
    ensures |col| == CountIn(tasks, [key])
    ensures forall t :: t in col <==> t in tasks && t.status == key
  {
    if tasks == [] then []
    else
      var rest := GroupByStatus(tasks[..|tasks| - 1], key);
      var t := tasks[|tasks| - 1];
      assert tasks == tasks[..|tasks| - 1] + [t];
      if t.status == key then
        assert (rest + [t])[..|rest|] == rest;
        rest + [t]
      else rest
  }

  /** The number of tasks whose status is among `keys`. */
  function CountIn(tasks: seq<BoardTask>, keys: seq<string>): nat {
    if tasks == [] then 0
    else CountIn(tasks[..|tasks| - 1], keys) + (if tasks[|tasks| - 1].status in keys then 1 else 0)
  }

  function ColumnSizes(tasks: seq<BoardTask>, keys: seq<string>): nat {
    if keys == [] then 0
    else ColumnSizes(tasks, keys[..|keys| - 1]) + |GroupByStatus(tasks, keys[|keys| - 1])|
  }

  /** A subsequence of tasks with status `key` holds at most as many tasks as the list has
      with that status. */
  lemma {:induction false} SubsequenceCountBound(a: seq<BoardTask>, b: seq<BoardTask>, key: string)
    requires IsSubsequence(a, b)
    requires forall i :: 0 <= i < |a| ==> a[i].status == key
    ensures |a| <= CountIn(b, [key])
    decreases |b|
  {
    if a != [] && b != [] {
      var b' := b[..|b| - 1];
      if a[|a| - 1] == b[|b| - 1] {
        SubsequenceCountBound(a[..|a| - 1], b', key);
      } else {
        SubsequenceCountBound(a, b', key);
      }
    }
  }

  /** A column's grouping is the only order-preserving choice of all the tasks with its status:
      any subsequence of the list made of tasks with status `key`, as many as the list has, is
      `GroupByStatus(tasks, key)`. */
  lemma {:induction false} GroupByStatusUnique(a: seq<BoardTask>, tasks: seq<BoardTask>, key: string)
    requires IsSubsequence(a, tasks)
    requires forall i :: 0 <= i < |a| ==> a[i].status == key
    requires |a| == CountIn(tasks, [key])
    ensures a == GroupByStatus(tasks, key)
    decreases |tasks|
  {
    if tasks != [] && a != [] {
      var init := tasks[..|tasks| - 1];
      var t := tasks[|tasks| - 1];
      if a[|a| - 1] != t {
        SubsequenceCountBound(a, init, key);
        GroupByStatusUnique(a, init, key);
      } else {
        GroupByStatusUnique(a[..|a| - 1], init, key);
        assert a == a[..|a| - 1] + [t];
      }
    }
  }

  lemma {:induction false} CountInSplit(tasks: seq<BoardTask>, keys: seq<string>, key: string)
    requires key !in keys
    ensures CountIn(tasks, keys + [key]) == CountIn(tasks, keys) + CountIn(tasks, [key])
  {
    if tasks != [] {
      CountInSplit(tasks[..|tasks| - 1], keys, key);
    }
  }

  /** Columns with distinct keys hold, between them, each task whose status is one of the keys
      exactly once; a task with any other status is on no column. */
  lemma {:induction false} ColumnsPartition(tasks: seq<BoardTask>, keys: seq<string>)
    requires forall i, j :: 0 <= i < j < |keys| ==> keys[i] != keys[j]
    ensures ColumnSizes(tasks, keys) == CountIn(tasks, keys)
  {
    if keys == [] {
      assert CountIn(tasks, keys) == 0 by { NoneCounted(tasks, keys); }
    } else {
      var init := keys[..|keys| - 1];
      var last := keys[|keys| - 1];
      ColumnsPartition(tasks, init);
      assert keys == init + [last];
      CountInSplit(tasks, init, last);
    }
  }

  lemma {:induction false} NoneCounted(tasks: seq<BoardTask>, keys: seq<string>)
    requires keys == []
    ensures CountIn(tasks, keys) == 0
  {
    if tasks != [] {
      NoneCounted(tasks[..|tasks| - 1], keys);
    }
  }

  /** When every task has one of the four statuses, the board shows each task exactly once. */
  lemma BoardShowsEveryTask(tasks: seq<BoardTask>)
    requires forall i :: 0 <= i < |tasks| ==> tasks[i].status in STATUSES
    ensures ColumnSizes(tasks, STATUSES) == |tasks|
  {
    StatusesDistinct();
    ColumnsPartition(tasks, STATUSES);
    AllCounted(tasks, STATUSES);
  }

  lemma {:induction false} AllCounted(tasks: seq<BoardTask>, keys: seq<string>)
    requires forall i :: 0 <= i < |tasks| ==> tasks[i].status in keys
    ensures CountIn(tasks, keys) == |tasks|
  {
    if tasks != [] {
      AllCounted(tasks[..|tasks| - 1], keys);
    }
  }

  /** `String.prototype.toLowerCase` on ASCII letters. */
  function LowerChar(c: char): char {
    if 'A' <= c <= 'Z' then (c as int + 32) as char else c
  }

  function Lower(s: string): (r: string)
    ensures |r| == |s|
    ensures forall i :: 0 <= i < |s| ==> r[i] == LowerChar(s[i])
  {
    seq(|s|, i requires 0 <= i < |s| => LowerChar(s[i]))
  }

  /** `part` occurs in `s` from position `i` on. */
  predicate OccursAt(s: string, part: string, i: int) {
    0 <= i && i + |part| <= |s| && s[i..i + |part|] == part
  }

  /** `s.includes(part)`. */
  predicate Includes(s: string, part: string) {
    exists i :: 0 <= i <= |s| && OccursAt(s, part, i)
  }

  /** `getTagName`: the tag's name, or "Tag" when it is missing or empty. */
  function TagName(t: BoardTask): (name: string)
    ensures name != ""
  {
    if t.tag.Some? && t.tag.value.name != "" then t.tag.value.name else "Tag"
  }

  /** The keywords `tagClass` looks for, in the order it tries them, each with its colour. */
  const TAG_PILLS: seq<(string, string)> := [
    ("bug", "tagPill--pink"),
    ("ui", "tagPill--blue"),
    ("front", "tagPill--blue"),
    ("back", "tagPill--dark"),
    ("devops", "tagPill--sand"),
    ("test", "tagPill--wheat"),
    ("feature", "tagPill--sand")]

  /** The colour of a name that holds none of the keywords. */
  const DEFAULT_PILL: string := "tagPill--blue"

  /** Keyword `i` is the first of the table that occurs in `s`. */
  predicate FirstKeyword(s: string, i: int) {
    && 0 <= i < |TAG_PILLS|
    && Includes(s, TAG_PILLS[i].0)
    && forall j :: 0 <= j < i ==> !Includes(s, TAG_PILLS[j].0)
  }

  /** `tagClass`: the first keyword found in the lower-cased name picks the colour. */
  function TagClass(name: string): (cls: string)
    ensures cls in {"tagPill--pink", "tagPill--blue", "tagPill--dark", "tagPill--sand", "tagPill--wheat"}
    ensures forall i :: FirstKeyword(Lower(name), i) ==> cls == TAG_PILLS[i].1
    ensures (forall i :: 0 <= i < |TAG_PILLS| ==> !Includes(Lower(name), TAG_PILLS[i].0)) ==> cls == DEFAULT_PILL
    ensures Includes(Lower(name), "bug") ==> cls == "tagPill--pink"
    ensures cls == "tagPill--pink" ==> Includes(Lower(name), "bug")
  {
    var s := Lower(name);
    PillFollowsTable(s);
    Pill(s)
  }

  /** The keyword tests of `tagClass` on an already lower-cased name. */
  function Pill(s: string): string {
    if Includes(s, "bug") then "tagPill--pink"
    else if Includes(s, "ui") then "tagPill--blue"
    else if Includes(s, "front") then "tagPill--blue"
    else if Includes(s, "back") then "tagPill--dark"
    else if Includes(s, "devops") then "tagPill--sand"
    else if Includes(s, "test") then "tagPill--wheat"
    else if Includes(s, "feature") then "tagPill--sand"
    else "tagPill--blue"
  }

  /** The chain of tests picks the colour of the first keyword of the table that occurs. */
  lemma PillFollowsTable(s: string)
    ensures forall i :: FirstKeyword(s, i) ==> Pill(s) == TAG_PILLS[i].1
    ensures (forall i :: 0 <= i < |TAG_PILLS| ==> !Includes(s, TAG_PILLS[i].0)) ==> Pill(s) == DEFAULT_PILL
  {
    var found := seq(|TAG_PILLS|, k requires 0 <= k < |TAG_PILLS| => Includes(s, TAG_PILLS[k].0));
    assert found == [Includes(s, "bug"), Includes(s, "ui"), Includes(s, "front"), Includes(s, "back"),
                     Includes(s, "devops"), Includes(s, "test"), Includes(s, "feature")];
    forall i | FirstKeyword(s, i) ensures Pill(s) == TAG_PILLS[i].1 {
      assert found[i];
      assert forall j :: 0 <= j < i ==> !found[j];
      var pills := seq(|TAG_PILLS|, k requires 0 <= k < |TAG_PILLS| => TAG_PILLS[k].1);
      assert pills == ["tagPill--pink", "tagPill--blue", "tagPill--blue", "tagPill--dark",
                       "tagPill--sand", "tagPill--wheat", "tagPill--sand"];
      if i == 0 {
      } else if i == 1 {
        assert !found[0];
      } else if i == 2 {
        assert !found[0] && !found[1];
      } else if i == 3 {
        assert !found[0] && !found[1] && !found[2];
      } else if i == 4 {
        assert !found[0] && !found[1] && !found[2] && !found[3];
      } else if i == 5 {
        assert !found[0] && !found[1] && !found[2] && !found[3] && !found[4];
      } else {
        assert !found[0] && !found[1] && !found[2] && !found[3] && !found[4] && !found[5];
      }
    }
    if forall i :: 0 <= i < |TAG_PILLS| ==> !Includes(s, TAG_PILLS[i].0) {
      assert forall k :: 0 <= k < |found| ==> !found[k];
      assert !found[0] && !found[1] && !found[2] && !found[3] && !found[4] && !found[5] && !found[6];
    }
  }

  lemma {:induction false} LowerIdempotent(s: string)
    ensures Lower(Lower(s)) == Lower(s)
  {
    forall i | 0 <= i < |s| ensures Lower(Lower(s))[i] == Lower(s)[i] {
      assert Lower(s)[i] == LowerChar(s[i]);
    }
  }

  /** The colour does not depend on letter case. */
  lemma CaseInsensitiveColour(name: string)
    ensures TagClass(Lower(name)) == TagClass(name)
  {
    LowerIdempotent(name);
  }

  /** A task with no usable tag name is shown with the default colour. */
  lemma {:induction false} MissingTagIsBlue(t: BoardTask)
    requires t.tag.None?
    ensures TagClass(TagName(t)) == "tagPill--blue"
  {
    var s := Lower("Tag");
    assert s == "tag" by {
      assert s[0] == 't' && s[1] == 'a' && s[2] == 'g';
    }
    assert !Includes(s, "bug") by {
      forall i | 0 <= i <= |s| ensures !OccursAt(s, "bug", i) {
        if i == 0 {
          assert s[0..3][0] == 't';
        }
      }
    }
    assert !Includes(s, "ui") by {
      forall i | 0 <= i <= |s| ensures !OccursAt(s, "ui", i) {
        if i <= 1 {
          assert s[i..i + 2][0] == s[i] != 'u';
        }
      }
    }
    LongerNotIncluded(s, "front");
    LongerNotIncluded(s, "back");
    LongerNotIncluded(s, "devops");
    LongerNotIncluded(s, "test");
    LongerNotIncluded(s, "feature");
  }

  lemma LongerNotIncluded(s: string, part: string)
    requires |part| > |s|
    ensures !Includes(s, part)
  {
  }

  /** The value of `errors[key]` in an error body. */
  datatype ErrorField = Messages(items: seq<string>) | NotAList

  /** `err.response.data` of a failed request, its `errors` object in key order. */
  datatype ErrorBody = ErrorBody(message: Option<string>, errors: Option<seq<(string, ErrorField)>>)

  /** A rejected request: the response body if the server answered, and the error's own message. */
  datatype RequestError = RequestError(response: Option<ErrorBody>, message: Option<string>)

  predicate Truthy(s: Option<string>) { s.Some? && s.value != "" }

  const FALLBACK_ERROR: string := "Došlo je do greške. Pokušaj ponovo."

  /** The body's `errors` object has a first entry that is a list starting with a truthy message. */
  predicate HasFirstMessage(err: RequestError) {
    && err.response.Some? && err.response.value.errors.Some? && |err.response.value.errors.value| > 0
    && err.response.value.errors.value[0].1.Messages?
    && |err.response.value.errors.value[0].1.items| > 0
    && err.response.value.errors.value[0].1.items[0] != ""
  }

  predicate HasBodyMessage(err: RequestError) {
    err.response.Some? && Truthy(err.response.value.message)
  }

  /** `parseApiError`: the first message of the first `errors` entry, else the body's message,
      else the error's message, else a fixed text. */
  function ParseApiError(err: RequestError): (msg: string)
    ensures msg != ""
    ensures HasFirstMessage(err) ==> msg == err.response.value.errors.value[0].1.items[0]
    ensures !HasFirstMessage(err) && HasBodyMessage(err) ==> msg == err.response.value.message.value
    ensures !HasFirstMessage(err) && !HasBodyMessage(err) && Truthy(err.message) ==> msg == err.message.value
    ensures !HasFirstMessage(err) && !HasBodyMessage(err) && !Truthy(err.message) ==> msg == FALLBACK_ERROR
  {
    var fallback :=
      if err.response.Some? && Truthy(err.response.value.message) then err.response.value.message.value
      else if Truthy(err.message) then err.message.value
      else FALLBACK_ERROR;
    if err.response.Some? && err.response.value.errors.Some? && |err.response.value.errors.value| > 0 then
      var first := err.response.value.errors.value[0].1;
      if first.Messages? && |first.items| > 0 && first.items[0] != "" then first.items[0] else fallback
    else fallback
  }

  /** The body the backend's exception renderer sends, as the client receives it. */
  function BodyOf(env: ExceptionRender.Envelope, key: string): ErrorBody
    requires key in env.errors
  {
    ErrorBody(Some(env.message), Some([(key, Messages(env.errors[key]))]))
  }

  /** Any error but a validation error reaches the board as the renderer's one detail line, or
      as its headline when that detail is empty (an unexpected error with an empty message in
      debug mode). */
  lemma RenderedErrorShown(e: ExceptionRender.Exception, debug: bool, transport: Option<string>)
    requires !e.ValidationException?
    ensures var r := ExceptionRender.Render(e, true, true, debug).value;
      var key := ExceptionRender.KeyFor(e);
      key in r.body.errors && |r.body.errors[key]| == 1
      && ParseApiError(RequestError(Some(BodyOf(r.body, key)), transport))
         == (if r.body.errors[key][0] != "" then r.body.errors[key][0] else r.body.message)
  {
  }

  /** ASCII white space, as `trim` removes it. */
  predicate IsSpace(c: char) {
    c == ' ' || c == '\t' || c == '\n' || c == '\r' || c == 11 as char || c == 12 as char
  }

  function TrimStart(s: string): (r: string)
    ensures |r| <= |s|
    ensures r == [] || !IsSpace(r[0])
  {
    if s != [] && IsSpace(s[0]) then TrimStart(s[1..]) else s
  }

  function TrimEnd(s: string): (r: string)
    ensures |r| <= |s| && (r != [] ==> r[0] == s[0])
    ensures r == [] || !IsSpace(r[|r| - 1])
  {
    if s != [] && IsSpace(s[|s| - 1]) then TrimEnd(s[..|s| - 1]) else s
  }

  /** `String.prototype.trim`. */
  function Trim(s: string): (r: string)
    ensures r == [] || (!IsSpace(r[0]) && !IsSpace(r[|r| - 1]))
  {
    var a := TrimStart(s);
    var r := TrimEnd(a);
    assert r != [] ==> r[0] == a[0];
    r
  }

  /** `trim() || null`. */
  function TrimOrNull(s: string): Option<string> {
    if Trim(s) == "" then None else Some(Trim(s))
  }

  /** `x || fallback` on an optional string. */
  function OrElse(s: Option<string>, fallback: string): string {
    if Truthy(s) then s.value else fallback
  }

  /** `x || null` on an optional string. */
  function OrNull(s: Option<string>): Option<string> {
    if Truthy(s) then s else None
  }

  /** The JSON body of a task create or update. */
  datatype TaskPayload = TaskPayload(
    title: string,
    description: Option<string>,
    tagId: Option<nat>,
    assignedTo: Option<nat>,
    status: string,
    priority: string,
    dueDate: Option<string>)

  /** A task request: the endpoint it goes to and the body it carries. */
  datatype TaskRequest =
    | PostToProject(projectId: nat, body: TaskPayload)  // POST /projects/{projectId}/tasks
    | PutTask(taskId: nat, body: TaskPayload)           // PUT /tasks/{taskId}

  /** The edit form. A select holds `None` for its placeholder, else the chosen id. */
  datatype EditForm = EditForm(
    title: string,
    description: string,
    tagId: Option<nat>,
    assignedTo: Option<nat>,
    status: string,
    priority: string,
    dueDate: string)

  const EMPTY_EDIT: EditForm := EditForm("", "", None, None, "created", "medium", "")

  /** `task?.ref?.id ? String(id) : ""`: an id of 0 counts as absent. */
  function RefId(r: Option<Ref>): Option<nat> {
    if r.Some? && r.value.id != 0 then Some(r.value.id) else None
  }

  /** The form `startEdit` fills from a task. */
  function FormOf(task: BoardTask): EditForm {
    EditForm(task.title, OrElse(task.description, ""), RefId(task.tag), RefId(task.assignee),
             if task.status != "" then task.status else "created",
             OrElse(task.priority, "medium"), OrElse(task.dueDate, ""))
  }

  /** The body `saveEdit` sends for a form that passed its checks. */
  function EditPayload(form: EditForm): TaskPayload {
    TaskPayload(Trim(form.title), TrimOrNull(form.description), form.tagId, form.assignedTo,
                form.status, if form.priority != "" then form.priority else "medium",
                if form.dueDate != "" then Some(form.dueDate) else None)
  }

  /** The body `quickMove` sends: the task as it is, with the new status. */
  function MovePayload(task: BoardTask, newStatus: string): (p: TaskPayload)
    ensures p.status == newStatus
    ensures p.title == task.title
  {
    TaskPayload(task.title, OrNull(task.description),
                if task.tag.Some? then Some(task.tag.value.id) else None,
                if task.assignee.Some? then Some(task.assignee.value.id) else None,
                newStatus, OrElse(task.priority, "medium"), OrNull(task.dueDate))
  }

  /** Opening a task in the editor and saving it untouched sends what a quick move to its own
      status sends, when its title and description carry no outer white space and it has a
      tag and an assignee. */
  lemma {:induction false} UntouchedEditMatchesMove(task: BoardTask)
    requires task.status != ""
    requires Trim(task.title) == task.title
    requires task.description.None? || Trim(task.description.value) == task.description.value
    requires task.tag.Some? && task.tag.value.id != 0 && task.assignee.Some? && task.assignee.value.id != 0
    ensures EditPayload(FormOf(task)) == MovePayload(task, task.status)
  {
    DescriptionKept(task.description);
  }

  /** An editor description that needs no trimming is sent back as it came. */
  lemma {:induction false} DescriptionKept(d: Option<string>)
    requires d.None? || Trim(d.value) == d.value
    ensures TrimOrNull(OrElse(d, "")) == OrNull(d)
  {
    if !Truthy(d) {
      assert Trim("") == "";
    }
  }

  /** Moving a task changes its status and nothing else the board sends. */
  lemma {:induction false} MoveKeepsTask(task: BoardTask, a: string, b: string)
    ensures MovePayload(task, a).(status := b) == MovePayload(task, b)
  {
  }

  /** The checks `onCreate` makes before sending: the message shown for the first that fails. */
  function CreateCheck(title: string, tagId: Option<nat>, assignedTo: Option<nat>): (msg: Option<string>)
    ensures msg.None? <==> Trim(title) != "" && tagId.Some? && assignedTo.Some?
    ensures Trim(title) == "" ==> msg == Some("Unesi title")
    ensures Trim(title) != "" && tagId.None? ==> msg == Some("Izaberi tag")
    ensures Trim(title) != "" && tagId.Some? && assignedTo.None? ==> msg == Some("Izaberi developera")
  {
    if Trim(title) == "" then Some("Unesi title")
    else if tagId.None? then Some("Izaberi tag")
    else if assignedTo.None? then Some("Izaberi developera")
    else None
  }

  /** The checks `saveEdit` makes before sending. */
  function EditCheck(form: EditForm): (msg: Option<string>)
    ensures msg.None? <==> Trim(form.title) != "" && form.tagId.Some? && form.assignedTo.Some?
    ensures Trim(form.title) == "" ==> msg == Some("Title ne može biti prazan")
    ensures Trim(form.title) != "" && form.tagId.None? ==> msg == Some("Izaberi tag")
    ensures Trim(form.title) != "" && form.tagId.Some? && form.assignedTo.None? ==> msg == Some("Izaberi developera")
  {
    if Trim(form.title) == "" then Some("Title ne može biti prazan")
    else if form.tagId.None? then Some("Izaberi tag")
    else if form.assignedTo.None? then Some("Izaberi developera")
    else None
  }

  /** A form `startEdit` fills from a task with a non-blank title, a tag and an assignee passes
      `saveEdit`'s checks unchanged. */
  lemma {:induction false} FilledFormPasses(task: BoardTask)
    requires Trim(task.title) != ""
    requires task.tag.Some? && task.tag.value.id != 0 && task.assignee.Some? && task.assignee.value.id != 0
    ensures EditCheck(FormOf(task)) == None
  {
  }

  /** The page's form and message state. */
  class Board {
    /** The route's `projectId`. */
    const projectId: nat
    var title: string
    var description: string
    var tagId: Option<nat>
    var assignedTo: Option<nat>
    var createError: string
    var pageError: string
    var editingId: Option<nat>
    var edit: EditForm
    var editError: string

    constructor (projectId: nat)
      ensures this.projectId == projectId
      ensures title == "" && description == "" && tagId == None && assignedTo == None
      ensures createError == "" && pageError == "" && editError == ""
      ensures editingId == None && edit == EMPTY_EDIT
    {
      this.projectId := projectId;
      title, description, tagId, assignedTo := "", "", None, None;
      createError, pageError, editError := "", "", "";
      editingId, edit := None, EMPTY_EDIT;
    }

    /** `onCreate`: checks the form, then posts a new task to the page's project, with fixed
        status, priority and no due date. A success clears the form; a failure shows the parsed
        error. */
    method OnCreate(send: TaskRequest -> Option<RequestError>) returns (sent: Option<TaskRequest>)
      modifies this
      ensures pageError == ""
      ensures editingId == old(editingId) && edit == old(edit) && editError == old(editError)
      ensures sent.None? <==> CreateCheck(old(title), old(tagId), old(assignedTo)).Some?
      ensures sent.None? ==>
        && createError == CreateCheck(old(title), old(tagId), old(assignedTo)).value
        && title == old(title) && description == old(description)
        && tagId == old(tagId) && assignedTo == old(assignedTo)
      ensures sent.Some? ==>
        sent.value == PostToProject(projectId,
                                    TaskPayload(Trim(old(title)), TrimOrNull(old(description)), old(tagId),
                                                old(assignedTo), "created", "medium", None))
      ensures sent.Some? && send(sent.value).None? ==>
        createError == "" && title == "" && description == "" && tagId == None && assignedTo == None
      ensures sent.Some? && send(sent.value).Some? ==>
        && createError == ParseApiError(send(sent.value).value)
        && title == old(title) && description == old(description)
        && tagId == old(tagId) && assignedTo == old(assignedTo)
    {
      pageError := "";
      var check := CreateCheck(title, tagId, assignedTo);
      if check.Some? {
        createError := check.value;
        return None;
      }
      createError := "";
      var request := PostToProject(projectId,
        TaskPayload(Trim(title), TrimOrNull(description), tagId, assignedTo, "created", "medium", None));
      sent := Some(request);
      var outcome := send(request);
      if outcome.None? {
        title, description, tagId, assignedTo := "", "", None, None;
      } else {
        createError := ParseApiError(outcome.value);
      }
    }

    /** `startEdit`. */
    method StartEdit(task: BoardTask)
      modifies this`editError, this`editingId, this`edit
      ensures editError == "" && editingId == Some(task.id) && edit == FormOf(task)
    {
      editError := "";
      editingId := Some(task.id);
      edit := FormOf(task);
    }

    /** `cancelEdit`. */
    method CancelEdit()
      modifies this`editError, this`editingId, this`edit
      ensures editError == "" && editingId == None && edit == EMPTY_EDIT
    {
      editError := "";
      editingId := None;
      edit := EMPTY_EDIT;
    }

    /** `saveEdit`: checks the edit form, then puts it to the task's endpoint; a success closes
        the editor. */
    method SaveEdit(task: BoardTask, send: TaskRequest -> Option<RequestError>) returns (sent: Option<TaskRequest>)
      modifies this`editError, this`pageError, this`editingId, this`edit
      ensures pageError == ""
      ensures sent.None? <==> EditCheck(old(edit)).Some?
      ensures sent.None? ==> editError == EditCheck(old(edit)).value && editingId == old(editingId) && edit == old(edit)
      ensures sent.Some? ==> sent.value == PutTask(task.id, EditPayload(old(edit)))
      ensures sent.Some? && send(sent.value).None? ==> editError == "" && editingId == None && edit == EMPTY_EDIT
      ensures sent.Some? && send(sent.value).Some? ==>
        editError == ParseApiError(send(sent.value).value) && editingId == old(editingId) && edit == old(edit)
    {
      pageError := "";
      var check := EditCheck(edit);
      if check.Some? {
        editError := check.value;
        return None;
      }
      editError := "";
      var request := PutTask(task.id, EditPayload(edit));
      sent := Some(request);
      var outcome := send(request);
      if outcome.None? {
        CancelEdit();
      } else {
        editError := ParseApiError(outcome.value);
      }
    }

    /** `quickMove`: puts the task back to its endpoint with a new status, without any check. */
    method QuickMove(task: BoardTask, newStatus: string, send: TaskRequest -> Option<RequestError>)
      returns (sent: TaskRequest)
      modifies this`pageError
      ensures sent == PutTask(task.id, MovePayload(task, newStatus))
      ensures pageError == (if send(sent).Some? then ParseApiError(send(sent).value) else "")
    {
      pageError := "";
      sent := PutTask(task.id, MovePayload(task, newStatus));
      var outcome := send(sent);
      if outcome.Some? {
        pageError := ParseApiError(outcome.value);
      }
    }
  }
}
