/**
 * Comments a developer writes on the tasks assigned to them, and deletes.
 */
module DeveloperCommentController {
  import opened Common
  import opened Database

  /** The guards `store` puts between a developer and a task's comment thread. */
  predicate MayComment(caller: User, task: Task) {
    caller.role == Developer && IsAssignee(caller.id, task)
  }

  /** The guards `destroy` puts between a developer and a comment. */
  predicate MayDelete(caller: User, comment: Comment, tasks: map<Id, Task>) {
    && caller.role == Developer
    && comment.userId == caller.id
    && comment.taskId in tasks
    && IsAssignee(caller.id, tasks[comment.taskId])
  }

  /** `store`: the current assignee comments on the task. */
  method Store(s: Store, caller: User, taskId: Id, content: Option<string>) returns (r: Reply<Comment>)
    requires s.Valid()
    modifies s`comments, s`nextComment
    ensures s.Valid()
    ensures taskId !in old(s.tasks) ==> r == Err(NotFound) && unchanged(s)
    ensures taskId in old(s.tasks) && !MayComment(caller, old(s.tasks)[taskId]) ==>
      r == Err(Forbidden) && unchanged(s)
    ensures taskId in old(s.tasks) && MayComment(caller, old(s.tasks)[taskId])
            && !RequiredLength(content, 1, 1000) ==>
      r == Err(Invalid({"content"})) && unchanged(s)
    ensures r.Ok? <==>
      taskId in old(s.tasks) && MayComment(caller, old(s.tasks)[taskId]) && RequiredLength(content, 1, 1000)
    ensures r.Ok? ==>
      && r.code == 201
      && r.data == Comment(old(s.nextComment), taskId, caller.id, content.value)
      && r.data.id !in old(s.comments)
      && s.comments == old(s.comments)[r.data.id := r.data]
  {
    if taskId !in s.tasks {
      return Err(NotFound);
    }
    if caller.role != Developer {
      return Err(Forbidden);
    }
    if !IsAssignee(caller.id, s.tasks[taskId]) {
      return Err(Forbidden);
    }
    if !RequiredLength(content, 1, 1000) {
      return Err(Invalid({"content"}));
    }
    var comment := Comment(s.nextComment, taskId, caller.id, content.value);
    s.comments := s.comments[comment.id := comment];
    s.nextComment := s.nextComment + 1;
    r := Ok(201, comment);
  }

  /** `destroy`: the author deletes their comment while the task is still assigned to them.
      The author check comes before the task lookup, so a missing task is reported only
      to the comment's author. */
  method Destroy(s: Store, caller: User, commentId: Id) returns (r: Reply<()>)
    requires s.Valid()
    modifies s`comments
    ensures s.Valid()
    ensures commentId !in old(s.comments) ==> r == Err(NotFound) && unchanged(s)
    ensures commentId in old(s.comments) && (caller.role != Developer || old(s.comments)[commentId].userId != caller.id) ==>
      r == Err(Forbidden) && unchanged(s)
    ensures commentId in old(s.comments) && caller.role == Developer && old(s.comments)[commentId].userId == caller.id
            && old(s.comments)[commentId].taskId !in old(s.tasks) ==>
      r == Err(NotFound) && unchanged(s)
    ensures r.Ok? <==> commentId in old(s.comments) && MayDelete(caller, old(s.comments)[commentId], old(s.tasks))
    ensures r.Ok? ==> r.code == 200 && s.comments == old(s.comments) - {commentId}
    ensures r.Err? ==> unchanged(s)
  {
    if commentId !in s.comments {
      return Err(NotFound);
    }
    if caller.role != Developer {
      return Err(Forbidden);
    }
    var comment := s.comments[commentId];
    if comment.userId != caller.id {
      return Err(Forbidden);
    }
    if comment.taskId !in s.tasks {
      return Err(NotFound);
    }
    if !IsAssignee(caller.id, s.tasks[comment.taskId]) {
      return Err(Forbidden);
    }
    s.comments := s.comments - {commentId};
    r := Ok(200, ());
  }

  /** A comment `store` writes can be deleted by its author for as long as the task stays
      assigned to them, and whoever may delete a comment may also comment on its task. */
  lemma {:induction false} StoredCommentDeletable(caller: User, tasks: map<Id, Task>, taskId: Id, id: Id, content: string)
    requires taskId in tasks && MayComment(caller, tasks[taskId])
    ensures MayDelete(caller, Comment(id, taskId, caller.id, content), tasks)
  {
  }

  lemma {:induction false} DeleterMayComment(caller: User, comment: Comment, tasks: map<Id, Task>)
    requires MayDelete(caller, comment, tasks)
    ensures MayComment(caller, tasks[comment.taskId])
  {
  }

  /** Once the task is reassigned, neither its old assignee's comments nor new ones from them
      are accepted. */
  lemma {:induction false} ReassignmentRevokes(caller: User, comment: Comment, tasks: map<Id, Task>, newAssignee: Option<Id>)
    requires comment.taskId in tasks && newAssignee != Some(caller.id)
    ensures !MayDelete(caller, comment, tasks[comment.taskId := tasks[comment.taskId].(assignedTo := newAssignee)])
    ensures !MayComment(caller, tasks[comment.taskId].(assignedTo := newAssignee))
  {
  }
}
