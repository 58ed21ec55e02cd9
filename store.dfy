/**
 * The relational store behind the API: one table per entity, each keyed by
 * an auto-increment primary key, plus the personal access token table.
 */
module Database {
  import opened Common

  /** Every row is stored under its own id, and the id is below the table's next auto-increment value. */
  ghost predicate UsersKeyed(users: map<Id, User>, next: nat) {
    forall k :: k in users ==> users[k].id == k && k < next
  }

  ghost predicate ProjectsKeyed(projects: map<Id, Project>, next: nat) {
    forall k :: k in projects ==> projects[k].id == k && k < next
  }

  ghost predicate TagsKeyed(tags: map<Id, Tag>, next: nat) {
    forall k :: k in tags ==> tags[k].id == k && k < next
  }

  ghost predicate TasksKeyed(tasks: map<Id, Task>, next: nat) {
    forall k :: k in tasks ==> tasks[k].id == k && k < next
  }

  ghost predicate CommentsKeyed(comments: map<Id, Comment>, next: nat) {
    forall k :: k in comments ==> comments[k].id == k && k < next
  }

  /** `users.email` is unique. */
  ghost predicate UniqueEmails(users: map<Id, User>) {
    forall a, b :: a in users && b in users && a != b ==> users[a].email != users[b].email
  }

  /** `tags.name` is unique. */
  ghost predicate UniqueTagNames(tags: map<Id, Tag>) {
    forall a, b :: a in tags && b in tags && a != b ==> tags[a].name != tags[b].name
  }

  /** The `tasks_project_title_unique` index on (project_id, title). */
  ghost predicate UniqueProjectTitles(tasks: map<Id, Task>) {
    forall a, b :: a in tasks && b in tasks && a != b ==>
      tasks[a].projectId != tasks[b].projectId || tasks[a].title != tasks[b].title
  }

  /** Some task of project `projectId` already has this title. */
  predicate TitleTaken(tasks: map<Id, Task>, projectId: Id, title: string) {
    exists k :: k in tasks && tasks[k].projectId == projectId && tasks[k].title == title
  }

  class Store {
    var users: map<Id, User>
    var projects: map<Id, Project>
    var tags: map<Id, Tag>
    var tasks: map<Id, Task>
    var comments: map<Id, Comment>
    /** personal access token id -> id of the user it authenticates */
    var tokens: map<Id, Id>

    var nextUser: Id
    var nextProject: Id
    var nextTag: Id
    var nextTask: Id
    var nextComment: Id
    var nextToken: Id

    ghost predicate Valid()
      reads this
    {
      && UsersKeyed(users, nextUser)
      && ProjectsKeyed(projects, nextProject)
      && TagsKeyed(tags, nextTag)
      && TasksKeyed(tasks, nextTask)
      && CommentsKeyed(comments, nextComment)
      && (forall t :: t in tokens ==> t < nextToken && tokens[t] in users)
      && UniqueEmails(users)
      && UniqueTagNames(tags)
      && UniqueProjectTitles(tasks)
    }

    constructor ()
      ensures Valid()
      ensures users == map[] && projects == map[] && tags == map[]
      ensures tasks == map[] && comments == map[] && tokens == map[]
    {
      users, projects, tags, tasks, comments, tokens := map[], map[], map[], map[], map[], map[];
      nextUser, nextProject, nextTag, nextTask, nextComment, nextToken := 1, 1, 1, 1, 1, 1;
    }

    /** `Task::create`: the insert the unique (project_id, title) index refuses when
        the title is already used in that project. */
    method InsertTask(row: Task) returns (id: Option<Id>)
      requires Valid()
      modifies this`tasks, this`nextTask
      ensures Valid()
      ensures TitleTaken(old(tasks), row.projectId, row.title) ==>
        id == None && tasks == old(tasks) && nextTask == old(nextTask)
      ensures !TitleTaken(old(tasks), row.projectId, row.title) ==>
        && id == Some(old(nextTask))
        && old(nextTask) !in old(tasks)
        && tasks == old(tasks)[old(nextTask) := row.(id := old(nextTask))]
    {
      if exists k :: k in tasks && tasks[k].projectId == row.projectId && tasks[k].title == row.title {
        return None;
      }
      var k := nextTask;
      tasks := tasks[k := row.(id := k)];
      nextTask := nextTask + 1;
      id := Some(k);
    }

    /** Issues a fresh personal access token for `userId` (`createToken('api')`). */
    method IssueToken(userId: Id) returns (token: Id)
      requires Valid() && userId in users
      modifies this`tokens, this`nextToken
      ensures Valid()
      ensures token !in old(tokens)
      ensures tokens == old(tokens)[token := userId]
    {
      token := nextToken;
      tokens := tokens[token := userId];
      nextToken := nextToken + 1;
    }
  }
}
