/**
 * Projects of a product owner: creating one (the creator becomes its only
 * member), listing the caller's projects and a project's developers.
 */
module ProjectController {
  import opened Common
  import opened Database
  import Query
  import Ordering
  import ExceptionRender

  datatype ProjectInput = ProjectInput(
    title: Option<string>,
    description: Option<string>,
    startDate: Option<string>,
    endDate: Option<string>)

  /** `after_or_equal:start_date` as it behaves here: it can only fail when both dates parse. */
  predicate EndNotBeforeStart(input: ProjectInput, parseDate: string -> Option<int>) {
    var start := DateValue(input.startDate, parseDate);
    var end := DateValue(input.endDate, parseDate);
    start.Some? && end.Some? ==> start.value <= end.value
  }

  /** The fields `store` rejects. */
  function ProjectErrors(input: ProjectInput, parseDate: string -> Option<int>): (errs: set<string>)
    ensures errs <= {"title", "description", "start_date", "end_date"}
    ensures "title" !in errs <==> RequiredLength(input.title, 2, 120)
    ensures "description" !in errs <==> NullableMaxLength(input.description, 2000)
    ensures "start_date" !in errs <==> NullableDate(input.startDate, parseDate)
    ensures "end_date" !in errs <==>
      NullableDate(input.endDate, parseDate) && EndNotBeforeStart(input, parseDate)
  {
    (if RequiredLength(input.title, 2, 120) then {} else {"title"})
    + (if NullableMaxLength(input.description, 2000) then {} else {"description"})
    + (if NullableDate(input.startDate, parseDate) then {} else {"start_date"})
    + (if NullableDate(input.endDate, parseDate) && EndNotBeforeStart(input, parseDate) then {} else {"end_date"})
  }

  /** `store`: the new project's only member is its creator. */
  method Store(s: Store, caller: User, input: ProjectInput, parseDate: string -> Option<int>)
    returns (r: Reply<Project>)
    requires s.Valid()
    modifies s`projects, s`nextProject
    ensures s.Valid()
    ensures caller.role != ProductOwner ==> r == Err(Forbidden) && unchanged(s)
    ensures caller.role == ProductOwner && ProjectErrors(input, parseDate) != {} ==>
      r == Err(Invalid(ProjectErrors(input, parseDate))) && unchanged(s)
    ensures r.Ok? <==> caller.role == ProductOwner && ProjectErrors(input, parseDate) == {}
    ensures r.Ok? ==>
      && r.code == 201
      && r.data.id == old(s.nextProject) && r.data.id !in old(s.projects)
      && r.data.title == input.title.value
      && r.data.description == input.description
      && r.data.startDate == DateValue(input.startDate, parseDate)
      && r.data.endDate == DateValue(input.endDate, parseDate)
      && (r.data.startDate.Some? && r.data.endDate.Some? ==> r.data.startDate.value <= r.data.endDate.value)
      && r.data.members == {caller.id}
      && s.projects == old(s.projects)[r.data.id := r.data]
  {
    if caller.role != ProductOwner {
      return Err(Forbidden);
    }
    var errs := ProjectErrors(input, parseDate);
    if errs != {} {
      return Err(Invalid(errs));
    }
    var project := Project(s.nextProject, input.title.value, input.description,
                           DateValue(input.startDate, parseDate), DateValue(input.endDate, parseDate),
                           {caller.id});
    s.projects := s.projects[project.id := project];
    s.nextProject := s.nextProject + 1;
    r := Ok(201, project);
  }

  function ProjectId(p: Project): Id { p.id }

  /** `index`: the projects the caller is a member of, newest first. */
  function Index(caller: User, projects: map<Id, Project>, bound: nat): (r: Reply<seq<Project>>)
    requires ProjectsKeyed(projects, bound)
    ensures caller.role != ProductOwner <==> r == Err(Forbidden)
    ensures r.Ok? ==> r.code == 200
    ensures r.Ok? ==> forall p :: p in r.data <==> p.id in projects && projects[p.id] == p && IsMember(caller.id, p)
    ensures r.Ok? ==> forall i, j :: 0 <= i < j < |r.data| ==> r.data[i].id > r.data[j].id
  {
    if caller.role != ProductOwner then Err(Forbidden)
    else Ok(200, Query.Select(projects, (p: Project) => IsMember(caller.id, p), bound, ProjectId))
  }

  /** A project `store` creates is in its creator's list. */
  lemma CreatedProjectListed(caller: User, projects: map<Id, Project>, bound: Id, p: Project)
    requires ProjectsKeyed(projects, bound) && caller.role == ProductOwner
    requires p.id == bound && p.members == {caller.id}
    ensures ProjectsKeyed(projects[p.id := p], bound + 1)
    ensures p in Index(caller, projects[p.id := p], bound + 1).data
  {
  }

  function UserId(u: User): Id { u.id }
  function UserName(u: User): string { u.name }

  /** `developers` as it is meant to behave: the project's developer members, ordered by name.
      The code as written never reaches this reply; see `DevelopersAsWritten`. */
  function Developers(caller: User, projects: map<Id, Project>, users: map<Id, User>, bound: nat,
                      projectId: Id): (r: Reply<seq<User>>)
    requires UsersKeyed(users, bound)
    ensures projectId !in projects ==> r == Err(NotFound)
    ensures projectId in projects && (caller.role != ProductOwner || !IsMember(caller.id, projects[projectId])) ==>
      r == Err(Forbidden)
    ensures r.Ok? <==> projectId in projects && caller.role == ProductOwner && IsMember(caller.id, projects[projectId])
    ensures r.Ok? ==> r.code == 200
    ensures r.Ok? ==> forall u :: u in r.data <==>
      u.id in users && users[u.id] == u && u.role == Developer && IsMember(u.id, projects[projectId])
    ensures r.Ok? ==> Ordering.SortedByName(r.data, UserName)
    ensures r.Ok? ==> forall i, j :: 0 <= i < j < |r.data| ==> r.data[i].id != r.data[j].id
    ensures r.Ok? && (forall k :: k in users ==> users[k].role != Developer || !IsMember(k, projects[projectId])) ==>
      r.data == []
  {
    if projectId !in projects then Err(NotFound)
    else if caller.role != ProductOwner then Err(Forbidden)
    else if !IsMember(caller.id, projects[projectId]) then Err(Forbidden)
    else
      var project := projects[projectId];
      var rows := Query.Select(users, (u: User) => u.role == Developer && IsMember(u.id, project), bound, UserId);
      var list := Ordering.SortByName(rows, UserName);
      Ordering.SortKeepsKeysDistinct(rows, UserName, (u: User) => u.id as int);
      assert forall u :: u in list <==> u in rows by {
        forall u ensures u in list <==> u in rows {
          assert u in list <==> u in multiset(list);
        }
      }
      Ok(200, list)
  }

  /** A project just created by `store` has no developers: its one member is the product owner. */
  lemma {:induction false} NewProjectHasNoDevelopers(caller: User, projects: map<Id, Project>, users: map<Id, User>,
                                                     bound: nat, p: Project)
    requires UsersKeyed(users, bound) && caller.role == ProductOwner && p.members == {caller.id}
    requires caller.id in users && users[caller.id] == caller
    ensures Developers(caller, projects[p.id := p], users, bound, p.id) == Ok(200, [])
  {
    forall k | k in users ensures users[k].role != Developer || !IsMember(k, p) {
      if IsMember(k, p) {
        assert k == caller.id;
      }
    }
  }

  /** How an action ends: with the controller's reply, or with an exception the renderer turns
      into an error envelope. */
  datatype Outcome<T> = Replied(reply: Reply<T>) | Crashed(rendered: ExceptionRender.Rendered)

  /** The message of PHP's `Error` for a class name that resolves to no class. */
  const USER_RESOURCE_NOT_FOUND := "Class \"App\\Http\\Controllers\\UserResource\" not found"

  /** `developers` as written. `UserResource` is not imported into the controller's namespace,
      so building the reply throws an `Error` once the guards pass; the renderer answers it
      with a 500 under `server`. Every other path replies as `Developers` does. */
  function DevelopersAsWritten(caller: User, projects: map<Id, Project>, users: map<Id, User>, bound: nat,
                               projectId: Id, debug: bool): (r: Outcome<seq<User>>)
    requires UsersKeyed(users, bound)
    ensures r.Crashed? <==> Developers(caller, projects, users, bound, projectId).Ok?
    ensures r.Replied? ==> r.reply == Developers(caller, projects, users, bound, projectId)
    ensures r.Crashed? ==> r.rendered.status == 500 && !r.rendered.body.success
    ensures r.Crashed? ==>
      r.rendered.body.errors == map["server" := [if debug then USER_RESOURCE_NOT_FOUND else ExceptionRender.TRY_AGAIN]]
  {
    if projectId !in projects then Replied(Err(NotFound))
    else if caller.role != ProductOwner then Replied(Err(Forbidden))
    else if !IsMember(caller.id, projects[projectId]) then Replied(Err(Forbidden))
    else
      var e := ExceptionRender.OtherThrowable(USER_RESOURCE_NOT_FOUND);
      var rendered := ExceptionRender.Render(e, true, true, debug).value;
      assert rendered.body.errors.Keys == {"server"};
      Crashed(rendered)
  }

  /** The discrepancy on a concrete case: the creator of a new project asks for its developers.
      The intended reply is an empty list; the code as written answers 500. */
  lemma {:induction false} NewProjectDevelopersCrash(caller: User, projects: map<Id, Project>, users: map<Id, User>,
                                                     bound: nat, p: Project, debug: bool)
    requires UsersKeyed(users, bound) && caller.role == ProductOwner && p.members == {caller.id}
    requires caller.id in users && users[caller.id] == caller
    ensures Developers(caller, projects[p.id := p], users, bound, p.id) == Ok(200, [])
    ensures DevelopersAsWritten(caller, projects[p.id := p], users, bound, p.id, debug).Crashed?
    ensures DevelopersAsWritten(caller, projects[p.id := p], users, bound, p.id, debug).rendered.status == 500
  {
    NewProjectHasNoDevelopers(caller, projects, users, bound, p);
  }
}
