/**
 * The single-page client's session and route table: where each role lands,
 * which pages need a token or a role, and what logging in and out does to
 * the browser's session storage.
 */
module AppRoutes {
  import opened Common

  /** The user object the login response carries, as the client keeps it. */
  datatype ClientUser = ClientUser(id: int, name: string, email: string, role: string)

  /** The role string the backend stores for each role. */
  function RoleName(r: Role): string {
    match r
    case ProductOwner => "product_owner"
    case Developer => "developer"
    case TaskAdmin => "taskadmin"
  }

  datatype Path =
    | Root | Login | Register
    | Projects | ProjectBoard(projectId: string) | Metrics
    | MyTasks | TaskDetails(taskId: string)
    | Tags
    | Elsewhere(url: string)

  datatype Page = HomePage | LoginPage | RegisterPage | ProjectsPage | BoardPage | MetricsPage
                | MyTasksPage | TaskDetailsPage | TagsPage

  /** A route either renders a page or replaces the location with another path. */
  datatype Outcome = Show(page: Page) | Navigate(to: Path)

  /** JavaScript truthiness of the token: `null` and `""` are falsy. */
  predicate HasToken(token: Option<string>) {
    token.Some? && token.value != ""
  }

  /** `user?.role || null`. */
  function RoleOf(user: Option<ClientUser>): (role: Option<string>)
    ensures role.Some? ==> role.value != ""
  {
    if user.Some? && user.value.role != "" then Some(user.value.role) else None
  }

  /** `getHomeRoute`. */
  function HomeRoute(role: Option<string>): (p: Path)
    ensures p in {Projects, MyTasks, Tags, Root}
    ensures p == Root <==> role !in {Some("product_owner"), Some("developer"), Some("taskadmin")}
  {
    if role == Some("product_owner") then Projects
    else if role == Some("developer") then MyTasks
    else if role == Some("taskadmin") then Tags
    else Root
  }

  /** `requireAuth`: defined by the client, though no route uses it. */
  function RequireAuth(token: Option<string>, page: Page): (o: Outcome)
    ensures o == Show(page) <==> HasToken(token)
    ensures o != Show(page) ==> o == Navigate(Login)
  {
    if !HasToken(token) then Navigate(Login) else Show(page)
  }

  /** `requireRole`. */
  function RequireRole(token: Option<string>, role: Option<string>, allowed: seq<string>, page: Page): (o: Outcome)
    ensures o == Show(page) <==> HasToken(token) && role.Some? && role.value in allowed
    ensures !HasToken(token) ==> o == Navigate(Login)
    ensures HasToken(token) && !(role.Some? && role.value in allowed) ==> o == Navigate(HomeRoute(role))
  {
    if !HasToken(token) then Navigate(Login)
    else if role.None? || role.value !in allowed then Navigate(HomeRoute(role))
    else Show(page)
  }

  /** The `<Routes>` table. */
  function Route(path: Path, token: Option<string>, role: Option<string>): Outcome {
    match path
    case Root => if HasToken(token) then Navigate(HomeRoute(role)) else Show(HomePage)
    case Login => if HasToken(token) then Navigate(HomeRoute(role)) else Show(LoginPage)
    case Register => if HasToken(token) then Navigate(HomeRoute(role)) else Show(RegisterPage)
    case Projects => RequireRole(token, role, ["product_owner"], ProjectsPage)
    case ProjectBoard(_) => RequireRole(token, role, ["product_owner"], BoardPage)
    case Metrics => RequireRole(token, role, ["product_owner"], MetricsPage)
    case MyTasks => RequireRole(token, role, ["developer"], MyTasksPage)
    case TaskDetails(_) => RequireRole(token, role, ["developer"], TaskDetailsPage)
    case Tags => RequireRole(token, role, ["taskadmin"], TagsPage)
    case Elsewhere(_) => Navigate(if HasToken(token) then HomeRoute(role) else Root)
  }

  /** The role a page is reserved for, if any. */
  function PageRole(page: Page): Option<string> {
    match page
    case ProjectsPage => Some("product_owner")
    case BoardPage => Some("product_owner")
    case MetricsPage => Some("product_owner")
    case MyTasksPage => Some("developer")
    case TaskDetailsPage => Some("developer")
    case TagsPage => Some("taskadmin")
    case _ => None
  }

  /** A page reserved for a role is only ever shown to a signed-in user with that role,
      and the pages for signing in are only shown without a token. */
  lemma {:induction false} PagesGuarded(path: Path, token: Option<string>, role: Option<string>)
    ensures Route(path, token, role).Show? && PageRole(Route(path, token, role).page).Some? ==>
      HasToken(token) && role == PageRole(Route(path, token, role).page)
    ensures Route(path, token, role).Show? && PageRole(Route(path, token, role).page).None? ==>
      !HasToken(token)
  {
    match path
    case Root =>
    case Login =>
    case Register =>
    case Projects =>
    case ProjectBoard(_) =>
    case Metrics =>
    case MyTasks =>
    case TaskDetails(_) =>
    case Tags =>
    case Elsewhere(_) =>
  }

  /** For a signed-in user whose role is one of the backend's three, every path shows a page
      at once or after a single redirect, and that redirect goes to the role's home page. */
  lemma {:induction false} KnownRoleSettles(path: Path, token: Option<string>, r: Role)
    requires HasToken(token)
    ensures var role := Some(RoleName(r));
      || Route(path, token, role).Show?
      || (Route(path, token, role) == Navigate(HomeRoute(role))
          && Route(HomeRoute(role), token, role).Show?
          && PageRole(Route(HomeRoute(role), token, role).page) == role)
  {
    match r
    case ProductOwner =>
    case Developer =>
    case TaskAdmin =>
  }

  /** A signed-in client whose stored role is not one of the three is sent from "/" back to "/",
      so it never settles on a page; every other path leads there too. */
  lemma {:induction false} UnknownRoleLoops(path: Path, token: Option<string>, role: Option<string>)
    requires HasToken(token)
    requires role !in {Some("product_owner"), Some("developer"), Some("taskadmin")}
    ensures Route(Root, token, role) == Navigate(Root)
    ensures Route(path, token, role) == Navigate(Root)
  {
    match path
    case Root =>
    case Login =>
    case Register =>
    case Projects =>
    case ProjectBoard(_) =>
    case Metrics =>
    case MyTasks =>
    case TaskDetails(_) =>
    case Tags =>
    case Elsewhere(_) =>
  }

  /** Without a token, every page that needs one sends the visitor to the login page,
      which is shown. */
  lemma {:induction false} SignedOutGoesToLogin(path: Path, role: Option<string>)
    ensures Route(path, None, role).Navigate? && path !in {Root, Login, Register} && !path.Elsewhere? ==>
      Route(path, None, role) == Navigate(Login) && Route(Login, None, role) == Show(LoginPage)
    ensures path.Elsewhere? ==> Route(path, None, role) == Navigate(Root)
    ensures path in {Root, Login, Register} ==> Route(path, None, role).Show?
  {
    match path
    case Root =>
    case Login =>
    case Register =>
    case Projects =>
    case ProjectBoard(_) =>
    case Metrics =>
    case MyTasks =>
    case TaskDetails(_) =>
    case Tags =>
    case Elsewhere(_) =>
  }

  /** A value in session storage: a plain string, or the JSON text of a user. */
  datatype Stored = Text(text: string) | UserJson(user: ClientUser)

  /** The state the client reads back from session storage when the page loads. */
  function RestoreToken(storage: map<string, Stored>): Option<string> {
    if "token" in storage && storage["token"].Text? then Some(storage["token"].text) else None
  }

  function RestoreUser(storage: map<string, Stored>): Option<ClientUser> {
    if "user" in storage && storage["user"].UserJson? then Some(storage["user"].user) else None
  }

  /** What `onLoginSuccess` writes into session storage. */
  function LoginStorage(storage: map<string, Stored>, token: string, user: ClientUser): map<string, Stored> {
    storage["token" := Text(token)]["user" := UserJson(user)]["role" := Text(user.role)]
  }

  /** Reloading after a login restores the same token and user. */
  lemma {:induction false} LoginSurvivesReload(storage: map<string, Stored>, token: string, user: ClientUser)
    ensures RestoreToken(LoginStorage(storage, token, user)) == Some(token)
    ensures RestoreUser(LoginStorage(storage, token, user)) == Some(user)
  {
    var s := LoginStorage(storage, token, user);
    assert s["token"] == Text(token);
    assert s["user"] == UserJson(user);
  }

  class Session {
    var token: Option<string>
    var user: Option<ClientUser>
    var storage: map<string, Stored>

    /** The state `useState` initialises from session storage. */
    constructor (storage: map<string, Stored>)
      ensures this.storage == storage
      ensures token == RestoreToken(storage) && user == RestoreUser(storage)
    {
      this.storage := storage;
      token := RestoreToken(storage);
      user := RestoreUser(storage);
    }

    function Role(): Option<string>
      reads this
    {
      RoleOf(user)
    }

    /** `onLoginSuccess`. */
    method OnLoginSuccess(newToken: string, newUser: ClientUser)
      modifies this
      ensures storage == LoginStorage(old(storage), newToken, newUser)
      ensures token == Some(newToken) && user == Some(newUser)
      ensures token == RestoreToken(storage) && user == RestoreUser(storage)
    {
      storage := LoginStorage(storage, newToken, newUser);
      token := Some(newToken);
      user := Some(newUser);
      LoginSurvivesReload(old(storage), newToken, newUser);
    }

    /** `onLogoutSuccess`: clears all of session storage, then the in-memory session. */
    method OnLogoutSuccess()
      modifies this
      ensures storage == map[] && token == None && user == None
      ensures forall path :: Route(path, token, Role()) == Route(path, None, None)
    {
      storage := map[];
      token := None;
      user := None;
    }
  }
}
