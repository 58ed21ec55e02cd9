# DevTasker rules layer in Dafny

DevTasker is a task tracker with three roles:

- a **product owner** creates projects and reviews their tasks and metrics;
- a **developer** works on the tasks assigned to them, comments on them and adds personal tasks;
- a **task admin** maintains the tag registry.

This project models the rules of the Laravel backend and of the React board, then proves properties about them. On the backend side that means who may do what, in which order the checks run, what validation accepts, what each action changes in the store, what a listing returns and in which order, how the metrics are computed, and how an exception becomes the JSON error envelope. On the client side it means where each role lands, which pages need a token or a role, what logging in and out does to session storage, and how the project board groups and colours tasks, builds its request bodies and shows errors.

Layout, one module per source file:

| file | module | models |
|---|---|---|
| `common.dfy` | `Common` | rows, roles, the error kinds of an action, validation helpers |
| `store.dfy` | `Database` | the tables as maps under auto-increment keys, the unique indexes, the token table |
| `query.dfy` | `Query` | `where(...)->orderByDesc('id')` over a table |
| `ordering.dfy` | `Ordering` | `orderBy('name')`: code-point order and a stable insertion sort |
| `exception_render.dfy` | `ExceptionRender` | the `withExceptions` render callback |
| `auth_controller.dfy` | `AuthController` | register, login, logout, me |
| `tag_controller.dfy` | `TagController` | the tag registry |
| `developer_task_controller.dfy` | `DeveloperTaskController` | a developer's tasks, status change, personal task |
| `comment_controller.dfy` | `DeveloperCommentController` | comments on one's own tasks |
| `task_controller.dfy` | `TaskController` | the product owner's filtered task list |
| `project_controller.dfy` | `ProjectController` | projects and their developers |
| `metrics.dfy` | `ProjectMetricsController` | cards, status pie, priority bar, developer load |
| `app_routes.dfy` | `AppRoutes` | the client's session and route table |
| `project_board.dfy` | `ProjectBoard` | the product owner's board page |

**Store and actions.** The store is a class whose fields are the tables. An action that writes is a method with a `modifies` clause naming only the tables it touches. It states the whole outcome for every path: nothing changes on an error, and a success returns the new row and the new table. A read-only action is a function over the tables.

**Outcomes.** Every action returns `Reply`: either `Ok(code, data)` or `Err(kind)`. The error kinds are:

- `Forbidden`: the 403 a controller builds itself;
- `BadCredentials`: the 401 that login builds itself;
- `NotFound`: route-model binding found no row (404);
- `Invalid(fields)`: a validation exception (422) naming the rejected fields;
- `DbError`: a query exception (500).

Route-model binding runs before the controller, so `NotFound` is checked before the role checks.

**Parameters.** Things outside the code become parameters:

- password hashing: the stored hash arrives as a value, and `Hash::check` as the predicate `hashCheck`;
- the `email` rule: the predicate `isEmail`;
- date parsing: `parseDate`, which yields a day number;
- the current day: `today`;
- the HTTP request on the client: `send`, given the endpoint and the body.

## Model

| member | source | states |
|---|---|---|
| `Common.IsAssigneeExactly` | devbe/app/Http/Controllers/DeveloperTaskController.php:64 | the `(int)` comparison of `assigned_to` with the caller's id holds exactly when the task is assigned to the caller; an unassigned task matches no one |
| `Database.Store.InsertTask` | devbe/database/migrations/2026_01_08_200643_add_unique_project_title_to_tasks_table.php:12 | the unique (project_id, title) index: the insert is refused, changing nothing, exactly when the project already has a task with that title; otherwise the row is stored under the next id |
| `Database.Store.IssueToken` | devbe/app/Http/Controllers/AuthController.php:28 | `createToken` adds a token not issued before and leaves every other token as it was |
| `Ordering.SortByName` | devbe/app/Http/Controllers/TagController.php:35 | `orderBy('name')` returns a permutation of the rows in name order |
| `Ordering.SortKeepsKeysDistinct` | devbe/app/Http/Controllers/TagController.php:35 | ordering neither duplicates nor merges rows: rows with distinct keys keep distinct keys |
| `ExceptionRender.JsonError` | devbe/bootstrap/app.php:26-119 | the envelope is unsuccessful and carries the status of the exception class; validation errors pass through unchanged; every other class gets its single key; SQL text never reaches the client; an unexpected error shows its message only in debug mode |
| `ExceptionRender.Render` | devbe/bootstrap/app.php:18-24 | a request that neither expects JSON nor targets `api/*` is left to the framework; every other request gets the JSON envelope |
| `ExceptionRender.ThrownOutcomeStatus` | devbe/bootstrap/app.php:26-99 | a thrown outcome reaches the client with the status of its kind; a store error is a 500 under `database`, never a 422 |
| `AuthController.RegisterErrors` | devbe/app/Http/Controllers/AuthController.php:15-19 | per field, rejected exactly when its rule fails; the email is rejected when it is malformed, longer than 150 characters or already registered; the password is rejected when it is missing, blank once trimmed, or longer than 255 characters |
| `AuthController.LoginErrors` | devbe/app/Http/Controllers/AuthController.php:42-45 | per field, rejected exactly when its rule fails; the password is rejected when it is missing, blank once trimmed, or longer than 255 characters |
| `AuthController.BlankPasswordRejected` | devbe/app/Http/Controllers/AuthController.php:18 | a password of white space only is rejected by both register and login, since the input middleware leaves passwords untrimmed and `required` refuses them |
| `AuthController.FindByEmail` | devbe/app/Http/Controllers/AuthController.php:47 | finds a user exactly when the email is registered, and the user found has that email |
| `AuthController.Register` | devbe/app/Http/Controllers/AuthController.php:13-38 | an invalid request changes nothing; a valid one creates a developer whatever role was asked for, returns 201 and a fresh token, and keeps every other user |
| `AuthController.Login` | devbe/app/Http/Controllers/AuthController.php:40-69 | an unknown email and a wrong password give the same 401 and change nothing; a matching password issues a fresh token for that user |
| `AuthController.Logout` | devbe/app/Http/Controllers/AuthController.php:71-81 | deletes only the presented token |
| `AuthController.Me` | devbe/app/Http/Controllers/AuthController.php:83-92 | succeeds exactly when the token resolves, with the user it resolves to; otherwise unauthenticated |
| `AuthController.LogoutRevokesOnlyPresentedToken` | devbe/app/Http/Controllers/AuthController.php:74 | after logout the presented token no longer authenticates and every other token resolves as before |
| `AuthController.NewTokenKeepsEarlierSessions` | devbe/app/Http/Controllers/AuthController.php:59 | a login's new token authenticates its user and leaves earlier sessions valid |
| `TagController.NameErrors` | devbe/app/Http/Controllers/TagController.php:69-71 | the name is rejected exactly when it is not 2 to 50 characters or another tag already has it; with `ignore` the tag's own row does not count |
| `TagController.AllByName` | devbe/app/Http/Controllers/TagController.php:35 | every tag, each exactly once (no two rows share an id), in name order |
| `TagController.Index` | devbe/app/Http/Controllers/TagController.php:29-41 | forbidden exactly to non-admins; otherwise all tags by name |
| `TagController.Lookup` | devbe/app/Http/Controllers/TagController.php:97-106 | no role check; all tags by name |
| `TagController.LookupMatchesIndex` | devbe/app/Http/Controllers/TagController.php:97-106 | `lookup` never refuses and agrees with the admin's `index` |
| `TagController.Store` | devbe/app/Http/Controllers/TagController.php:44-60 | only an admin with a valid, unused name adds a tag; the result is 201 and the tag under the next id; every refusal changes nothing |
| `TagController.Update` | devbe/app/Http/Controllers/TagController.php:63-79 | a missing tag gives 404 before the role check; a valid name renames exactly that tag |
| `TagController.RenameToOwnNameAccepted` | devbe/app/Http/Controllers/TagController.php:69-71 | renaming a tag to its current name passes validation |
| `TagController.UsedNameRejected` | devbe/app/Http/Controllers/TagController.php:51 | another tag's name is rejected on both create and rename |
| `TagController.Destroy` | devbe/app/Http/Controllers/TagController.php:82-94 | an admin deletes exactly that tag; a missing one gives 404 |
| `DeveloperTaskController.Index` | devbe/app/Http/Controllers/DeveloperTaskController.php:32-54 | forbidden exactly to non-developers; otherwise exactly the tasks assigned to the caller, newest first |
| `DeveloperTaskController.StatusChangeKeepsList` | devbe/app/Http/Controllers/DeveloperTaskController.php:78-80 | a status change neither adds a task to a developer's list nor drops one from it |
| `DeveloperTaskController.UpdateStatus` | devbe/app/Http/Controllers/DeveloperTaskController.php:58-94 | checks run in order (task exists, developer, current assignee, status one of the four); on success only that task's status changes |
| `DeveloperTaskController.PersonalTaskErrors` | devbe/app/Http/Controllers/DeveloperTaskController.php:113-120 | per field, rejected exactly when its rule fails; the title's uniqueness is not among the rules |
| `DeveloperTaskController.StorePersonal` | devbe/app/Http/Controllers/DeveloperTaskController.php:96-149 | only a member developer may add; the task is created by and assigned to the caller whatever the body says, with status `created` and priority `medium` by default; a title already used in the project passes validation and is refused by the store as a database error; after a success the title is taken |
| `DeveloperCommentController.Store` | devbe/app/Http/Controllers/DeveloperCommentController.php:31-63 | only the task's current assignee comments; the comment records the caller as its author; a refusal changes nothing |
| `DeveloperCommentController.Destroy` | devbe/app/Http/Controllers/DeveloperCommentController.php:67-103 | deletes exactly that comment, only for its author while the task is assigned to them; the author check precedes the task lookup |
| `DeveloperCommentController.StoredCommentDeletable` | devbe/app/Http/Controllers/DeveloperCommentController.php:74-95 | a comment `store` writes can be deleted by its author while the assignment stays |
| `DeveloperCommentController.DeleterMayComment` | devbe/app/Http/Controllers/DeveloperCommentController.php:87-95 | whoever may delete a comment may comment on its task |
| `DeveloperCommentController.ReassignmentRevokes` | devbe/app/Http/Controllers/DeveloperCommentController.php:37-45 | after reassignment the former assignee can neither comment nor delete comments there |
| `TaskController.CastOfDecimal` | devbe/app/Http/Controllers/TaskController.php:71 | the `(int)` cast of a decimal id reads back that id |
| `TaskController.Index` | devbe/app/Http/Controllers/TaskController.php:41-80 | 404, then the product-owner check, then the membership check; otherwise exactly the project's tasks that pass every filled filter, newest first |
| `TaskController.NoFilterListsProject` | devbe/app/Http/Controllers/TaskController.php:52-53 | with no filter filled, every task of the project |
| `TaskController.StatusFilterNarrows` | devbe/app/Http/Controllers/TaskController.php:62-64 | filling the status filter only removes tasks |
| `TaskController.NonNumericTagFilterMatchesNothing` | devbe/app/Http/Controllers/TaskController.php:70-72 | a filled `tag_id` that does not start with a number casts to 0 and matches no task |
| `ProjectController.ProjectErrors` | devbe/app/Http/Controllers/ProjectController.php:34-39 | per field, rejected exactly when its rule fails; an end date before the start date is rejected |
| `ProjectController.Store` | devbe/app/Http/Controllers/ProjectController.php:28-55 | only a product owner creates a project; its members are exactly the caller; its dates never run backwards |
| `ProjectController.Index` | devbe/app/Http/Controllers/ProjectController.php:59-77 | exactly the projects the caller is a member of, newest first |
| `ProjectController.CreatedProjectListed` | devbe/app/Http/Controllers/ProjectController.php:49 | a project `store` creates is in its creator's list |
| `ProjectController.Developers` | devbe/app/Http/Controllers/ProjectController.php:80-107 | the intended reply (see Findings): 404, then the product-owner check, then the membership check; otherwise exactly the developer members, each once (no two rows share an id), by name |
| `ProjectController.NewProjectHasNoDevelopers` | devbe/app/Http/Controllers/ProjectController.php:98-101 | under the intended reply, a project `store` just created lists no developers |
| `ProjectController.DevelopersAsWritten` | devbe/app/Http/Controllers/ProjectController.php:80-107 | as written: every path that passes the guards throws on the unimported `UserResource` and is answered 500 under `server`, with the class error only in debug mode; every other path replies as `Developers` does |
| `ProjectController.NewProjectDevelopersCrash` | devbe/app/Http/Controllers/ProjectController.php:103-106 | for the creator of a new project the intended reply is an empty list, and the code as written answers 500 |
| `ProjectMetricsController.ProjectTasks` | devbe/app/Http/Controllers/ProjectMetricsController.php:59 | exactly the project's task rows, each once, newest first (ids strictly decreasing), so the total card counts each task once |
| `ProjectMetricsController.ComputeCards` | devbe/app/Http/Controllers/ProjectMetricsController.php:58-73 | the total counts every task; done plus open is the total; overdue and due-soon are disjoint and both open |
| `ProjectMetricsController.Tally` | devbe/app/Http/Controllers/ProjectMetricsController.php:83-90 | one entry per key in the given order, counting the rows with that value, 0 when none |
| `ProjectMetricsController.Breakdown` | devbe/app/Http/Controllers/ProjectMetricsController.php:100-107 | the `foreach` builds exactly that chart |
| `ProjectMetricsController.TallySum` | devbe/app/Http/Controllers/ProjectMetricsController.php:76-90 | over distinct keys, the chart counts each row whose value is a key exactly once |
| `ProjectMetricsController.TallyCoversRows` | devbe/app/Http/Controllers/ProjectMetricsController.php:76-107 | when every row's value is a key, the chart adds up to the number of rows |
| `ProjectMetricsController.StatusPieCoversTotal` | devbe/app/Http/Controllers/ProjectMetricsController.php:76-90 | with valid statuses, the pie adds up to the total card |
| `ProjectMetricsController.PriorityBarCoversTotal` | devbe/app/Http/Controllers/ProjectMetricsController.php:93-107 | with valid priorities, the bar adds up to the total card |
| `ProjectMetricsController.Assignees` | devbe/app/Http/Controllers/ProjectMetricsController.php:110-115 | each assignee of an open task exactly once |
| `ProjectMetricsController.Group` | devbe/app/Http/Controllers/ProjectMetricsController.php:110-115 | one group per assignee, with that assignee's open task count |
| `ProjectMetricsController.GroupSum` | devbe/app/Http/Controllers/ProjectMetricsController.php:110-115 | over distinct assignees, each open task of theirs is counted once |
| `ProjectMetricsController.SortByLoad` | devbe/app/Http/Controllers/ProjectMetricsController.php:116 | a permutation of the groups, largest load first, with the same sum |
| `ProjectMetricsController.GroupedLoadsPositive` | devbe/app/Http/Controllers/ProjectMetricsController.php:110-117 | every group listed holds at least one open task |
| `ProjectMetricsController.GroupedLoadsCover` | devbe/app/Http/Controllers/ProjectMetricsController.php:110-117 | every assignee of an open task is listed, and the loads add up to the open assigned tasks |
| `ProjectMetricsController.LoadRows` | devbe/app/Http/Controllers/ProjectMetricsController.php:110-117 | the load rows are sorted by load, each correct and at least 1; they cover every assignee with an open task and add up to the open assigned tasks |
| `ProjectMetricsController.LoadWithinOpen` | devbe/app/Http/Controllers/ProjectMetricsController.php:110-117 | the load never exceeds the open card |
| `ProjectMetricsController.DeveloperLoad` | devbe/app/Http/Controllers/ProjectMetricsController.php:119-128 | each row keeps its count; the developer is the user row when one exists, else null |
| `ProjectMetricsController.Show` | devbe/app/Http/Controllers/ProjectMetricsController.php:45-152 | 404, then the product-owner check, then the membership check; otherwise the cards, the two charts and the load over the project's tasks; changes nothing |
| `AppRoutes.RoleOf` | devfe/src/App.js:40 | a present role is never empty |
| `AppRoutes.HomeRoute` | devfe/src/App.js:20-31 | each of the three roles gets its page; anything else gets "/" |
| `AppRoutes.RequireAuth` | devfe/src/App.js:59-62 | shows the page exactly when there is a token, otherwise goes to the login page |
| `AppRoutes.RequireRole` | devfe/src/App.js:64-68 | shows the page exactly with a token and an allowed role; without a token goes to login, otherwise to the role's home page |
| `AppRoutes.PagesGuarded` | devfe/src/App.js:79-131 | a role's page is shown only to a signed-in user with that role; home, login and register are shown only without a token |
| `AppRoutes.KnownRoleSettles` | devfe/src/App.js:79-131 | for each backend role, every path shows a page at once or after one redirect to that role's own page |
| `AppRoutes.UnknownRoleLoops` | devfe/src/App.js:79-82 | with a token and an unknown role, "/" redirects to itself and every path leads there |
| `AppRoutes.SignedOutGoesToLogin` | devfe/src/App.js:79-131 | without a token, protected paths go to the login page, which is shown; unknown paths go to "/" |
| `AppRoutes.LoginSurvivesReload` | devfe/src/App.js:34-51 | what a login writes to session storage restores the same token and user on reload |
| `AppRoutes.Session.constructor` | devfe/src/App.js:34-38 | the initial state is read from session storage |
| `AppRoutes.Session.OnLoginSuccess` | devfe/src/App.js:44-51 | stores the token, user and role and sets the session to them |
| `AppRoutes.Session.OnLogoutSuccess` | devfe/src/App.js:53-57 | clears storage and the session; every route then behaves as for a visitor |
| `ProjectBoard.ColumnsMatchStatuses` | devfe/src/pages/ProjectBoard.jsx:6-11 | the board's columns are the backend's four statuses, in order |
| `ProjectBoard.GroupByStatus` | devfe/src/pages/ProjectBoard.jsx:107-109 | the `filter`: a subsequence of the list (list order kept), every task with that status, as many as the list holds |
| `ProjectBoard.GroupByStatusUnique` | devfe/src/pages/ProjectBoard.jsx:107-109 | any order-preserving selection of all the tasks with a status is that status's column, so the column is fully determined |
| `ProjectBoard.ColumnsPartition` | devfe/src/pages/ProjectBoard.jsx:385-386 | columns with distinct keys hold each task whose status is a key exactly once |
| `ProjectBoard.BoardShowsEveryTask` | devfe/src/pages/ProjectBoard.jsx:385-386 | with valid statuses, each task is on exactly one column |
| `ProjectBoard.TagName` | devfe/src/pages/ProjectBoard.jsx:111 | never empty: "Tag" stands in for a missing name |
| `ProjectBoard.TagClass` | devfe/src/pages/ProjectBoard.jsx:115-125 | the colour of the first keyword, in the order bug, ui, front, back, devops, test, feature, found in the lower-cased name; blue when none occurs; pink exactly when the name contains "bug" |
| `ProjectBoard.PillFollowsTable` | devfe/src/pages/ProjectBoard.jsx:117-124 | the chain of `includes` tests agrees with the first-match rule over the keyword table, and falls through to blue |
| `ProjectBoard.CaseInsensitiveColour` | devfe/src/pages/ProjectBoard.jsx:116 | the colour does not depend on letter case |
| `ProjectBoard.MissingTagIsBlue` | devfe/src/pages/ProjectBoard.jsx:111-124 | a task without a tag is blue |
| `ProjectBoard.ParseApiError` | devfe/src/pages/ProjectBoard.jsx:62-75 | never empty; the first message of the first `errors` entry when it is a non-empty list with a non-empty head; otherwise the body's message when non-empty; otherwise the error's own message when non-empty; otherwise the fixed fallback text |
| `ProjectBoard.RenderedErrorShown` | devfe/src/pages/ProjectBoard.jsx:62-75 | a non-validation backend error shows its detail line, or its headline when the detail is empty |
| `ProjectBoard.CreateCheck` | devfe/src/pages/ProjectBoard.jsx:135-147 | the form is sent exactly when the trimmed title, the tag and the developer are all present; the checks run in order, so a blank title is reported first, then a missing tag, then a missing developer |
| `ProjectBoard.EditCheck` | devfe/src/pages/ProjectBoard.jsx:206-218 | the same three checks, in the same order, for the edit form, with its own blank-title message |
| `ProjectBoard.FilledFormPasses` | devfe/src/pages/ProjectBoard.jsx:173-186 | a form filled from a task with a title, a tag and an assignee passes the edit checks |
| `ProjectBoard.MovePayload` | devfe/src/pages/ProjectBoard.jsx:243-251 | sends the task's title with the new status |
| `ProjectBoard.UntouchedEditMatchesMove` | devfe/src/pages/ProjectBoard.jsx:221-229 | saving an untouched editor sends what a move to the task's own status sends |
| `ProjectBoard.DescriptionKept` | devfe/src/pages/ProjectBoard.jsx:223 | a description that needs no trimming is sent back as it came |
| `ProjectBoard.MoveKeepsTask` | devfe/src/pages/ProjectBoard.jsx:243-251 | two moves of a task differ only in status |
| `ProjectBoard.Board.constructor` | devfe/src/pages/ProjectBoard.jsx:40-58 | the page's project id is kept; forms and messages start empty |
| `ProjectBoard.Board.OnCreate` | devfe/src/pages/ProjectBoard.jsx:130-169 | a failed check shows its message and sends nothing; otherwise the trimmed title is posted to the page's project with status `created`, priority `medium` and no due date; success clears the form, failure shows the parsed error and keeps it |
| `ProjectBoard.Board.StartEdit` | devfe/src/pages/ProjectBoard.jsx:173-186 | opens the editor on that task, filled from it |
| `ProjectBoard.Board.CancelEdit` | devfe/src/pages/ProjectBoard.jsx:188-200 | closes the editor and resets the form |
| `ProjectBoard.Board.SaveEdit` | devfe/src/pages/ProjectBoard.jsx:202-236 | a failed check shows its message and sends nothing; otherwise puts the edit body to that task's endpoint; success closes the editor, failure keeps it open with the parsed error |
| `ProjectBoard.Board.QuickMove` | devfe/src/pages/ProjectBoard.jsx:239-257 | puts the task back to its own endpoint with the new status and no check; shows the parsed error on failure |

## Left out

- The framework's own exception conversion is not modelled. Laravel turns `ModelNotFoundException` and `AuthorizationException` into HTTP exceptions before the render callback runs, so those two classes are reached as `NotFoundHttpException` and `AccessDeniedHttpException`: a missing row is answered under `route`, a failed authorization under `http` with status 403, and the `not_found` and `authorization` branches are never taken. `ExceptionRender.Render` models the callback as written, for the class it is handed; `ExceptionRender.ThrownOutcomeStatus` allows a missing row to arrive as either class and gives it 404 in both cases.
- Authentication middleware is not modelled: every action except `Me` takes the already resolved caller. The route wiring in `routes/api.php` is outside the model too.
- Input middleware is not modelled: `TrimStrings` and `ConvertEmptyStringsToNull` run before the controllers, and an absent field and a null field are both `None`. Passwords are the exception `TrimStrings` makes, and their blank check is modelled in the validation rules.
- String comparison is code-point equality and order. MySQL's case-insensitive collation, which affects uniqueness, `orderBy('name')`, `where` and `groupBy`, is not modelled.
- Hashing, the email format check and date parsing are the parameters `hashCheck`, `isEmail` and `parseDate`. Dates are day numbers, and the current day is the parameter `today`; time zones are not modelled.
- `ProjectController.ProjectErrors`: `after_or_equal:start_date` is modelled as failing only when both dates parse and the end is earlier. Laravel's behaviour when the start date is missing or malformed is not modelled.
- `TaskController.CastOfDecimal`: the `(int)` cast is modelled for leading white space, an optional sign and decimal digits. Exponent and fraction forms and 64-bit saturation are not modelled.
- `DeveloperTaskController.StorePersonal`: a title already used in the project surfaces as a store error, and `ExceptionRender.ThrownOutcomeStatus` shows it reaches the client as a 500. The SQL error itself is not modelled.
- Creating and updating tasks as a product owner (`POST /projects/{id}/tasks`, `PUT /tasks/{id}`) is called by the board but its controller is not part of this model. The board's side of those calls is modelled: the checks, the request bodies and the handling of the reply.
- What happens to a tag's tasks when the tag is deleted depends on a foreign key policy that is not part of this model. `TagController.Destroy` removes only the tag row.
- The API resources (`TaskResource`, `UserResource` and the others) are not modelled: a reply carries the rows themselves. The one place where using a resource fails, `ProjectController.DevelopersAsWritten`, is modelled and listed under Findings. Seeders are not modelled either.
- The board's data loading (`fetchAll`, run on mount and after each success) and the rest of its rendering are not modelled. Each request is the parameter `send`, and a success is not followed by a reload.
- Other client pages (My tasks, Metrics, Projects, Tags, Login, Register and the rest) are not modelled.
- `ProjectBoard.TagClass`: `toLowerCase` is modelled on ASCII letters only. `trim` is modelled on ASCII white space only.
- `ProjectBoard.Board.OnCreate`: a select holds either its placeholder or an id, so `Number(...)` of a selected value is that id.
- `AppRoutes.Session.constructor`: reading a `user` entry that is not JSON written by a login (`JSON.parse` of arbitrary text) is not modelled.
- `ProjectMetricsController.SortByLoad`: the database orders rows with equal loads arbitrarily. The model fixes one order, and its contract promises only that loads never increase.
- Concurrency is not modelled: each action runs alone against the store.
- `ProjectController.Developers` states the reply the action is evidently meant to give. The code as written answers 500 on its success path; `ProjectController.DevelopersAsWritten` models that, and Findings records it.

## Findings

| source | as written | input that shows it | evidently intended | confidence | as-written member | corrected member |
|---|---|---|---|---|---|---|
| devbe/app/Http/Controllers/ProjectController.php:105 | `UserResource::collection(...)` is used, but the file imports only `ProjectResource`, `Project` and `Request` (lines 5-7), so the name resolves to `App\Http\Controllers\UserResource`, which does not exist, and PHP throws "Class not found"; the renderer answers 500 under `server` | a product owner who is a member of an existing project asks for its developers, for instance right after creating it | reply 200 with the project's developer members by name, as `AuthController.php` and `ProjectMetricsController.php` do after importing `App\Http\Resources\UserResource` | high; not executed | `ProjectController.DevelopersAsWritten`, `ProjectController.NewProjectDevelopersCrash` | `ProjectController.Developers` |
