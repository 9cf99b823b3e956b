# Task manager: a verified model of its rules

This project models the rule-bearing core of a small multi-user task manager
(an Express/MongoDB backend and a React client) in Dafny, and proves the rules
its code implements:

- the todo handlers (`GET /`, `POST /`, `PUT /:id`, `DELETE /:id`) over a store
  that maps todo ids to records, with owner scoping, newest-first listing,
  the 404-before-403 checks and partial updates;
- the decision logic of `/register`, `/login`, `/refresh` and `/verify` over a
  store that maps emails to users, with password hashing, password matching and
  token signing kept as uninterpreted functions;
- the browser session context (token, user, loading, and the three
  local-storage keys), its login/logout/activity transitions, the 30-minute
  inactivity logout and the mount-time token verification;
- the Todos page: the status parameter it sends, the list reducers it applies
  after successful writes, the status counts and its error handling;
- the new-task form's trimming and title check;
- the client route table and the server's CORS origin check.

Files: `wrappers.dfy` (Option and JavaScript truthiness), `api.dfy` (the JSON
shapes shared by server and client), then one module per source file:
`todo_routes.dfy`, `auth_routes.dfy`, `auth_context.dfy`, `todos_page.dfy`,
`todo_form.dfy`, `app.dfy`, `server.dfy`.

Conventions. An optional request field is an `Option<string>`; JavaScript's
`!x` on it is `!Truthy(x)` (absent or empty). Everything the database, the
schema or the clock supplies — a new todo's id, its default status and
creation time, a new user's id, the current time `now` in milliseconds — is a
parameter. Server replies seen by the client are parameters too.

Three behaviours of the code worth stating plainly:
- `POST /todos` does not trim: a title of spaces is accepted by the server
  (only the form refuses it, see `TodoForm.FormIsStricterThanServer`).
- A duplicate email is answered with 400 "User already exists", not a
  distinct conflict status.
- A new todo's status is whatever default the schema supplies; the schema is
  not part of this model, so the default is a parameter of `Create`.

## Model

| member | source | states |
|---|---|---|
| TodoRoutes.TodoStore.List | todo-backend/routes/todoRoutes.js:9-24 | returns exactly the caller's records (each with its id and stored value, no other owner's), restricted to equal status only when the parameter is truthy and not 'All' (so an unknown status gives an empty list, not an error), each id once, ordered by createdAt descending |
| TodoRoutes.InsertNewestFirst | todo-backend/routes/todoRoutes.js:18 | inserting a record into a newest-first list keeps it newest-first and adds exactly that element: the result's multiset is the input's plus one copy of it |
| TodoRoutes.InsertKeepsIdsDistinct | todo-backend/routes/todoRoutes.js:18 | inserting a record whose id is new keeps the listed ids distinct |
| TodoRoutes.TodoStore.Create | todo-backend/routes/todoRoutes.js:26-44 | an absent or empty title gives 400 "Title is required" and an unchanged store; otherwise exactly one record is added under the new id, owned by the caller, and returned with 201; no other user's set of records changes |
| TodoRoutes.TodoStore.Update | todo-backend/routes/todoRoutes.js:46-68 | absent id gives 404, then a different owner gives 403, both leaving the store unchanged; otherwise only that record changes, to the patched record, which is returned with 200; every other user's set of records and the set of ids never change |
| TodoRoutes.ApplyPatch | todo-backend/routes/todoRoutes.js:59-61 | a patch never changes the owner or the creation time |
| TodoRoutes.PatchWritesOnlyPresentFields | todo-backend/routes/todoRoutes.js:59-61 | each field the patch carries is written, and each field it leaves out keeps its value |
| TodoRoutes.EmptyPatchChangesNothing | todo-backend/routes/todoRoutes.js:59-61 | a patch with no fields present leaves the record as it was |
| TodoRoutes.ApplyPatchIdempotent | todo-backend/routes/todoRoutes.js:59-61 | applying the same patch twice equals applying it once |
| TodoRoutes.ApplyPatchComposes | todo-backend/routes/todoRoutes.js:59-61 | two patches in a row equal one patch in which the later present field wins |
| TodoRoutes.TodoStore.Delete | todo-backend/routes/todoRoutes.js:70-87 | 404 then 403 with the store unchanged; otherwise exactly that id is removed and "Todo removed" returned with 200; every other user's set of records is unchanged |
| AuthRoutes.UserStore.constructor | todo-backend/routes/authRoutes.js:8-10 | the store starts from a well-formed user map and fixed hashing, matching and token-signing functions |
| AuthRoutes.UserStore.Register | todo-backend/routes/authRoutes.js:12-31 | a missing email or password gives 400 and an unchanged store; an existing email (exact match) gives 400 "User already exists" and an unchanged store; otherwise exactly one user (new id, that email, hashed password) is added and 201 is returned with a message and no token |
| AuthRoutes.UserStore.Login | todo-backend/routes/authRoutes.js:33-58 | missing fields give 400; the reply is 401 "Invalid credentials" exactly when the email is unknown or the password does not match; a success carries the token generated for that user's id and only the id and email |
| AuthRoutes.UserStore.Refresh | todo-backend/routes/authRoutes.js:61-79 | 404 "User not found" when no user has the authenticated id; otherwise a token generated for that same id, with the user's id and email |
| AuthRoutes.UserStore.Verify | todo-backend/routes/authRoutes.js:82-97 | 404 "User not found" when no user has the authenticated id; otherwise that user's id and email |
| AuthRoutes.RegisterTwice | todo-backend/routes/authRoutes.js:20-27 | registering the same email twice: the first call succeeds with 201, the second is refused with 400 and the store holds the first user only |
| AuthContext.AuthProvider.constructor | frontend/src/context/AuthContext.jsx:10-15 | the state is hydrated from storage (token, user) and loading starts |
| AuthContext.AuthProvider.Login | frontend/src/context/AuthContext.jsx:17-23 | stores and sets the token and the user, records lastActivity = now |
| AuthContext.AuthProvider.Logout | frontend/src/context/AuthContext.jsx:25-31 | clears token, user and lastActivity in storage and state; the result does not depend on the state before, so a second logout changes nothing |
| AuthContext.AuthProvider.UpdateActivity | frontend/src/context/AuthContext.jsx:34-38 | writes lastActivity = now only while a token is held; otherwise nothing changes |
| AuthContext.AuthProvider.CheckInactivity | frontend/src/context/AuthContext.jsx:69-77 | logs out if and only if a lastActivity is stored and now minus it is strictly more than 30 minutes; otherwise, including with no stored lastActivity, nothing changes |
| AuthContext.AuthProvider.Tick | frontend/src/context/AuthContext.jsx:66-80 | the timer acts only while a token is held, and then exactly as CheckInactivity; it can never arm a session |
| AuthContext.AuthProvider.OnActivity | frontend/src/context/AuthContext.jsx:82-86 | an activity event records now only while the session is armed |
| AuthContext.AuthProvider.BeginVerify | frontend/src/context/AuthContext.jsx:42-47 | returns the stored token read at mount; with none, loading ends and nothing else changes |
| AuthContext.AuthProvider.FinishVerify | frontend/src/context/AuthContext.jsx:49-59 | a failed verification logs out; a successful one sets the returned user, the token read before the await and lastActivity = now, leaving storage alone, so the state token mirrors storage exactly when storage still holds that token; loading ends |
| AuthContext.AuthProvider.VerifyOnMount | frontend/src/context/AuthContext.jsx:41-63 | when no timer tick runs during the await: with no stored token only loading ends; a failed verification logs out; a successful one sets the returned user, the stored token and lastActivity = now; loading ends in every case, and the state token keeps mirroring the stored one |
| AuthContext.IdleBoundaryIsStrict | frontend/src/context/AuthContext.jsx:7 | exactly 30 minutes of inactivity is not idle; 30 minutes and 1 ms is |
| AuthContext.IdleIsMonotonic | frontend/src/context/AuthContext.jsx:72-73 | once idle, a session stays idle at every later time |
| AuthContext.LoginThenTick | frontend/src/context/AuthContext.jsx:17-77 | after a login at t, a timer tick up to 30 minutes later keeps the session and one after that ends it |
| AuthContext.ReloadAfterIdle | frontend/src/context/AuthContext.jsx:41-77 | a reload whose stored token the server still accepts, answered before the first timer tick, resets lastActivity, so a session idle beyond the timeout survives that tick |
| AuthContext.TickDuringVerify | frontend/src/context/AuthContext.jsx:41-77 | a timer tick during the await of an idle reload logs out and clears storage, and the late success then restores the old token in state only: the state token no longer mirrors storage |
| AuthContext.TickAfterRace | frontend/src/context/AuthContext.jsx:66-77 | after that race the restored token arms the timer again, and once idle a tick logs out, after which state and storage agree again |
| TodosPage.StatusParam | frontend/src/pages/Todos.jsx:18-21 | the status parameter is sent exactly when the filter is non-empty and not 'All', and then carries the filter |
| TodosPage.ServerFiltersAsSelected | frontend/src/pages/Todos.jsx:18-21 | the server applies a status filter exactly when the client sent a parameter, and filters by the selected value |
| TodosPage.ReplaceById | frontend/src/pages/Todos.jsx:51 | same length; every element with that id becomes the server's record and every other element stays in its place |
| TodosPage.RemoveById | frontend/src/pages/Todos.jsx:60 | keeps exactly the elements without that id and never grows the list |
| TodosPage.RemoveByIdDistributes | frontend/src/pages/Todos.jsx:60 | removal distributes over concatenation, so survivors keep their original order |
| TodosPage.RemoveAbsentId | frontend/src/pages/Todos.jsx:60 | removing an id no element has leaves the list as it was |
| TodosPage.RemoveAfterReplace | frontend/src/pages/Todos.jsx:51-60 | replacing an id's entries and then removing that id equals removing it |
| TodosPage.StatusCountsBounded | frontend/src/pages/Todos.jsx:66-67 | the Pending and Completed counts add up to at most the length, and to exactly the length if and only if every status is Pending or Completed |
| TodosPage.TodosPage.PendingCount | frontend/src/pages/Todos.jsx:66 | the pending count plus the completed count never exceeds the number of todos |
| TodosPage.TodosPage.CompletedCount | frontend/src/pages/Todos.jsx:67 | the completed count plus the pending count never exceeds the number of todos |
| TodosPage.NextStatusAlternates | frontend/src/components/TodoList.jsx:59 | the toggle button's target status differs from a Pending or Completed status, and toggling twice returns to it |
| TodosPage.TodosPage.constructor | frontend/src/pages/Todos.jsx:9-12 | the page starts with an empty list, filter 'All', not loading and no error |
| TodosPage.TodosPage.FetchTodos | frontend/src/pages/Todos.jsx:14-33 | sends the status parameter; a success replaces the list and clears the error; a 401 logs the session out (token, user and lastActivity cleared in state and storage, the session's loading flag kept), keeps the list and shows no error; any other failure keeps the list and shows "Failed to load todos"; loading ends |
| TodosPage.TodosPage.SelectFilter | frontend/src/pages/Todos.jsx:35-37 | choosing the filter already selected sends nothing and changes nothing; choosing another stores it and fetches the list for it with its status parameter, with the same success, 401 and failure outcomes as FetchTodos |
| TodosPage.TodosPage.AddTodo | frontend/src/pages/Todos.jsx:39-46 | a created record is prepended, so the old list is the tail; a failure keeps the list and shows "Failed to add todo" |
| TodosPage.TodosPage.ToggleStatus | frontend/src/pages/Todos.jsx:48-55 | the server's record replaces the entries with that id, length and the other entries unchanged; a failure keeps the list and shows "Failed to update todo" |
| TodosPage.TodosPage.DeleteTodo | frontend/src/pages/Todos.jsx:57-64 | a successful delete leaves no entry with that id and the rest in order; a failure keeps the list and shows "Failed to delete todo" |
| TodoForm.TrimStartIsSuffix | frontend/src/components/TodoForm.jsx:12 | dropping leading white space leaves a suffix that does not start with white space, after an all-white-space prefix |
| TodoForm.TrimEndIsPrefix | frontend/src/components/TodoForm.jsx:12 | dropping trailing white space leaves a prefix that does not end with white space, before an all-white-space suffix |
| TodoForm.TrimEmptyIffBlank | frontend/src/components/TodoForm.jsx:12 | the trimmed title is empty exactly when the title is empty or all white space |
| TodoForm.TrimmedEnds | frontend/src/components/TodoForm.jsx:17 | a non-empty trimmed string neither starts nor ends with white space |
| TodoForm.TrimIsMiddle | frontend/src/components/TodoForm.jsx:17 | the trimmed string is the contiguous part of the input between an all-white-space prefix and an all-white-space suffix |
| TodoForm.TrimIdempotent | frontend/src/components/TodoForm.jsx:17 | trimming a trimmed string changes nothing |
| TodoForm.Submission | frontend/src/components/TodoForm.jsx:12-17 | a title that is empty or all white space is refused; otherwise the submitted title is the trimmed title and never empty, and the description is trimmed |
| TodoForm.FormIsStricterThanServer | frontend/src/components/TodoForm.jsx:12-17 | every title the form submits passes the server's title check, while a title of spaces that the server would accept is refused by the form |
| TodoForm.TodoForm.constructor | frontend/src/components/TodoForm.jsx:4-6 | the form starts with empty title, description and error |
| TodoForm.TodoForm.Submit | frontend/src/components/TodoForm.jsx:8-20 | onAdd receives exactly the Submission of the fields; a refused submit shows "Title is required" and keeps the fields; an accepted one clears the error and both fields |
| App.Route | frontend/src/App.jsx:10-37 | while loading only the loading screen; '/' redirects to '/todos' with a token and '/login' without; '/login' and '/register' render their forms without a token and redirect to '/todos' with one; '/todos' renders the list only with a token; a page is the list exactly when a token is held; unknown paths match nothing |
| App.RedirectsSettle | frontend/src/App.jsx:21-36 | following any redirect lands on a rendered page: no redirect loops |
| Server.CorsOrigin | todo-backend/server.js:12-24 | allowed if and only if there is no origin or the origin is exactly one of the two allow-listed strings; every other origin is rejected with "Not allowed by CORS" |
| Server.NearMissesRejected | todo-backend/server.js:19 | an allowed origin with a trailing slash, and any non-empty proper prefix of one, are rejected |
| Server.CaseMatters | todo-backend/server.js:19 | the upper-case scheme spelling of an allowed origin is rejected |

## Left out

- Password hashing, password matching and JWT signing/verification are cryptographic library calls; they are uninterpreted function fields of `UserStore`. Token expiry (24 hours) lives inside the signer and is not modelled. A token is modelled as depending only on the user id, so the issue time `jwt.sign` stamps into it is not modelled and Refresh returns the same token Login issued for that id.
- The authentication middleware is not part of this model; the caller's id is an input to every protected handler, and its 401 replies are not modelled.
- MongoDB and Mongoose are replaced by maps. Their exceptions, and so every 500 "Server error" reply, are left out. Schema validation on save (required fields, a status enum, default values) is not part of this model; defaults are parameters, and an update whose patch sets an empty title is modelled as accepted.
- Request bodies are strings or absent. A JSON `null` in a patch is not modelled: the code skips only `undefined` fields, so it would store the null (a null description is saved as null), while the model has no null value. A non-string value (for instance an object passed as the login email) is not modelled either.
- Express plumbing, `app.listen`, environment loading, the database connection and the axios client are I/O.
- `setInterval`, the DOM activity listeners and `Date.now` become the explicit `Tick`/`OnActivity` steps with a `now` parameter. A stored lastActivity that does not parse as a number is not modelled.
- AuthContext.AuthProvider.VerifyOnMount: models verification settling before any timer tick; a tick during the await is covered by BeginVerify, FinishVerify and TickDuringVerify, and there the state token stops mirroring storage.
- Races between overlapping fetches on the Todos page are concurrency the code does not guard; each call is modelled as one atomic step with its reply as a parameter.
- JSX rendering and styling, `TodoList` (apart from the toggle's next-status choice), and the Login and Register pages.
- App.Route: paths are matched exactly; React Router's case-insensitive and trailing-slash tolerant matching is not modelled.
- TodosPage.CountStatus: states only the bound by the list's length; the relation between the two counts is StatusCountsBounded.
- TodoRoutes.TodoStore.List: the order among records with the same createdAt is unspecified by the database and is left open.
