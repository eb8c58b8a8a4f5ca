# Task manager client: session, route guards, forms and list editors in Dafny

This project models the logic core of a React task-management client that talks to a REST
backend. The model covers:

- **The session store.** This is the state `UserProvider` keeps: the stored `token` and `role`
  in `localStorage`, the Authorization default of the HTTP client, the current `user` and the
  `loading` flag. Its transitions are `fetchUser`, `updateUser` and `logout`.
- **Navigation gating.** The `PrivateRoute` role guard, the route table and the `Root`
  redirect of `App`, the `useUserAuth` effect, and the menu choice and logout click of `SideMenu`.
- **Forms with ordered error reporting.**
  - The 14 checks of the task form's `handleSubmit`, with its create/update branch and the
    checklist payload. The form also has `handleValueChange`, `clearData` and the loading of an
    existing task.
  - `handleLogin` and `handleSignUp`: the order of their checks, the request body, what a
    successful answer stores, the redirect by role, and the error text.
  - `validateEmail`.
  - The checks `uploadImage` makes before it posts a file.
- **List editors.** The checklist and attachment inputs (trimmed, non-blank, duplicate-free
  append and remove-by-index), the assignee toggle of `SelectUsers`, and its button label.
- **Small mappers.** The `API_PATHS` builders, the request interceptor that adds the
  `Authorization: Bearer` header of section 2.1 of RFC 6750, and the status and priority badges
  of the task table.

Each source file has one module. The session is an immutable `Session` value. `localStorage` is
a `map<string, string>`. A server answer is an input datatype, and each handler is a pure
function from the state and the answer to the new state, the request body it sends (if any),
the navigation it makes, and the error text it shows. JavaScript strings are `seq<char>`.
`null`, `undefined` and `""` are merged into `""` wherever the code only tests them for
truthiness. `.length` counts UTF-16 code units, and `trim` and `\s` use the ECMAScript
white-space set.

Three behaviours of the code are worth stating plainly, because a reader might expect otherwise:

- A 401 from the profile request removes only `token` from storage. `role` stays, and
  `UserContext.FetchUser` states that.
- Profile answers are not checked for staleness. Each event is modelled as one atomic transition.
- Sign-up stores only the token, never the role, and `SignUp.SignUpKeepsStoredRole` states that.

## Model

| member | source | states |
|---|---|---|
| LocalStorage.GetItem | src/context/useContext.jsx:20 | a missing key reads as "" and a present key reads as its value |
| LocalStorage.SetItem | src/pages/Auth/Login.jsx:49-50 | the key gets the value and every other key keeps its value; no key appears from nowhere |
| LocalStorage.RemoveItem | src/context/useContext.jsx:62-63 | the key is gone and every other key keeps its value |
| ApiPaths.GetUserById | src/utils/apiPaths.js:15-16 | the path lies under the users prefix, one character longer per id character; `UserPathRoundTrip` reads exactly the id back out of it |
| ApiPaths.UpdateUser | src/utils/apiPaths.js:17-18 | the path lies under the users prefix, one character longer per id character; `UserPathRoundTrip` reads exactly the id back out of it |
| ApiPaths.GetTaskById | src/utils/apiPaths.js:30-31 | the path is the tasks prefix followed by exactly the id |
| ApiPaths.UpdateTask | src/utils/apiPaths.js:33-34 | the path is the tasks prefix followed by exactly the id |
| ApiPaths.DeleteTask | src/utils/apiPaths.js:35-36 | the path is the tasks prefix followed by exactly the id |
| ApiPaths.UpdateTaskStatus | src/utils/apiPaths.js:39-40 | the path lies under the tasks prefix |
| ApiPaths.UpdateTodoChecklist | src/utils/apiPaths.js:41-42 | the path lies under the tasks prefix |
| ApiPaths.UserIdOf | src/utils/apiPaths.js:15-18 | reads an id back out of a user path: defined exactly on paths under the users prefix, and the prefix plus the id is the path |
| ApiPaths.UserPathRoundTrip | src/utils/apiPaths.js:15-18 | the id is recovered from the path of both user builders, so distinct ids give distinct user paths |
| ApiPaths.TaskIdOf | src/utils/apiPaths.js:30-31 | reads an id back out of a task path: defined exactly on paths under the tasks prefix, and the prefix plus the id is the path |
| ApiPaths.TaskPathsAgree | src/utils/apiPaths.js:14-36 | get, update and delete of a task give the same path for the same id; so do get and update of a user; the create path equals the list path |
| ApiPaths.TaskPathRoundTrip | src/utils/apiPaths.js:30-31 | the id is recovered from its task path, so distinct ids give distinct paths |
| ApiPaths.SubresourcePaths | src/utils/apiPaths.js:30-42 | the status path is the task path plus "/status" and the checklist path is the task path plus "/todo" |
| AxiosInstance.InterceptRequest | src/utils/axiosInstance.js:18-29 | with a stored token, Authorization is "Bearer " + token; without one, Authorization is as it was; a FormData body loses Content-Type; every other header, the method, the URL and the body are unchanged, and no header other than Authorization is added |
| AxiosInstance.MergeHeaders | src/utils/axiosInstance.js:4-15 | headers given with the call win; each of the instance's four headers is sent unless the call overrides it, and then beats a common default of the same name; a common default survives unless the instance or the call overrides it; nothing else appears |
| AxiosInstance.JsonRequestHeaders | src/utils/axiosInstance.js:8-24 | a JSON request without headers of its own sends Content-Type and Accept "application/json", whatever the common defaults, plus the bearer value when a token is stored |
| AxiosInstance.LoggedOutRequestHasNoBearer | src/utils/axiosInstance.js:18-29 | with no stored token and a blanked common Authorization, a request carries an empty Authorization header, never a bearer value |
| UserContext.InitialSession | src/context/useContext.jsx:15-16 | the provider starts with no user and loading |
| UserContext.FetchUser | src/context/useContext.jsx:19-50 | no token: no request, loading off, go to /login. Otherwise a profile request with the bearer header. A truthy body becomes the user; neither a truthy nor a falsy body navigates. A 401 removes the token only (the role stays), clears the user and goes to /login. Any other failure changes nothing but loading. Loading is off on every path |
| UserContext.ApiBase | src/context/useContext.jsx:55 | the configured API URL when set, otherwise exactly "http://localhost:8000", which starts with "http" |
| UserContext.AbsoluteImageUrl | src/context/useContext.jsx:54-56 | an empty URL or one starting with "http" is kept; any other is prefixed with the base |
| UserContext.AbsoluteImageUrlIdempotent | src/context/useContext.jsx:54-56 | with an http base, the result starts with "http" and a second pass changes nothing |
| UserContext.UpdateUser | src/context/useContext.jsx:52-59 | the user becomes the given data with its image URL made absolute; loading is off; storage and headers are untouched |
| UserContext.Logout | src/context/useContext.jsx:61-68 | token and role are removed and every other key is kept; the Authorization default becomes ""; there is no user; navigation to /login |
| UserContext.LogoutIdempotent | src/context/useContext.jsx:61-68 | logging out twice gives the same state as logging out once |
| UserContext.LogoutEndsSession | src/context/useContext.jsx:61-64 | after logout the next profile fetch sends no request, and any request carries no bearer value |
| UserContext.LoginThenLogout | src/context/useContext.jsx:61-68 | storing a token, a role and a user, then logging out, leaves no token, no role and no user |
| PrivateRoute.NormalizeRole | src/routes/PrivateRoute.jsx:14 | "member" becomes "user" and every other role is kept verbatim; the result is never "member" |
| PrivateRoute.Guard | src/routes/PrivateRoute.jsx:5-21 | loading renders nothing; no user redirects to /login; otherwise the outlet renders iff the normalised role is allowed, and any other outcome redirects to / |
| PrivateRoute.SignedInNeverSentToLogin | src/routes/PrivateRoute.jsx:10-20 | with a user present the guard never redirects to /login |
| PrivateRoute.MemberOnlyGuardExcludesMembers | src/routes/PrivateRoute.jsx:14-16 | a guard that lists only "member" sends a member to / |
| PrivateRoute.MemberPassesUserGuard | src/routes/PrivateRoute.jsx:14-20 | a member passes any guard that lists "user" |
| App.MatchRoute | src/App.jsx:44-66 | /login and /signup are public pages, / is Root, and every guarded route lists either the admin roles or the user roles |
| App.AppContent | src/App.jsx:28-66 | a missing context or a loading one shows only the spinner; once loaded, an unknown path shows nothing, a public route shows its page, / shows what Root gives, and a guarded route shows its page exactly when the route guard admits the user, otherwise it follows the guard's redirect |
| App.AdminPagesRefuseOthers | src/App.jsx:49-54 | a signed-in user whose role is not "admin" is sent to / from each of the four admin pages |
| App.Root | src/App.jsx:100-110 | loading shows the spinner; no user goes to /login; admin goes to /admin/dashboard; user or member goes to /user/dashboard; any other role goes to /login |
| App.RouteGuards | src/App.jsx:45-62 | the four admin pages are guarded by ["admin"], the three user pages (any task id) by ["user", "member"], and /login and /signup are unguarded |
| App.RootTargetsRender | src/App.jsx:100-110 | every redirect of Root lands on a page that renders for the same user |
| App.RedirectsSettle | src/App.jsx:44-66 | from any path, at most two redirects reach a screen that is not a redirect, and for every known path that screen is a rendered page |
| UseUserAuth.ProviderValue | src/context/useContext.jsx:74-79 | the published context value has the user and loading flag and no `clearUser` |
| UseUserAuth.UserAuthEffect | src/hooks/useUserAuth.jsx:9-21 | loading or a present user: no action. No user and a callable `clearUser`: clear, then go to /login, or only clear if it throws. Anything that is not a function: no action |
| UseUserAuth.ProviderHookIsInert | src/hooks/useUserAuth.jsx:6-13 | under the real provider the effect never acts |
| SideMenu.MenuFor | src/components/layouts/SideMenu.jsx:31-35 | no user leaves the menu as it was; admin gets the admin menu iff the role is "admin", every other role the user menu |
| SideMenu.HandleLogout | src/components/layouts/SideMenu.jsx:21-29 | the last navigation is a replacing one to /login and all navigations go to /login, whether or not logout throws; the session is the logged-out one unless logout throws |
| SideMenu.HandleClick | src/components/layouts/SideMenu.jsx:12-19 | a route that lower-cases to "logout" runs handleLogout and is never navigated to; any other route is navigated to exactly, with nothing else changed |
| SideMenu.LogoutRouteSpellings | src/components/layouts/SideMenu.jsx:14 | a route counts as logout iff it has six characters that lower-case to "logout" |
| SideMenu.LogoutClickIdempotent | src/components/layouts/SideMenu.jsx:21-24 | a second logout click leaves the session of the first |
| Helper.ValidateEmailMatchesPattern | src/utils/helper.js:1-4 | the four-condition reading of `validateEmail` accepts exactly the strings the regular expression matches |
| Helper.AcceptedEmailShape | src/utils/helper.js:2 | an accepted address has exactly one "@", no white space, a non-empty part before the "@", and a "." strictly inside the part after it |
| Helper.AcceptedMatchesPattern | src/utils/helper.js:2 | an accepted address splits into the three non-empty runs of `[^\s@]` the pattern describes |
| Helper.PatternIsAccepted | src/utils/helper.js:1-4 | a string the pattern matches is accepted |
| JsText.Trim | src/components/layouts/inputs/TodoListInput.jsx:10 | the result neither starts nor ends with white space and is no longer than the input |
| JsText.TrimRemovesOnlyWhitespace | src/components/layouts/inputs/TodoListInput.jsx:10 | the trim is a contiguous part of the input, and what it drops on either side is white space |
| JsText.TrimEmptyIffBlank | src/components/layouts/inputs/TodoListInput.jsx:10 | `s.trim() === ""` iff `s` is empty or all white space |
| JsText.TrimIdempotent | src/components/layouts/TaskListTable.jsx:10 | trimming twice is trimming once |
| JsText.NoWhitespaceIsTrimmed | src/pages/Auth/Login.jsx:42 | a string without white space is its own trim |
| JsText.ToLower | src/components/layouts/SideMenu.jsx:14 | same length, each character lower-cased, no upper-case ASCII letter left |
| ListEditor.AddOption | src/components/layouts/inputs/TodoListInput.jsx:9-24 | a blank input is rejected and nothing changes; a trimmed input already present is rejected and nothing changes; otherwise the trimmed input is appended and the box cleared |
| ListEditor.RemoveAt | src/components/layouts/inputs/TodoListInput.jsx:27 | an index in range drops exactly that entry and keeps the rest in order; an index out of range changes nothing |
| ListEditor.RemoveOption | src/components/layouts/inputs/TodoListInput.jsx:26-30 | one entry fewer, every other entry in its old order, and the removal toast |
| ListEditor.AddKeepsWellFormed | src/components/layouts/inputs/TodoListInput.jsx:9-24 | adding keeps the entries distinct, non-empty and trimmed |
| ListEditor.RemoveKeepsWellFormed | src/components/layouts/inputs/TodoListInput.jsx:26-30 | removing keeps the entries distinct, non-empty and trimmed |
| ListEditor.AddThenRemoveLast | src/components/layouts/inputs/TodoListInput.jsx:20-28 | removing the last entry undoes a successful add |
| ListEditor.ReplayKeepsWellFormed | src/components/layouts/inputs/TodoListInput.jsx:9-30 | any run of adds and removes keeps a well-formed list well formed |
| TodoListInput.HandleAddOption | src/components/layouts/inputs/TodoListInput.jsx:9-24 | blank or duplicate input leaves the list and gives the matching toast; a successful add appends the trimmed item (length plus one) and clears the box, and it happens exactly when the input is neither; well-formedness is kept |
| TodoListInput.HandleRemoveOption | src/components/layouts/inputs/TodoListInput.jsx:26-30 | drops exactly the entry at the index, or nothing when out of range; well-formedness is kept |
| TodoListInput.RowLabel | src/components/layouts/inputs/TodoListInput.jsx:41 | all digits, two of them below row 99, a leading zero exactly for the first nine rows |
| TodoListInput.RowLabelReadsBack | src/components/layouts/inputs/TodoListInput.jsx:41 | the label read as a decimal number is the one-based row number |
| AddAttachmentsInput.HandleAddOption | src/components/layouts/inputs/AddAttachmentsInput.jsx:11-26 | blank or duplicate links leave the list with the matching toast; a link is appended trimmed and the box cleared exactly when it is neither; well-formedness is kept |
| AddAttachmentsInput.HandleRemoveOption | src/components/layouts/inputs/AddAttachmentsInput.jsx:28-32 | drops exactly the entry at the index and keeps the rest in order; well-formedness is kept |
| AddAttachmentsInput.LinksStayWellFormed | src/components/layouts/inputs/AddAttachmentsInput.jsx:11-32 | from an empty list, any run of edits keeps the links distinct, trimmed and non-empty |
| SelectUsers.IdOf | src/components/layouts/inputs/SelectUsers.jsx:30 | an entry has an `_id` iff it is a user object |
| SelectUsers.WithoutId | src/components/layouts/inputs/SelectUsers.jsx:31 | no entry with the id is left, every kept entry was there before, and every other entry is kept |
| SelectUsers.WithoutIdAppend | src/components/layouts/inputs/SelectUsers.jsx:31 | the filter distributes over concatenation, so the kept entries stay in their relative order |
| SelectUsers.Toggle | src/components/layouts/inputs/SelectUsers.jsx:29-35 | an absent user is appended at the end; a present one is removed with every entry of its id and the list shrinks; the user is selected afterwards iff it was not before |
| SelectUsers.ToggleTwice | src/components/layouts/inputs/SelectUsers.jsx:29-35 | toggling an absent user twice gives back the original list |
| SelectUsers.WithoutIdKeepsUnique | src/components/layouts/inputs/SelectUsers.jsx:31 | the filter keeps the ids unique |
| SelectUsers.ToggleKeepsUnique | src/components/layouts/inputs/SelectUsers.jsx:29-35 | toggling keeps the ids unique |
| SelectUsers.BareIdIsNotRecognised | src/components/layouts/inputs/SelectUsers.jsx:30 | bare id strings never match, so toggling over them always appends |
| SelectUsers.Names | src/components/layouts/inputs/SelectUsers.jsx:47 | one name per entry, in selection order |
| SelectUsers.ButtonLabel | src/components/layouts/inputs/SelectUsers.jsx:44-48 | the placeholder for an empty selection, otherwise the names joined by ", " in selection order |
| SelectUsers.LabelAfterToggle | src/components/layouts/inputs/SelectUsers.jsx:29-48 | selecting one more user appends ", " and its name to the label |
| CreateTask.ClearData | src/pages/Admin/CreateTask.jsx:42-52 | every field is back to its initial value, with priority "Low" |
| CreateTask.HandleValueChange | src/pages/Admin/CreateTask.jsx:35-40 | the named field takes the value and every other field keeps its value |
| CreateTask.ScanChecklist | src/pages/Admin/CreateTask.jsx:166 | passes iff every item is a string of at most 100 code units; throws iff an undefined item is reached with only short strings before it; fails otherwise |
| CreateTask.RunChecks | src/pages/Admin/CreateTask.jsx:118-173 | all checks pass iff each passes on its own; otherwise the run stops at a check that fails or throws and all checks before it pass |
| CreateTask.ToTodoItems | src/pages/Admin/CreateTask.jsx:57-60 | one `{text, completed: false}` per checklist string, in order |
| CreateTask.HandleSubmit | src/pages/Admin/CreateTask.jsx:54-179 | a request goes out iff the data is acceptable (field presence, the 1..5, 1..10 and 1..5 counts, the 100/500/100/200 lengths); an update iff there is a task id, a create otherwise; the create body carries title, description, priority, due date, assignees and attachments as entered and maps each checklist string to an uncompleted item; the update sends the record to the task's path |
| CreateTask.SubmitFollowsCheckOrder | src/pages/Admin/CreateTask.jsx:118-173 | the reported error is the first check in source order that fails, the form throws iff the run reaches a throwing check, and a request goes out iff all checks pass |
| CreateTask.AllChecksPass | src/pages/Admin/CreateTask.jsx:118-173 | data on which all 14 checks pass is acceptable |
| CreateTask.SubmitStopsAt | src/pages/Admin/CreateTask.jsx:118-173 | when the checks before the i-th pass and it does not, the submit reports that check, or crashes when it throws |
| CreateTask.ClearedFormIsRejected | src/pages/Admin/CreateTask.jsx:118-121 | a cleared form is rejected for its missing title |
| CreateTask.FinishSave | src/pages/Admin/CreateTask.jsx:54-99 | a truthy answer clears the form and goes to /admin/tasks; a falsy one changes nothing; a failure keeps the form and shows the server message, else the create or update fallback |
| CreateTask.ReadField | src/pages/Admin/CreateTask.jsx:207 | a field is a string iff the item has it, and then it is that value |
| CreateTask.LoadTaskWith | src/pages/Admin/CreateTask.jsx:188-215 | scalar fields and attachments are copied; assignees become bare ids in order; each checklist entry is the named field of its item |
| CreateTask.ReloadedTaskCannotBeSaved | src/pages/Admin/CreateTask.jsx:205-207 | reading `_text`, every checklist entry of a task this form created comes back undefined, and submitting it always throws in the checklist length check, so the update is never sent |
| CreateTask.ReloadedTaskRoundTrip | src/pages/Admin/CreateTask.jsx:57-60 | reading `text`, a created task comes back with the same checklist and fields and submits as an update of itself |
| UploadImage.TypePatternIsExact | src/utils/uploadImage.js:16 | the type pattern accepts exactly image/jpeg, image/png and image/gif |
| UploadImage.RethrownMessage | src/utils/uploadImage.js:52 | the server message, else the error's own message, else 'Failed to upload image'; never empty |
| UploadImage.UploadImage | src/utils/uploadImage.js:4-55 | file, size, type and token are checked in that order, each with its message and no request; a request goes out iff all pass, as a FormData POST to the upload path with a bearer header and no Content-Type; a missing imageUrl is an error; failures carry the rethrown message |
| UploadImage.SizeLimitIsInclusive | src/utils/uploadImage.js:11-13 | one byte over 5 MiB is rejected for size; exactly 5 MiB gets past the size check |
| Login.LoginTarget | src/pages/Auth/Login.jsx:53-57 | admin goes to /admin/dashboard, user and member to /user/dashboard, both replacing; other roles do not navigate |
| Login.LoginErrorMessage | src/pages/Auth/Login.jsx:59-65 | the server message, else the connection text for "Network Error", else the generic text |
| Login.HandleLogin | src/pages/Auth/Login.jsx:23-69 | an invalid email is rejected first, then a short password, with no request; the body is the email (its trim equals it) and the password; token and role are stored and the user updated only when both are present; the redirect follows the role; failures get the catch text |
| Login.LoginRedirectIsAdmitted | src/pages/Auth/Login.jsx:53-57 | the page a login redirects to admits the stored user, so the redirect does not bounce |
| SignUp.SignUpErrorMessage | src/pages/Auth/SignUp.jsx:98-111 | 400 gives the server message or the bad-input text, 409 the already-registered text, 500 the server-error text, then "Network Error" the connection text, else the generic text |
| SignUp.ProfileImageUrl | src/pages/Auth/SignUp.jsx:54-71 | the uploaded URL when the upload gave one; "" when no picture was chosen or the upload failed |
| SignUp.SignUpCheck | src/pages/Auth/SignUp.jsx:36-52 | a blank name, then an invalid email, then a short password are reported in that order; nothing is reported iff all three are fine |
| SignUp.SignUpPayload | src/pages/Auth/SignUp.jsx:74-80 | the name is trimmed (non-empty when not blank), a white-space-free email is lower-cased, the password is verbatim, the invite token is trimmed, and the image URL is the upload's |
| SignUp.FinishSignUp | src/pages/Auth/SignUp.jsx:82-96 | with token and role, only the token is stored, the user is updated, and the redirect is admin iff the role is "admin", else user; otherwise the generic text; failures get the status text; no key but the token changes |
| SignUp.PictureUpload | src/pages/Auth/SignUp.jsx:54-71 | no upload without a picked picture; without a stored token a picked picture always fails to upload, with the not-logged-in message once it passes the size and type checks; a successful upload needs a token and a server answer carrying the URL |
| SignUp.SignUpAfterUpload | src/pages/Auth/SignUp.jsx:29-115 | the handler with the picture's outcome given: a request goes out iff the checks pass; if not, the state is unchanged and the first failing check's text is shown; if so, the body is the normalised payload and the answer is handled as above |
| SignUp.HandleSignUp | src/pages/Auth/SignUp.jsx:29-115 | a request goes out iff the checks pass; a non-empty image URL is sent only when a picture was picked, a token is stored and the upload answered that URL; the picture never changes the state, the redirect or the error text |
| SignUp.SignedOutSignUpHasNoPicture | src/utils/uploadImage.js:25-30 | with no stored token, a sign-up that passes the checks sends an empty image URL whatever picture is picked |
| SignUp.SignedInSignUpSendsPicture | src/pages/Auth/SignUp.jsx:57-62 | with a stored token and an accepted picture whose upload answers a URL, that URL is sent |
| SignUp.SentPayloadIsNormalised | src/pages/Auth/SignUp.jsx:74-80 | once the three checks pass a request is sent; its name is trimmed and non-empty, the invite trimmed, the password verbatim, and the email lower-cased, still valid and without upper-case ASCII letters |
| SignUp.LowerPreservesEmailShape | src/pages/Auth/SignUp.jsx:76 | lower-casing a valid address keeps it valid |
| SignUp.SignUpKeepsStoredRole | src/pages/Auth/SignUp.jsx:84-87 | sign-up never writes the role key: a stored role survives unchanged and none appears |
| TaskListTable.StatusBadge | src/components/layouts/TaskListTable.jsx:5-20 | a missing status is gray; green, yellow and blue exactly for the trimmed statuses Completed, Pending and In Progress; gray exactly for every other trimmed status |
| TaskListTable.PriorityBadge | src/components/layouts/TaskListTable.jsx:23-34 | red, amber and green exactly for High, Medium and Low; gray for anything else |
| TaskListTable.StatusBadgeIgnoresPadding | src/components/layouts/TaskListTable.jsx:10 | the badge of a status is the badge of its trim |
| TaskListTable.PaddedStatusKeepsBadge | src/components/layouts/TaskListTable.jsx:10-16 | a known status with white space on either side keeps its badge |
| TaskListTable.PaddedPriorityIsGray | src/components/layouts/TaskListTable.jsx:23-32 | a priority that trimming would change is gray, because priorities are matched untrimmed |

## Left out

- Rendering, styling and modals are left out. Of the toasts, the model keeps the error texts of the login, sign-up and task forms and the toasts of the checklist and attachment editors. The success toasts ("Registration successful! Redirecting to dashboard...", "🎉 Task created successfully!", "✅ Task updated successfully") and the sign-up toast for a failed picture upload are not modelled; none of them changes the state, the request or the navigation.
- Network I/O is left out. Server answers are inputs to the handlers. The response interceptor only logs, so it is not modelled. The axios options `baseURL`, `timeout` and `withCredentials` do not affect any modelled outcome.
- Asynchronous ordering and stale answers are left out. Each event is one atomic transition.
- Browser persistence of `localStorage` is left out; it is a map.
- Dates are left out: `moment` formatting and `toISOString` are library behaviour. The due date is an opaque string the form passes on.
- `ProfilePhotoSelector` (object URLs) and upload progress are browser APIs.
- `addThousandsSeparator` is left out. Its guard is inverted (src/utils/helper.js:8), so it never formats a number.
- `deleteTask` of the task form, the dashboards, `MyTasks` and `ManageUsers` are fetch-and-display pages.
- JsText.ToLower: lower-cases ASCII letters only; `toLowerCase` on other scripts is not modelled.
- App.MatchRoute: matches paths exactly; React Router's case-insensitive and trailing-slash matching is not modelled.
- AxiosInstance.MergeHeaders: axios's per-method default headers are not modelled; only the common defaults, the instance headers and the per-call headers are merged.
- UserContext.ApiBase: takes `process.env.VITE_API_URL` as always readable ("" when unset). In a Vite browser bundle `process` exists only if the build defines it, and the build configuration is not part of this model.
- UserContext.UpdateUser: does not model the ReferenceError that `updateUser` throws for a relative image URL when the build does not define `process`; it always stores the user.
- CreateTask.HandleSubmit: the create body carries the due date as entered; its ISO conversion is not modelled.
- CreateTask.LoadTaskWith: every loaded assignee is taken to have an `_id`, and a missing `assignedTo`, `todoChecklist` or `attachments` array is not modelled.
- SignUp.HandleSignUp: the redirect made after a two-second timer is modelled as made. The upload request itself is stated by `UploadImage.UploadImage`; the sign-up result records only the URL it yields.
- SignUp.SignUpErrorMessage: a 400 answer whose body is `null` makes `error.response.data.message` throw inside the catch block, so no toast is shown; the model gives that answer the bad-input text, as for a body without a message.
- SignUp.SignUpPayload: states the lower-cased email only for addresses without white space, which is every address the checks let through.
- SideMenu.HandleLogout: a `logout` that throws is taken to throw before it changes any state.
- UploadImage.UploadImage: the FormData fields and the progress callback are not modelled.

## Findings

| source | as written | input that shows it | evidently intended | confidence | as-written member | corrected member |
|---|---|---|---|---|---|---|
| src/pages/Admin/CreateTask.jsx:205-207 | the loaded checklist reads `item?._text`, but the create request writes each item as `{text, completed}` (src/pages/Admin/CreateTask.jsx:57-60) | create a task with checklist ["a"], then open it for editing: the checklist loads as [undefined], and the next submit always throws in the checklist length check (src/pages/Admin/CreateTask.jsx:166), so the update is never sent | read `item?.text`, so the checklist round-trips and the task can be saved again | not executed | CreateTask.ReloadedTaskCannotBeSaved | CreateTask.ReloadedTaskRoundTrip |
