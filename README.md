# Task manager: a verified model

The task manager has two halves. The server is an Express/Mongoose API with:
- a user collection, reached through register, login and change-password;
- a task collection, reached through create, list, update and delete;
- a token gate in front of the protected routes.

The client is a React application. It holds:
- a session (token, current user, `localStorage`);
- the signed-in user's task list;
- the dashboard, the task dialog, the task card, and the register and profile forms.

This project models each of those source files as one Dafny module.

- **Stores are classes.**
  - `TaskRoutes.TaskStore` keeps the task collection as a map from task id to task document, plus a clock.
  - `AuthRoutes.UserStore` keeps the user collection as a map from stored email to user record. Each store keeps an invariant (`Valid`) that every route preserves.
- **Client state holders are classes.** Their fields are the component's `useState` values. Each handler is a method that says what every field holds afterwards.
- **Pure mappings are functions.** The schema setters and validators, the list updates, the status filter, the chip colours and the form checks are functions, each with lemmas relating it to a partner definition or to another part of the system.
- **Outside code is an input or an abstract function.**
  - The password hash is an uninterpreted function, and `bcrypt.compare(p, h)` is `hash(p) == h`.
  - A token is a record of its claims and its issue and expiry times in seconds.
  - `jwt.verify`'s outcome is a datatype.
  - API replies, `window.confirm` and whether a date parses are parameters.
  - `JSON.stringify` and `JSON.parse` of a user are functions the session is given.
  - Every API call the client makes is appended to a `requests` log, so "no call is made" is a statement about that log.

## Model

| member | source | states |
|---|---|---|
| Text.OrElse | src/components/TaskFormModal.js:31-34 | `o \|\| fallback` is the value exactly when it is a non-empty string, and the fallback otherwise |
| Text.Trim | server/models/Task.js:17 | the trimmed string is no longer than the original and is empty or starts and ends with a non-white-space character |
| Text.TrimIsSlice | server/models/Task.js:17 | trimming keeps one contiguous slice and cuts only white space on either side of it |
| Text.TrimIdempotent | server/models/Task.js:17 | trimming a trimmed string changes nothing |
| Text.TrimEmptyIffBlank | src/components/TaskFormModal.js:70 | a string trims to empty exactly when every character is white space |
| Text.ToLower | server/models/User.js:14 | lower-casing keeps the length and maps each character through ASCII lower-casing |
| Text.ToLowerIdempotent | server/models/User.js:14 | lower-casing twice is lower-casing once |
| Text.ToLowerTrimCommute | server/models/User.js:14-15 | the `lowercase` and `trim` setters give the same result in either order |
| Jwt.Sign | server/routes/auth.js:45-48 | the token carries the given user claims, is issued at the current whole second and expires 5 hours (18000 s) later |
| Jwt.Verify | server/middleware/authMiddleware.js:15 | a server-signed token verifies exactly while the current second is before its expiry, and then yields its own claims; otherwise the error is `TokenExpiredError` |
| Jwt.FiveHourLifetime | server/routes/auth.js:48 | a token is accepted for the first 4 h 59 min 59 s after signing and refused as expired from 5 h on |
| AuthMiddleware.Authenticate | server/middleware/authMiddleware.js:5-28 | `next` runs, carrying the decoded user, exactly when a non-empty header verifies. No header gives 401 "No token", an expired token 401 "expired", a malformed one 401 "not valid". A 500 happens exactly on any other verify error |
| AuthMiddleware.IssuedTokenAdmitted | server/middleware/authMiddleware.js:15-24 | a token the server signed passes the gate with exactly its signed identity within its lifetime, and gets 401 "expired" from 5 h on |
| TaskSchema.Build | server/models/Task.js:4-51 | a new task document trims title, description and assignee, defaults description to `''`, status to `Todo`, priority to `Medium` and assignee to null, and stamps both timestamps with the current time |
| TaskSchema.ValidationErrors | server/models/Task.js:5-37 | the failing paths are among `user`, `creatorEmail`, `title`, `status`, `priority` and `dueDate`, and there are none exactly when the document conforms. `dueDate` fails exactly when a due date is set that does not cast to a valid date |
| TaskSchema.Conforms | server/models/Task.js:5-37 | a task saves when its owner id is well formed, its creator email and title are non-empty, its status and priority are in their enums, and any due date casts to a date |
| TaskSchema.PreSave | server/models/Task.js:53-56 | saving sets `updatedAt` to the current time and changes no other field |
| TaskSchema.BuildConformsIff | server/models/Task.js:5-37 | a new task saves iff the owner id is well formed, the creator email is non-empty, the title has a non-white-space character, any status or priority given is in its enum, and any due date given casts to a date |
| TaskSchema.BlankTitleFails | server/models/Task.js:14-18 | a title that is all white space is trimmed to empty and fails `required` |
| UserSchema.NormalizeEmail | server/models/User.js:14-15 | the stored email is the given email lower-cased, with the white space at both ends cut off: a slice of the lower-cased text with only white space outside it, and neither end white space. It has no upper-case ASCII letter |
| UserSchema.NormalizeEmailIdempotent | server/models/User.js:14-15 | normalising a stored email leaves it unchanged |
| UserSchema.NormalEmailIsFixedPoint | server/models/User.js:14-15 | the stored-form predicate holds exactly for the strings the setters leave unchanged |
| UserSchema.CaseInsensitiveEmail | server/routes/auth.js:23 | two emails that differ only in letter case normalise to the same key |
| UserSchema.ValidationErrors | server/models/User.js:6-20 | the failing paths are among `name`, `email` and `passwordHash`, and there are none exactly when all three are non-empty |
| UserSchema.Conforms | server/models/User.js:6-20 | a user saves when name, email and password hash are all non-empty |
| UserSchema.NewUser | server/routes/auth.js:27-33 | the new record holds the normalised email, the password's hash (never the password) and the current time as `createdAt` |
| AuthRoutes.PublicView | server/routes/auth.js:53-57 | the user object of a register or login reply is the account's id, name and email, and carries no hash |
| AuthRoutes.ClaimsOf | server/routes/auth.js:37-43 | the token payload's `user` is the account's id, email and name |
| AuthRoutes.RegisterInputError | server/routes/auth.js:15-20 | register's input checks pass iff name, email and password are all non-empty and the password has at least 6 characters. The missing-field message takes precedence over the length message |
| AuthRoutes.ChangePasswordInputError | server/routes/auth.js:120-128 | the change-password checks pass iff both passwords are given, the new one has at least 6 characters and differs from the current one. Each failure gives its own message, in that order |
| AuthRoutes.DirectoryInsert | server/models/User.js:13 | adding an account under an unused email with an unused id keeps every account under its own email, and keeps ids distinct |
| AuthRoutes.DirectoryRehash | server/routes/auth.js:140-143 | replacing one account's hash with a non-empty one keeps the collection well formed |
| AuthRoutes.UserStore.Register | server/routes/auth.js:11-68 | bad input gives 400 with its check's message. An email whose normalised form is taken gives 400 "already exists". Otherwise the account is stored under its normalised email with the password's hash, and the reply is 201 with a token for `{id, email, name}` and only id, name and email. The store changes only on 201 |
| AuthRoutes.UserStore.Login | server/routes/auth.js:70-114 | missing fields, an unknown email and a wrong password each give 400 with its own message and no token. The right password gives 200 with a token for that account and its public view. The store is not changed |
| AuthRoutes.UserStore.ChangePassword | server/routes/auth.js:116-150 | the input checks come before the lookup. A vanished user gives 404 and a wrong current password gives 400, both with the hash unchanged. Otherwise the account's hash becomes the new password's hash, and nothing else changes |
| AuthRoutes.UserStore.ChangePasswordRoute | server/routes/auth.js:116 | a request the token gate refuses gets the gate's status and message and leaves the store unchanged. The store changes only for a verified token |
| TaskRoutes.DueDateValue | server/routes/tasks.js:26 | the stored due date is null exactly when the body's is missing or empty, and is the body's date otherwise |
| TaskRoutes.NewTask | server/routes/tasks.js:19-30 | a created task's owner is the token's user id and its creator email the token's email. Omitted fields take the schema defaults, and `dueDate` is null when none is given |
| TaskRoutes.TrimmedOr | server/routes/tasks.js:69-70 | a text field the body carries is assigned trimmed, and one it does not carry keeps its value |
| TaskRoutes.ApplyPatch | server/routes/tasks.js:69-74 | each field the body carries is assigned through its setter, and every other field keeps its value. `user`, `creatorEmail` and the timestamps never change |
| TaskRoutes.PatchIdempotent | server/routes/tasks.js:69-74 | applying the same update twice gives the same document as applying it once |
| TaskRoutes.StatusOnlyPatch | server/routes/tasks.js:71 | an update carrying only a status changes the status and nothing else |
| TaskRoutes.InsertNewestFirst | server/routes/tasks.js:44 | inserting into a newest-first list keeps it newest first, adds exactly the new task, and keeps the elements distinct |
| TaskRoutes.TaskStore.Create | server/routes/tasks.js:9-39 | a missing or empty title gives 400 "Title is required" with nothing stored. A task that fails validation (including a due date that does not cast) gives 400 with the failing paths and nothing stored. Otherwise exactly that task is added under its new id and returned with 201 |
| TaskRoutes.TaskStore.List | server/routes/tasks.js:41-50 | returns 200 with exactly the caller's tasks, each once, ordered by `createdAt` descending |
| TaskRoutes.TaskStore.Update | server/routes/tasks.js:52-89 | a malformed id gives 400, a missing task 404 and another owner's task 401, each leaving the store unchanged. Otherwise the patched, re-stamped task replaces exactly that entry (200), or validation fails with 400 and the store is unchanged |
| TaskRoutes.TaskStore.Delete | server/routes/tasks.js:91-116 | a malformed id gives 400, a missing task 404 and another owner's task 401, each leaving the store unchanged. The owner's delete removes exactly that task (200) |
| TaskRoutes.TaskStore.UpdateRoute | server/routes/tasks.js:52 | a refused token gets the gate's reply with the store unchanged. A 200 happens only for the verified owner of an existing task |
| TaskRoutes.TaskStore.DeleteRoute | server/routes/tasks.js:91 | a refused token gets the gate's reply with the store unchanged. The store changes only for the verified owner of the task |
| TaskRoutes.TaskStore.CreateRoute | server/routes/tasks.js:9 | a refused token gets the gate's reply with the store unchanged. A 201 stores a task owned by the verified user |
| TaskRoutes.TaskStore.ListRoute | server/routes/tasks.js:41 | a refused token gets the gate's reply. A 200 lists only tasks owned by the verified user |
| ClientTypes.FromServer | server/routes/tasks.js:44-45 | a task as the API sends it keeps `_id`, title, description, status, priority, due date and assignee, and carries no `id` field |
| ClientTypes.Raised | src/context/TaskContext.js:43 | `new Error(msg)` carries the message and no server response |
| ClientTypes.Describe | src/pages/RegisterPage.js:55 | the error text is the server's `msg` if non-empty, else `err.message` if non-empty, else the fallback. It is never empty when the fallback is not |
| TaskContext.ReplacedById | src/context/TaskContext.js:61-63 | the length is kept, every element with the id becomes the server's copy, and every other element is unchanged |
| TaskContext.RemovedById | src/context/TaskContext.js:77 | exactly the elements with another id remain |
| TaskContext.RemovedByIdAppend | src/context/TaskContext.js:77 | removal distributes over concatenation, so the kept elements stay in their order |
| TaskContext.RemovedAbsentId | src/context/TaskContext.js:77 | deleting an id no element has leaves the list unchanged |
| TaskContext.ReplaceThenRemove | src/context/TaskContext.js:61-77 | updating a task and then deleting its id gives the same list as deleting it directly |
| TaskContext.TaskProvider.constructor | src/context/TaskContext.js:13-15 | the list starts empty and loading, with no error and no request |
| TaskContext.TaskProvider.LoadTasks | src/context/TaskContext.js:18-36 | when nobody is signed in, the list is emptied and no fetch is made. Otherwise one fetch is made: success replaces the list and clears the error, and failure empties the list and sets the server's message or the default. Loading ends false either way |
| TaskContext.TaskProvider.AddTask | src/context/TaskContext.js:42-54 | when nobody is signed in, it throws and makes no call. Otherwise: success appends the created task at the end; failure keeps the list, sets the error and rethrows it |
| TaskContext.TaskProvider.UpdateTask | src/context/TaskContext.js:56-70 | when nobody is signed in, it throws and makes no call. Success replaces the tasks with that `_id` by the server's copy. Failure keeps the list, sets the error and rethrows it |
| TaskContext.TaskProvider.DeleteTask | src/context/TaskContext.js:72-83 | when nobody is signed in, it throws and makes no call. Success removes exactly the tasks with that `_id` and keeps the rest in order. Failure keeps the list, sets the error and rethrows it |
| AuthContext.Lookup | src/context/AuthContext.js:27 | `getItem` returns the stored text exactly when the key is present |
| AuthContext.AuthProvider.IsAuthenticated | src/context/AuthContext.js:76 | signed in exactly when the token is a non-empty string and there is a current user |
| AuthContext.AuthProvider.RendersChildren | src/context/AuthContext.js:81 | the children render exactly when the startup check is not loading |
| AuthContext.Restorable | src/context/AuthContext.js:27-33 | a stored session is restorable iff the stored token and user are non-empty and the user parses |
| AuthContext.AuthProvider.Mount | src/context/AuthContext.js:11-45 | after mounting, children render and the stored token mirrors the token state. The session is authenticated exactly when the stored session is restorable. An unparsable stored user is removed along with the token |
| AuthContext.AuthProvider.SyncToken | src/context/AuthContext.js:16-22 | the `token` key is written when the token is truthy and removed otherwise. No other state changes |
| AuthContext.AuthProvider.CheckLoggedIn | src/context/AuthContext.js:25-43 | a stored token is restored. A stored user that parses becomes the current user. One that does not parse is removed, and both token and user are cleared. Loading ends false |
| AuthContext.AuthProvider.StartSession | src/context/AuthContext.js:49-51 | the reply's user becomes current and is stored under `user`, and the reply's token becomes the token, mirrored in storage. Other keys are untouched |
| AuthContext.AuthProvider.Signup | src/context/AuthContext.js:47-53 | one register call is made. Success starts the reply's session. Failure rethrows and changes no session state |
| AuthContext.AuthProvider.Login | src/context/AuthContext.js:55-61 | one login call is made. Success starts the reply's session. Failure rethrows and changes no session state |
| AuthContext.AuthProvider.Logout | src/context/AuthContext.js:63-67 | user and token are cleared, `user` and `token` are removed from storage, and the session is no longer authenticated |
| AuthContext.SessionSurvivesReload | src/context/AuthContext.js:25-61 | after a successful login, a reload restores the same user and is authenticated |
| AuthContext.LogoutSurvivesReload | src/context/AuthContext.js:25-67 | after logout, a reload restores no user and is not authenticated |
| TaskFormModal.AssigneeValue | src/components/TaskFormModal.js:82 | the assignee is null exactly when the field is blank, and is the trimmed, non-blank text otherwise |
| TaskFormModal.CreateBody | src/components/TaskFormModal.js:75-83 | the request body carries every payload field, with null date and assignee as absent |
| TaskFormModal.FormChoicesMatchSchema | src/components/TaskFormModal.js:12-13 | the dialog's status and priority lists and defaults are the schema's enums and defaults |
| TaskFormModal.SubmittedTaskSaves | src/components/TaskFormModal.js:70-81 | a payload the dialog lets through has a title and, created by a valid caller, passes every schema validator, given that the ISO date text the dialog sends casts to a date |
| TaskFormModal.TaskForm.constructor | src/components/TaskFormModal.js:16-24 | the fields start empty, `Todo`, `Medium` and null, and there is no error |
| TaskFormModal.TaskForm.Payload | src/components/TaskFormModal.js:75-83 | title, description, status, priority and date are sent as held, and the assignee trimmed or null |
| TaskFormModal.TaskForm.Initialise | src/components/TaskFormModal.js:26-60 | opening clears the error. Editing loads each field from the task with fallbacks `''`, `Todo`, `Medium` and `''`, and the date only when it is given and parses. No task resets every field |
| TaskFormModal.TaskForm.HandleSubmit | src/components/TaskFormModal.js:66-85 | a title blank after trimming sets "Title is required." and sends nothing. Otherwise the payload is sent and the error cleared. The form's fields never change |
| TaskFormModal.EditUnchanged | src/components/TaskFormModal.js:26-85 | reopening a stored task and submitting sends back its title, description, status and priority, and its assignee when that is already trimmed |
| TaskCard.StatusColor | src/components/TaskCard.js:8-15 | `todo`, `in progress` and `done`, in any letter case, are `default`, `primary` and `success` respectively. A missing or any other status, and only that, is `info` |
| TaskCard.PriorityChip | src/components/TaskCard.js:17-24 | `high`, `medium` and `low`, in any letter case, get the labels High, Medium and Low with colours error, warning and success. Any other priority keeps its text (or `N/A`) with colour default |
| TaskCard.StoredStatusColors | src/components/TaskCard.js:8-15 | every status the schema allows gets its own colour, never `info` |
| TaskCard.StoredPriorityChips | src/components/TaskCard.js:17-24 | every priority the schema allows keeps its name as label and gets a colour other than default |
| TaskCard.DueDateLine | src/components/TaskCard.js:55-57 | a missing or empty due date shows "No due date", and a given one its formatted text |
| TaskCard.CardState.constructor | src/components/TaskCard.js:29 | the card starts not deleting |
| TaskCard.CardState.HandleDelete | src/components/TaskCard.js:32-53 | a missing `onDelete` throws before anything else. A declined confirmation changes nothing. After confirmation, the delete goes through the task list and `isDeleting` ends false. Success shows "Task deleted successfully!". A failure shows the thrown error's message: "User not authenticated" when nobody is signed in, otherwise the server's message or "Failed to delete task", which is also the list's error. The card's own fallback message never shows |
| Dashboard.WithStatus | src/pages/DashboardPage.js:52 | exactly the tasks with that status remain |
| Dashboard.WithStatusAppend | src/pages/DashboardPage.js:52 | filtering distributes over concatenation, so the original order is kept |
| Dashboard.StatusFiltersPartition | src/pages/DashboardPage.js:52 | for stored tasks, the three status filters together show every task exactly once |
| Dashboard.FilterByStatus | src/pages/DashboardPage.js:49-56 | `All` shows the list unchanged, and any other filter shows exactly the tasks with that status |
| Dashboard.SubmitTarget | src/pages/DashboardPage.js:85 | a submit is an update of `editingTask.id` exactly when the edited task has a truthy `id`, and an addition otherwise |
| Dashboard.EditingServerTaskAdds | src/pages/DashboardPage.js:85 | a task as the API returns it has no `id`, so submitting an edit of it is an addition |
| Dashboard.DashboardState.constructor | src/pages/DashboardPage.js:32-41 | the dialog starts closed, with no error, the snackbar closed with severity `info`, and the filter `All` |
| Dashboard.DashboardState.RefreshFilter | src/pages/DashboardPage.js:49-56 | the shown list becomes the filtered task list, and nothing else changes |
| Dashboard.DashboardState.ShowTaskError | src/pages/DashboardPage.js:43-47 | a non-empty task error opens an error snackbar with that message, and otherwise the snackbar is unchanged |
| Dashboard.DashboardState.HandleOpenModal | src/pages/DashboardPage.js:69-73 | the dialog opens on the given task, with the error cleared |
| Dashboard.DashboardState.HandleCloseModal | src/pages/DashboardPage.js:75-79 | the dialog closes, with no edited task and no error |
| Dashboard.DashboardState.HandleTaskSubmit | src/pages/DashboardPage.js:81-98 | the payload goes to `updateTask` or `addTask` as `SubmitTarget` says. Success closes the dialog and reports in the snackbar. Failure keeps the dialog open with the error's message. `formSubmitting` ends false |
| Dashboard.DashboardState.HandleCloseSnackbar | src/pages/DashboardPage.js:100-105 | a click away leaves the snackbar as it was, and any other reason only closes it |
| Dashboard.EditListedTask | src/pages/DashboardPage.js:85-92 | editing a loaded task and saving it appends a second task and leaves the original in place |
| Dashboard.DeleteFromCard | src/pages/DashboardPage.js:179-182 | without `onDelete`, a card's delete throws and never reaches the task list, whatever the confirmation |
| ClientTypes.PasswordFormError | src/pages/RegisterPage.js:43-48 | the form passes iff the password is typed the same twice and has at least 6 characters. The mismatch message takes precedence over the length message. The register page and the profile page (its checks on the new password) use it with their own messages |
| RegisterPage.AcceptedFormPassesServerChecks | src/pages/RegisterPage.js:43-48 | a form the page accepts, with name and email filled in, passes the server's input checks |
| RegisterPage.ShortPasswordRejectedByBoth | src/pages/RegisterPage.js:46-48 | a password under 6 characters is refused by both the page and the server |
| RegisterPage.RegisterForm.constructor | src/pages/RegisterPage.js:28-29 | the form starts with no error and not loading |
| RegisterPage.RegisterForm.HandleSubmit | src/pages/RegisterPage.js:39-59 | a failed check sets its message and never calls signup. Otherwise signup is called once. A failure shows the server's message, then `err.message`, then the default. Loading ends false |
| ProfilePage.ServerChecksBeyondForm | src/pages/ProfilePage.js:24-35 | a form the page sends still fails on the server exactly when the current password is empty or equal to the new one |
| ProfilePage.ProfileForm.constructor | src/pages/ProfilePage.js:12-17 | the three fields start empty, with no messages, not loading and no request |
| ProfilePage.ProfileForm.HandleSubmit | src/pages/ProfilePage.js:19-49 | a failed check sets its message and makes no call. Otherwise one change-password call is made. Success clears all three fields and shows the server's message or the default. Failure keeps the fields and shows the server's message, then `err.message`, then the default. Loading ends false |
| ProfilePage.ProfileForm.Edit | src/pages/ProfilePage.js:12-14 | typing sets the three password fields and changes no message, flag or request |
| ProfilePage.ChangeThenClear | src/pages/ProfilePage.js:36-39 | a successful change leaves all three fields empty and a non-empty success message |

## Left out

- Password hashing: bcrypt's salt and rounds are not modelled. The hash is an uninterpreted function of the password.
- JWT cryptography: signatures, the secret and tokens the server did not sign are not modelled. `jwt.sign`'s callback error is not modelled either. A token is its claims plus issue and expiry seconds.
- Store and database failures: the 500 replies for a failing find, save or delete (server/routes/tasks.js:37, 48, 87, 114; server/routes/auth.js:66, 112, 148) are not modelled. The two 500 paths the model can reach are kept: a register whose normalised email or hash is empty, and a change-password whose caller id is malformed.
- Duplicate-key error 11000 (server/routes/auth.js:63-65): with lookups keyed by the normalised email, this error needs two registrations racing each other. Concurrency is not modelled.
- Request bodies: a JSON `null` field is not modelled. A body field is either absent or a string.
- Letter case: lower-casing covers ASCII only. Unicode case mapping and UTF-16 code units are not modelled.
- Dates: dates are kept as their text.
  - Whether Mongoose's `Date` cast accepts `new Date(text)` is the `castsToDate` function a `TaskRoutes.TaskStore` is built with.
  - Whether `new Date(...)` accepts a stored date is an input of `TaskFormModal.TaskForm.Initialise`.
  - date-fns formatting is the `format` parameter of `TaskCard.DueDateLine`.
  - `toISOString` is the identity on the kept text.
- ObjectId casting: a well-formed id is exactly 24 hexadecimal digits. Mongoose's other cast rules are not modelled.
- The `pre('findOneAndUpdate')` hook (server/models/Task.js:59-62): no route uses `findOneAndUpdate`.
- `JSON.parse` and `JSON.stringify` of the stored user: these are the `parse` and `stringify` functions the session is given. A parse that throws is `None`.
- The profile page's delayed logout (`setTimeout`, src/pages/ProfilePage.js:40-43), navigation, and all rendering and styling are not modelled.
- `window.confirm` is the `confirmed` input of `TaskCard.CardState.HandleDelete`.
- `TaskCard.CardState.HandleDelete`: the effects of the `onDelete` callback itself are not modelled. Only whether it is a function is.
- The dashboard's `handleLogout` and the timing of the `loadTasks` effect are not modelled. Loading is a method the caller invokes.
- Not part of this model: src/api/index.js, src/App.js, src/pages/LoginPage.js, src/components/ConfirmationDialog.js, src/components/Logo.js, server/server.js and server/config/db.js. They hold routing, wiring and network plumbing only.
- `Dashboard.DashboardState.HandleTaskSubmit`: states that `formSubmitting` is false afterwards. It does not state that `formSubmitting` is true while the call is in flight, because the model has no interleaving.
- `RegisterPage.RegisterForm.HandleSubmit`: states that `formLoading` is false once signup has run. It does not state that `formLoading` is true during the call, for the same reason.
- `ProfilePage.ProfileForm.HandleSubmit`: states that `loading` is false afterwards. It does not state that `loading` is true during the call, and it does not model the logout three seconds later.
- `TaskFormModal.TaskForm.HandleSubmit`: tests `!title.trim()` as "all white space". `Text.TrimEmptyIffBlank` proves the two tests equal.
