# Elevare task and project logic in Dafny

This project models the request logic and client-side rules of Elevare, a
project and task manager built on Next.js. It covers:

- the `/api/tasks` and `/api/projects` route handlers (list and create);
- the kanban batch-reorder route;
- the projects page's filter, sort and progress rules;
- the task card's badge and checkbox mappings;
- the create/edit task dialog's form state machine;
- the two settings pages' name, profile and notification state.

The database is a `Store.Database` object holding two sequences of rows;
its `Valid()` invariant is that row ids are distinct. The signed-in user is
an `Option<string>` session id. JSON request fields are `Http.Field`
values: absent, `null`, or a string. JavaScript's truthiness and `??` are
written out in `Http`, and `includes`, `toLowerCase`, `replace`,
`split`/`join`, `trim` and decimal rendering in `Text`; each `||` is
written out where it occurs.

Module layout, one file each:

| file | module | models |
|---|---|---|
| wrappers.dfy | `Wrappers` | `Option` |
| seqs.dfy | `Seqs` | `filter`, a stable sort, sortedness |
| text.dfy | `Text` | JavaScript string operations |
| types.dfy | `Types` | the enums and `User` of `src/lib/types.ts` |
| http.dfy | `Http` | JSON fields, replies, the session user id |
| store.dfy | `Store` | the `Task` and `Project` rows and the database |
| tasks_route.dfy | `TasksRoute` | `GET`/`POST /api/tasks` |
| projects_route.dfy | `ProjectsRoute` | `GET`/`POST /api/projects` |
| reorder_kanban_route.dfy | `ReorderKanbanRoute` | `PATCH /api/tasks/reorder-kanban` |
| projects_page.dfy | `ProjectsPage` | the projects list page |
| sortable_task_card.dfy | `SortableTaskCard` | the task card |
| task_modal.dfy | `TaskModal` | the task dialog |
| avatar.dfy | `Avatar` | avatar source and initials |
| profile_settings.dfy | `ProfileSettings` | the profile settings page |
| settings_page.dfy | `Settings` | the settings page |

Behaviour of the code that the model records rather than corrects:

- `status ?? "active"` in the projects `POST` can never apply. The
  validation before it has already rejected a missing status, and
  `"active"` is not one of the declared project statuses
  (`ProjectsRoute.ActiveFallbackUnreachable`).
- The reorder route consults no session and checks no ownership.
  `ReorderKanbanRoute.Reorder` takes no session argument.
- Task creation does not check that `projectId` names a project of the
  caller. The route checks nothing about it itself; `TasksRoute.Post`
  stores whatever non-empty id it is given.
- No route checks status or priority against the enums, so stored values
  stay plain strings. `Types.Parse*` tells declared values from the rest.
- The dialog's `useState` initialiser and its `useEffect` build different
  forms for a task with an empty status, priority or project
  (`TaskModal.InitialAgreesWithEffect`).

## Model

The table lists the members that model source behaviour. Helpers whose
contracts only support those rows (`Seqs.Insert`, `Store.TaskIds`,
`Store.ProjectIds`, `ReorderKanbanRoute.UpdateIds`, `Text.JoinCons`,
`Text.RunInside`, `Seqs.FilterCons`, `Seqs.ConcatAssoc`,
`Seqs.SwapEmpty`, the `Store.Database` constructor) have no row. Plain
definitions without a contract (`TasksRoute.Accepts`, `ProjectsRoute.Accepts`,
`TaskModal.InitialForm`, `FormFromProps`, `WithText`,
`ProfileSettings.LastName`, `WithFirstName`, `WithLastName`,
`Avatar.Initials`, `ProjectsPage.Precedes`, `Shown`,
`ProjectsPage.ShownBy`, `Seqs.Ties`, `SortableTaskCard.IsChecked`,
`ReorderKanbanRoute.Applied`, `Patch` and the like) are pinned down by the rows whose contracts use them.

| member | source | states |
|---|---|---|
| Types.ParseProjectStatus | src/lib/types.ts:13 | a string parses to a project status only if that status's name is exactly the string |
| Types.ParseTaskStatus | src/lib/types.ts:25 | a string parses to a task status only if that status's name is exactly the string |
| Types.ParsePriority | src/lib/types.ts:26 | a string parses to a priority only if that priority's name is exactly the string |
| Types.NamesRoundTrip | src/lib/types.ts:13-26 | every enum member's name parses back to that member, so the names are distinct |
| Http.SessionUserId | src/app/api/tasks/route.ts:7-8 | a user id exists exactly when the session carries a non-empty id, and it is that id |
| Http.DateOrNull | src/app/api/projects/route.ts:42-43 | a date column is null exactly when the supplied value is falsy, and otherwise holds the supplied text |
| Seqs.Filter | app/projects/page.tsx:86-92 | the result keeps each element passing the predicate exactly as many times as the input has it, and no other element |
| Seqs.FilterConcat | app/projects/page.tsx:86-92 | filtering a concatenation is the concatenation of the filtered parts, so kept elements stay in input order |
| Seqs.FilterKeepsAllIff | app/projects/page.tsx:86-92 | the filter keeps the whole input exactly when every element passes, and then the result is the input |
| Seqs.SortBy | app/projects/page.tsx:93-104 | sorting keeps the length and the multiset of elements |
| Seqs.SortByStable | app/projects/page.tsx:93-104 | the sort is stable: for any element, those comparing equal to it both ways come out in their input order |
| Seqs.InsertTies | app/projects/page.tsx:93-104 | inserting an element puts it before every element tying with it, and leaves the order of the other ties alone |
| Seqs.InsertSorted | app/projects/page.tsx:93-104 | inserting into a sorted list under a total preorder keeps it sorted |
| Seqs.SortBySorted | app/projects/page.tsx:93-104 | the sort's result is ordered under any total preorder |
| Text.LexLeTotal | app/projects/page.tsx:96-98 | any two strings are comparable under the lexicographic order used for `localeCompare` |
| Text.LexLeTransitive | app/projects/page.tsx:96-98 | the lexicographic order is transitive |
| Text.LexLeAntisymmetric | app/projects/page.tsx:96-98 | two strings each no greater than the other are equal |
| Text.Lower | app/projects/page.tsx:88-89 | lower-casing keeps the length, turns each upper-case letter into its lower-case letter (code + 32), and leaves every other character unchanged |
| Text.ContainsEmpty | app/projects/page.tsx:88 | every string contains the empty query |
| Text.ReplaceFirst | src/components/sortable-task-card.tsx:103 | replacing keeps the length and changes at most one position, the first holding the character |
| Text.ReplaceFirstSplice | src/components/sortable-task-card.tsx:103 | a string without the character is unchanged; otherwise exactly its first occurrence is replaced |
| Text.FirstIndex | app/settings/profile/page.tsx:111 | the index holds the character and no earlier position does |
| Text.FirstIndexUnique | app/settings/profile/page.tsx:111 | the first index is the only position holding the character with none before it |
| Text.Split | app/settings/profile/page.tsx:111 | splitting gives at least one part and no part contains the separator |
| Text.JoinSplit | app/settings/profile/page.tsx:122 | joining the parts of a split with the same separator gives the string back |
| Text.SplitJoin | app/settings/profile/page.tsx:122 | splitting a join of separator-free parts gives the parts back |
| Text.SplitCons | app/settings/profile/page.tsx:111 | a separator-free prefix followed by the separator splits off as the first part |
| Text.SplitHead | app/settings/profile/page.tsx:111 | the first part is the whole string without a separator, and the text before the first separator otherwise |
| Text.TrimStart | src/components/task-modal.tsx:173 | trimming the start removes a prefix made only of white space and leaves the rest, which does not begin with white space |
| Text.TrimEnd | src/components/task-modal.tsx:173 | trimming the end removes a suffix made only of white space and leaves the rest, which does not end with white space |
| Text.Trim | src/components/task-modal.tsx:173 | `trim()` gives a contiguous run of the string with only white space outside it, and a non-empty result neither begins nor ends with white space |
| Text.TrimEndKeepsStart | src/components/task-modal.tsx:173 | trimming the end of a string that starts with a non-space gives a string that neither begins nor ends with white space, and is empty only for the empty string |
| Text.TrimStartEmptyIff | src/components/task-modal.tsx:173 | trimming the start gives "" exactly when every character is white space |
| Text.TrimEmptyIffBlank | src/components/task-modal.tsx:173 | `trim()` gives "" exactly when every character is white space |
| Text.DecimalString | src/components/task-modal.tsx:99 | a status code renders as a non-empty string of digits, with a leading zero only for 0 |
| Text.DecimalRoundTrip | src/components/task-modal.tsx:99 | reading the rendered digits back gives the number |
| Store.NewestFirstIsTotalPreorder | src/app/api/tasks/route.ts:14 | "createdAt descending" is a total preorder on tasks and on projects |
| TasksRoute.NewTask | src/app/api/tasks/route.ts:36-46 | the new row carries the session's user id, the supplied title and project; status is "todo" and priority "medium" exactly when null, absent or those values, and any other supplied value is kept; the due date is null exactly when falsy and otherwise the supplied text; the description is null exactly when nullish and otherwise the supplied text |
| TasksRoute.Get | src/app/api/tasks/route.ts:6-18 | no session user gives 401 "Unauthorized"; otherwise 200 with exactly the caller's tasks, each as often as stored, newest first |
| TasksRoute.Post | src/app/api/tasks/route.ts:20-49 | no session user gives 401 and a falsy title or project id gives 400 with "Title & projectId wajib diisi", both leaving the store unchanged; otherwise 201 with the one new task appended and returned |
| TasksRoute.ListingsAreDisjoint | src/app/api/tasks/route.ts:12-13 | no task appears in the listings of two different users |
| ProjectsRoute.NewProject | src/app/api/projects/route.ts:36-46 | the new row carries the session's user id and the supplied name and status; the start and end dates are null exactly when falsy and otherwise the supplied text; description and color are null exactly when nullish and otherwise the supplied text |
| ProjectsRoute.ActiveFallbackUnreachable | src/app/api/projects/route.ts:29-40 | after validation the stored status is "active" only when the client sent "active", and "active" is not a declared project status |
| ProjectsRoute.Get | src/app/api/projects/route.ts:6-18 | no session user gives 401; otherwise 200 with exactly the caller's projects, each as often as stored, newest first |
| ProjectsRoute.Post | src/app/api/projects/route.ts:20-49 | no session user gives 401 and a falsy name or status gives 400 with "name and status can't be empty", both leaving the store unchanged; otherwise 201 with the one new project appended and returned |
| ReorderKanbanRoute.EntryForDistinct | src/app/api/tasks/reorder-kanban/route.ts:13-19 | with distinct ids, the entry found for a listed id is that id's own entry |
| ReorderKanbanRoute.EntryForAbsent | src/app/api/tasks/reorder-kanban/route.ts:13-19 | an id the batch does not list has no entry |
| ReorderKanbanRoute.AppliedWritesListedTasks | src/app/api/tasks/reorder-kanban/route.ts:13-19 | after the batch every listed task has its entry's kanban position and status |
| ReorderKanbanRoute.AppliedFrame | src/app/api/tasks/reorder-kanban/route.ts:14-19 | the batch changes no field other than kanban position and status, and no task outside the batch |
| ReorderKanbanRoute.AppliedKeepsIds | src/app/api/tasks/reorder-kanban/route.ts:14-19 | the batch keeps every row's id and the row order |
| ReorderKanbanRoute.AppliedStep | src/app/api/tasks/reorder-kanban/route.ts:13-19 | applying one more update patches exactly the row with its id |
| ReorderKanbanRoute.PrefixIsPartlyApplied | src/app/api/tasks/reorder-kanban/route.ts:12-22 | after any prefix of the batch, each row is either unchanged or patched with its entry |
| ReorderKanbanRoute.IndexOfTask | src/app/api/tasks/reorder-kanban/route.ts:15 | the lookup returns the position of a row with the id, or -1 exactly when no row has it |
| ReorderKanbanRoute.OverwriteKeepsOthers | src/app/api/tasks/reorder-kanban/route.ts:14-19 | overwriting one row keeps every row with another id |
| ReorderKanbanRoute.WriteBatch | src/app/api/tasks/reorder-kanban/route.ts:12-22 | succeeds exactly when every id exists; then the store is the batch applied and `data` lists the updated rows in batch order; on failure each row is unchanged or patched |
| ReorderKanbanRoute.Reorder | src/app/api/tasks/reorder-kanban/route.ts:4-35 | a body that is not JSON gives 500; a non-array or empty batch gives 400 "Invalid data" with no change; a batch with a missing id gives 500 "Failed to reorder tasks"; otherwise 200 with "Tasks reordered successfully" and the updated rows |
| ProjectsPage.OrderIsTotalPreorder | app/projects/page.tsx:93-103 | each sort choice is a total preorder: name or status ascending, created or updated descending |
| ProjectsPage.FilteredProjects | app/projects/page.tsx:85-104 | the list is a permutation of the projects whose name or description contains the query case-insensitively and whose status matches the filter or the filter is "all", ordered by the chosen key |
| ProjectsPage.FilteredProjectsStable | app/projects/page.tsx:85-104 | projects whose sort keys are equal are listed in the order the filtered, unsorted list has them |
| ProjectsPage.NoCriteriaShowsAll | app/projects/page.tsx:88-90 | an empty query with filter "all" shows every project |
| ProjectsPage.ProjectTasks | app/projects/page.tsx:167 | a project's tasks are the tasks naming it, each as often as in the input, so their count is determined |
| ProjectsPage.CompletedTasks | app/projects/page.tsx:168 | completed tasks are the project's "done" tasks, each as often as in the input, and there are no more of them than the project's tasks |
| ProjectsPage.Progress | app/projects/page.tsx:169 | progress is completed/total as a percentage (progress × total = 100 × completed) when the project has tasks, and 0 without; it lies in [0, 100] and is 100 exactly when the project has tasks and all are done |
| ProjectsPage.Percent | app/projects/page.tsx:169 | a count out of a larger total is a percentage in [0, 100] satisfying percentage × total = 100 × count, 0 for a zero total, and 100 exactly when the counts agree |
| ProjectsPage.StatusBadge | app/projects/page.tsx:42-53 | completed maps to "completed", in_progress to "in-progress" and planning to "planning"; exactly the other strings, archived included, map to "archived" |
| SortableTaskCard.PriorityBadge | src/components/sortable-task-card.tsx:31-42 | high gives "destructive", medium "default", low "secondary", and exactly the other strings give "outline" |
| SortableTaskCard.StatusBadge | src/components/sortable-task-card.tsx:44-55 | in_progress gives "default", done "secondary", and exactly the other strings give "outline" |
| SortableTaskCard.StatusChangeFor | src/components/sortable-task-card.tsx:57-59 | checking requests "done" and unchecking "todo", for the card's own task |
| SortableTaskCard.CheckboxRoundTrip | src/components/sortable-task-card.tsx:57-73 | the requested status shows the box as clicked; a todo or done task requests its own status back; "in_progress" is never requested |
| SortableTaskCard.StatusLabel | src/components/sortable-task-card.tsx:103 | the label is the status with only its first "_" replaced by a space |
| SortableTaskCard.StatusLabelExamples | src/components/sortable-task-card.tsx:103 | "in_progress" shows as "in progress" and "a_b_c" as "a b_c" |
| SortableTaskCard.PositionShown | src/components/sortable-task-card.tsx:97 | the position badge shows the position, or 0 when there is none |
| SortableTaskCard.ControlsFor | src/components/sortable-task-card.tsx:66-76 | reorder mode shows the drag handle instead of the checkbox, and the actions menu appears exactly with the checkbox |
| TaskModal.FormDefaults | src/components/task-modal.tsx:35-63 | without a task the form is blank with status "todo", priority "medium", no date and the prop project; with one it copies the task, writing a missing description as "" |
| TaskModal.InitialAgreesWithEffect | src/components/task-modal.tsx:35-52 | the initialiser and the effect agree exactly when the task's status and priority are non-empty and its project is set, and non-empty unless the prop project is empty too |
| TaskModal.WithTextReplacesOneField | src/components/task-modal.tsx:64-66 | an input change sets the named field and leaves every other field as it was |
| TaskModal.SubmitDisabled | src/components/task-modal.tsx:173 | the submit button is disabled exactly when loading or the title is all white space |
| TaskModal.RequestFor | src/components/task-modal.tsx:78-94 | editing sends PUT to "/api/tasks/" plus the id and creating sends POST to "/api/tasks"; the body carries the form's title, description, status, priority, project and due date unchanged, the date null exactly when the form has none |
| TaskModal.CreateRequestRoundTrip | src/components/task-modal.tsx:87-94 | the tasks route accepts a create request exactly when the title and project are non-empty, and then stores every field the form sent; an enabled button guarantees the title |
| TaskModal.ToTaskData | src/components/task-modal.tsx:104-111 | the saved object keeps the reply and adds `user_id`, `created_at` and `updated_at` copied from the camelCase fields |
| TaskModal.ErrorMessage | src/components/task-modal.tsx:97-138 | a failed reply shows the server's error when it has one and "HTTP error! status: " plus the code otherwise; a thrown error shows its message or the fixed fallback |
| TaskModal.EffectsOf | src/components/task-modal.tsx:97-138 | `onSave` and the close request happen exactly on success, with an "updated" or "created" toast whose description quotes the form's title and says "has been updated successfully." or "has been created successfully."; every failure shows only a destructive "Error" toast |
| TaskModal.TaskModal.constructor | src/components/task-modal.tsx:31-42 | the dialog starts not loading, with the picker closed and the initialiser's form |
| TaskModal.TaskModal.PropsChanged | src/components/task-modal.tsx:43-63 | new props, and the first run after mounting, reinstall the effect's form and change nothing else |
| TaskModal.TaskModal.HandleInputChange | src/components/task-modal.tsx:64-66 | the form changes in the named field only |
| TaskModal.TaskModal.HandleDateSelect | src/components/task-modal.tsx:68-71 | sets the due date and closes the picker |
| TaskModal.TaskModal.BeginSubmit | src/components/task-modal.tsx:73-95 | the dialog becomes loading, which disables the button; the submitted task, form and project are captured, and the request is built from them |
| TaskModal.TaskModal.FinishSubmit | src/components/task-modal.tsx:97-141 | loading is cleared after every outcome; the effects and toast come from the task and form captured at submit, and the form resets to the blank form for the captured project only after a successful create, whatever the props and form became during the request |
| Avatar.AvatarSrc | app/settings/page.tsx:56 | the image is the avatar URL when it is non-empty, and the placeholder otherwise |
| Avatar.InitialsOf | app/settings/profile/page.tsx:88-91 | the initials have at most one character per token, each the first character of a non-empty token |
| Avatar.InitialsOfNonEmpty | app/settings/profile/page.tsx:88-91 | with no empty token there is exactly one initial per token, in order |
| Avatar.InitialsOfCons | app/settings/profile/page.tsx:88-91 | a token adds its first character, or nothing when empty, before the rest's initials |
| Avatar.WordInitials | app/settings/page.tsx:58-61 | a name of non-empty words separated by single spaces has the words' first letters as initials |
| Avatar.InitialsOfWordsExample | app/settings/page.tsx:58-61 | "John Doe" has initials "JD" |
| Avatar.LeadingSpaceSkipped | app/settings/profile/page.tsx:88-91 | a leading space adds no initial |
| Avatar.DoubledSpaceSkipped | app/settings/profile/page.tsx:88-91 | a doubled space after the first word adds no initial |
| ProfileSettings.FirstName | app/settings/profile/page.tsx:111 | the first name is a space-free prefix of the name |
| ProfileSettings.NameParts | app/settings/profile/page.tsx:111-122 | a name without a space is all first name; otherwise first and last name are the text before and after the first space, and the name is first + " " + last |
| ProfileSettings.SplitAtFirstSpace | app/settings/profile/page.tsx:111-122 | first + " " + last reads back as first and last when first has no space |
| ProfileSettings.WithFirstNameReadsBack | app/settings/profile/page.tsx:112-115 | typing a space-free first name shows it back and keeps the last name |
| ProfileSettings.WithLastNameReadsBack | app/settings/profile/page.tsx:123-126 | typing any last name shows it back and keeps the first name |
| ProfileSettings.ReenteringShownValue | app/settings/profile/page.tsx:111-126 | re-entering the shown first or last name keeps a name with a space and appends a space to one without |
| ProfileSettings.WithChangesOneField | app/settings/profile/page.tsx:137-231 | each field edit sets that field and leaves every other field, the name and the avatar unchanged |
| ProfileSettings.ProfilePage.constructor | app/settings/profile/page.tsx:24-32 | the page starts from the mock user with the fixed bio, location, website, company, timezone and language |
| ProfileSettings.ProfilePage.EditFirstName | app/settings/profile/page.tsx:112-115 | the name becomes the typed first name, a space and the current last name |
| ProfileSettings.ProfilePage.EditLastName | app/settings/profile/page.tsx:123-126 | the name becomes the current first name, a space and the typed last name |
| ProfileSettings.ProfilePage.EditField | app/settings/profile/page.tsx:137-231 | the edit replaces that one field of the profile |
| Settings.Toggled | app/settings/page.tsx:144-176 | a toggle flips its own flag and leaves the other two unchanged |
| Settings.NotificationsByFlags | app/settings/page.tsx:20-24 | the notification record is determined by its three flags |
| Settings.ToggleTwice | app/settings/page.tsx:144-176 | toggling the same channel twice restores the record |
| Settings.TogglesCommute | app/settings/page.tsx:144-176 | toggles of two channels give the same record in either order |
| Settings.ButtonLabel | app/settings/page.tsx:146-178 | the label is "Enabled" exactly when the flag is on, and "Disabled" otherwise |
| Settings.ButtonVariant | app/settings/page.tsx:142-174 | the variant is "default" exactly when the flag is on, and "outline" otherwise |
| Settings.SettingsPage.constructor | app/settings/page.tsx:19-24 | the page starts from the mock user with email and push on and marketing off |
| Settings.SettingsPage.Toggle | app/settings/page.tsx:144-176 | the notifications become the toggled record |
| Settings.SettingsPage.EditName | app/settings/page.tsx:76 | only the user's name changes |
| Settings.SettingsPage.EditEmail | app/settings/page.tsx:84 | only the user's email changes |

## Left out

- Prisma and next-auth are replaced by the `Database` object and a session-id parameter. Connection failures, transactions and the schema's `updatedAt` and other defaults are not modelled.
- Fresh row ids and the creation clock are parameters of `Post`. `TasksRoute.Post` and `ProjectsRoute.Post` require the id to be unused, which stands in for the database's id generator.
- JSON values other than strings, `null` and absent fields (numbers, booleans, objects sent as `title`, and so on) are not modelled. `req.json()` failing in the create routes is not modelled.
- ReorderKanbanRoute.Reorder: requires the batch's ids to be distinct and applies the updates one after another. The route runs them concurrently with `Promise.all`, so with repeated ids the final row depends on timing. After a failure, the model claims only that each row is unchanged or patched. It makes no atomicity claim.
- ReorderKanbanRoute.Reorder: `kanbanPosition` is taken as an integer. A non-numeric value, which Prisma would reject, is not modelled.
- Date parsing and ISO formatting (`new Date(...)`, `toISOString`) are not modelled. Server dates are the supplied strings, and client dates are integer timestamps.
- ProjectsPage.Progress: uses exact real division. The floating-point percentage and the `Math.round` used where it is shown are not modelled.
- `toLowerCase` is modelled on ASCII letters only, and `localeCompare` as code-point lexicographic order. Locale-aware collation and full Unicode case mapping are not modelled.
- The projects page's delete and duplicate handlers only log and show a toast, so they are not modelled. `getStatusIcon` chooses an icon and is not modelled.
- Rendering, dialogs, toasts, drag-and-drop sensors and the theme switch (`useTheme`) are outside the model. Toasts appear only as the values `TaskModal.EffectsOf` returns.
- The task list's handlers, `calendar22`, `fetcher`, the services, `activityLog`, `cn` and the date formatters are not part of this model.
- The `fetch` in the task dialog is not modelled. Its result enters `FinishSubmit` as a `FetchOutcome`. An `error` member of an error body that is not a string is not modelled.
- TaskModal.TaskModal.HandleInputChange: covers the text fields only. Date values reach the form through `HandleDateSelect`; other value types under a text field's name are not modelled.
- The mock user (`mockUser`) comes from a module that is not part of this model, so it is a constructor parameter of both settings pages. Saving the profile or the notifications only logs, so it is not modelled.
- ReorderKanbanRoute.Reorder: text that is not JSON, and a body that parses to `null`, make the route throw (the destructuring of `{ updates }` throws on `null`), which it answers with 500. Both are represented by `MalformedJson`. Any other body whose `updates` is not an array, numbers, strings, booleans and arrays included, is `Parsed(NotAnArray)` and answered with 400.
- ReorderKanbanRoute.Reorder: batch entries are `KanbanUpdate` records with a string `id`, an integer `kanbanPosition` and a string `status`. Other entries are not modelled. A `null` entry throws inside `map`, which the route answers with 500. An entry without `status` or `kanbanPosition` reaches Prisma with that field `undefined`, so the column keeps its value.
- Strings are sequences of Unicode code points, not UTF-16 code units. For a name starting with a character outside the Basic Multilingual Plane, such as an emoji, JavaScript's `n[0]` yields half a surrogate pair where `Avatar.InitialsOf` takes the whole character; lengths and indices differ the same way.
- The React effect on `[task, projectId, open]` also runs once after mounting, so the initialiser's form lasts one render. `TaskModal.TaskModal.PropsChanged` stands for that run as well as for later prop changes.
- Whether `prisma.task.create` rejects a `projectId` that names no project depends on the database schema, which is not part of this model. A failing create would make the route answer 500; the model does not represent that failure.
