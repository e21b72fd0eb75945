# Task manager front end: the editor and list logic

This project models the logic under the two views of a small task-manager
web front end: the task editor page (`frontend/src/pages/Task.jsx`) and the
task list (`frontend/src/components/Tasks.jsx`). A task has a title, a
description, a priority, a status and an optional due date; the backend stores
the tasks and hands out their ids.

The editor is one form shared by two modes. With no task id in the route it
is in "add" mode and starts blank. With an id it is in "update" mode: it
fetches the task, fills the form from it and keeps the fetched task as a snapshot
that Reset restores. Submit clears the errors and checks the title, then the
description, stopping at the first blank one. When both pass it sends one create
or update request and returns to the list once that request has resolved.

The list fetches the user's tasks once the user is logged in. Each response
replaces the whole list. A delete is followed by a refetch, and the refetch is
issued only after the delete has resolved. Each task is drawn as a card with
status and priority badges, whose colours come from two lookup tables.

Modules:

- `Js` (`js.dfy`): JavaScript's `trim` and `split(sep)[0]` on strings.
- `Api` (`api.dfy`): the task record, the form record, and request
  descriptions. An `Effect` is what a step emits: `Idle`, or
  `Send(request, next)`, or `Go(route)`. In `Send`, `next` is what the view
  does only after the request resolves. The model never performs a request.
- `TaskEditor` (`task_editor.dfy`): the mode, the validator and the request
  construction, as functions. The class `Editor` holds the component state
  (`form`, `errors`, `snapshot`), and its methods `Loaded`, `Change`,
  `Reset`, `Submit` and `Cancel` are the page's handlers.
- `TaskList` (`task_list.dfy`): the colour tables and the render selection, as
  functions. The class `TaskListState` holds the `tasks` sequence, with the
  fetch and delete steps.

The session token, the login flag, the route's task id and the loading flag
are plain inputs. Navigation is an emitted route.

Three behaviours of the code worth noting:

- The list heading sits outside the loading switch, so the count shows even
  while a fetch is in flight (`Render`).
- The editor fetches its task in update mode without checking the login flag.
- Validation stops at the first failing field and does not collect every
  failing field.

## Model

| member | source | states |
|---|---|---|
| `TaskEditor.ModeOf` | frontend/src/pages/Task.jsx:17 | the mode is add exactly when the route has no task id |
| `TaskEditor.Editor.constructor` | frontend/src/pages/Task.jsx:17-29 | a fresh editor has the initial form (empty title, description and due date, priority "medium", status "todo"), no errors and no snapshot |
| `TaskEditor.With` | frontend/src/pages/Task.jsx:54-59 | the named field takes the new value and every other field keeps its old value |
| `TaskEditor.WithSameValue` | frontend/src/pages/Task.jsx:54-59 | writing a field's current value back leaves the form unchanged |
| `TaskEditor.WithTwice` | frontend/src/pages/Task.jsx:54-59 | a second change of the same field overrides the first |
| `TaskEditor.Editor.Change` | frontend/src/pages/Task.jsx:54-59 | the form becomes the old form with one field replaced; errors and snapshot are unchanged |
| `Js.TrimStart` | frontend/src/pages/Task.jsx:78 | the result is a suffix of the input, every removed character is whitespace, and the result does not start with whitespace |
| `Js.TrimEnd` | frontend/src/pages/Task.jsx:78 | the result is a prefix of the input, every removed character is whitespace, and the result does not end with whitespace |
| `Js.IsWhitespace` | frontend/src/pages/Task.jsx:78 | the ECMAScript whitespace and line-terminator set: only space, the ASCII controls tab to carriage return, and code points from U+00A0 upward belong to it |
| `Js.Trim` | frontend/src/pages/Task.jsx:78 | `trim()` gives the slice of the input between a whitespace-only prefix and a whitespace-only suffix, and the slice is empty or starts and ends with a non-whitespace character |
| `Api.Truthy` | frontend/src/pages/Task.jsx:47 | an optional string is falsy exactly when it is absent or empty, the test used for the due date in the editor and on the cards |
| `Js.IsBlank` | frontend/src/pages/Task.jsx:82 | a string trims to "" exactly when all of its characters are whitespace |
| `Js.BeforeFirst` | frontend/src/pages/Task.jsx:47 | `split(c)[0]` is the longest prefix without `c`: it is followed by `c` when shorter than the input, and it is the whole input when `c` does not occur |
| `Js.BeforeFirstSplit` | frontend/src/pages/Task.jsx:68 | for any prefix p without `c`, `p + c + rest` is cut back to exactly p |
| `TaskEditor.DueDateField` | frontend/src/pages/Task.jsx:47 | an absent or empty date gives ""; otherwise the result is the prefix before the first "T", or the whole date when there is no "T" |
| `TaskEditor.DueDateOfTimestamp` | frontend/src/pages/Task.jsx:47 | any date text without "T", followed by "T" and any time of day, is converted back to exactly that date text (the empty text included) |
| `TaskEditor.DueDateExample` | frontend/src/pages/Task.jsx:47 | "2024-03-15T00:00:00.000Z" and "2024-03-15" both give "2024-03-15"; an empty or absent date gives "" |
| `TaskEditor.DueDateFieldIdempotent` | frontend/src/pages/Task.jsx:68 | converting an already converted date changes nothing, so a saved date loads back as it was when the backend returns the saved text (or that text followed by "T" and a time) |
| `TaskEditor.FormOf` | frontend/src/pages/Task.jsx:41-48 | the loaded form copies title, description, priority and status from the task, and takes the converted due date |
| `TaskEditor.LoadEffect` | frontend/src/pages/Task.jsx:37-51 | add mode issues nothing; update mode issues one GET of /tasks/{id} with the token, and fills the form only after it resolves |
| `TaskEditor.Editor.Loaded` | frontend/src/pages/Task.jsx:40-48 | the snapshot becomes the fetched task, the form becomes the form filled from it, and the errors are unchanged |
| `TaskEditor.Validate` | frontend/src/pages/Task.jsx:78-85 | the first failing rule is the title exactly when the title is blank, the description exactly when the title is not blank and the description is, and there is none exactly when both are non-blank |
| `TaskEditor.SubmitErrors` | frontend/src/pages/Task.jsx:76-85 | the errors after a submit do not depend on the earlier errors; they are empty exactly when validation passes, and otherwise hold only the first failing field |
| `TaskEditor.SubmitRequest` | frontend/src/pages/Task.jsx:87-92 | POST exactly in add mode and PUT exactly in update mode; the URL is /tasks in add mode and /tasks/{id} in update mode; the body is the whole form and the header carries the token |
| `TaskEditor.SubmitEffect` | frontend/src/pages/Task.jsx:87-94 | nothing is issued exactly when validation fails; otherwise exactly one request is issued, and navigation to "/" follows only after it resolves |
| `TaskEditor.SubmitBlankTitle` | frontend/src/pages/Task.jsx:76-81 | a whitespace-only title leaves the title error as the only error, and nothing is sent |
| `TaskEditor.SubmitBlankDescription` | frontend/src/pages/Task.jsx:82-85 | a non-blank title with a whitespace-only description leaves the description error as the only error, and nothing is sent |
| `TaskEditor.SubmitValid` | frontend/src/pages/Task.jsx:87-94 | both fields non-blank: no errors, and one request carrying the form and the token; POST /tasks without an id and PUT /tasks/{id} with one; navigation to "/" follows it |
| `TaskEditor.SubmitInitialForm` | frontend/src/pages/Task.jsx:21-27 | submitting the untouched initial form in either mode gives the title error and sends nothing |
| `TaskEditor.Editor.Submit` | frontend/src/pages/Task.jsx:72-95 | the errors become those of the first failing rule, what is emitted is the submit effect, and the form and snapshot are unchanged |
| `TaskEditor.ErrorShown` | frontend/src/pages/Task.jsx:98-99 | the error text of a field is shown only when that field has a recorded error (a truthy message) |
| `TaskEditor.ErrorShownIffRecorded` | frontend/src/pages/Task.jsx:98-103 | in every valid editor state, a field's error text is shown exactly when that field has a recorded error, since every recorded message is non-empty |
| `TaskEditor.ResetOffered` | frontend/src/pages/Task.jsx:204 | the Reset button is rendered exactly when the route carries a task id, that is, in update mode |
| `TaskEditor.ResetOfferedWhenLoaded` | frontend/src/pages/Task.jsx:204 | an editor holding a loaded task always offers Reset |
| `TaskEditor.ErrorShownAfterSubmit` | frontend/src/pages/Task.jsx:98-103 | after a submit, a field's error text is shown exactly when that field has a recorded error, which is exactly when it is the first failing field |
| `TaskEditor.Editor.Reset` | frontend/src/pages/Task.jsx:61-70 | with a snapshot present, the Reset button is on offer (update mode, Task.jsx:204) and the form is refilled from it with the same date conversion; no request is issued; errors and snapshot are unchanged |
| `TaskEditor.Editor.Cancel` | frontend/src/pages/Task.jsx:199 | Cancel navigates to "/" at once, without a request, and changes no state |
| `TaskEditor.EditThenReset` | frontend/src/pages/Task.jsx:41-70 | after a load and any field change, Reset brings the form back to exactly what the load produced |
| `TaskList.PriorityColor` | frontend/src/components/Tasks.jsx:30-41 | red exactly for "high", yellow exactly for "medium", green exactly for "low", gray for every other value |
| `TaskList.StatusColor` | frontend/src/components/Tasks.jsx:44-55 | blue exactly for "in-progress", green exactly for "done", gray exactly for every other status, "todo" included |
| `TaskList.FetchEffect` | frontend/src/components/Tasks.jsx:14-17 | one GET of /tasks with the token and no body; the list is replaced only after it resolves |
| `TaskList.MountEffect` | frontend/src/components/Tasks.jsx:19-22 | nothing is issued exactly when the user is not logged in; otherwise the list fetch is issued |
| `TaskList.TaskListState.constructor` | frontend/src/components/Tasks.jsx:11 | the list starts empty |
| `TaskList.TaskListState.Fetched` | frontend/src/components/Tasks.jsx:16 | a resolved fetch replaces the list wholesale with the response's tasks |
| `TaskList.TaskListState.Delete` | frontend/src/components/Tasks.jsx:24-26 | one DELETE of /tasks/{id} with the token, followed by a refetch only after it resolves; the list is not changed |
| `TaskList.TaskListState.Deleted` | frontend/src/components/Tasks.jsx:26 | once the delete resolves, the list fetch is issued |
| `TaskList.DeleteThenRefresh` | frontend/src/components/Tasks.jsx:24-27 | the DELETE of /tasks/{id} with the token is issued first; the deleted task stays in the list until the refetch resolves, after which the list is exactly the new response |
| `TaskList.CardOf` | frontend/src/components/Tasks.jsx:78-116 | a card shows the task's title and description, links to /tasks/{_id}, deletes by `_id`, takes its badge classes from the two tables, and shows the due-date label exactly when the due date is present and non-empty |
| `TaskList.CardsOf` | frontend/src/components/Tasks.jsx:77-126 | one card per task, in list order |
| `TaskList.Render` | frontend/src/components/Tasks.jsx:62-78 | the heading count is the list length and is shown only for a non-empty list; while loading, the body is only the loader and the heading still shows the count; an empty list shows the link to /tasks/add and no cards; otherwise the i-th card is the i-th task's card |
| `TaskList.DeletedTaskNotRendered` | frontend/src/components/Tasks.jsx:87-94 | when the refreshed list no longer holds an id, no card links to that id or deletes it |

## Left out

- JSX markup, CSS class composition beyond the two colour tables, `Loader`, `Tooltip`, the headings and button labels of the editor (Task.jsx:114, 194): presentational only.
- `useFetch` and the HTTP transport, toasts (`showSuccessToast`) and how the loading flag is driven: foreign code that is not part of this model. Requests are emitted descriptions, and the loading flag is an input of `Render`. The editor's own loader switch (Task.jsx:110) is not modelled.
- Failed requests: they are reported by the request executor, which is not part of this model. A continuation runs only on success.
- The Redux auth store, `useNavigate` and `useParams`: the token, the login flag and the task id are plain inputs, and navigation is an emitted route.
- Effect dependency re-runs, async ordering, overlapping requests and late responses after unmount: these belong to the React runtime and the event loop. A request and its resolution are modelled as two separate steps, one after the other.
- `new Date(...).toLocaleDateString()`: it depends on the locale. Only whether the due-date label is present is modelled.
- `document.title` (Task.jsx:32-34): a side effect on the page, with no logic behind it.
- `TaskEditor.Editor.Reset`: requires a loaded snapshot. The source dereferences a null `task` if Reset is pressed before the load resolves.
- `TaskEditor.Editor.Change`: the field name is one of the five form inputs. A `name` outside them would add a new key to the JavaScript object, and the model does not represent that.
- Whitespace for `trim` fixes the Unicode space-separator set as of Unicode 15. Other Unicode versions are not modelled.
- The backend's own handling of the requests (storage, id assignment, date parsing) is outside this front end.
