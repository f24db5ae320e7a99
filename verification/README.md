# Task board client: state reconciliation model

A Dafny model of the state logic of a single-page task board (`src/App.js`).
The board keeps a cached list of tasks fetched from a REST endpoint, a
create form, a user-visible error line and an edit session for at most one
task. Its handlers send GET/POST/PUT/DELETE requests and, when the server
answers, reconcile the cached list: replace it (load), append the created
task (create), drop the deleted task (delete) or merge the edited fields
into it (update). Three status columns are derived from the list by
comparing `state` with "PENDING", "IN_PROGRESS" and "COMPLETED".

The model takes the React component apart into pure functions over one
immutable `Store` record:

- `Wrappers` — `Option`, for absent JSON properties and the edit session.
- `Seqs` — `Filter` and `Map` (the array combinators the component uses),
  the order-preserving subsequence relation, and lemmas about them.
- `Tasks` — the `Task` record (free-text `state`, optional `dueDate`, and
  `rest` for server properties the client never reads), the `EditFields`
  working copy, `Snapshot` (what an edit session starts from) and `Merge`
  (the shallow merge `{ ...task, ...editFields }`), and the unique-id predicate.
- `TaskStore` — the `Store` record, the `Outcome` of a request (`Ok(body)` or
  `Err(serverTitle)`), the request each handler sends, and one transition
  per handler.
- `Views` — the three columns and their partition properties.
- `Machine` — every handler as an `Event`, runs of events, the invariant
  that the cached list keeps unique ids, and lemmas that relate several
  handlers.

Every network call is replaced by an `Outcome` argument: the transition is
what the handler does after `await` returns or throws. Handlers are assumed
to complete one at a time.

The board starts from `TaskStore.Initial`: no tasks, an empty create form,
no error, no edit session and an empty working copy (`src/App.js:5-16`).

Behaviour of the code worth knowing:

- `state` is compared as free text; a task with any other state than the
  three is in no column.
- A delete removes every task with the given id; with unique ids that is
  exactly one (`TaskStore.DeleteCount`).
- An update followed by a load leaves the same list as the load alone, but
  not the same state: the update also closed the edit session
  (`Machine.UpdateThenLoadDiffers`).
- A delete does not close an edit session on the deleted task.

## Model

| member | source | states |
|---|---|---|
| `Tasks.Set` | src/App.js:102-126 | an edit-form input changes the one field it names and keeps the other three |
| `Tasks.Snapshot` | src/App.js:79-84 | an edit session copies title, detail and state verbatim, and turns an absent due date into "" |
| `Tasks.Merge` | src/App.js:66 | the merged task keeps the id and all unedited properties, its editable fields read back as the working copy, and its due date becomes present |
| `Tasks.MergeSnapshot` | src/App.js:66-84 | saving an unchanged snapshot gives the task back when its due date is present, and only adds an empty due date otherwise |
| `Tasks.MergeMerge` | src/App.js:66 | a second merge overrides everything the first one wrote |
| `Tasks.SubseqUniqueIds` | src/App.js:54 | removing tasks from a list with unique ids keeps the ids unique |
| `Seqs.Filter` | src/App.js:54 | a filter keeps exactly the elements that satisfy the predicate, as an order-preserving subsequence |
| `Seqs.Map` | src/App.js:65-67 | a map keeps the length and transforms each position independently |
| `TaskStore.RequestFor` | src/App.js:23-63 | a load asks for the collection (23); a create always sends state PENDING with the form's title, detail and due date (34-39); a delete names the id (53); an update sends the whole working copy to the task's id (63) |
| `TaskStore.Load` | src/App.js:21-27 | success replaces the list with the server's list exactly and touches nothing else; failure changes nothing |
| `TaskStore.AddError` | src/App.js:46 | the error line shows the server's title when present and non-empty, else "Failed to add task.", and is never empty |
| `TaskStore.Create` | src/App.js:31-47 | success appends the server's task after an unchanged prefix and clears form and error; failure keeps list and form and sets the error line; the session is never touched |
| `TaskStore.Delete` | src/App.js:51-57 | success leaves an order-preserving subsequence holding every copy of every task with another id and no task with the given id; failure changes nothing |
| `TaskStore.RemoveUnique` | src/App.js:54 | with unique ids, filtering out a present id shortens the list by exactly one |
| `TaskStore.DeleteCount` | src/App.js:51-57 | with unique ids, a successful delete of a present id removes exactly one task, and of an absent id changes nothing |
| `TaskStore.DeleteIdempotent` | src/App.js:54 | repeating a successful delete changes nothing more |
| `TaskStore.Update` | src/App.js:61-74 | success keeps length, order and ids, rewrites the editable fields of matching tasks only, and closes the session with a cleared working copy; failure changes nothing, the session included |
| `TaskStore.BeginEdit` | src/App.js:77-85 | opening a session records the task's id and its snapshot and leaves list, form and error alone |
| `TaskStore.Cancel` | src/App.js:133 | Cancel closes the session but keeps the working copy |
| `TaskStore.EditField` | src/App.js:99-127 | an edit-form input changes exactly one field of the working copy and nothing else |
| `TaskStore.FormInput` | src/App.js:155-174 | a create-form input changes exactly one form field and nothing else |
| `Views.ViewsPartition` | src/App.js:91-93 | of the columns `Views.Pending`, `Views.InProgress` and `Views.Completed`: each column is an order-preserving subsequence, the columns are disjoint, every known-state task is in one, other states are in none, and together they hold exactly the known-state tasks |
| `Views.ViewsAppend` | src/App.js:91-93 | appending a task adds it at the bottom of its own column only |
| `Machine.StepKeepsIdsUnique` | src/App.js:21-85 | every handler keeps the cached ids unique when the server lists unique ids and creates fresh ones |
| `Machine.RunKeepsIdsUnique` | src/App.js:21-85 | any run of handlers keeps the cached ids unique under the same server assumption |
| `Machine.FailureKeepsTasks` | src/App.js:21-74 | a failed request leaves list, session and form alone, and everything alone except for a create's error line |
| `Machine.EditRoundTrip` | src/App.js:61-85 | for a listed task with a due date, in a list with unique ids, opening a session and saving it unchanged gives the list back and closes the session |
| `Machine.UpdateOverrides` | src/App.js:61-68 | after two saves of the same id only the second working copy is visible |
| `Machine.UpdateThenLoad` | src/App.js:21-74 | update then load gives the same list as load alone, with the session closed if the update succeeded |
| `Machine.UpdateThenLoadDiffers` | src/App.js:21-74 | for every store with a session open, a successful update then a load gives a different state from the load alone |
| `Machine.CreateShowsInColumn` | src/App.js:40 | a created task appears at the bottom of the column of its state and nowhere else |
| `Machine.EditInputsCommute` | src/App.js:102-126 | inputs on different edit fields commute |
| `Machine.CancelThenEdit` | src/App.js:133 | a cancel leaves no trace once another session is opened |
| `Machine.CompleteTask` | src/App.js:61-93 | any listed task edited to COMPLETED and saved is, at its position, in the Completed column and in no other |
| `Machine.CompleteOneTask` | src/App.js:61-93 | the one-task example: a single pending task edited to COMPLETED and saved ends up only in the Completed column, with its due date now "" |

## Left out

- Rendering, CSS class names (`toLowerCase`) and the "N/A" due-date fallback: presentation only.
- The HTTP client, URL construction and the API base URL: replaced by the `Request` a handler sends and the `Outcome` it receives.
- Console logging of failures: it changes no state.
- The mount-time load trigger: React lifecycle; `Load` models what it does.
- Overlapping requests and handlers that read a stale `tasks` value: the model applies one handler at a time.
- Browser `required` validation and the date format of the inputs: enforced by the browser, not the component.
- `TaskStore.Create`: a server `title` that is a list of message strings, at least one of them non-empty, is modelled by their concatenated text; JavaScript's other falsy values (null, 0, false) count as absent.
- `TaskStore.AddError`: other truthy non-string titles are not modelled: an empty list or a list of empty strings is stored and shown as an empty error line, `true` shows nothing, and an object makes the render fail; "never empty" holds for string titles only.
- `Tasks.Task`: the `rest` map stands for the server properties other than `id`, `title`, `detail`, `state` and `due_date`, with each value as text; the model does not forbid those five keys in it, and non-string JSON values are represented by their text; `title`, `detail` and `state` are always strings, and a null or missing one is not modelled.
- Task ids are JSON numbers, compared with `===`; ids of other JSON types are not modelled.
