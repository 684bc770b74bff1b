# Task board controller

A model of the client side of a small kanban board (`src/app/page.tsx`).
The `Home` page component keeps an ordered list of task records. Each record has
an id, a title, a description, a status and tags. The page shows the list in three
columns, "To Do", "In Progress" and "Done", one per status. Its handlers create,
edit, move and delete tasks. Each edit, move or delete is applied to the local
list first (optimistically) and then sent to the task API. When that call fails,
the page does not undo the local change. It refetches the whole list and, if the
refetch succeeds, replaces the local list with the server's.

The model has these modules:

- `TaskRecord` (task.dfy): the task record, the partial record used by
  updates, the object spread that merges them, and the three column ids.
- `Seqs` (seqs.dfy): order-preserving filtering, characterised by its contract
  and proved to be the only sequence with that contract.
- `TaskList` (task_list.dfy): the list transforms the handlers use. These are the
  update by id (`map`), the move, the edit save, the delete (`filter`), the column
  query (`filter`) and the lookup (`find`). Lemmas relate them.
- `Titles` (titles.dfy): `String.prototype.trim` and the blank-title test.
- `Page` (page.dfy): the `Home` component as a class. Its fields are the
  component's state and its methods are the handlers. `TaskCard` is a class with
  the card's save action.
- `Scenarios` (scenarios.dfy): short client runs that use only the handlers'
  contracts, for example the move-fails-then-refetch case.

The network is not modelled. Each call's outcome is a parameter of the handler
that makes it: `Ok(value)` or `Failed` for the list and create calls, and
`serverOk` for update and delete. Each handler returns the API requests it sent,
in order (`ListTasks`, `CreateTask`, `UpdateTask`, `DeleteTask`), and the kind of
toast it showed. So "no server call" means the handler returned no requests, and
"the call was still issued" means the request is in that sequence.

A status is stored as the string the task store holds. The store does not check
it, so a refetched list may contain any status. `AllInColumns` says that every
task sits in one of the three columns. Every handler that changes the list
(create, update, delete, drag end, load and card save) is proved to keep that
property whenever its inputs (patch, created task, loaded or refetched list)
also keep it.

## Model

| member | source | states |
|---|---|---|
| `Seqs.Filter` | src/app/page.tsx:142 | the result keeps exactly the elements that pass the test, each as many times as in the input, in the input's order (a subsequence) |
| `Seqs.FilterUnique` | src/app/page.tsx:217 | any subsequence of the input that holds only passing elements, each as often as the input does, is the filtered list, so the filter contract fully determines the result |
| `TaskRecord.Merge` | src/app/page.tsx:111 | the object spread `{ ...task, ...patch }`: each field the patch carries wins, each field it lacks keeps the task's value; a patch carrying an id rewrites the id |
| `TaskRecord.MergeIdempotent` | src/app/page.tsx:111 | applying the same partial record twice gives the same task as applying it once |
| `TaskRecord.MergeEmpty` | src/app/page.tsx:111 | an empty partial record leaves the task unchanged |
| `TaskList.UpdateById` | src/app/page.tsx:111 | the optimistic update keeps the list's length and order; every task with the id gets the patch's fields and keeps the fields the patch lacks; every other task is unchanged |
| `TaskList.UpdateKeepsColumns` | src/app/page.tsx:111 | if every task is in a column and the patch sets no status or a column status, then every task is still in a column after the update |
| `TaskList.MoveToColumn` | src/app/page.tsx:184-189 | the move keeps the list's length and order; a task with the id changes only its status, to the destination column; every other task is unchanged |
| `TaskList.MovedTaskInColumn` | src/app/page.tsx:184-190 | after moving a task that exists, a task with that id is in the destination column's list |
| `TaskList.SaveEdit` | src/app/page.tsx:424 | saving a card changes only the title and description of the tasks with the card's id; all other fields and all other tasks are unchanged |
| `TaskList.RemoveById` | src/app/page.tsx:142 | the optimistic delete keeps exactly the tasks with a different id, each as often as before, in their original order, and keeps no task with that id |
| `TaskList.RemoveByIdIsUnique` | src/app/page.tsx:142 | the delete result is the only order-preserving subsequence that keeps every task with another id and drops every task with this id |
| `TaskList.RemoveAbsentIsIdentity` | src/app/page.tsx:142 | deleting an id that no task has leaves the list unchanged |
| `TaskList.RemoveAfterUpdate` | src/app/page.tsx:108-145 | if an update does not change ids, a later delete of the same id gives the same list as deleting without the update |
| `TaskList.TasksWithStatus` | src/app/page.tsx:216-218 | a column is exactly the tasks with that status, each as often as in the list, in list order |
| `TaskList.ColumnsPartition` | src/app/page.tsx:248-326 | when every status is one of the three column ids, the three columns together hold every task exactly once (the multisets add up to the list, and so do the lengths) |
| `TaskList.FindById` | src/app/page.tsx:175 | the lookup finds nothing exactly when no task has the id; otherwise it returns the first task with that id |
| `Titles.IsWhiteSpace` | src/app/page.tsx:71 | the characters `trim()` removes (ECMAScript WhiteSpace and LineTerminator); space, tab, LF and CR are among them, and all of them lie in the Basic Multilingual Plane |
| `Titles.TextStart` | src/app/page.tsx:71 | the index of the first non-whitespace character, or the length when there is none; everything before it is whitespace |
| `Titles.TextEnd` | src/app/page.tsx:71 | one past the index of the last non-whitespace character, or 0 when there is none; everything from it on is whitespace |
| `Titles.Trim` | src/app/page.tsx:71 | `trim()` returns a contiguous piece of the input with no whitespace at either end, and only whitespace lies outside that piece |
| `Titles.BlankIffAllWhiteSpace` | src/app/page.tsx:71 | a title is rejected as blank exactly when every character is ECMAScript whitespace, including the empty title |
| `Page.Home.IsBlankTitle` | src/app/page.tsx:71 | the blank test `!title.trim()` is true exactly when the title is empty or all whitespace |
| `Page.Home.constructor` | src/app/page.tsx:54-59 | initial state: no tasks, empty drafts, no suggested tags, create form closed, no task being edited |
| `Page.Home.RefreshSuggestedTags` | src/app/page.tsx:43-68 | if either draft is non-empty, the suggested tags are what the suggestion service returned, or none if it failed; if both drafts are empty, there are no suggested tags |
| `Page.Home.HandleCreateTask` | src/app/page.tsx:70-106 | a blank title (empty or all whitespace): no request, error toast, state unchanged. Otherwise it sends one create of a "To Do" draft with the current title, description and suggested tags. On success the returned task is appended after all existing tasks, which keep their order, and the drafts, tags and form are reset. On failure the state is unchanged. Column membership is kept |
| `Page.Home.RefreshAfterFailure` | src/app/page.tsx:129-135 | sends one list request; if it succeeds, the list becomes exactly the refetched one; if it fails, the list is unchanged |
| `Page.Home.HandleUpdateTask` | src/app/page.tsx:108-137 | editing mode is cleared; the update is sent. On success, or when both the update and the refetch fail, the list is the optimistic update. When the update fails and the refetch succeeds, the list equals the refetched list. Column membership is kept |
| `Page.Home.HandleDeleteTask` | src/app/page.tsx:139-167 | the delete request is sent even for an id not in the list. The list is the optimistic delete, or the refetched list when the delete fails and the refetch succeeds. Column membership is kept |
| `Page.Home.OnDragEnd` | src/app/page.tsx:169-214 | with no destination, or with an id no task has: no request, no toast, list unchanged. Otherwise it sends a status-only update to the destination column; the list is the move, or the refetched list when the update fails and the refetch succeeds. Column membership is kept |
| `Page.Home.LoadTasks` | src/app/page.tsx:220-238 | sends one list request; a non-empty result replaces the list; an empty result or a failure leaves the list unchanged, so the sample data is never installed. Column membership is kept |
| `Page.TaskCard.constructor` | src/app/page.tsx:419-421 | the card's title and description drafts start as the task's own |
| `Page.TaskCard.HandleSave` | src/app/page.tsx:423-426 | sends an update of exactly `{title, description}` for the card's task and clears editing mode; the list is the saved edit, or the refetched list when the update fails and the refetch succeeds; the toast is success exactly when the update succeeded. Column membership is kept |

## Left out

- Rendering: the JSX, the UI components and the drag-and-drop library's mechanics. The only output of a drop modelled here is the `DropResult` it hands to `onDragEnd`. Its destination can only be one of the three droppable column ids (src/app/page.tsx:248, 282, 316).
- Toasts: modelled only as their kind (none, success, error). Their text and `console.error` logging are not modelled.
- The HTTP client (src/lib/api.ts) and the server routes (src/app/api/tasks/route.ts): each call is an outcome passed in as a parameter. The route does not check titles, so the only blank-title check is the one on the client. A create's outcome is taken to be the task the server returns. The source's `createTask` reads `data.task` from the response, but the POST route answers with the bare task record. Response bodies are not part of this model, so that mismatch is not captured.
- The tag suggestion service (src/ai/flows/suggest-task-tags.ts) is an external text-generation call. Its answer, or its failure, is an input to `Page.Home.RefreshSuggestedTags`. The effect's timing is not modelled, and neither is the race between overlapping suggestion requests.
- Asynchrony: each handler is one atomic step over the current state. Interleaved handlers are not modelled, and neither are handlers that capture a stale `tasks` from an earlier render. So an update's optimistic write and the `setEditingTaskId(null)` in `TaskCard.handleSave` both occur within the one step.
- The sample tasks `initialData` (src/app/page.tsx:19-41) are never installed, whatever the error toast says. They are therefore not modelled. Their ids come from `uuidv4`, and ids are opaque strings here.
- The single-field setters wired in the markup: the draft inputs, opening and cancelling the create form, and entering or cancelling edit mode on a card (src/app/page.tsx:356, 374, 384, 399, 432, 438, 444, 456). They are plain field assignments and are not modelled as members.
- Partial records: a key that is present but set to `undefined` is not modelled; a key is either present with a value or absent.
- `Titles.IsWhiteSpace`: it works on Unicode scalar values, while JavaScript strings are UTF-16 code units. Every character `trim` removes is in the Basic Multilingual Plane, so the two agree on which characters are removed.
- Email (src/services/nodemailer.ts) is a logging stub and is not part of this model.
