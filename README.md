# Todo-list client state: the tasks and todo-lists slices

This project models the client-side state of a todo-list manager built on
Redux Toolkit. The state consists of two slices.

- The **todo-list store** is an ordered sequence of lists. Each list carries the
  server's fields (`id`, `title`, `addedDate`, `order`) and two local
  annotations, `filter` and `entityStatus`.
- The **task store** is a map from a list id to that list's tasks, newest first.

Each reducer case is a method of a store class. The method changes the class's
`seq` or `map` field in place, as the reducer changes its Immer draft. Its
`ensures` ties the new state to a function of the old state and the action's
payload. The slices see the same list lifecycle actions: fetch, add, remove and
delete all. Module `RootState` proves that, handled together, these actions
keep an entry in the task map for every list in the todo-list store (for
removal, when list ids are unique).

Modules:

- `Keyed` (keyed.dfy). The id-directed edits both slices make on a sequence:
  - `findIndex` (`FirstIndexOf`);
  - removal of the first match (`RemoveFirst`);
  - replacement of the first match (`ReplaceFirst`).

  `RemoveFirst` and `ReplaceFirst` are reference definitions by recursion. Lemmas
  prove that they equal the `findIndex`-then-`splice` and
  `findIndex`-then-assign code of the reducers.
- `TodolistsSlice` (todolists_slice.dfy). Class `TodolistsStore` holds
  `lists: seq<TodolistDomain>`, with one method per reducer.
- `TasksSlice` (tasks_slice.dfy). Class `TasksStore` holds
  `tasks: map<string, seq<Task>>`, with one method per extraReducers case. It
  also holds the pure parts of the `updateTask` and `addTask` thunks: the lookup,
  the `apiModel` construction, and how the thunk settles on the server's answer.
  That answer is an input.
- `RootState` (root_state.dfy). The cross-store invariants, and class
  `RootStore` holding one store per slice.
- `Wrappers` (wrappers.dfy). `Option`, for the optional fields of a partial task
  update.

`removeTodolist`, `fetchTodolists`, `addTodolist`, `changeTodolistTitle` and
`removeTask` fulfil on any response that does not throw
(todolistsSlice.ts:59-61, 75-77, 91-93, 106-107; tasksSlice.ts:90-91): they do
not check the result code. So in the model, a fulfilled payload is the only
input those reducers see. Only `addTask` (tasksSlice.ts:72) and `updateTask`
(tasksSlice.ts:123) branch on `resultCode`, and `SettleAddTask` and
`RunUpdateTask` model that branch.

## Model

| member | source | states |
|---|---|---|
| `Keyed.FirstIndexOf` | src/features/TodolistsList/todolistsSlice.ts:12 | `findIndex` by id returns -1 or a valid position |
| `Keyed.FirstIndexOfFinds` | src/features/TodolistsList/tasksSlice.ts:21 | the index is -1 exactly when no record has the id; otherwise the record there has the id and no earlier record does |
| `Keyed.RemoveFirstAbsent` | src/features/TodolistsList/tasksSlice.ts:22-24 | when `findIndex` gives -1 the splice is skipped and the sequence is unchanged |
| `Keyed.RemoveFirstAt` | src/features/TodolistsList/todolistsSlice.ts:35-38 | removing the first match is `splice(index, 1)` at the first matching index: every other record keeps its order |
| `Keyed.RemoveFirstCount` | src/features/TodolistsList/tasksSlice.ts:21-24 | when the id is present, the length drops by exactly one and the multiset loses exactly the record at the first match |
| `Keyed.RemoveFirstKeys` | src/features/TodolistsList/todolistsSlice.ts:34-39 | with unique ids, the id set after removal is the old id set minus the removed id, and ids stay unique |
| `Keyed.RemoveFirst` | src/features/TodolistsList/todolistsSlice.ts:34-39 | the sequence without its first record with the id, unchanged when there is none: the length drops by one exactly when `findIndex` finds the id |
| `Keyed.ReplaceFirst` | src/features/TodolistsList/tasksSlice.ts:27-33 | replacing the first match never changes the length |
| `Keyed.ReplaceFirstAbsent` | src/features/TodolistsList/todolistsSlice.ts:12-15 | when `findIndex` gives -1 the assignment is skipped and the sequence is unchanged |
| `Keyed.ReplaceFirstAt` | src/features/TodolistsList/todolistsSlice.ts:44-47 | replacing the first match is the indexed assignment at the first matching index; every other position keeps its record |
| `Keyed.ReplaceFirstKeepsKeys` | src/features/TodolistsList/todolistsSlice.ts:17-22 | an edit that keeps a record's id keeps the id at every position and the whole id set |
| `TodolistsSlice.Decorate` | src/features/TodolistsList/todolistsSlice.ts:41 | `{ ...tl, filter: "all", entityStatus: "idle" }` keeps every server field and sets the two defaults |
| `TodolistsSlice.DecorateAll` | src/features/TodolistsList/todolistsSlice.ts:30-32 | the fetched lists, decorated one by one: same length, position k is list k decorated |
| `TodolistsSlice.ApplyChange` | src/features/TodolistsList/todolistsSlice.ts:14 | setting `filter`, `entityStatus` or `title` changes that field only; the id and every other field are kept |
| `TodolistsSlice.ChangeListEffect` | src/features/TodolistsList/todolistsSlice.ts:11-22 | filter/status/title change: the length is kept, a missing id is a no-op; otherwise only the first list with the id changes, only in the named field, and every other position is untouched |
| `TodolistsSlice.RemoveListEffect` | src/features/TodolistsList/todolistsSlice.ts:34-39 | remove: a missing id is a no-op; otherwise the first list with the id goes, order is kept, and the length drops by one |
| `TodolistsSlice.FetchListsEffect` | src/features/TodolistsList/todolistsSlice.ts:29-33 | fetch: old lists stay as a prefix; fetched lists follow in server order with `filter` all and `entityStatus` idle; length grows by the number fetched |
| `TodolistsSlice.TodolistsStore.constructor` | src/features/TodolistsList/todolistsSlice.ts:9 | the initial state is the empty sequence |
| `TodolistsSlice.TodolistsStore.ChangeTodolistFilter` | src/features/TodolistsList/todolistsSlice.ts:11-16 | the new sequence is the old one with the filter of the first list with the id replaced |
| `TodolistsSlice.TodolistsStore.ChangeTodolistEntityStatus` | src/features/TodolistsList/todolistsSlice.ts:17-22 | the new sequence is the old one with the entity status of the first list with the id replaced |
| `TodolistsSlice.TodolistsStore.DeleteAllTodoLists` | src/features/TodolistsList/todolistsSlice.ts:23-25 | the sequence becomes empty whatever it was |
| `TodolistsSlice.TodolistsStore.OnFetchTodolistsFulfilled` | src/features/TodolistsList/todolistsSlice.ts:29-33 | the `forEach`/`push` loop leaves the old sequence followed by every fetched list, decorated, in order |
| `TodolistsSlice.TodolistsStore.OnRemoveTodolistFulfilled` | src/features/TodolistsList/todolistsSlice.ts:34-39 | `findIndex` plus `splice` equals the reference removal of the first list with the id |
| `TodolistsSlice.TodolistsStore.OnAddTodolistFulfilled` | src/features/TodolistsList/todolistsSlice.ts:40-42 | the decorated new list is at index 0, followed by the old sequence |
| `TodolistsSlice.TodolistsStore.OnChangeTodolistTitleFulfilled` | src/features/TodolistsList/todolistsSlice.ts:43-48 | the new sequence is the old one with the title of the first list with the id replaced |
| `TasksSlice.MergeTask` | src/features/TodolistsList/tasksSlice.ts:29-32 | `{ ...task, ...model }`: a field given in the model is taken from it, any other field is kept, and the id, list id and order never change |
| `TasksSlice.MergeTaskAlgebra` | src/features/TodolistsList/tasksSlice.ts:29-32 | merging the empty model is the identity; merging a model twice equals merging it once; two merges in a row equal one merge of their overlay |
| `TasksSlice.BuildApiModel` | src/features/TodolistsList/tasksSlice.ts:113-121 | the outgoing payload takes each of the six fields from the domain model when given, else from the stored task |
| `TasksSlice.ApiModelAgreesWithMerge` | src/features/TodolistsList/tasksSlice.ts:113-124 | the payload sent to the server equals the six API fields of the task the store will hold once the fulfilled update is merged in |
| `TasksSlice.RunUpdateTask` | src/features/TodolistsList/tasksSlice.ts:104-133 | no API call and a rejection exactly when the list entry or the task is missing; otherwise the built payload is sent; the thunk fulfils only on `resultCode` 0, and then carries the original domain model |
| `TasksSlice.SettleAddTask` | src/features/TodolistsList/tasksSlice.ts:71-82 | `addTask` fulfils with the server's item exactly when `resultCode` is 0, and rejects with the server's messages otherwise |
| `TasksSlice.WithEmptyEntries` | src/features/TodolistsList/tasksSlice.ts:41-43 | every fetched list id maps to an empty task list; every other key keeps its tasks; no other key is added |
| `TasksSlice.RemoveTaskEffect` | src/features/TodolistsList/tasksSlice.ts:20-25 | remove task: a missing id is a no-op; otherwise exactly the first task with the id goes, order is kept and the length drops by one (the multiset fact is `Keyed.RemoveFirstCount`) |
| `TasksSlice.RemoveTaskGone` | src/features/TodolistsList/tasksSlice.ts:20-25 | with unique task ids, no task with the removed id remains |
| `TasksSlice.UpdateTaskEffect` | src/features/TodolistsList/tasksSlice.ts:26-34 | update task: the length is kept and a missing id is a no-op; otherwise the first task with the id becomes the merge of it with the model, and every other position is untouched |
| `TasksSlice.StatusOnlyUpdate` | src/features/TodolistsList/TodolistsList.tsx:52-57 | a status-only update sets the status of the matched task and leaves its other fields alone |
| `TasksSlice.TasksStore.constructor` | src/features/TodolistsList/tasksSlice.ts:10 | the initial state is the empty map |
| `TasksSlice.TasksStore.OnFetchTasksFulfilled` | src/features/TodolistsList/tasksSlice.ts:14-16 | the list's entry becomes exactly the fetched tasks; every other key is unchanged |
| `TasksSlice.TasksStore.OnAddTaskFulfilled` | src/features/TodolistsList/tasksSlice.ts:17-19 | with an entry for the task's list: the new task is at index 0, followed by the old tasks, and other keys are unchanged; without one: the reducer fails and the state is unchanged |
| `TasksSlice.TasksStore.OnRemoveTaskFulfilled` | src/features/TodolistsList/tasksSlice.ts:20-25 | `findIndex` plus `splice` on the list's entry equals the reference removal of the first task with the id; a missing list entry fails with the state unchanged |
| `TasksSlice.TasksStore.OnUpdateTaskFulfilled` | src/features/TodolistsList/tasksSlice.ts:26-34 | `findIndex` plus indexed assignment equals the reference replacement, merging the model into the first match; a missing list entry fails with the state unchanged |
| `TasksSlice.TasksStore.OnAddTodolistFulfilled` | src/features/TodolistsList/tasksSlice.ts:35-37 | the new list's id maps to the empty sequence |
| `TasksSlice.TasksStore.OnRemoveTodolistFulfilled` | src/features/TodolistsList/tasksSlice.ts:38-40 | only key `id` is deleted |
| `TasksSlice.TasksStore.OnFetchTodolistsFulfilled` | src/features/TodolistsList/tasksSlice.ts:41-43 | the `forEach` loop gives every fetched list id an empty entry and keeps every other key |
| `TasksSlice.TasksStore.OnDeleteAllTodoLists` | src/features/TodolistsList/tasksSlice.ts:44-46 | the map becomes empty |
| `RootState.AddTodolistKeepsEntries` | src/features/TodolistsList/todolistsSlice.ts:40-42 | add list applied to both stores keeps "every list has a task entry", and keeps "task keys are exactly the list ids" |
| `RootState.FetchTodolistsKeepsEntries` | src/features/TodolistsList/tasksSlice.ts:41-43 | fetch lists applied to both stores keeps both invariants |
| `RootState.RemoveTodolistKeepsEntries` | src/features/TodolistsList/tasksSlice.ts:38-40 | remove list applied to both stores keeps both invariants and unique ids, provided the list ids were unique |
| `RootState.RemoveWithDuplicateIdBreaksEntries` | src/features/TodolistsList/todolistsSlice.ts:34-39 | with two lists sharing an id, removal drops one list but the whole task entry, so the invariant fails: the uniqueness premise is needed |
| `RootState.DeleteAllKeepsEntries` | src/features/TodolistsList/tasksSlice.ts:44-46 | resetting both stores gives states satisfying both invariants |
| `RootState.OtherActionsKeepEntries` | src/features/TodolistsList/tasksSlice.ts:14-16 | list field changes keep the id set; fetching tasks never drops a key, and for a known list keeps the key set |
| `RootState.FetchListsThenTasks` | src/features/TodolistsList/tasksSlice.ts:14-16 | fetching lists into empty stores, then tasks for a fetched list, gives a task map whose key set is the list id set |
| `RootState.RootStore.constructor` | src/app/store.ts:8-15 | both stores start empty and the invariant holds |
| `RootState.RootStore.AddTodolistFulfilled` | src/features/TodolistsList/todolistsSlice.ts:40-42 | both reducers run; the invariant is kept |
| `RootState.RootStore.FetchTodolistsFulfilled` | src/features/TodolistsList/todolistsSlice.ts:29-33 | both reducers run; the invariant is kept |
| `RootState.RootStore.RemoveTodolistFulfilled` | src/features/TodolistsList/todolistsSlice.ts:34-39 | both reducers run; with unique list ids the invariant and uniqueness are kept |
| `RootState.RootStore.DeleteAllTodoLists` | src/features/TodolistsList/todolistsSlice.ts:23-25 | both reducers run from any state, even one that breaks the invariant; both stores are empty and the invariant holds again |
| `RootState.RootStore.ChangeTodolist` | src/features/TodolistsList/todolistsSlice.ts:11-22 | a filter, status or title change touches the todo-list store only and keeps the invariant |
| `RootState.RootStore.FetchTasksFulfilled` | src/features/TodolistsList/tasksSlice.ts:14-16 | fetching tasks touches the task map only and keeps the invariant |
| `RootState.RootStore.AddTaskFulfilled` | src/features/TodolistsList/tasksSlice.ts:17-19 | adding a task touches the task map only and keeps the invariant; for a list shown in the todo-list store the reducer never fails |
| `RootState.RootStore.RemoveTaskFulfilled` | src/features/TodolistsList/tasksSlice.ts:20-25 | removing a task touches the task map only and keeps the invariant; for a list shown in the todo-list store the reducer never fails |
| `RootState.RootStore.UpdateTaskFulfilled` | src/features/TodolistsList/tasksSlice.ts:26-34 | updating a task touches the task map only and keeps the invariant; for a list shown in the todo-list store the reducer never fails |

## Left out

- The asynchronous bodies of the thunks are left out: the `await todolistsAPI.*`
  calls, `dispatch(appActions.setAppStatus(...))`, and the
  `handleServerAppError` / `handleServerNetworkError` message extraction. The
  API client, the app slice and the error helpers are not part of this model. A
  thunk's outcome is an input: a fulfilled payload, or, for `updateTask` and
  `addTask`, the server's `Response`.
- A rejected thunk dispatches no case that either slice handles. So the model
  has no method for rejected actions: the rejected action itself leaves both
  stores as they are. Two effects a thunk has before it settles are outside
  that statement:
  - the `removeTodolist` thunk first dispatches `changeTodolistEntityStatus`
    with status "loading" (todolistsSlice.ts:73). That is
    `ChangeTodolistEntityStatus(id, Loading)` of the model, but the model does
    not chain it to the request. After a failed delete the list therefore stays
    at entity status "loading", and the model does not say so;
  - the `updateTask` thunk's `console.warn` when the task is missing
    (tasksSlice.ts:109) is console output and is left out.
- A reducer reading `state[id]` for a list id with no entry throws a
  `TypeError`. This happens in `addTask`, `removeTask` and `updateTask.fulfilled`.
  The model returns `ok == false` and leaves the state unchanged, which matches
  Immer discarding the draft. The exception propagating to the dispatcher is
  not modelled.
- `MergeTask` and `BuildApiModel` treat an optional field as given or absent.
  In JavaScript, a key present with the value `undefined` would also overwrite
  the stored field in the spread. The model does not capture that.
- `TaskStatuses` and `TaskPriorities` are numeric enums of the API module, which
  is not part of this model. They are plain `int` codes here. Nothing in the
  slices depends on their values.
- `addTodolist.fulfilled` writes `state[id] = []` even when `id` already has
  tasks. The model keeps that overwrite as it is.
- Overlapping in-flight requests are event-loop concurrency, not reducer logic,
  and are left out. So is last-write-wins between responses.
- Also left out:
  - the Redux/Immer mechanics: drafts, action types, builder registration;
  - the React component `TodolistsList.tsx`, which is used only as the caller of
    a status-only update;
  - the selectors in `todoListsSelectors.ts`, which are plain projections;
  - the typed thunk wrapper in `createAppAsyncThunk.ts`.
- `RootState.RootStore.RemoveTodolistFulfilled`: keeps the invariant only when
  the list ids were unique beforehand. The server hands out unique ids, but
  `fetchTodolists.fulfilled` appends without clearing. So fetching twice puts
  duplicate ids in the todo-list store. `RemoveWithDuplicateIdBreaksEntries`
  shows the invariant then failing.
