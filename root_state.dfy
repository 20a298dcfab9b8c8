/**
 * The two slices side by side, as the root state holds them. Both reducers
 * react to the list lifecycle actions (fetch, add, remove, delete all), and
 * together they keep one entry of the task map for every list in the
 * todo-list store.
 */
module RootState {
  import opened Keyed
  import opened TodolistsSlice
  import opened TasksSlice

  /** Every list in the todo-list store has an entry in the task map. */
  predicate EveryListHasTasks(ls: seq<TodolistDomain>, m: TasksState) {
    Keys(ls, ListId) <= m.Keys
  }

  /** The task map has an entry for exactly the lists in the todo-list store. */
  predicate TaskKeysMatchLists(ls: seq<TodolistDomain>, m: TasksState) {
    m.Keys == Keys(ls, ListId)
  }

  /** The ids of the decorated fetched lists are the fetched ids. */
  lemma {:induction false} DecorateAllKeys(fetched: seq<Todolist>)
    ensures Keys(DecorateAll(fetched), ListId) == Keys(fetched, TodolistId)
  {
    var d := DecorateAll(fetched);
    forall x | x in Keys(fetched, TodolistId) ensures x in Keys(d, ListId) {
      var k :| 0 <= k < |fetched| && TodolistId(fetched[k]) == x;
      assert ListId(d[k]) == x;
    }
  }

  /** addTodolist.fulfilled on both slices keeps both invariants. */
  lemma AddTodolistKeepsEntries(ls: seq<TodolistDomain>, m: TasksState, tl: Todolist)
    ensures EveryListHasTasks(ls, m) ==> EveryListHasTasks([Decorate(tl)] + ls, m[tl.id := []])
    ensures TaskKeysMatchLists(ls, m) ==> TaskKeysMatchLists([Decorate(tl)] + ls, m[tl.id := []])
  {
    KeysAppend([Decorate(tl)], ls, ListId);
    assert ListId([Decorate(tl)][0]) in Keys([Decorate(tl)], ListId);
  }

  /** fetchTodolists.fulfilled on both slices keeps both invariants. */
  lemma FetchTodolistsKeepsEntries(ls: seq<TodolistDomain>, m: TasksState, fetched: seq<Todolist>)
    ensures EveryListHasTasks(ls, m) ==> EveryListHasTasks(ls + DecorateAll(fetched), WithEmptyEntries(m, fetched))
    ensures TaskKeysMatchLists(ls, m) ==> TaskKeysMatchLists(ls + DecorateAll(fetched), WithEmptyEntries(m, fetched))
  {
    KeysAppend(ls, DecorateAll(fetched), ListId);
    DecorateAllKeys(fetched);
  }

  /** removeTodolist.fulfilled on both slices keeps both invariants when list
      ids are unique: the todo-list store drops the first list with the id and
      the task map drops the whole entry. */
  lemma RemoveTodolistKeepsEntries(ls: seq<TodolistDomain>, m: TasksState, id: string)
    requires UniqueKeys(ls, ListId)
    ensures EveryListHasTasks(ls, m) ==> EveryListHasTasks(RemoveFirst(ls, ListId, id), m - {id})
    ensures TaskKeysMatchLists(ls, m) ==> TaskKeysMatchLists(RemoveFirst(ls, ListId, id), m - {id})
    ensures UniqueKeys(RemoveFirst(ls, ListId, id), ListId)
  {
    RemoveFirstKeys(ls, ListId, id);
  }

  /** Without unique ids the invariant can break: two lists share an id, the
      todo-list store drops only the first, and the task map drops the entry
      the second still needs. */
  lemma RemoveWithDuplicateIdBreaksEntries()
    ensures var tl := TodolistDomain("x", "", "", 0, All, Idle);
            var m: TasksState := map["x" := []];
            && EveryListHasTasks([tl, tl], m)
            && !EveryListHasTasks(RemoveFirst([tl, tl], ListId, "x"), m - {"x"})
  {
    var tl := TodolistDomain("x", "", "", 0, All, Idle);
    assert [tl, tl][1..] == [tl];
    assert RemoveFirst([tl, tl], ListId, "x") == [tl];
    assert ListId([tl][0]) in Keys([tl], ListId);
    assert ListId([tl, tl][0]) in Keys([tl, tl], ListId);
  }

  /** deleteAllTodoLists on both slices yields two empty stores, which keep
      both invariants. */
  lemma DeleteAllKeepsEntries()
    ensures TaskKeysMatchLists([], map[]) && EveryListHasTasks([], map[])
  {
    var none: seq<TodolistDomain> := [];
    assert Keys(none, ListId) == {};
  }

  /** The remaining actions touch one slice only. Filter, status and title
      changes keep every list id; fetchTasks may add an entry but never drops
      one; and rewriting an entry that exists, as fetchTasks of a known list,
      addTask, removeTask and updateTask do, keeps the key set. */
  lemma OtherActionsKeepEntries(ls: seq<TodolistDomain>, m: TasksState, id: string, ch: ListChange, todoListId: string, fetched: seq<Task>)
    ensures Keys(ReplaceFirst(ls, ListId, id, ApplyChange, ch), ListId) == Keys(ls, ListId)
    ensures EveryListHasTasks(ls, m) ==> EveryListHasTasks(ls, m[todoListId := fetched])
    ensures todoListId in m ==> TaskKeysMatchLists(ls, m) == TaskKeysMatchLists(ls, m[todoListId := fetched])
  {
    ReplaceFirstKeepsKeys(ls, ListId, id, ApplyChange, ch);
  }

  /** Fetching the lists into empty stores and then the tasks of every
      fetched list leaves a task map whose keys are exactly the list ids. */
  lemma FetchListsThenTasks(fetched: seq<Todolist>, id: string, ts: seq<Task>)
    ensures var ls := [] + DecorateAll(fetched);
            var m := WithEmptyEntries(map[], fetched);
            && TaskKeysMatchLists(ls, m)
            && (id in Keys(fetched, TodolistId) ==> TaskKeysMatchLists(ls, m[id := ts]))
  {
    DeleteAllKeepsEntries();
    FetchTodolistsKeepsEntries([], map[], fetched);
  }

  /** The root state: one store per slice. */
  class RootStore {
    const todolists: TodolistsStore
    const tasks: TasksStore

    /** Every list has a task entry. */
    ghost predicate Valid()
      reads this, todolists, tasks
    {
      EveryListHasTasks(todolists.lists, tasks.tasks)
    }

    constructor ()
      ensures Valid() && fresh(todolists) && fresh(tasks)
      ensures todolists.lists == [] && tasks.tasks == map[]
    {
      todolists := new TodolistsStore();
      tasks := new TasksStore();
      new;
      DeleteAllKeepsEntries();
    }

    /** addTodolist.fulfilled, seen by both reducers. */
    method AddTodolistFulfilled(todoList: Todolist)
      requires Valid()
      modifies todolists, tasks
      ensures Valid()
      ensures todolists.lists == [Decorate(todoList)] + old(todolists.lists)
      ensures tasks.tasks == old(tasks.tasks)[todoList.id := []]
    {
      AddTodolistKeepsEntries(todolists.lists, tasks.tasks, todoList);
      todolists.OnAddTodolistFulfilled(todoList);
      tasks.OnAddTodolistFulfilled(todoList);
    }

    /** fetchTodolists.fulfilled, seen by both reducers. */
    method FetchTodolistsFulfilled(fetched: seq<Todolist>)
      requires Valid()
      modifies todolists, tasks
      ensures Valid()
      ensures todolists.lists == old(todolists.lists) + DecorateAll(fetched)
      ensures tasks.tasks == WithEmptyEntries(old(tasks.tasks), fetched)
    {
      FetchTodolistsKeepsEntries(todolists.lists, tasks.tasks, fetched);
      todolists.OnFetchTodolistsFulfilled(fetched);
      tasks.OnFetchTodolistsFulfilled(fetched);
    }

    /** removeTodolist.fulfilled, seen by both reducers. The invariant is kept
        when the list ids were unique. */
    method RemoveTodolistFulfilled(id: string)
      requires Valid()
      modifies todolists, tasks
      ensures UniqueKeys(old(todolists.lists), ListId) ==> Valid() && UniqueKeys(todolists.lists, ListId)
      ensures todolists.lists == RemoveFirst(old(todolists.lists), ListId, id)
      ensures tasks.tasks == old(tasks.tasks) - {id}
    {
      if UniqueKeys(todolists.lists, ListId) {
        RemoveTodolistKeepsEntries(todolists.lists, tasks.tasks, id);
      }
      todolists.OnRemoveTodolistFulfilled(id);
      tasks.OnRemoveTodolistFulfilled(id);
    }

    /** deleteAllTodoLists, seen by both reducers. It restores the invariant
        from any state. */
    method DeleteAllTodoLists()
      modifies todolists, tasks
      ensures Valid()
      ensures todolists.lists == [] && tasks.tasks == map[]
    {
      todolists.DeleteAllTodoLists();
      tasks.OnDeleteAllTodoLists();
      DeleteAllKeepsEntries();
    }

    /** changeTodolistFilter, changeTodolistEntityStatus or
        changeTodolistTitle.fulfilled: only the todo-list store changes, and
        no list id does. */
    method ChangeTodolist(id: string, ch: ListChange)
      requires Valid()
      modifies todolists
      ensures Valid()
      ensures todolists.lists == ReplaceFirst(old(todolists.lists), ListId, id, ApplyChange, ch)
    {
      OtherActionsKeepEntries(todolists.lists, tasks.tasks, id, ch, "", []);
      match ch
      case SetFilter(f) => todolists.ChangeTodolistFilter(id, f);
      case SetEntityStatus(st) => todolists.ChangeTodolistEntityStatus(id, st);
      case SetTitle(t) => todolists.OnChangeTodolistTitleFulfilled(id, t);
    }

    /** fetchTasks.fulfilled: only the task map changes, and it loses no key. */
    method FetchTasksFulfilled(todoListId: string, fetched: seq<Task>)
      requires Valid()
      modifies tasks
      ensures Valid()
      ensures tasks.tasks == old(tasks.tasks)[todoListId := fetched]
    {
      OtherActionsKeepEntries(todolists.lists, tasks.tasks, "", SetTitle(""), todoListId, fetched);
      tasks.OnFetchTasksFulfilled(todoListId, fetched);
    }

    /** addTask.fulfilled: only the task map changes, and its key set stays.
        For a list the todo-list store shows, the reducer does not fail. */
    method AddTaskFulfilled(task: Task) returns (ok: bool)
      requires Valid()
      modifies tasks
      ensures Valid()
      ensures ok == (task.todoListId in old(tasks.tasks))
      ensures task.todoListId in Keys(old(todolists.lists), ListId) ==> ok
      ensures ok ==> tasks.tasks == old(tasks.tasks)[task.todoListId := [task] + old(tasks.tasks)[task.todoListId]]
      ensures !ok ==> tasks.tasks == old(tasks.tasks)
    {
      ok := tasks.OnAddTaskFulfilled(task);
    }

    /** removeTask.fulfilled: only the task map changes, and its key set stays.
        For a list the todo-list store shows, the reducer does not fail. */
    method RemoveTaskFulfilled(taskId: string, todolistId: string) returns (ok: bool)
      requires Valid()
      modifies tasks
      ensures Valid()
      ensures ok == (todolistId in old(tasks.tasks))
      ensures todolistId in Keys(old(todolists.lists), ListId) ==> ok
      ensures ok ==> tasks.tasks == old(tasks.tasks)[todolistId := RemoveFirst(old(tasks.tasks)[todolistId], TaskId, taskId)]
      ensures !ok ==> tasks.tasks == old(tasks.tasks)
    {
      ok := tasks.OnRemoveTaskFulfilled(taskId, todolistId);
    }

    /** updateTask.fulfilled: only the task map changes, and its key set stays.
        For a list the todo-list store shows, the reducer does not fail. */
    method UpdateTaskFulfilled(payload: UpdateTaskPayload) returns (ok: bool)
      requires Valid()
      modifies tasks
      ensures Valid()
      ensures ok == (payload.todolistId in old(tasks.tasks))
      ensures payload.todolistId in Keys(old(todolists.lists), ListId) ==> ok
      ensures ok ==> tasks.tasks == old(tasks.tasks)[payload.todolistId :=
                                ReplaceFirst(old(tasks.tasks)[payload.todolistId], TaskId, payload.taskId, MergeTask, payload.model)]
      ensures !ok ==> tasks.tasks == old(tasks.tasks)
    {
      ok := tasks.OnUpdateTaskFulfilled(payload);
    }
  }
}
