/**
 * The task store: a map from todo-list id to that list's tasks, newest
 * first. Each case of the slice's extraReducers is a method of TasksStore
 * that updates the map in place. The pure parts of the updateTask and
 * addTask thunks (lookup, payload construction, settling on the server's
 * answer) are functions, with the server's answer given as an input.
 */
module TasksSlice {
  import opened Wrappers
  import opened Keyed
  import TodolistsSlice

  /** A value of the API's numeric TaskStatuses enum. */
  type TaskStatus = int

  /** A value of the API's numeric TaskPriorities enum. */
  type TaskPriority = int

  /** TaskType: a task as the server returns it. */
  datatype Task = Task(
    id: string, title: string, description: string, todoListId: string, order: int,
    status: TaskStatus, priority: TaskPriority, startDate: string, deadline: string)

  function TaskId(t: Task): string {
    t.id
  }

  /** TasksStateType: todo-list id to that list's tasks. */
  type TasksState = map<string, seq<Task>>

  /** UpdateDomainTaskModelType: a partial update, every field optional. */
  datatype DomainTaskModel = DomainTaskModel(
    title: Option<string>, description: Option<string>, status: Option<TaskStatus>,
    priority: Option<TaskPriority>, startDate: Option<string>, deadline: Option<string>)

  /** The model with no field given. */
  const NoChange := DomainTaskModel(None, None, None, None, None, None)

  /** UpdateTaskModelType: the full record the API wants on an update. */
  datatype ApiTaskModel = ApiTaskModel(
    deadline: string, description: string, priority: TaskPriority,
    startDate: string, title: string, status: TaskStatus)

  /** `{ ...t, ...m }`: every field given in `m` is taken from `m`, every
      other field of `t` is kept. */
  function MergeTask(t: Task, m: DomainTaskModel): (r: Task)
    ensures r.id == t.id && r.todoListId == t.todoListId && r.order == t.order
    ensures (m.title.Some? ==> r.title == m.title.value) && (m.title.None? ==> r.title == t.title)
    ensures (m.description.Some? ==> r.description == m.description.value) && (m.description.None? ==> r.description == t.description)
    ensures (m.status.Some? ==> r.status == m.status.value) && (m.status.None? ==> r.status == t.status)
    ensures (m.priority.Some? ==> r.priority == m.priority.value) && (m.priority.None? ==> r.priority == t.priority)
    ensures (m.startDate.Some? ==> r.startDate == m.startDate.value) && (m.startDate.None? ==> r.startDate == t.startDate)
    ensures (m.deadline.Some? ==> r.deadline == m.deadline.value) && (m.deadline.None? ==> r.deadline == t.deadline)
  {
    t.(title := m.title.GetOr(t.title),
       description := m.description.GetOr(t.description),
       status := m.status.GetOr(t.status),
       priority := m.priority.GetOr(t.priority),
       startDate := m.startDate.GetOr(t.startDate),
       deadline := m.deadline.GetOr(t.deadline))
  }

  /** `{ ...m1, ...m2 }` on two partial models: a field given in `m2` wins. */
  function Overlay(m1: DomainTaskModel, m2: DomainTaskModel): DomainTaskModel {
    DomainTaskModel(
      if m2.title.Some? then m2.title else m1.title,
      if m2.description.Some? then m2.description else m1.description,
      if m2.status.Some? then m2.status else m1.status,
      if m2.priority.Some? then m2.priority else m1.priority,
      if m2.startDate.Some? then m2.startDate else m1.startDate,
      if m2.deadline.Some? then m2.deadline else m1.deadline)
  }

  /** Merging the empty model changes nothing, merging the same model twice
      is merging it once, and merging two models one after the other is
      merging their overlay. */
  lemma MergeTaskAlgebra(t: Task, m1: DomainTaskModel, m2: DomainTaskModel)
    ensures MergeTask(t, NoChange) == t
    ensures MergeTask(MergeTask(t, m1), m1) == MergeTask(t, m1)
    ensures MergeTask(MergeTask(t, m1), m2) == MergeTask(t, Overlay(m1, m2))
  {
  }

  /** The six fields of a task that the API takes on an update. */
  function ApiFields(t: Task): ApiTaskModel {
    ApiTaskModel(t.deadline, t.description, t.priority, t.startDate, t.title, t.status)
  }

  /** `apiModel` of the updateTask thunk: the stored task's six API fields,
      each overridden by the domain model when the domain model gives it. */
  function BuildApiModel(t: Task, m: DomainTaskModel): (r: ApiTaskModel)
    ensures r.title == m.title.GetOr(t.title)
    ensures r.description == m.description.GetOr(t.description)
    ensures r.status == m.status.GetOr(t.status)
    ensures r.priority == m.priority.GetOr(t.priority)
    ensures r.startDate == m.startDate.GetOr(t.startDate)
    ensures r.deadline == m.deadline.GetOr(t.deadline)
  {
    ApiTaskModel(
      m.deadline.GetOr(t.deadline), m.description.GetOr(t.description), m.priority.GetOr(t.priority),
      m.startDate.GetOr(t.startDate), m.title.GetOr(t.title), m.status.GetOr(t.status))
  }

  /** What the server is sent is what the store holds once the fulfilled
      update is merged in: the payload built from the stored task and the
      domain model equals the API fields of the merged task. */
  lemma ApiModelAgreesWithMerge(t: Task, m: DomainTaskModel)
    ensures BuildApiModel(t, m) == ApiFields(MergeTask(t, m))
    ensures m == NoChange ==> BuildApiModel(t, m) == ApiFields(t)
  {
  }

  /** The server's answer to a mutating request: an envelope with a result
      code and messages, or a thrown transport error. */
  datatype Response<D> = Envelope(resultCode: int, messages: seq<string>, data: D) | TransportError

  /** Why a thunk rejected. */
  datatype Rejection =
    | ListNotInState          // `state.tasks[todolistId]` is undefined: the lookup throws
    | TaskNotInState          // no task with the id: rejectWithValue before any API call
    | ServerRefused(messages: seq<string>)   // resultCode !== 0
    | NetworkFailure          // the API call threw

  /** The action a thunk ends with. */
  datatype Settled<P> = Fulfilled(payload: P) | Rejected(reason: Rejection)

  datatype UpdateTaskArgs = UpdateTaskArgs(taskId: string, domainModel: DomainTaskModel, todolistId: string)

  /** The fulfilled payload of updateTask. */
  datatype UpdateTaskPayload = UpdateTaskPayload(taskId: string, model: DomainTaskModel, todolistId: string)

  /** One run of the updateTask thunk: the request it sends (None when it
      never calls the API) and the action it settles with. */
  datatype UpdateRun = UpdateRun(request: Option<ApiTaskModel>, settled: Settled<UpdateTaskPayload>)

  /** The updateTask thunk over the state it reads and the answer the server
      would give to its request. */
  function RunUpdateTask(tasks: TasksState, arg: UpdateTaskArgs, response: Response<()>): (run: UpdateRun)
    ensures run.request.None? <==>
              arg.todolistId !in tasks || FirstIndexOf(tasks[arg.todolistId], TaskId, arg.taskId) == -1
    ensures run.request.None? ==> run.settled.Rejected?
    ensures run.request.Some? ==>
              run.request.value == BuildApiModel(tasks[arg.todolistId][FirstIndexOf(tasks[arg.todolistId], TaskId, arg.taskId)], arg.domainModel)
    ensures run.settled.Fulfilled? <==> run.request.Some? && response.Envelope? && response.resultCode == 0
    ensures run.settled.Fulfilled? ==>
              run.settled.payload == UpdateTaskPayload(arg.taskId, arg.domainModel, arg.todolistId)
  {
    if arg.todolistId !in tasks then
      UpdateRun(None, Rejected(ListNotInState))
    else
      var index := FirstIndexOf(tasks[arg.todolistId], TaskId, arg.taskId);
      if index == -1 then
        UpdateRun(None, Rejected(TaskNotInState))
      else
        var apiModel := BuildApiModel(tasks[arg.todolistId][index], arg.domainModel);
        var settled :=
          match response
          case TransportError => Rejected(NetworkFailure)
          case Envelope(code, messages, _) =>
            if code == 0 then Fulfilled(UpdateTaskPayload(arg.taskId, arg.domainModel, arg.todolistId))
            else Rejected(ServerRefused(messages));
        UpdateRun(Some(apiModel), settled)
  }

  /** The addTask thunk after its API call: it fulfils with the created task
      exactly when the result code is 0. */
  function SettleAddTask(response: Response<Task>): (r: Settled<Task>)
    ensures r.Fulfilled? <==> response.Envelope? && response.resultCode == 0
    ensures r.Fulfilled? ==> r.payload == response.data
    ensures response.Envelope? && response.resultCode != 0 ==> r == Rejected(ServerRefused(response.messages))
  {
    match response
    case TransportError => Rejected(NetworkFailure)
    case Envelope(code, messages, item) =>
      if code == 0 then Fulfilled(item) else Rejected(ServerRefused(messages))
  }

  /** The map with an empty task list under the id of every fetched list and
      every other entry kept. */
  function WithEmptyEntries(m: TasksState, todolists: seq<TodolistsSlice.Todolist>): (r: TasksState)
    ensures r.Keys == m.Keys + Keys(todolists, TodolistsSlice.TodolistId)
    ensures forall id :: id in Keys(todolists, TodolistsSlice.TodolistId) ==> r[id] == []
    ensures forall id :: id in m && id !in Keys(todolists, TodolistsSlice.TodolistId) ==> r[id] == m[id]
  {
    map id | id in m.Keys + Keys(todolists, TodolistsSlice.TodolistId) :: if id in Keys(todolists, TodolistsSlice.TodolistId) then [] else m[id]
  }

  /** One more fetched list is one more empty entry. */
  lemma WithEmptyEntriesStep(m: TasksState, todolists: seq<TodolistsSlice.Todolist>, tl: TodolistsSlice.Todolist)
    ensures WithEmptyEntries(m, todolists + [tl]) == WithEmptyEntries(m, todolists)[tl.id := []]
  {
    KeysAppend(todolists, [tl], TodolistsSlice.TodolistId);
    assert TodolistsSlice.TodolistId([tl][0]) in Keys([tl], TodolistsSlice.TodolistId);
  }

  /** The effect of removeTask.fulfilled on one list's tasks: a missing task
      id changes nothing; otherwise exactly the first task with it goes, the
      others keep their order and the length drops by one. */
  lemma {:induction false} RemoveTaskEffect(ts: seq<Task>, taskId: string)
    ensures var r := RemoveFirst(ts, TaskId, taskId);
            var i := FirstIndexOf(ts, TaskId, taskId);
            && (i == -1 ==> r == ts)
            && (0 <= i ==> ts[i].id == taskId && r == ts[..i] + ts[i + 1..] && |r| == |ts| - 1)
  {
    FirstIndexOfFinds(ts, TaskId, taskId);
    if FirstIndexOf(ts, TaskId, taskId) == -1 {
      RemoveFirstAbsent(ts, TaskId, taskId);
    } else {
      RemoveFirstAt(ts, TaskId, taskId);
    }
  }

  /** With unique task ids, the removed task id no longer occurs. */
  lemma {:induction false} RemoveTaskGone(ts: seq<Task>, taskId: string)
    requires UniqueKeys(ts, TaskId)
    ensures forall k :: 0 <= k < |RemoveFirst(ts, TaskId, taskId)| ==> RemoveFirst(ts, TaskId, taskId)[k].id != taskId
  {
    var r := RemoveFirst(ts, TaskId, taskId);
    RemoveFirstKeys(ts, TaskId, taskId);
    forall k | 0 <= k < |r| ensures r[k].id != taskId {
      assert TaskId(r[k]) in Keys(r, TaskId);
    }
  }

  /** The effect of updateTask.fulfilled on one list's tasks: the length and
      every other position are kept, a missing task id changes nothing, and
      the first task with the id takes the fields the model gives. */
  lemma {:induction false} UpdateTaskEffect(ts: seq<Task>, taskId: string, model: DomainTaskModel)
    ensures var r := ReplaceFirst(ts, TaskId, taskId, MergeTask, model);
            var i := FirstIndexOf(ts, TaskId, taskId);
            && |r| == |ts|
            && (i == -1 ==> r == ts)
            && (0 <= i ==> ts[i].id == taskId && r[i] == MergeTask(ts[i], model))
            && (0 <= i ==> forall k :: 0 <= k < |ts| && k != i ==> r[k] == ts[k])
  {
    FirstIndexOfFinds(ts, TaskId, taskId);
    if FirstIndexOf(ts, TaskId, taskId) == -1 {
      ReplaceFirstAbsent(ts, TaskId, taskId, MergeTask, model);
    } else {
      ReplaceFirstAt(ts, TaskId, taskId, MergeTask, model);
    }
  }

  /** A status-only update (the UI's changeStatus) sets the status of the
      first task with the id and leaves all its other fields alone. */
  lemma {:induction false} StatusOnlyUpdate(ts: seq<Task>, taskId: string, status: TaskStatus)
    requires 0 <= FirstIndexOf(ts, TaskId, taskId)
    ensures var r := ReplaceFirst(ts, TaskId, taskId, MergeTask, NoChange.(status := Some(status)));
            var i := FirstIndexOf(ts, TaskId, taskId);
            r[i] == ts[i].(status := status)
  {
    ReplaceFirstAt(ts, TaskId, taskId, MergeTask, NoChange.(status := Some(status)));
  }

  class TasksStore {
    var tasks: TasksState

    /** initialState: {}. */
    constructor ()
      ensures tasks == map[]
    {
      tasks := map[];
    }

    /** fetchTasks.fulfilled: the list's tasks are replaced wholesale. */
    method OnFetchTasksFulfilled(todoListId: string, fetched: seq<Task>)
      modifies this
      ensures tasks == old(tasks)[todoListId := fetched]
    {
      tasks := tasks[todoListId := fetched];
    }

    /** addTask.fulfilled: the task goes to the front of its list. When the
        list has no entry the reducer throws (`ok` false) and the state is
        left as it was. */
    method OnAddTaskFulfilled(task: Task) returns (ok: bool)
      modifies this
      ensures ok == (task.todoListId in old(tasks))
      ensures ok ==> tasks == old(tasks)[task.todoListId := [task] + old(tasks)[task.todoListId]]
      ensures !ok ==> tasks == old(tasks)
    {
      ok := task.todoListId in tasks;
      if ok {
        tasks := tasks[task.todoListId := [task] + tasks[task.todoListId]];
      }
    }

    /** removeTask.fulfilled. When the list has no entry the reducer throws
        (`ok` false) and the state is left as it was. */
    method OnRemoveTaskFulfilled(taskId: string, todolistId: string) returns (ok: bool)
      modifies this
      ensures ok == (todolistId in old(tasks))
      ensures ok ==> tasks == old(tasks)[todolistId := RemoveFirst(old(tasks)[todolistId], TaskId, taskId)]
      ensures !ok ==> tasks == old(tasks)
    {
      ok := todolistId in tasks;
      if ok {
        var list := tasks[todolistId];
        var index := FirstIndexOf(list, TaskId, taskId);
        if index != -1 {
          RemoveFirstAt(list, TaskId, taskId);
          tasks := tasks[todolistId := list[..index] + list[index + 1..]];
        } else {
          RemoveFirstAbsent(list, TaskId, taskId);
          assert tasks == tasks[todolistId := list];
        }
      }
    }

    /** updateTask.fulfilled: the model is merged into the first task with the
        id. When the list has no entry the reducer throws (`ok` false) and the
        state is left as it was. */
    method OnUpdateTaskFulfilled(payload: UpdateTaskPayload) returns (ok: bool)
      modifies this
      ensures ok == (payload.todolistId in old(tasks))
      ensures ok ==> tasks == old(tasks)[payload.todolistId :=
                                ReplaceFirst(old(tasks)[payload.todolistId], TaskId, payload.taskId, MergeTask, payload.model)]
      ensures !ok ==> tasks == old(tasks)
    {
      ok := payload.todolistId in tasks;
      if ok {
        var list := tasks[payload.todolistId];
        var index := FirstIndexOf(list, TaskId, payload.taskId);
        if index != -1 {
          ReplaceFirstAt(list, TaskId, payload.taskId, MergeTask, payload.model);
          tasks := tasks[payload.todolistId := list[index := MergeTask(list[index], payload.model)]];
        } else {
          ReplaceFirstAbsent(list, TaskId, payload.taskId, MergeTask, payload.model);
          assert tasks == tasks[payload.todolistId := list];
        }
      }
    }

    /** addTodolist.fulfilled: the new list gets an empty entry. */
    method OnAddTodolistFulfilled(todoList: TodolistsSlice.Todolist)
      modifies this
      ensures tasks == old(tasks)[todoList.id := []]
    {
      tasks := tasks[todoList.id := []];
    }

    /** removeTodolist.fulfilled: only the entry of that id goes. */
    method OnRemoveTodolistFulfilled(id: string)
      modifies this
      ensures tasks == old(tasks) - {id}
    {
      tasks := tasks - {id};
    }

    /** fetchTodolists.fulfilled: every fetched list gets an empty entry. */
    method OnFetchTodolistsFulfilled(todolists: seq<TodolistsSlice.Todolist>)
      modifies this
      ensures tasks == WithEmptyEntries(old(tasks), todolists)
    {
      var i := 0;
      while i < |todolists|
        invariant 0 <= i <= |todolists|
        invariant tasks == WithEmptyEntries(old(tasks), todolists[..i])
      {
        assert todolists[..i + 1] == todolists[..i] + [todolists[i]];
        WithEmptyEntriesStep(old(tasks), todolists[..i], todolists[i]);
        tasks := tasks[todolists[i].id := []];
        i := i + 1;
      }
      assert todolists[..i] == todolists;
    }

    /** deleteAllTodoLists: the map becomes empty. */
    method OnDeleteAllTodoLists()
      modifies this
      ensures tasks == map[]
    {
      tasks := map[];
    }
  }
}
