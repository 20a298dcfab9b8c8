/**
 * The todo-list store: an ordered sequence of lists, each decorated with the
 * local-only `filter` and `entityStatus` annotations. Each reducer of the
 * slice is a method of TodolistsStore that updates the sequence in place.
 */
module TodolistsSlice {
  import opened Keyed

  /** FilterValuesType. */
  datatype FilterValues = All | Active | Completed

  /** RequestStatusType of the app slice. */
  datatype RequestStatus = Idle | Loading | Succeeded | Failed

  /** TodolistType: a list as the server returns it. */
  datatype Todolist = Todolist(id: string, title: string, addedDate: string, order: int)

  /** TodolistDomainType: a server list plus its two local annotations. */
  datatype TodolistDomain = TodolistDomain(
    id: string, title: string, addedDate: string, order: int,
    filter: FilterValues, entityStatus: RequestStatus)

  function ListId(tl: TodolistDomain): string {
    tl.id
  }

  function TodolistId(tl: Todolist): string {
    tl.id
  }

  /** The server fields of a decorated list. */
  function ServerPart(tl: TodolistDomain): Todolist {
    Todolist(tl.id, tl.title, tl.addedDate, tl.order)
  }

  /** `{ ...tl, filter: "all", entityStatus: "idle" }`: the server fields are
      kept and the annotations get their defaults. */
  function Decorate(tl: Todolist): (d: TodolistDomain)
    ensures ServerPart(d) == tl
    ensures d.filter == All && d.entityStatus == Idle
  {
    TodolistDomain(tl.id, tl.title, tl.addedDate, tl.order, All, Idle)
  }

  /** Every fetched list decorated, in server order. */
  function DecorateAll(ts: seq<Todolist>): (r: seq<TodolistDomain>)
    ensures |r| == |ts|
    ensures forall k :: 0 <= k < |ts| ==> r[k] == Decorate(ts[k])
  {
    if ts == [] then [] else [Decorate(ts[0])] + DecorateAll(ts[1..])
  }

  /** The three in-place edits a reducer makes on the list found by id. */
  datatype ListChange =
    | SetFilter(filter: FilterValues)
    | SetEntityStatus(status: RequestStatus)
    | SetTitle(title: string)

  /** `state[index].filter = …`, `.entityStatus = …` or `.title = …`: the
      named field takes the new value and every other field is kept. */
  function ApplyChange(tl: TodolistDomain, ch: ListChange): (r: TodolistDomain)
    ensures r.id == tl.id
    ensures ch.SetFilter? ==> r.filter == ch.filter && r.(filter := tl.filter) == tl
    ensures ch.SetEntityStatus? ==> r.entityStatus == ch.status && r.(entityStatus := tl.entityStatus) == tl
    ensures ch.SetTitle? ==> r.title == ch.title && r.(title := tl.title) == tl
  {
    match ch
    case SetFilter(f) => tl.(filter := f)
    case SetEntityStatus(s) => tl.(entityStatus := s)
    case SetTitle(t) => tl.(title := t)
  }

  /** The effect of changeTodolistFilter, changeTodolistEntityStatus and
      changeTodolistTitle.fulfilled on the sequence: the length is kept, a
      missing id changes nothing, and otherwise only the first list with the id
      changes, and only in the field the change names. */
  lemma {:induction false} ChangeListEffect(ls: seq<TodolistDomain>, id: string, ch: ListChange)
    ensures var r := ReplaceFirst(ls, ListId, id, ApplyChange, ch);
            var i := FirstIndexOf(ls, ListId, id);
            && |r| == |ls|
            && (i == -1 ==> r == ls)
            && (0 <= i ==> r[i] == ApplyChange(ls[i], ch) && ls[i].id == id)
            && (0 <= i ==> forall k :: 0 <= k < |ls| && k != i ==> r[k] == ls[k])
            && (0 <= i ==> forall k :: 0 <= k < i ==> ls[k].id != id)
  {
    FirstIndexOfFinds(ls, ListId, id);
    if FirstIndexOf(ls, ListId, id) == -1 {
      ReplaceFirstAbsent(ls, ListId, id, ApplyChange, ch);
    } else {
      ReplaceFirstAt(ls, ListId, id, ApplyChange, ch);
    }
  }

  /** The effect of removeTodolist.fulfilled on the sequence: a missing id
      changes nothing; otherwise the first list with the id goes, the others
      keep their order and the length drops by one. */
  lemma {:induction false} RemoveListEffect(ls: seq<TodolistDomain>, id: string)
    ensures var r := RemoveFirst(ls, ListId, id);
            var i := FirstIndexOf(ls, ListId, id);
            && (i == -1 ==> r == ls)
            && (0 <= i ==> ls[i].id == id && r == ls[..i] + ls[i + 1..] && |r| == |ls| - 1)
  {
    FirstIndexOfFinds(ls, ListId, id);
    if FirstIndexOf(ls, ListId, id) == -1 {
      RemoveFirstAbsent(ls, ListId, id);
    } else {
      RemoveFirstAt(ls, ListId, id);
    }
  }

  /** The effect of fetchTodolists.fulfilled on the sequence: the old lists
      stay as a prefix, the fetched ones follow in server order, each with the
      default annotations, and the length grows by the number fetched. */
  lemma {:induction false} FetchListsEffect(ls: seq<TodolistDomain>, fetched: seq<Todolist>)
    ensures var r := ls + DecorateAll(fetched);
            && |r| == |ls| + |fetched|
            && r[..|ls|] == ls
            && forall k :: 0 <= k < |fetched| ==>
                 ServerPart(r[|ls| + k]) == fetched[k] && r[|ls| + k].filter == All && r[|ls| + k].entityStatus == Idle
  {
    var r := ls + DecorateAll(fetched);
    assert r[..|ls|] == ls;
    forall k | 0 <= k < |fetched|
      ensures ServerPart(r[|ls| + k]) == fetched[k] && r[|ls| + k].filter == All && r[|ls| + k].entityStatus == Idle
    {
      assert r[|ls| + k] == Decorate(fetched[k]);
    }
  }

  class TodolistsStore {
    var lists: seq<TodolistDomain>

    /** initialState: []. */
    constructor ()
      ensures lists == []
    {
      lists := [];
    }

    /** changeTodolistFilter. */
    method ChangeTodolistFilter(id: string, filter: FilterValues)
      modifies this
      ensures lists == ReplaceFirst(old(lists), ListId, id, ApplyChange, SetFilter(filter))
    {
      var index := FirstIndexOf(lists, ListId, id);
      if index != -1 {
        ReplaceFirstAt(lists, ListId, id, ApplyChange, SetFilter(filter));
        lists := lists[index := lists[index].(filter := filter)];
      } else {
        ReplaceFirstAbsent(lists, ListId, id, ApplyChange, SetFilter(filter));
      }
    }

    /** changeTodolistEntityStatus. */
    method ChangeTodolistEntityStatus(id: string, status: RequestStatus)
      modifies this
      ensures lists == ReplaceFirst(old(lists), ListId, id, ApplyChange, SetEntityStatus(status))
    {
      var index := FirstIndexOf(lists, ListId, id);
      if index != -1 {
        ReplaceFirstAt(lists, ListId, id, ApplyChange, SetEntityStatus(status));
        lists := lists[index := lists[index].(entityStatus := status)];
      } else {
        ReplaceFirstAbsent(lists, ListId, id, ApplyChange, SetEntityStatus(status));
      }
    }

    /** deleteAllTodoLists: the state becomes empty whatever it was. */
    method DeleteAllTodoLists()
      modifies this
      ensures lists == []
    {
      lists := [];
    }

    /** fetchTodolists.fulfilled: push every fetched list, decorated, in order. */
    method OnFetchTodolistsFulfilled(todolists: seq<Todolist>)
      modifies this
      ensures lists == old(lists) + DecorateAll(todolists)
    {
      var i := 0;
      while i < |todolists|
        invariant 0 <= i <= |todolists|
        invariant lists == old(lists) + DecorateAll(todolists[..i])
      {
        assert DecorateAll(todolists[..i + 1]) == DecorateAll(todolists[..i]) + [Decorate(todolists[i])];
        lists := lists + [Decorate(todolists[i])];
        i := i + 1;
      }
      assert todolists[..i] == todolists;
    }

    /** removeTodolist.fulfilled. */
    method OnRemoveTodolistFulfilled(id: string)
      modifies this
      ensures lists == RemoveFirst(old(lists), ListId, id)
    {
      var index := FirstIndexOf(lists, ListId, id);
      if index != -1 {
        RemoveFirstAt(lists, ListId, id);
        lists := lists[..index] + lists[index + 1..];
      } else {
        RemoveFirstAbsent(lists, ListId, id);
      }
    }

    /** addTodolist.fulfilled: the decorated new list goes to the front. */
    method OnAddTodolistFulfilled(todoList: Todolist)
      modifies this
      ensures lists == [Decorate(todoList)] + old(lists)
    {
      lists := [Decorate(todoList)] + lists;
    }

    /** changeTodolistTitle.fulfilled. */
    method OnChangeTodolistTitleFulfilled(id: string, title: string)
      modifies this
      ensures lists == ReplaceFirst(old(lists), ListId, id, ApplyChange, SetTitle(title))
    {
      var index := FirstIndexOf(lists, ListId, id);
      if index != -1 {
        ReplaceFirstAt(lists, ListId, id, ApplyChange, SetTitle(title));
        lists := lists[index := lists[index].(title := title)];
      } else {
        ReplaceFirstAbsent(lists, ListId, id, ApplyChange, SetTitle(title));
      }
    }
  }
}
