/**
 * The `TodayList` component: it always refetches, stores the list in the
 * shared `window.todoStore`, shows the todos due today, and keeps the shared
 * list in step when one of them is toggled. `today` is the `yyyy-MM-dd` text
 * of the local date, a parameter.
 */
module TodayList {
  import opened Wrappers
  import opened ApiTypes
  import opened Sequences

  const ToggleError := "Failed to update todo status. Please try again."

  /** The list inside a `getAllTodos` body: a bare array, or an object's array `results`; anything else gives `[]`. */
  function NormalizeListBody(body: ListBody<Todo>): (todos: seq<Todo>)
    ensures body.BareArray? ==> todos == body.items
    ensures body.ResultsArray? ==> todos == body.results
    ensures body.ResultsNotArray? || body.NoResults? ==> todos == []
  {
    match body
    case BareArray(items) => items
    case ResultsArray(results) => results
    case ResultsNotArray => []
    case NoResults => []
  }

  /**
   * The two shapes the server may answer with carry the list equally: the
   * same todos as a bare array or under `results` give the same list, and a
   * body without an array gives none.
   */
  lemma BodyShapesAgree(todos: seq<Todo>, body: ListBody<Todo>)
    ensures NormalizeListBody(BareArray(todos)) == NormalizeListBody(ResultsArray(todos)) == todos
    ensures !(body.BareArray? || body.ResultsArray?) ==> NormalizeListBody(body) == []
  {
  }

  /** `due_date.substring(0, 10)`: at most the first ten characters. */
  function DatePart(due: string): (r: string)
    ensures |due| >= 10 ==> r == due[..10]
    ensures |due| < 10 ==> r == due
  {
    if |due| >= 10 then due[..10] else due
  }

  /** A todo is due today when its `due_date` is set, non-empty, and its date part is `today`. */
  predicate DueToday(t: Todo, today: string)
  {
    t.dueDate.Some? && t.dueDate.value != "" && DatePart(t.dueDate.value) == today
  }

  /** `todayTodos`: the todos due today, in their order. */
  function TodayTodos(todos: seq<Todo>, today: string): (r: seq<Todo>)
    ensures forall i :: 0 <= i < |todos| ==> (todos[i] in r <==> DueToday(todos[i], today))
    ensures forall i :: 0 <= i < |r| ==> DueToday(r[i], today)
  {
    Filter(todos, (t: Todo) => DueToday(t, today))
  }

  /**
   * For a `today` of the ten-character `yyyy-MM-dd` shape, a todo is due
   * today exactly when its `due_date` begins with `today`; a longer value
   * such as a full timestamp matches by its first ten characters.
   */
  lemma DueTodayIsPrefix(t: Todo, today: string)
    requires |today| == 10
    ensures DueToday(t, today) <==> t.dueDate.Some? && today <= t.dueDate.value
  {
  }

  /** The page's store: `todos` is whatever was last assigned, which `Array.isArray` may reject. */
  class WindowTodoStore {
    var todos: MaybeArray<Todo>
    var initialized: bool

    /** `getTodoStore()` creating the store on first use. */
    constructor ()
      ensures todos == IsArray([]) && !initialized
    {
      todos := IsArray([]);
      initialized := false;
    }
  }

  class TodayListView {
    const store: WindowTodoStore
    var todayTodos: seq<Todo>
    var loading: bool
    var error: Option<string>
    var todayDate: string

    constructor (store: WindowTodoStore, today: string)
      ensures this.store == store
      ensures todayTodos == [] && loading && error == None && todayDate == today
    {
      this.store := store;
      todayTodos := [];
      loading := true;
      error := None;
      todayDate := today;
    }

    /**
     * `loadTodosForToday`: the cache flag is dropped and the list is always
     * fetched; a failed fetch still stores `[]` as an initialised list.
     */
    method LoadTodosForToday(today: string, response: Outcome<ListBody<Todo>>)
      modifies this`todayTodos, this`loading, this`error, this`todayDate, store
      ensures todayDate == today && !loading && error == None
      ensures store.initialized
      ensures store.todos == IsArray(if response.Ok? then NormalizeListBody(response.value) else [])
      ensures todayTodos == TodayTodos(store.todos.items, today)
    {
      loading := true;
      todayDate := today;
      store.initialized := false;
      var todosData := if response.Ok? then NormalizeListBody(response.value) else [];
      store.todos := IsArray(todosData);
      store.initialized := true;
      todayTodos := TodayTodos(todosData, today);
      error := None;
      loading := false;
    }

    /**
     * `handleToggleComplete`: an id absent from `todayTodos` is ignored
     * (`sent` is `None`). After a successful update the answer replaces the
     * todo by id in `todayTodos`; the shared list, reset to `[]` when it was
     * not an initialised array, is patched by id when it holds the id, and is
     * otherwise replaced by what `refetch` brings, never appended to.
     */
    method ToggleComplete(id: int, completed: bool, response: Outcome<Todo>, refetch: Outcome<ListBody<Todo>>)
      returns (sent: Option<Todo>)
      modifies this`todayTodos, this`error, store
      ensures sent.None? <==> !HasId(old(todayTodos), id, TodoId)
      ensures sent.Some? ==>
        sent.value == FindById(old(todayTodos), id, TodoId).value.(status := if completed then Completed else Pending)
      ensures !(sent.Some? && response.Ok?) ==> todayTodos == old(todayTodos) && store.todos == old(store.todos) && store.initialized == old(store.initialized)
      ensures sent.Some? && response.Failed? ==> error == Some(ToggleError)
      ensures sent.None? ==> error == old(error)
      ensures sent.Some? && response.Ok? ==>
        error == old(error) && store.initialized &&
        todayTodos == ReplaceById(old(todayTodos), id, response.value, TodoId)
      ensures sent.Some? && response.Ok? ==>
        var base := if old(store.initialized) && old(store.todos).IsArray? then old(store.todos).items else [];
        store.todos == (
          if HasId(base, id, TodoId) then IsArray(ReplaceById(base, id, response.value, TodoId))
          else if refetch.Failed? then IsArray(base)
          else match refetch.value
            case BareArray(items) => IsArray(items)
            case ResultsArray(results) => IsArray(results)
            case ResultsNotArray => NotArray
            case NoResults => IsArray(base))
    {
      var found := FindById(todayTodos, id, TodoId);
      if found.None? {
        return None;
      }
      sent := Some(found.value.(status := if completed then Completed else Pending));
      if response.Failed? {
        error := Some(ToggleError);
        return;
      }
      var updated := response.value;
      todayTodos := ReplaceById(todayTodos, id, updated, TodoId);
      if !store.initialized || store.todos.NotArray? {
        store.todos := IsArray([]);
        store.initialized := true;
      }
      var base := store.todos.items;
      if HasId(base, id, TodoId) {
        store.todos := IsArray(ReplaceById(base, id, updated, TodoId));
      } else if refetch.Ok? {
        match refetch.value {
          case BareArray(items) => store.todos := IsArray(items);
          case ResultsArray(results) => store.todos := IsArray(results);
          case ResultsNotArray => store.todos := NotArray;
          case NoResults =>
        }
        store.initialized := true;
      }
    }
  }
}
