/**
 * The `TodoList` component of the older front end. The module-level
 * `todoStore` object outlives the component and serves as a cache; the
 * component keeps its own copy of the list plus the search term and tab
 * that select the visible todos. Each service call is a parameter holding
 * how it settled.
 */
module LegacyTodoList {
  import opened Wrappers
  import opened ApiTypes
  import opened Text
  import opened Sequences

  const LoadError := "Failed to load todos. Please try again later."
  const AddError := "Failed to add todo. Please try again."
  const UpdateError := "Failed to update todo. Please try again."
  const DeleteError := "Failed to delete todo. Please try again."
  const ToggleError := "Failed to update todo status. Please try again."

  /** A task matches a search term when its lower-cased text contains the lower-cased term. */
  predicate MatchesSearch(task: string, term: string)
  {
    Includes(ToLower(task), ToLower(term))
  }

  /** Tab 1 shows the todos not completed, tab 2 the completed ones, any other tab all of them. */
  predicate InTab(t: Todo, tab: int)
  {
    if tab == 1 then t.status != Completed
    else if tab == 2 then t.status == Completed
    else true
  }

  /** The one-pass reference for the visible list: an empty term matches everything. */
  predicate Wanted(t: Todo, term: string, tab: int)
  {
    (term == "" || MatchesSearch(t.task, term)) && InTab(t, tab)
  }

  /** The filter effect: the search filter (when a term is typed), then the tab filter. */
  function FilteredTodos(todos: seq<Todo>, term: string, tab: int): seq<Todo>
  {
    var searched := if term != "" then Filter(todos, (t: Todo) => MatchesSearch(t.task, term)) else todos;
    if tab == 1 then Filter(searched, (t: Todo) => t.status != Completed)
    else if tab == 2 then Filter(searched, (t: Todo) => t.status == Completed)
    else searched
  }

  /** The chain of filters keeps exactly the wanted todos, in their order. */
  lemma FilteredTodosIsOneFilter(todos: seq<Todo>, term: string, tab: int)
    ensures FilteredTodos(todos, term, tab) == Filter(todos, (t: Todo) => Wanted(t, term, tab))
  {
    var wanted := (t: Todo) => Wanted(t, term, tab);
    var search := (t: Todo) => MatchesSearch(t.task, term);
    if term != "" {
      if tab == 1 {
        FilterFilter(todos, search, (t: Todo) => t.status != Completed, wanted);
      } else if tab == 2 {
        FilterFilter(todos, search, (t: Todo) => t.status == Completed, wanted);
      } else {
        FilterExt(todos, search, wanted);
      }
    } else {
      if tab == 1 {
        FilterExt(todos, (t: Todo) => t.status != Completed, wanted);
      } else if tab == 2 {
        FilterExt(todos, (t: Todo) => t.status == Completed, wanted);
      } else {
        FilterKeepsAll(todos, wanted);
      }
    }
  }

  /**
   * The visible list is an order-preserving subsequence of the todos, and a
   * todo is visible exactly when it matches the search and the tab.
   */
  lemma FilteredTodosSelects(todos: seq<Todo>, term: string, tab: int)
    ensures IsSubsequence(FilteredTodos(todos, term, tab), todos)
    ensures forall i :: 0 <= i < |todos| ==>
      (todos[i] in FilteredTodos(todos, term, tab) <==> Wanted(todos[i], term, tab))
  {
    FilteredTodosIsOneFilter(todos, term, tab);
    FilterIsSubsequence(todos, (t: Todo) => Wanted(t, term, tab));
  }

  /** The module-level `todoStore` object. */
  class TodoCache {
    var todos: seq<Todo>
    var initialized: bool

    constructor ()
      ensures todos == [] && !initialized
    {
      todos := [];
      initialized := false;
    }
  }

  class TodoListView {
    const store: TodoCache
    var todos: seq<Todo>
    var loading: bool
    var error: Option<string>
    var searchTerm: string
    var tab: int

    constructor (store: TodoCache)
      ensures this.store == store
      ensures todos == [] && loading && error == None && searchTerm == "" && tab == 0
    {
      this.store := store;
      todos := [];
      loading := true;
      error := None;
      searchTerm := "";
      tab := 0;
    }

    /** `filteredTodos`, as the filter effect leaves it once it has run. */
    function Visible(): seq<Todo>
      reads this
    {
      FilteredTodos(todos, searchTerm, tab)
    }

    /**
     * `fetchTodos`: a filled, initialised cache is served without a request
     * (`requested` is false); otherwise the fetched list fills both copies.
     */
    method FetchTodos(response: Outcome<seq<Todo>>) returns (requested: bool)
      modifies this`todos, this`loading, this`error, store
      ensures requested <==> !(old(store.initialized) && |old(store.todos)| > 0)
      ensures !loading
      ensures !requested ==>
        todos == old(store.todos) && error == old(error) &&
        store.todos == old(store.todos) && store.initialized == old(store.initialized)
      ensures requested && response.Ok? ==>
        todos == response.value && store.todos == response.value && store.initialized && error == None
      ensures requested && response.Failed? ==>
        todos == old(todos) && error == Some(LoadError) &&
        store.todos == old(store.todos) && store.initialized == old(store.initialized)
    {
      if store.initialized && |store.todos| > 0 {
        todos := store.todos;
        loading := false;
        return false;
      }
      requested := true;
      loading := true;
      if response.Ok? {
        todos := response.value;
        store.todos := response.value;
        store.initialized := true;
        error := None;
      } else {
        error := Some(LoadError);
      }
      loading := false;
    }

    /** `handleAddTodo`: the server's record goes at the end of both copies. */
    method AddTodo(response: Outcome<Todo>)
      modifies this`todos, this`error, store`todos
      ensures response.Ok? ==> todos == old(todos) + [response.value] && store.todos == todos && error == old(error)
      ensures response.Failed? ==> todos == old(todos) && store.todos == old(store.todos) && error == Some(AddError)
    {
      if response.Ok? {
        todos := todos + [response.value];
        store.todos := todos;
      } else {
        error := Some(AddError);
      }
    }

    /** `handleUpdateTodo`: nothing is requested without a todo being edited. */
    method UpdateTodo(editTodo: Option<Todo>, response: Outcome<Todo>) returns (requested: bool)
      modifies this`todos, this`error, store`todos
      ensures requested <==> editTodo.Some?
      ensures requested && response.Ok? ==>
        todos == ReplaceById(old(todos), editTodo.value.id, response.value, TodoId) &&
        store.todos == todos && error == old(error)
      ensures requested && response.Failed? ==>
        todos == old(todos) && store.todos == old(store.todos) && error == Some(UpdateError)
      ensures !requested ==> todos == old(todos) && store.todos == old(store.todos) && error == old(error)
    {
      if editTodo.None? {
        return false;
      }
      requested := true;
      if response.Ok? {
        todos := ReplaceById(todos, editTodo.value.id, response.value, TodoId);
        store.todos := todos;
      } else {
        error := Some(UpdateError);
      }
    }

    /** `handleDeleteTodo`: every todo with the id leaves both copies. */
    method DeleteTodo(id: int, response: Outcome<()>)
      modifies this`todos, this`error, store`todos
      ensures response.Ok? ==> todos == RemoveById(old(todos), id, TodoId) && store.todos == todos && error == old(error)
      ensures response.Failed? ==> todos == old(todos) && store.todos == old(store.todos) && error == Some(DeleteError)
    {
      if response.Ok? {
        todos := RemoveById(todos, id, TodoId);
        store.todos := todos;
      } else {
        error := Some(DeleteError);
      }
    }

    /**
     * `handleToggleComplete`: a todo absent from the list is ignored; otherwise
     * the first one with the id is sent with the new status (`sent`), and the
     * server's answer replaces it by id in both copies.
     */
    method ToggleComplete(id: int, completed: bool, response: Outcome<Todo>) returns (sent: Option<Todo>)
      modifies this`todos, this`error, store`todos
      ensures sent.None? <==> !HasId(old(todos), id, TodoId)
      ensures sent.Some? ==>
        sent.value == FindById(old(todos), id, TodoId).value.(status := if completed then Completed else Pending)
      ensures sent.Some? && response.Ok? ==>
        todos == ReplaceById(old(todos), id, response.value, TodoId) && store.todos == todos && error == old(error)
      ensures sent.Some? && response.Failed? ==>
        todos == old(todos) && store.todos == old(store.todos) && error == Some(ToggleError)
      ensures sent.None? ==> todos == old(todos) && store.todos == old(store.todos) && error == old(error)
    {
      var found := FindById(todos, id, TodoId);
      if found.None? {
        return None;
      }
      sent := Some(found.value.(status := if completed then Completed else Pending));
      if response.Ok? {
        todos := ReplaceById(todos, id, response.value, TodoId);
        store.todos := todos;
      } else {
        error := Some(ToggleError);
      }
    }

    method SetSearchTerm(term: string)
      modifies this`searchTerm
      ensures searchTerm == term
    {
      searchTerm := term;
    }

    method SetTab(tab: int)
      modifies this`tab
      ensures this.tab == tab
    {
      this.tab := tab;
    }
  }

  /**
   * The two copies agree on the records by id after each patch: with distinct
   * ids, an add, an update or a delete acts on the list as the matching map
   * operation acts on the id-to-record map.
   */
  lemma PatchesRefineIdMap(todos: seq<Todo>, t: Todo, id: int)
    requires UniqueIds(todos, TodoId)
    ensures !HasId(todos, t.id, TodoId) ==>
      IdMap(todos + [t], TodoId) == IdMap(todos, TodoId)[t.id := t]
    ensures t.id == id && HasId(todos, id, TodoId) ==>
      IdMap(ReplaceById(todos, id, t, TodoId), TodoId) == IdMap(todos, TodoId)[id := t]
    ensures IdMap(RemoveById(todos, id, TodoId), TodoId) == IdMap(todos, TodoId) - {id}
  {
    if !HasId(todos, t.id, TodoId) {
      AppendRefines(todos, t, TodoId);
    }
    if t.id == id {
      ReplaceRefines(todos, id, t, TodoId);
    }
    RemoveRefines(todos, id, TodoId);
  }
}
