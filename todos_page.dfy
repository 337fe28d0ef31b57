/**
 * The todos page: the query it sends for the list, the handlers that reset
 * the page, and the mutation handlers that refetch the list only after the
 * service call succeeded. Each service call is a parameter holding how it
 * settled.
 */
module TodosPage {
  import opened Wrappers
  import opened JsValues
  import opened ApiTypes
  import TodoListPanel

  /** The keys the page sets itself, over whatever the filters hold. */
  const PageKeys: set<string> := {"search", "page", "ordering"}

  /** `{ ...filters, search, page, ordering: 'due_date' }`. */
  function QueryOptions(filters: map<string, JsValue>, search: string, page: int): (q: map<string, JsValue>)
    ensures "search" in q && q["search"] == Str(search)
    ensures "page" in q && q["page"] == Num(page)
    ensures "ordering" in q && q["ordering"] == Str("due_date")
    ensures forall k :: k !in PageKeys ==> (k in q <==> k in filters)
    ensures forall k :: k in q && k !in PageKeys ==> q[k] == filters[k]
  {
    filters + map["search" := Str(search), "page" := Num(page), "ordering" := Str("due_date")]
  }

  /** What a mutation handler asked for: the service call's argument and whether it refetched. */
  datatype Mutation<T> = Mutation(request: T, refetched: bool)

  class TodosPageState {
    var page: int
    var pageSize: int
    var searchQuery: string
    var filters: map<string, JsValue>

    constructor ()
      ensures page == 1 && pageSize == 10 && searchQuery == "" && filters == map[]
    {
      page := 1;
      pageSize := 10;
      searchQuery := "";
      filters := map[];
    }

    /** `filterOptions`, the query of the list request. */
    function Query(): map<string, JsValue>
      reads this
    {
      QueryOptions(filters, searchQuery, page)
    }

    /** A page change sets only the page. */
    method HandlePageChange(newPage: int)
      modifies this`page
      ensures page == newPage
    {
      page := newPage;
    }

    /** A page-size change returns to the first page. */
    method HandlePageSizeChange(newPageSize: int)
      modifies this`pageSize, this`page
      ensures pageSize == newPageSize && page == 1
    {
      pageSize := newPageSize;
      page := 1;
    }

    /** A new search returns to the first page. */
    method HandleSearch(query: string)
      modifies this`searchQuery, this`page
      ensures searchQuery == query && page == 1
    {
      searchQuery := query;
      page := 1;
    }

    /** New filters return to the first page. */
    method HandleFilterChange(newFilters: map<string, JsValue>)
      modifies this`filters, this`page
      ensures filters == newFilters && page == 1
    {
      filters := newFilters;
      page := 1;
    }
  }

  /** `handleCreateTodo`: the form's data is sent; the list is refetched only on success. */
  function HandleCreateTodo(todoData: TodoListPanel.TodoPatch, response: Outcome<Todo>): (m: Mutation<TodoListPanel.TodoPatch>)
    ensures m.request == todoData
    ensures m.refetched <==> response.Ok?
  {
    Mutation(todoData, response.Ok?)
  }

  /** `handleUpdateTodo` and `handleToggleTodoStatus`: the todo is sent under its own id. */
  function HandleUpdateTodo(todo: Todo, response: Outcome<Todo>): (m: Mutation<(int, Todo)>)
    ensures m.request == (todo.id, todo)
    ensures m.refetched <==> response.Ok?
  {
    Mutation((todo.id, todo), response.Ok?)
  }

  /** `handleDeleteTodo`: the todo's id is sent. */
  function HandleDeleteTodo(todo: Todo, response: Outcome<()>): (m: Mutation<int>)
    ensures m.request == todo.id
    ensures m.refetched <==> response.Ok?
  {
    Mutation(todo.id, response.Ok?)
  }

  /**
   * A toggle in the list panel reaches the service as an update of the same
   * id carrying the flipped status, with every other field as it was.
   */
  lemma ToggleSendsFlippedTodo(t: Todo, response: Outcome<Todo>)
    ensures var m := HandleUpdateTodo(TodoListPanel.Flipped(t), response);
      m.request.0 == t.id && m.request.1.status != t.status &&
      m.request.1 == t.(status := m.request.1.status)
  {
  }

  /** After any of the page-reset handlers the query asks for page 1 with the current search and filters. */
  lemma ResetQueryAsksFirstPage(filters: map<string, JsValue>, search: string)
    ensures QueryOptions(filters, search, 1)["page"] == Num(1)
    ensures QueryOptions(filters, search, 1)["search"] == Str(search)
  {
  }
}
