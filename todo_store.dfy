/**
 * The MobX `TodoStore`. Each service call is a parameter holding how it
 * settled; the uuid and `Date.now()` of a success notice are parameters too.
 * A call settles before the method returns, so `isLoading`/`isSubmitting`
 * are observed only after the call.
 */
module MobxTodoStore {
  import opened Wrappers
  import opened JsValues
  import opened Numeric
  import opened ApiTypes
  import opened Sequences
  import opened FilterUtils
  import opened PaginationUtils
  import opened MobxUIStore
  import opened StoreUpdates

  const CreatedMessage := "할 일이 성공적으로 생성되었습니다."
  const UpdatedMessage := "할 일이 성공적으로 수정되었습니다."
  const DeletedMessage := "할 일이 성공적으로 삭제되었습니다."

  /**
   * The status `todoService.toggleTodoStatus(id, completed)` puts in its
   * PATCH body. An omitted `completed` is `undefined`, which is falsy, so
   * only an explicit `true` asks for `Completed`.
   */
  function ServiceToggleStatus(completed: Option<bool>): (s: Status)
    ensures s == Completed <==> completed == Some(true)
  {
    if completed == Some(true) then Completed else Pending
  }

  /** The status the store's toggle sends as written: it passes no `completed`. */
  function AsWrittenToggleStatus(t: Todo): (s: Status)
    ensures s == Pending
  {
    ServiceToggleStatus(None)
  }

  /** The status a toggle evidently means to send: `completed` is "not yet Completed". */
  function IntendedToggleStatus(t: Todo): (s: Status)
    ensures s == Completed <==> t.status == Pending
  {
    ServiceToggleStatus(Some(t.status != Completed))
  }

  /** As written, toggling a pending todo asks for the status it already has. */
  lemma AsWrittenToggleKeepsPending(t: Todo)
    requires t.status == Pending
    ensures AsWrittenToggleStatus(t) == t.status
  {
  }

  /** As intended, a toggle always asks for the other status, and a second toggle restores the first. */
  lemma IntendedToggleFlips(t: Todo)
    ensures IntendedToggleStatus(t) != t.status
    ensures IntendedToggleStatus(t.(status := IntendedToggleStatus(t))) == t.status
  {
  }

  class TodoStore {
    var todos: seq<Todo>
    var selectedTodo: Option<Todo>
    var isLoading: bool
    var isSubmitting: bool
    var filterOptions: map<string, JsValue>
    var pagination: PaginationInfo
    /** `rootStore.uiStore`, which receives the success notices. */
    const ui: UIStore

    ghost predicate Valid()
      reads this
    {
      pagination.pageSize > 0
    }

    constructor (ui: UIStore)
      ensures Valid()
      ensures todos == [] && selectedTodo == None && !isLoading && !isSubmitting
      ensures filterOptions == map[] && pagination == InitialPagination
      ensures this.ui == ui
    {
      todos := [];
      selectedTodo := None;
      isLoading := false;
      isSubmitting := false;
      filterOptions := map[];
      pagination := InitialPagination;
      this.ui := ui;
    }

    /**
     * `fetchTodos(options)`: merges `options` over the filters (new keys win),
     * requests the cleaned filters (`params`) and adopts the page. An
     * unparsable `previous` link makes `extractPaginationInfo` throw after
     * `todos` was already replaced, so the old pagination stays.
     */
    method FetchTodos(options: Option<map<string, JsValue>>, response: Outcome<PaginatedResponse<Todo>>)
      returns (params: map<string, JsValue>)
      requires Valid()
      modifies this`isLoading, this`filterOptions, this`todos, this`pagination
      ensures Valid()
      ensures filterOptions == if options.Some? then old(filterOptions) + options.value else old(filterOptions)
      ensures params == CreateTodoFilterOptions(filterOptions)
      ensures !isLoading
      ensures response.Ok? ==> todos == response.value.results
      ensures response.Ok? ==>
        (var info := ExtractPaginationInfo(response.value);
         pagination == if info.Some? then info.value else old(pagination))
      ensures response.Failed? ==> todos == old(todos) && pagination == old(pagination)
    {
      isLoading := true;
      if options.Some? {
        filterOptions := filterOptions + options.value;
      }
      params := CreateTodoFilterOptions(filterOptions);
      if response.Ok? {
        todos := response.value.results;
        var info := ExtractPaginationInfo(response.value);
        if info.Some? {
          pagination := info.value;
        }
      }
      isLoading := false;
    }

    /** `fetchTodoById(id)`: the fetched todo becomes the selection. */
    method FetchTodoById(id: int, response: Outcome<Todo>)
      modifies this`isLoading, this`selectedTodo
      ensures !isLoading
      ensures selectedTodo == if response.Ok? then Some(response.value) else old(selectedTodo)
    {
      isLoading := true;
      if response.Ok? {
        selectedTodo := Some(response.value);
      }
      isLoading := false;
    }

    /**
     * `createTodo(todoData)`: the created todo goes to the front of the list
     * only while the page has room; the item count always grows by one.
     */
    method CreateTodo(response: Outcome<Todo>, noticeId: string, now: int) returns (created: Option<Todo>)
      requires Valid()
      modifies this`todos, this`pagination, this`isSubmitting, ui`notifications
      ensures Valid() && !isSubmitting
      ensures response.Ok? ==>
        && created == Some(response.value)
        && todos == (if |old(todos)| < old(pagination).pageSize then [response.value] + old(todos) else old(todos))
        && pagination == Recount(old(pagination), 1)
        && ui.notifications == old(ui.notifications) + [SuccessNotice(noticeId, CreatedMessage, now)]
      ensures response.Failed? ==>
        created == None && todos == old(todos) && pagination == old(pagination) &&
        ui.notifications == old(ui.notifications)
    {
      isSubmitting := true;
      if response.Failed? {
        isSubmitting := false;
        return None;
      }
      var t := response.value;
      if |todos| < pagination.pageSize {
        todos := [t] + todos;
      }
      pagination := Recount(pagination, 1);
      isSubmitting := false;
      ui.AddNotification(SuccessNotice(noticeId, CreatedMessage, now));
      created := Some(t);
    }

    /** `updateTodo(id, todoData)`: replace-by-id, never an append. */
    method UpdateTodo(id: int, response: Outcome<Todo>, noticeId: string, now: int) returns (updated: Option<Todo>)
      modifies this`todos, this`selectedTodo, this`isSubmitting, ui`notifications
      ensures !isSubmitting
      ensures response.Ok? ==>
        && updated == Some(response.value)
        && todos == ReplaceById(old(todos), id, response.value, TodoId)
        && selectedTodo == FollowUpdate(old(selectedTodo), id, response.value, TodoId)
        && ui.notifications == old(ui.notifications) + [SuccessNotice(noticeId, UpdatedMessage, now)]
      ensures response.Failed? ==>
        updated == None && todos == old(todos) && selectedTodo == old(selectedTodo) &&
        ui.notifications == old(ui.notifications)
    {
      isSubmitting := true;
      if response.Failed? {
        isSubmitting := false;
        return None;
      }
      var t := response.value;
      todos := ReplaceById(todos, id, t, TodoId);
      selectedTodo := FollowUpdate(selectedTodo, id, t, TodoId);
      isSubmitting := false;
      ui.AddNotification(SuccessNotice(noticeId, UpdatedMessage, now));
      updated := Some(t);
    }

    /**
     * `toggleTodoStatus(id)` as written: without a todo of that id in the
     * list nothing is sent (`sent` is `None`) and the result is `null`;
     * otherwise the service is called without its `completed` argument, so
     * the payload always asks for `Pending`.
     */
    method ToggleTodoStatus(id: int, response: Outcome<Todo>) returns (toggled: Option<Todo>, sent: Option<Status>)
      modifies this`todos, this`selectedTodo
      ensures sent.Some? <==> HasId(old(todos), id, TodoId)
      ensures sent.Some? ==> sent == Some(AsWrittenToggleStatus(FindById(old(todos), id, TodoId).value))
      ensures sent.Some? ==> sent == Some(Pending)
      ensures sent.Some? && response.Ok? ==>
        && toggled == Some(response.value)
        && todos == ReplaceById(old(todos), id, response.value, TodoId)
        && selectedTodo == FollowUpdate(old(selectedTodo), id, response.value, TodoId)
      ensures !(sent.Some? && response.Ok?) ==>
        toggled == None && todos == old(todos) && selectedTodo == old(selectedTodo)
    {
      var found := FindById(todos, id, TodoId);
      if found.None? {
        return None, None;
      }
      sent := Some(AsWrittenToggleStatus(found.value));
      if response.Failed? {
        return None, sent;
      }
      var t := response.value;
      todos := ReplaceById(todos, id, t, TodoId);
      selectedTodo := FollowUpdate(selectedTodo, id, t, TodoId);
      toggled := Some(t);
    }

    /**
     * `toggleTodoStatus(id)` as evidently intended: the service receives
     * `completed` as "the todo is not yet Completed", so the payload carries
     * the found todo's status flipped. Everything else is as in
     * `ToggleTodoStatus`.
     */
    method ToggleTodoStatusIntended(id: int, response: Outcome<Todo>) returns (toggled: Option<Todo>, sent: Option<Status>)
      modifies this`todos, this`selectedTodo
      ensures sent.Some? <==> HasId(old(todos), id, TodoId)
      ensures sent.Some? ==> sent == Some(IntendedToggleStatus(FindById(old(todos), id, TodoId).value))
      ensures sent.Some? ==> sent.value != FindById(old(todos), id, TodoId).value.status
      ensures sent.Some? && response.Ok? ==>
        && toggled == Some(response.value)
        && todos == ReplaceById(old(todos), id, response.value, TodoId)
        && selectedTodo == FollowUpdate(old(selectedTodo), id, response.value, TodoId)
      ensures !(sent.Some? && response.Ok?) ==>
        toggled == None && todos == old(todos) && selectedTodo == old(selectedTodo)
    {
      var found := FindById(todos, id, TodoId);
      if found.None? {
        return None, None;
      }
      sent := Some(IntendedToggleStatus(found.value));
      if response.Failed? {
        return None, sent;
      }
      var t := response.value;
      todos := ReplaceById(todos, id, t, TodoId);
      selectedTodo := FollowUpdate(selectedTodo, id, t, TodoId);
      toggled := Some(t);
    }

    /** `deleteTodo(id)`: remove-by-id; the count drops by one even when no todo had the id. */
    method DeleteTodo(id: int, response: Outcome<()>, noticeId: string, now: int) returns (deleted: bool)
      requires Valid()
      modifies this`todos, this`selectedTodo, this`pagination, ui`notifications
      ensures Valid()
      ensures deleted <==> response.Ok?
      ensures response.Ok? ==>
        && todos == RemoveById(old(todos), id, TodoId)
        && selectedTodo == FollowDelete(old(selectedTodo), id, TodoId)
        && pagination == Recount(old(pagination), -1)
        && ui.notifications == old(ui.notifications) + [SuccessNotice(noticeId, DeletedMessage, now)]
      ensures response.Failed? ==>
        todos == old(todos) && selectedTodo == old(selectedTodo) && pagination == old(pagination) &&
        ui.notifications == old(ui.notifications)
    {
      if response.Failed? {
        return false;
      }
      todos := RemoveById(todos, id, TodoId);
      selectedTodo := FollowDelete(selectedTodo, id, TodoId);
      pagination := Recount(pagination, -1);
      ui.AddNotification(SuccessNotice(noticeId, DeletedMessage, now));
      deleted := true;
    }

    /** `setFilterOptions(options)`: merged over the filters, new keys winning. */
    method SetFilterOptions(options: map<string, JsValue>)
      modifies this`filterOptions
      ensures filterOptions == old(filterOptions) + options
    {
      filterOptions := filterOptions + options;
    }

    method ResetFilters()
      modifies this`filterOptions
      ensures filterOptions == map[]
    {
      filterOptions := map[];
    }

    /** `setPage(page)`: the page is stored in the filters, then the list is fetched with them. */
    method SetPage(page: int, response: Outcome<PaginatedResponse<Todo>>) returns (params: map<string, JsValue>)
      requires Valid()
      modifies this`isLoading, this`filterOptions, this`todos, this`pagination
      ensures Valid()
      ensures filterOptions == old(filterOptions)["page" := Num(page)]
      ensures params == CreateTodoFilterOptions(filterOptions)
      ensures !isLoading
      ensures response.Ok? ==> todos == response.value.results
      ensures response.Ok? ==>
        (var info := ExtractPaginationInfo(response.value);
         pagination == if info.Some? then info.value else old(pagination))
      ensures response.Failed? ==> todos == old(todos) && pagination == old(pagination)
    {
      filterOptions := filterOptions["page" := Num(page)];
      params := FetchTodos(None, response);
    }

    method SelectTodo(todo: Option<Todo>)
      modifies this`selectedTodo
      ensures selectedTodo == todo
    {
      selectedTodo := todo;
    }

    method ClearSelectedTodo()
      modifies this`selectedTodo
      ensures selectedTodo == None
    {
      selectedTodo := None;
    }
  }

  /** The request a `setPage(page)` sends carries that page. */
  lemma SetPageRequestsPage(filters: map<string, JsValue>, page: int)
    ensures var params := CreateTodoFilterOptions(filters["page" := Num(page)]);
      "page" in params && params["page"] == Num(page)
  {
  }
}
