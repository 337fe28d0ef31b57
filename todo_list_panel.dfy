/**
 * The `TodoList` panel of the newer front end. Its callbacks are optional
 * props: each handler takes whether the prop was given, and returns, as
 * `forwarded`, the argument it passed to that prop (or `None` when it did
 * not call it).
 */
module TodoListPanel {
  import opened Wrappers
  import opened JsValues
  import opened ApiTypes
  import opened FilterUtils

  /** The panel's own `priorityOptions`. */
  const PriorityOptions: seq<SelectOption> :=
    [SelectOption("High", "높음"), SelectOption("Medium", "중간"), SelectOption("Low", "낮음")]

  /** The panel's own `statusOptions` (its label for Completed differs from the shared table's). */
  const StatusOptions: seq<SelectOption> :=
    [SelectOption("Pending", "진행 중"), SelectOption("Completed", "완료됨")]

  /** `Partial<Todo>` as a form sends it: a field that is `None` is absent from the object. */
  datatype TodoPatch = TodoPatch(
    task: Option<string>,
    dueDate: Option<Option<string>>,
    priority: Option<Priority>,
    status: Option<Status>)

  /** `{ ...todo, ...patch }`: the patch's present fields win, the rest of the todo stays. */
  function Merge(t: Todo, p: TodoPatch): (r: Todo)
    ensures r.id == t.id && r.createdAt == t.createdAt
    ensures r.task == OrElse(p.task, t.task)
    ensures r.dueDate == OrElse(p.dueDate, t.dueDate)
    ensures r.priority == OrElse(p.priority, t.priority)
    ensures r.status == OrElse(p.status, t.status)
  {
    Todo(t.id, OrElse(p.task, t.task), OrElse(p.dueDate, t.dueDate),
         OrElse(p.priority, t.priority), OrElse(p.status, t.status), t.createdAt)
  }

  /** An empty patch changes nothing, and a later patch overrides an earlier one field by field. */
  lemma MergeLaws(t: Todo, p: TodoPatch, q: TodoPatch)
    ensures Merge(t, TodoPatch(None, None, None, None)) == t
    ensures Merge(Merge(t, p), q) == Merge(t, TodoPatch(
      if q.task.Some? then q.task else p.task,
      if q.dueDate.Some? then q.dueDate else p.dueDate,
      if q.priority.Some? then q.priority else p.priority,
      if q.status.Some? then q.status else p.status))
  {
  }

  /** The todo `handleToggleStatus` sends: the status flipped between Completed and Pending. */
  function Flipped(t: Todo): (r: Todo)
    ensures r == t.(status := r.status)
    ensures r.status != t.status
  {
    t.(status := if t.status == Completed then Pending else Completed)
  }

  /** Flipping twice gives the todo back. */
  lemma FlippedInvolution(t: Todo)
    ensures Flipped(Flipped(t)) == t
  {
  }

  /**
   * The active-filter chip label: priority and status values get their
   * Korean label, or `''` when they match no option; any other key shows as
   * `key: value`.
   */
  function ChipLabel(key: string, v: JsValue): string
  {
    if key == "priority" then
      var c := OptionCaption(PriorityOptions, v);
      if c.Some? then "우선순위: " + c.value else ""
    else if key == "status" then
      var c := OptionCaption(StatusOptions, v);
      if c.Some? then "상태: " + c.value else ""
    else key + ": " + ToStr(v)
  }

  /** Each priority is shown by its Korean caption. */
  lemma ChipLabelPriority(p: Priority)
    ensures ChipLabel("priority", Str(PriorityName(p))) ==
      "우선순위: " + (match p case High => "높음" case Medium => "중간" case Low => "낮음")
  {
    match p
    case High =>
    case Medium =>
      assert OptionCaption(PriorityOptions[1..], Str("Medium")) == Some("중간");
    case Low =>
      assert OptionCaption(PriorityOptions[2..], Str("Low")) == Some("낮음");
      assert OptionCaption(PriorityOptions[1..], Str("Low")) == Some("낮음");
  }

  /** Each status is shown by its Korean caption. */
  lemma ChipLabelStatus(s: Status)
    ensures ChipLabel("status", Str(StatusName(s))) ==
      "상태: " + (match s case Pending => "진행 중" case Completed => "완료됨")
  {
    match s
    case Pending =>
    case Completed =>
      assert OptionCaption(StatusOptions[1..], Str("Completed")) == Some("완료됨");
  }

  /** A value no option carries gets an empty label. */
  lemma ChipLabelUnknown()
    ensures ChipLabel("priority", Str("Urgent")) == "" && ChipLabel("status", Num(1)) == ""
  {
    assert PriorityOptions[0].value == "High" && PriorityOptions[1].value == "Medium" && PriorityOptions[2].value == "Low";
    assert Str("Urgent") != Str("High") && Str("Urgent") != Str("Medium") && Str("Urgent") != Str("Low");
    assert OptionCaption(PriorityOptions, Str("Urgent")) == None;
    assert OptionCaption(StatusOptions, Num(1)) == None;
  }

  /** Any other key shows as `key: value`. */
  lemma ChipLabelOtherKey(key: string)
    requires key != "priority" && key != "status"
    ensures ChipLabel(key, Str("x")) == key + ": x"
  {
    assert ToStr(Str("x")) == "x";
  }

  /** Every priority and status has its label; an unknown value gets none. */
  lemma ChipLabelCases(key: string, p: Priority, s: Status)
    ensures ChipLabel("priority", Str(PriorityName(p))) ==
      "우선순위: " + (match p case High => "높음" case Medium => "중간" case Low => "낮음")
    ensures ChipLabel("status", Str(StatusName(s))) ==
      "상태: " + (match s case Pending => "진행 중" case Completed => "완료됨")
    ensures ChipLabel("priority", Str("Urgent")) == "" && ChipLabel("status", Num(1)) == ""
    ensures key != "priority" && key != "status" ==> ChipLabel(key, Str("x")) == key + ": x"
  {
    ChipLabelPriority(p);
    ChipLabelStatus(s);
    ChipLabelUnknown();
    if key != "priority" && key != "status" {
      ChipLabelOtherKey(key);
    }
  }

  datatype PanelView = LoadingView | ErrorView | ListView

  /** The loading view needs loading with an empty list; otherwise an error takes precedence over the list. */
  function ViewOf(loading: bool, todoCount: nat, hasError: bool): (v: PanelView)
    ensures v == LoadingView <==> loading && todoCount == 0
    ensures v == ErrorView <==> !(loading && todoCount == 0) && hasError
    ensures v == ListView <==> !(loading && todoCount == 0) && !hasError
  {
    if loading && todoCount == 0 then LoadingView
    else if hasError then ErrorView
    else ListView
  }

  class TodoListPanelState {
    var isCreateModalOpen: bool
    var isDetailModalOpen: bool
    var isEditModalOpen: bool
    var isDeleteDialogOpen: bool
    var selectedTodo: Option<Todo>
    var searchQuery: string
    var activeFilters: map<string, JsValue>

    constructor ()
      ensures !isCreateModalOpen && !isDetailModalOpen && !isEditModalOpen && !isDeleteDialogOpen
      ensures selectedTodo == None && searchQuery == "" && activeFilters == map[]
    {
      isCreateModalOpen := false;
      isDetailModalOpen := false;
      isEditModalOpen := false;
      isDeleteDialogOpen := false;
      selectedTodo := None;
      searchQuery := "";
      activeFilters := map[];
    }

    method HandleSearchChange(value: string, hasOnSearch: bool) returns (forwarded: Option<string>)
      modifies this`searchQuery
      ensures searchQuery == value
      ensures forwarded == if hasOnSearch then Some(value) else None
    {
      searchQuery := value;
      forwarded := if hasOnSearch then Some(value) else None;
    }

    method HandleFilterChange(filters: map<string, JsValue>, hasOnFilter: bool) returns (forwarded: Option<map<string, JsValue>>)
      modifies this`activeFilters
      ensures activeFilters == filters
      ensures forwarded == if hasOnFilter then Some(filters) else None
    {
      activeFilters := filters;
      forwarded := if hasOnFilter then Some(filters) else None;
    }

    /** `handleRemoveFilter(key)`: only that key leaves the filters. */
    method HandleRemoveFilter(key: string, hasOnFilter: bool) returns (forwarded: Option<map<string, JsValue>>)
      modifies this`activeFilters
      ensures activeFilters == old(activeFilters) - {key}
      ensures key !in activeFilters
      ensures forall k :: k != key ==> (k in activeFilters <==> k in old(activeFilters))
      ensures forall k :: k in activeFilters ==> activeFilters[k] == old(activeFilters)[k]
      ensures forwarded == if hasOnFilter then Some(activeFilters) else None
    {
      activeFilters := activeFilters - {key};
      forwarded := if hasOnFilter then Some(activeFilters) else None;
    }

    method HandleClearFilters(hasOnFilter: bool) returns (forwarded: Option<map<string, JsValue>>)
      modifies this`activeFilters
      ensures activeFilters == map[]
      ensures forwarded == if hasOnFilter then Some(map[]) else None
    {
      activeFilters := map[];
      forwarded := if hasOnFilter then Some(map[]) else None;
    }

    method OpenDetailModal(todo: Todo)
      modifies this`selectedTodo, this`isDetailModalOpen
      ensures selectedTodo == Some(todo) && isDetailModalOpen
    {
      selectedTodo := Some(todo);
      isDetailModalOpen := true;
    }

    method CloseDetailModal()
      modifies this`selectedTodo, this`isDetailModalOpen
      ensures selectedTodo == None && !isDetailModalOpen
    {
      isDetailModalOpen := false;
      selectedTodo := None;
    }

    method OpenEditModal(todo: Todo)
      modifies this`selectedTodo, this`isEditModalOpen
      ensures selectedTodo == Some(todo) && isEditModalOpen
    {
      selectedTodo := Some(todo);
      isEditModalOpen := true;
    }

    method OpenDeleteDialog(todo: Todo)
      modifies this`selectedTodo, this`isDeleteDialogOpen
      ensures selectedTodo == Some(todo) && isDeleteDialogOpen
    {
      selectedTodo := Some(todo);
      isDeleteDialogOpen := true;
    }

    /** `handleCreateSubmit`: the form's todo is forwarded and the dialog closes, only when the prop is given. */
    method HandleCreateSubmit(todo: TodoPatch, hasOnCreate: bool) returns (forwarded: Option<TodoPatch>)
      modifies this`isCreateModalOpen
      ensures forwarded == if hasOnCreate then Some(todo) else None
      ensures isCreateModalOpen == (old(isCreateModalOpen) && !hasOnCreate)
    {
      if hasOnCreate {
        forwarded := Some(todo);
        isCreateModalOpen := false;
      } else {
        forwarded := None;
      }
    }

    /**
     * `handleEditSubmit`: the selected todo with the edited fields over it is
     * forwarded; the edit dialog closes and the selection is cleared, unless
     * the detail modal stays open and shows the merged todo instead.
     */
    method HandleEditSubmit(patch: TodoPatch, hasOnUpdate: bool) returns (forwarded: Option<Todo>)
      modifies this`isEditModalOpen, this`selectedTodo
      ensures old(selectedTodo).Some? && hasOnUpdate ==>
        && forwarded == Some(Merge(old(selectedTodo).value, patch))
        && !isEditModalOpen
        && selectedTodo == (if isDetailModalOpen then forwarded else None)
      ensures !(old(selectedTodo).Some? && hasOnUpdate) ==>
        forwarded == None && isEditModalOpen == old(isEditModalOpen) && selectedTodo == old(selectedTodo)
    {
      if selectedTodo.Some? && hasOnUpdate {
        var merged := Merge(selectedTodo.value, patch);
        forwarded := Some(merged);
        isEditModalOpen := false;
        selectedTodo := if isDetailModalOpen then Some(merged) else None;
      } else {
        forwarded := None;
      }
    }

    /** `handleConfirmDelete`: the selected todo is forwarded once; the dialog and, if open, the detail modal close. */
    method HandleConfirmDelete(hasOnDelete: bool) returns (forwarded: Option<Todo>)
      modifies this`isDeleteDialogOpen, this`isDetailModalOpen, this`selectedTodo
      ensures old(selectedTodo).Some? && hasOnDelete ==>
        forwarded == old(selectedTodo) && !isDeleteDialogOpen && !isDetailModalOpen && selectedTodo == None
      ensures !(old(selectedTodo).Some? && hasOnDelete) ==>
        forwarded == None && isDeleteDialogOpen == old(isDeleteDialogOpen) &&
        isDetailModalOpen == old(isDetailModalOpen) && selectedTodo == old(selectedTodo)
    {
      if selectedTodo.Some? && hasOnDelete {
        forwarded := selectedTodo;
        isDeleteDialogOpen := false;
        selectedTodo := None;
        if isDetailModalOpen {
          isDetailModalOpen := false;
        }
      } else {
        forwarded := None;
      }
    }

    /**
     * `handleToggleStatus(todo)`: the flipped todo is forwarded; the detail
     * view follows only when it is open on a todo with the same id.
     */
    method HandleToggleStatus(todo: Todo, hasOnToggle: bool) returns (forwarded: Option<Todo>)
      modifies this`selectedTodo
      ensures forwarded == if hasOnToggle then Some(Flipped(todo)) else None
      ensures selectedTodo ==
        if hasOnToggle && isDetailModalOpen && old(selectedTodo).Some? && old(selectedTodo).value.id == todo.id
        then Some(Flipped(todo)) else old(selectedTodo)
    {
      if !hasOnToggle {
        return None;
      }
      var updated := Flipped(todo);
      forwarded := Some(updated);
      if isDetailModalOpen && selectedTodo.Some? && selectedTodo.value.id == todo.id {
        selectedTodo := Some(updated);
      }
    }
  }
}
