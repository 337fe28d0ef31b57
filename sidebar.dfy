/** The sidebar's route highlighting and its two collapsible sections. */
module Sidebar {
  import opened Text
  import opened FilterUtils

  /** `isActive(path)`: the dashboard matches only itself, every other entry matches by prefix. */
  predicate IsActive(pathname: string, path: string)
  {
    if path == "/" then pathname == "/" else StartsWith(pathname, path)
  }

  /** `router.query[key] === value`: only a single string parameter can be strictly equal to a string. */
  predicate QueryIs(query: map<string, QueryValue>, key: string, value: string)
  {
    key in query && query[key] == QueryString(value)
  }

  /** "모든 할 일": the todo list itself. */
  predicate AllTodosSelected(pathname: string)
  {
    pathname == "/todos"
  }

  /** "중요": the todo list filtered to high priority. */
  predicate HighPrioritySelected(pathname: string, query: map<string, QueryValue>)
  {
    pathname == "/todos" && QueryIs(query, "priority", "High")
  }

  /** "완료됨": the todo list filtered to completed todos. */
  predicate CompletedSelected(pathname: string, query: map<string, QueryValue>)
  {
    pathname == "/todos" && QueryIs(query, "status", "Completed")
  }

  /** The dashboard entry and any other entry are never highlighted together. */
  lemma DashboardExclusive(pathname: string, path: string)
    requires |path| > 1
    ensures !(IsActive(pathname, "/") && IsActive(pathname, path))
  {
  }

  /** An entry other than the dashboard stays highlighted on every page below it. */
  lemma ActiveBelow(pathname: string, path: string, rest: string)
    requires path != "/" && IsActive(pathname, path)
    ensures IsActive(pathname + rest, path)
  {
    assert (pathname + rest)[..|pathname|] == pathname;
  }

  /**
   * A selected sub-item keeps "모든 할 일" selected as well, and the todo
   * section entry highlighted; the query only ever adds a second selection.
   */
  lemma SubItemsSelectAllTodos(pathname: string, query: map<string, QueryValue>)
    ensures HighPrioritySelected(pathname, query) || CompletedSelected(pathname, query)
      ==> AllTodosSelected(pathname) && IsActive(pathname, "/todos")
    ensures AllTodosSelected(pathname) ==> !IsActive(pathname, "/") && !IsActive(pathname, "/notes")
  {
    if AllTodosSelected(pathname) {
      assert pathname[1] == 't';
    }
  }

  /** A repeated `priority` parameter never selects the high-priority item. */
  lemma RepeatedParameterNotSelected(pathname: string, query: map<string, QueryValue>)
    requires "priority" in query && query["priority"].QueryArray?
    ensures !HighPrioritySelected(pathname, query)
  {
  }

  /** The open flags of the todo and note sections. */
  class SidebarState {
    var todosOpen: bool
    var notesOpen: bool

    /** Both sections start open. */
    constructor ()
      ensures todosOpen && notesOpen
    {
      todosOpen := true;
      notesOpen := true;
    }

    /** `handleTodosToggle`. */
    method HandleTodosToggle()
      modifies this`todosOpen
      ensures todosOpen == !old(todosOpen)
    {
      todosOpen := !todosOpen;
    }

    /** `handleNotesToggle`. */
    method HandleNotesToggle()
      modifies this`notesOpen
      ensures notesOpen == !old(notesOpen)
    {
      notesOpen := !notesOpen;
    }
  }
}
