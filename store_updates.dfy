/**
 * State transitions shared by the MobX `TodoStore` and `NoteStore`, which
 * carry the same code over different item types: how the selection follows
 * an update or a delete, and how the counters move after a create or a
 * delete.
 */
module StoreUpdates {
  import opened Wrappers
  import opened Numeric
  import opened PaginationUtils

  /** The pagination a store starts with. */
  const InitialPagination := PaginationInfo(1, 1, 0, false, false, DefaultPageSize)

  /** The selection after item `id` was updated to `item`: replaced only on an id match. */
  function FollowUpdate<T>(selected: Option<T>, id: int, item: T, idOf: T -> int): (r: Option<T>)
    ensures selected.Some? && idOf(selected.value) == id ==> r == Some(item)
    ensures !(selected.Some? && idOf(selected.value) == id) ==> r == selected
  {
    if selected.Some? && idOf(selected.value) == id then Some(item) else selected
  }

  /** The selection after item `id` was deleted: cleared only on an id match. */
  function FollowDelete<T>(selected: Option<T>, id: int, idOf: T -> int): (r: Option<T>)
    ensures selected.Some? && idOf(selected.value) == id ==> r == None
    ensures !(selected.Some? && idOf(selected.value) == id) ==> r == selected
  {
    if selected.Some? && idOf(selected.value) == id then None else selected
  }

  /**
   * The pagination after the item count moved by `delta`: the page count is
   * recomputed as the ceiling of count over page size; nothing else changes.
   */
  function Recount(p: PaginationInfo, delta: int): (r: PaginationInfo)
    requires p.pageSize > 0
    ensures r.totalItems == p.totalItems + delta
    ensures (r.totalPages - 1) * p.pageSize < r.totalItems <= r.totalPages * p.pageSize
    ensures r == p.(totalItems := r.totalItems, totalPages := r.totalPages)
  {
    p.(totalItems := p.totalItems + delta, totalPages := CeilDiv(p.totalItems + delta, p.pageSize))
  }

  /** A create followed by a delete restores the counters. */
  lemma RecountUndo(p: PaginationInfo)
    requires p.pageSize > 0 && (p.totalPages - 1) * p.pageSize < p.totalItems <= p.totalPages * p.pageSize
    ensures Recount(Recount(p, 1), -1) == p
  {
    CeilUnique(p.totalItems, p.pageSize, p.totalPages);
  }
}
