/**
 * The `NoteList` panel of the newer front end: the pagination it derives
 * from the page of notes and the current filters, and its dialog handlers.
 * Each handler returns, as `forwarded`, the argument it passed to the parent's
 * callback (or `None` when it did not call it).
 */
module NoteListPanel {
  import opened Wrappers
  import opened Numeric
  import opened ApiTypes

  /** `filters.page` and `filters.page_size`; `None` is an absent key. */
  datatype PageFilters = PageFilters(page: Option<int>, pageSize: Option<int>)

  /** The object the panel hands to `Pagination`. */
  datatype PanelPagination = PanelPagination(currentPage: int, totalPages: int, pageSize: int, totalItems: int)

  /** `x || d` for an optional number: absent and `0` fall back to `d`. */
  function OrDefault(x: Option<int>, d: int): (r: int)
    ensures x.Some? && x.value != 0 ==> r == x.value
    ensures x.None? || x.value == 0 ==> r == d
  {
    if x.Some? && x.value != 0 then x.value else d
  }

  /**
   * The fallback settles at once: applying `|| d` again changes nothing, and
   * a non-zero default never yields `0`, so the result can divide the count.
   */
  lemma OrDefaultSettles(x: Option<int>, d: int)
    ensures OrDefault(Some(OrDefault(x, d)), d) == OrDefault(x, d)
    ensures d != 0 ==> OrDefault(x, d) != 0
  {
  }

  /**
   * `paginationInfo`: without a page of notes, one empty page of ten;
   * otherwise the page size is `page_size || 10`, the page count the ceiling
   * of count over size, and the current page `page || 1` (1 when there are
   * no notes).
   */
  function PaginationOf(notes: Option<PaginatedResponse<Note>>, filters: PageFilters): (r: PanelPagination)
    ensures notes.None? ==> r == PanelPagination(1, 1, 10, 0)
    ensures notes.Some? ==>
      && r.pageSize == OrDefault(filters.pageSize, 10)
      && r.pageSize != 0
      && r.totalItems == notes.value.count
      && r.currentPage == (if notes.value.count > 0 then OrDefault(filters.page, 1) else 1)
      && (r.pageSize > 0 ==> (r.totalPages - 1) * r.pageSize < r.totalItems <= r.totalPages * r.pageSize)
  {
    if notes.None? then PanelPagination(1, 1, 10, 0)
    else
      var size := OrDefault(filters.pageSize, 10);
      var count := notes.value.count;
      PanelPagination(if count > 0 then OrDefault(filters.page, 1) else 1, CeilDiv(count, size), size, count)
  }

  /** With no filters set, a page of 25 notes gives three pages of ten, the first current. */
  lemma PaginationDefaults(page: PaginatedResponse<Note>)
    requires page.count == 25
    ensures PaginationOf(Some(page), PageFilters(None, None)) == PanelPagination(1, 3, 10, 25)
  {
    CeilUnique(25, 10, 3);
  }

  class NoteListPanelState {
    var selectedNote: Option<Note>
    var isCreateModalOpen: bool
    var isEditModalOpen: bool
    var isDetailModalOpen: bool
    var isDeleteDialogOpen: bool
    var noteToDelete: Option<Note>

    constructor ()
      ensures selectedNote == None && noteToDelete == None
      ensures !isCreateModalOpen && !isEditModalOpen && !isDetailModalOpen && !isDeleteDialogOpen
    {
      selectedNote := None;
      isCreateModalOpen := false;
      isEditModalOpen := false;
      isDetailModalOpen := false;
      isDeleteDialogOpen := false;
      noteToDelete := None;
    }

    method HandleCreateNote(data: NoteInput) returns (forwarded: NoteInput)
      modifies this`isCreateModalOpen
      ensures forwarded == data && !isCreateModalOpen
    {
      forwarded := data;
      isCreateModalOpen := false;
    }

    method OpenEditModal(note: Note)
      modifies this`selectedNote, this`isEditModalOpen
      ensures selectedNote == Some(note) && isEditModalOpen
    {
      selectedNote := Some(note);
      isEditModalOpen := true;
    }

    method OpenDetailModal(note: Note)
      modifies this`selectedNote, this`isDetailModalOpen
      ensures selectedNote == Some(note) && isDetailModalOpen
    {
      selectedNote := Some(note);
      isDetailModalOpen := true;
    }

    method OpenDeleteDialog(note: Note)
      modifies this`noteToDelete, this`isDeleteDialogOpen
      ensures noteToDelete == Some(note) && isDeleteDialogOpen
    {
      noteToDelete := Some(note);
      isDeleteDialogOpen := true;
    }

    /** `handleUpdateNote`: forwarded, with the selected note's id, only when a note is selected. */
    method HandleUpdateNote(data: NoteInput) returns (forwarded: Option<(int, NoteInput)>)
      modifies this`isEditModalOpen, this`selectedNote
      ensures old(selectedNote).Some? ==>
        forwarded == Some((old(selectedNote).value.id, data)) && !isEditModalOpen && selectedNote == None
      ensures old(selectedNote).None? ==>
        forwarded == None && isEditModalOpen == old(isEditModalOpen) && selectedNote == None
    {
      if selectedNote.None? {
        return None;
      }
      forwarded := Some((selectedNote.value.id, data));
      isEditModalOpen := false;
      selectedNote := None;
    }

    /**
     * `handleConfirmDelete`: the id of the note to delete is forwarded once;
     * the dialog closes, and so does the detail modal when it was open.
     */
    method HandleConfirmDelete() returns (forwarded: Option<int>)
      modifies this`isDeleteDialogOpen, this`noteToDelete, this`isDetailModalOpen, this`selectedNote
      ensures old(noteToDelete).Some? ==>
        && forwarded == Some(old(noteToDelete).value.id)
        && !isDeleteDialogOpen && noteToDelete == None && !isDetailModalOpen
        && selectedNote == (if old(isDetailModalOpen) then None else old(selectedNote))
      ensures old(noteToDelete).None? ==>
        forwarded == None && isDeleteDialogOpen == old(isDeleteDialogOpen) &&
        isDetailModalOpen == old(isDetailModalOpen) && selectedNote == old(selectedNote) && noteToDelete == None
    {
      if noteToDelete.None? {
        return None;
      }
      forwarded := Some(noteToDelete.value.id);
      isDeleteDialogOpen := false;
      noteToDelete := None;
      if isDetailModalOpen {
        isDetailModalOpen := false;
        selectedNote := None;
      }
    }
  }
}
