/**
 * The MobX `NoteStore`: the `TodoStore` over notes, without a status toggle.
 * Service calls, the notice uuid and `Date.now()` are parameters, as there.
 */
module MobxNoteStore {
  import opened Wrappers
  import opened JsValues
  import opened Numeric
  import opened ApiTypes
  import opened Sequences
  import opened FilterUtils
  import opened PaginationUtils
  import opened MobxUIStore
  import opened StoreUpdates

  const CreatedMessage := "노트가 성공적으로 생성되었습니다."
  const UpdatedMessage := "노트가 성공적으로 수정되었습니다."
  const DeletedMessage := "노트가 성공적으로 삭제되었습니다."

  class NoteStore {
    var notes: seq<Note>
    var selectedNote: Option<Note>
    var isLoading: bool
    var isSubmitting: bool
    var filterOptions: map<string, JsValue>
    var pagination: PaginationInfo
    /** `rootStore.uiStore`, which receives the success notices. */
    const ui: UIStore

    ghost predicate Valid()
      reads this
    {
      pagination.pageSize > 0
    }

    constructor (ui: UIStore)
      ensures Valid()
      ensures notes == [] && selectedNote == None && !isLoading && !isSubmitting
      ensures filterOptions == map[] && pagination == InitialPagination
      ensures this.ui == ui
    {
      notes := [];
      selectedNote := None;
      isLoading := false;
      isSubmitting := false;
      filterOptions := map[];
      pagination := InitialPagination;
      this.ui := ui;
    }

    /**
     * `fetchNotes(options)`: merges `options` over the filters (new keys win),
     * requests the cleaned filters (`params`) and adopts the page. An
     * unparsable `previous` link makes `extractPaginationInfo` throw after
     * `notes` was already replaced, so the old pagination stays.
     */
    method FetchNotes(options: Option<map<string, JsValue>>, response: Outcome<PaginatedResponse<Note>>)
      returns (params: map<string, JsValue>)
      requires Valid()
      modifies this`isLoading, this`filterOptions, this`notes, this`pagination
      ensures Valid()
      ensures filterOptions == if options.Some? then old(filterOptions) + options.value else old(filterOptions)
      ensures params == CreateNoteFilterOptions(filterOptions)
      ensures !isLoading
      ensures response.Ok? ==> notes == response.value.results
      ensures response.Ok? ==>
        (var info := ExtractPaginationInfo(response.value);
         pagination == if info.Some? then info.value else old(pagination))
      ensures response.Failed? ==> notes == old(notes) && pagination == old(pagination)
    {
      isLoading := true;
      if options.Some? {
        filterOptions := filterOptions + options.value;
      }
      params := CreateNoteFilterOptions(filterOptions);
      if response.Ok? {
        notes := response.value.results;
        var info := ExtractPaginationInfo(response.value);
        if info.Some? {
          pagination := info.value;
        }
      }
      isLoading := false;
    }

    /** `fetchNoteById(id)`: the fetched note becomes the selection. */
    method FetchNoteById(id: int, response: Outcome<Note>)
      modifies this`isLoading, this`selectedNote
      ensures !isLoading
      ensures selectedNote == if response.Ok? then Some(response.value) else old(selectedNote)
    {
      isLoading := true;
      if response.Ok? {
        selectedNote := Some(response.value);
      }
      isLoading := false;
    }

    /**
     * `createNote(noteData)`: the created note goes to the front of the list
     * only while the page has room; the item count always grows by one.
     */
    method CreateNote(response: Outcome<Note>, noticeId: string, now: int) returns (created: Option<Note>)
      requires Valid()
      modifies this`notes, this`pagination, this`isSubmitting, ui`notifications
      ensures Valid() && !isSubmitting
      ensures response.Ok? ==>
        && created == Some(response.value)
        && notes == (if |old(notes)| < old(pagination).pageSize then [response.value] + old(notes) else old(notes))
        && pagination == Recount(old(pagination), 1)
        && ui.notifications == old(ui.notifications) + [SuccessNotice(noticeId, CreatedMessage, now)]
      ensures response.Failed? ==>
        created == None && notes == old(notes) && pagination == old(pagination) &&
        ui.notifications == old(ui.notifications)
    {
      isSubmitting := true;
      if response.Failed? {
        isSubmitting := false;
        return None;
      }
      var t := response.value;
      if |notes| < pagination.pageSize {
        notes := [t] + notes;
      }
      pagination := Recount(pagination, 1);
      isSubmitting := false;
      ui.AddNotification(SuccessNotice(noticeId, CreatedMessage, now));
      created := Some(t);
    }

    /** `updateNote(id, noteData)`: replace-by-id, never an append. */
    method UpdateNote(id: int, response: Outcome<Note>, noticeId: string, now: int) returns (updated: Option<Note>)
      modifies this`notes, this`selectedNote, this`isSubmitting, ui`notifications
      ensures !isSubmitting
      ensures response.Ok? ==>
        && updated == Some(response.value)
        && notes == ReplaceById(old(notes), id, response.value, NoteId)
        && selectedNote == FollowUpdate(old(selectedNote), id, response.value, NoteId)
        && ui.notifications == old(ui.notifications) + [SuccessNotice(noticeId, UpdatedMessage, now)]
      ensures response.Failed? ==>
        updated == None && notes == old(notes) && selectedNote == old(selectedNote) &&
        ui.notifications == old(ui.notifications)
    {
      isSubmitting := true;
      if response.Failed? {
        isSubmitting := false;
        return None;
      }
      var t := response.value;
      notes := ReplaceById(notes, id, t, NoteId);
      selectedNote := FollowUpdate(selectedNote, id, t, NoteId);
      isSubmitting := false;
      ui.AddNotification(SuccessNotice(noticeId, UpdatedMessage, now));
      updated := Some(t);
    }

    /** `deleteNote(id)`: remove-by-id; the count drops by one even when no note had the id. */
    method DeleteNote(id: int, response: Outcome<()>, noticeId: string, now: int) returns (deleted: bool)
      requires Valid()
      modifies this`notes, this`selectedNote, this`pagination, ui`notifications
      ensures Valid()
      ensures deleted <==> response.Ok?
      ensures response.Ok? ==>
        && notes == RemoveById(old(notes), id, NoteId)
        && selectedNote == FollowDelete(old(selectedNote), id, NoteId)
        && pagination == Recount(old(pagination), -1)
        && ui.notifications == old(ui.notifications) + [SuccessNotice(noticeId, DeletedMessage, now)]
      ensures response.Failed? ==>
        notes == old(notes) && selectedNote == old(selectedNote) && pagination == old(pagination) &&
        ui.notifications == old(ui.notifications)
    {
      if response.Failed? {
        return false;
      }
      notes := RemoveById(notes, id, NoteId);
      selectedNote := FollowDelete(selectedNote, id, NoteId);
      pagination := Recount(pagination, -1);
      ui.AddNotification(SuccessNotice(noticeId, DeletedMessage, now));
      deleted := true;
    }

    /** `setFilterOptions(options)`: merged over the filters, new keys winning. */
    method SetFilterOptions(options: map<string, JsValue>)
      modifies this`filterOptions
      ensures filterOptions == old(filterOptions) + options
    {
      filterOptions := filterOptions + options;
    }

    method ResetFilters()
      modifies this`filterOptions
      ensures filterOptions == map[]
    {
      filterOptions := map[];
    }

    /** `setPage(page)`: the page is stored in the filters, then the list is fetched with them. */
    method SetPage(page: int, response: Outcome<PaginatedResponse<Note>>) returns (params: map<string, JsValue>)
      requires Valid()
      modifies this`isLoading, this`filterOptions, this`notes, this`pagination
      ensures Valid()
      ensures filterOptions == old(filterOptions)["page" := Num(page)]
      ensures params == CreateNoteFilterOptions(filterOptions)
      ensures !isLoading
      ensures response.Ok? ==> notes == response.value.results
      ensures response.Ok? ==>
        (var info := ExtractPaginationInfo(response.value);
         pagination == if info.Some? then info.value else old(pagination))
      ensures response.Failed? ==> notes == old(notes) && pagination == old(pagination)
    {
      filterOptions := filterOptions["page" := Num(page)];
      params := FetchNotes(None, response);
    }

    method SelectNote(note: Option<Note>)
      modifies this`selectedNote
      ensures selectedNote == note
    {
      selectedNote := note;
    }

    method ClearSelectedNote()
      modifies this`selectedNote
      ensures selectedNote == None
    {
      selectedNote := None;
    }
  }

  /** The request a `setPage(page)` sends carries that page. */
  lemma SetPageRequestsPage(filters: map<string, JsValue>, page: int)
    ensures var params := CreateNoteFilterOptions(filters["page" := Num(page)]);
      "page" in params && params["page"] == Num(page)
  {
  }
}
