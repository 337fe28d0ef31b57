/**
 * The `NoteList` component of the older front end: a module-level
 * `noteStore` cache, the component's own copy of the notes, and the visible
 * list, which is the notes matching the search term, newest first.
 */
module LegacyNoteList {
  import opened Wrappers
  import opened ApiTypes
  import opened Text
  import opened Sequences

  const LoadError := "Failed to load notes. Please try again later."
  const AddError := "Failed to add note. Please try again."
  const UpdateError := "Failed to update note. Please try again."
  const DeleteError := "Failed to delete note. Please try again."

  /** A note matches a search term when its lower-cased content contains the lower-cased term. */
  predicate MatchesSearch(n: Note, term: string)
  {
    Includes(ToLower(n.content), ToLower(term))
  }

  /** Newest first: no note is followed by a newer one. */
  predicate NewestFirst(s: seq<Note>)
  {
    forall i, j :: 0 <= i < j < |s| ==> s[i].createdAt >= s[j].createdAt
  }

  /**
   * Places `n` before the first note that is not newer than it. With `n`
   * taken from the front of what remains, notes of equal age keep their
   * order, as the stable `Array.prototype.sort` keeps them.
   */
  function Insert(n: Note, s: seq<Note>): seq<Note>
  {
    if s == [] || s[0].createdAt <= n.createdAt then [n] + s else [s[0]] + Insert(n, s[1..])
  }

  /** `sort((a, b) => b.created_at - a.created_at)` on a copy. */
  function SortNewestFirst(s: seq<Note>): seq<Note>
  {
    if s == [] then [] else Insert(s[0], SortNewestFirst(s[1..]))
  }

  lemma {:induction false} InsertKeeps(n: Note, s: seq<Note>)
    ensures multiset(Insert(n, s)) == multiset(s) + multiset{n}
    ensures |Insert(n, s)| == |s| + 1
  {
    if !(s == [] || s[0].createdAt <= n.createdAt) {
      InsertKeeps(n, s[1..]);
      assert s == [s[0]] + s[1..];
    }
  }

  lemma {:induction false} InsertNewestFirst(n: Note, s: seq<Note>)
    requires NewestFirst(s)
    ensures NewestFirst(Insert(n, s))
    ensures forall i :: 0 <= i < |Insert(n, s)| ==>
      Insert(n, s)[i] == n || (s != [] && Insert(n, s)[i].createdAt <= s[0].createdAt)
  {
    if s == [] || s[0].createdAt <= n.createdAt {
      var r := [n] + s;
      forall i, j | 0 <= i < j < |r| ensures r[i].createdAt >= r[j].createdAt {
        if i > 0 {
          assert r[i] == s[i - 1] && r[j] == s[j - 1];
        } else {
          assert r[j] == s[j - 1];
        }
      }
    } else {
      var rest := Insert(n, s[1..]);
      InsertNewestFirst(n, s[1..]);
      InsertKeeps(n, s[1..]);
      var r := [s[0]] + rest;
      forall i, j | 0 <= i < j < |r| ensures r[i].createdAt >= r[j].createdAt {
        if i > 0 {
          assert r[i] == rest[i - 1] && r[j] == rest[j - 1];
        } else {
          assert r[j] == rest[j - 1];
          assert rest[j - 1] == n || (s[1..] != [] && rest[j - 1].createdAt <= s[1..][0].createdAt);
        }
      }
      forall i | 0 <= i < |r| ensures r[i] == n || r[i].createdAt <= s[0].createdAt {
        if i > 0 {
          assert r[i] == rest[i - 1];
          assert rest[i - 1] == n || (s[1..] != [] && rest[i - 1].createdAt <= s[1..][0].createdAt);
        }
      }
    }
  }

  /** The sort yields the same notes, newest first. */
  lemma {:induction false} SortNewestFirstCorrect(s: seq<Note>)
    ensures NewestFirst(SortNewestFirst(s))
    ensures multiset(SortNewestFirst(s)) == multiset(s)
  {
    if s != [] {
      SortNewestFirstCorrect(s[1..]);
      InsertNewestFirst(s[0], SortNewestFirst(s[1..]));
      InsertKeeps(s[0], SortNewestFirst(s[1..]));
      assert s == [s[0]] + s[1..];
    }
  }

  /** The filter effect: the search filter (when a term is typed), then the sort. */
  function FilteredNotes(notes: seq<Note>, term: string): seq<Note>
  {
    SortNewestFirst(if term != "" then Filter(notes, (n: Note) => MatchesSearch(n, term)) else notes)
  }

  /** The visible list is a newest-first permutation of the notes matching the search. */
  lemma FilteredNotesCorrect(notes: seq<Note>, term: string)
    ensures NewestFirst(FilteredNotes(notes, term))
    ensures multiset(FilteredNotes(notes, term)) ==
      multiset(Filter(notes, (n: Note) => term == "" || MatchesSearch(n, term)))
  {
    var matching := (n: Note) => term == "" || MatchesSearch(n, term);
    if term != "" {
      FilterExt(notes, (n: Note) => MatchesSearch(n, term), matching);
    } else {
      FilterKeepsAll(notes, matching);
    }
    SortNewestFirstCorrect(if term != "" then Filter(notes, (n: Note) => MatchesSearch(n, term)) else notes);
  }

  /** The module-level `noteStore` object. */
  class NoteCache {
    var notes: seq<Note>
    var initialized: bool

    constructor ()
      ensures notes == [] && !initialized
    {
      notes := [];
      initialized := false;
    }
  }

  class NoteListView {
    const store: NoteCache
    var notes: seq<Note>
    var loading: bool
    var error: Option<string>
    var searchTerm: string

    constructor (store: NoteCache)
      ensures this.store == store
      ensures notes == [] && loading && error == None && searchTerm == ""
    {
      this.store := store;
      notes := [];
      loading := true;
      error := None;
      searchTerm := "";
    }

    /** `filteredNotes`, as the filter effect leaves it once it has run. */
    function Visible(): seq<Note>
      reads this
    {
      FilteredNotes(notes, searchTerm)
    }

    /** `fetchNotes`: the cache is served iff it is initialised and non-empty. */
    method FetchNotes(response: Outcome<seq<Note>>) returns (requested: bool)
      modifies this`notes, this`loading, this`error, store
      ensures requested <==> !(old(store.initialized) && |old(store.notes)| > 0)
      ensures !loading
      ensures !requested ==>
        notes == old(store.notes) && error == old(error) &&
        store.notes == old(store.notes) && store.initialized == old(store.initialized)
      ensures requested && response.Ok? ==>
        notes == response.value && store.notes == response.value && store.initialized && error == None
      ensures requested && response.Failed? ==>
        notes == old(notes) && error == Some(LoadError) &&
        store.notes == old(store.notes) && store.initialized == old(store.initialized)
    {
      if store.initialized && |store.notes| > 0 {
        notes := store.notes;
        loading := false;
        return false;
      }
      requested := true;
      loading := true;
      if response.Ok? {
        notes := response.value;
        store.notes := response.value;
        store.initialized := true;
        error := None;
      } else {
        error := Some(LoadError);
      }
      loading := false;
    }

    /** `handleAddNote`: the created note goes at the end of both copies. */
    method AddNote(response: Outcome<Note>)
      modifies this`notes, this`error, store`notes
      ensures response.Ok? ==> notes == old(notes) + [response.value] && store.notes == notes && error == old(error)
      ensures response.Failed? ==> notes == old(notes) && store.notes == old(store.notes) && error == Some(AddError)
    {
      if response.Ok? {
        notes := notes + [response.value];
        store.notes := notes;
      } else {
        error := Some(AddError);
      }
    }

    /** `handleUpdateNote`: nothing is requested without a note being edited. */
    method UpdateNote(editNote: Option<Note>, response: Outcome<Note>) returns (requested: bool)
      modifies this`notes, this`error, store`notes
      ensures requested <==> editNote.Some?
      ensures requested && response.Ok? ==>
        notes == ReplaceById(old(notes), editNote.value.id, response.value, NoteId) &&
        store.notes == notes && error == old(error)
      ensures requested && response.Failed? ==>
        notes == old(notes) && store.notes == old(store.notes) && error == Some(UpdateError)
      ensures !requested ==> notes == old(notes) && store.notes == old(store.notes) && error == old(error)
    {
      if editNote.None? {
        return false;
      }
      requested := true;
      if response.Ok? {
        notes := ReplaceById(notes, editNote.value.id, response.value, NoteId);
        store.notes := notes;
      } else {
        error := Some(UpdateError);
      }
    }

    /** `handleDeleteNote`: every note with the id leaves both copies. */
    method DeleteNote(id: int, response: Outcome<()>)
      modifies this`notes, this`error, store`notes
      ensures response.Ok? ==> notes == RemoveById(old(notes), id, NoteId) && store.notes == notes && error == old(error)
      ensures response.Failed? ==> notes == old(notes) && store.notes == old(store.notes) && error == Some(DeleteError)
    {
      if response.Ok? {
        notes := RemoveById(notes, id, NoteId);
        store.notes := notes;
      } else {
        error := Some(DeleteError);
      }
    }

    method SetSearchTerm(term: string)
      modifies this`searchTerm
      ensures searchTerm == term
    {
      searchTerm := term;
    }
  }
}
