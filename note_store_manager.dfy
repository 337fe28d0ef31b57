/**
 * The `NoteStoreManager` singleton of the older front end: a notes array and
 * an `initialized` flag, mirrored to the `notes` entry of the browser's
 * storage. The stored entry is kept as the value `JSON.parse` gives back for
 * it (`StoredNotes`); the entry is written as the JSON of the notes with a
 * truthy id, so reading it back gives exactly those notes.
 */
module NoteStoreService {
  import opened Wrappers
  import opened ApiTypes
  import opened Sequences

  /**
   * The `notes` storage entry: `None` when nothing (or the empty string) is
   * stored, `Some(NotArray)` when it does not parse or parses to something
   * other than an array, `Some(IsArray(ns))` when it parses to the array `ns`.
   */
  type StoredNotes = Option<MaybeArray<Note>>

  /** `note && note.id`: a note whose id is not 0. */
  predicate HasTruthyId(n: Note)
  {
    n.id != 0
  }

  /** What `saveToLocalStorage` writes for `notes`: the notes with a truthy id, in order. */
  function Saved(notes: seq<Note>): (stored: StoredNotes)
    ensures stored.Some? && stored.value.IsArray?
    ensures forall i :: 0 <= i < |stored.value.items| ==> HasTruthyId(stored.value.items[i])
    ensures forall i :: 0 <= i < |notes| ==> (notes[i] in stored.value.items <==> HasTruthyId(notes[i]))
  {
    Some(IsArray(Filter(notes, HasTruthyId)))
  }

  /** `loadFromLocalStorage` adopts the stored list only when it parses to a non-empty array. */
  predicate Adopts(stored: StoredNotes)
  {
    stored.Some? && stored.value.IsArray? && |stored.value.items| > 0
  }

  /**
   * Saving and loading again gives back exactly the saved notes when every
   * note has a truthy id, and nothing is adopted when none has.
   */
  lemma SaveThenLoad(notes: seq<Note>)
    ensures Adopts(Saved(notes)) <==> exists i :: 0 <= i < |notes| && HasTruthyId(notes[i])
    ensures (forall i :: 0 <= i < |notes| ==> HasTruthyId(notes[i])) ==> Saved(notes).value.items == notes
  {
    var kept := Saved(notes).value.items;
    if exists i :: 0 <= i < |notes| && HasTruthyId(notes[i]) {
      var i :| 0 <= i < |notes| && HasTruthyId(notes[i]);
      assert notes[i] in kept;
    }
    if |kept| > 0 {
      assert kept[0] in notes && HasTruthyId(kept[0]);
      var j :| 0 <= j < |notes| && notes[j] == kept[0];
      assert HasTruthyId(notes[j]);
    }
    if forall i :: 0 <= i < |notes| ==> HasTruthyId(notes[i]) {
      FilterKeepsAll(notes, HasTruthyId);
    }
  }

  /** Saving what was saved writes the same entry again. */
  lemma SaveIdempotent(notes: seq<Note>)
    ensures Saved(Saved(notes).value.items) == Saved(notes)
  {
    FilterIdempotent(notes, HasTruthyId);
  }

  class NoteStoreManager {
    var notes: seq<Note>
    var initialized: bool
    /** The browser's `notes` storage entry. */
    var stored: StoredNotes

    /** The storage entry mirrors the notes, as after every successful mutation. */
    ghost predicate Mirrored()
      reads this
    {
      stored == Saved(notes)
    }

    /** The private constructor, which loads the stored list. */
    constructor (stored: StoredNotes)
      ensures this.stored == stored
      ensures Adopts(stored) ==> notes == stored.value.items && initialized
      ensures !Adopts(stored) ==> notes == [] && !initialized
    {
      notes := [];
      initialized := false;
      this.stored := stored;
      new;
      LoadFromLocalStorage();
    }

    method LoadFromLocalStorage()
      modifies this`notes, this`initialized
      ensures Adopts(stored) ==> notes == stored.value.items && initialized
      ensures !Adopts(stored) ==> notes == old(notes) && initialized == old(initialized)
    {
      if Adopts(stored) {
        notes := stored.value.items;
        initialized := true;
      }
    }

    method SaveToLocalStorage()
      modifies this`stored
      ensures Mirrored()
    {
      stored := Saved(notes);
    }

    /** `setNotes(notes)`: only an array is adopted. */
    method SetNotes(given: MaybeArray<Note>)
      modifies this`notes, this`initialized, this`stored
      ensures given.IsArray? ==> notes == given.items && initialized && Mirrored()
      ensures given.NotArray? ==>
        notes == old(notes) && initialized == old(initialized) && stored == old(stored)
    {
      if given.IsArray? {
        notes := given.items;
        initialized := true;
        SaveToLocalStorage();
      }
    }

    /** `addNote(note)`: appended only when its id is truthy. */
    method AddNote(note: Note)
      modifies this`notes, this`initialized, this`stored
      ensures HasTruthyId(note) ==> notes == old(notes) + [note] && initialized && Mirrored()
      ensures !HasTruthyId(note) ==>
        notes == old(notes) && initialized == old(initialized) && stored == old(stored)
    {
      if HasTruthyId(note) {
        notes := notes + [note];
        initialized := true;
        SaveToLocalStorage();
      }
    }

    /** `updateNote(note)`: replace-by-id; the length and `initialized` stay. */
    method UpdateNote(note: Note)
      modifies this`notes, this`stored
      ensures HasTruthyId(note) ==> notes == ReplaceById(old(notes), note.id, note, NoteId) && Mirrored()
      ensures !HasTruthyId(note) ==> notes == old(notes) && stored == old(stored)
    {
      if HasTruthyId(note) {
        notes := ReplaceById(notes, note.id, note, NoteId);
        SaveToLocalStorage();
      }
    }

    /** `deleteNote(id)`: every note with the id goes; id 0 is ignored. */
    method DeleteNote(id: int)
      modifies this`notes, this`stored
      ensures id != 0 ==> notes == RemoveById(old(notes), id, NoteId) && Mirrored()
      ensures id == 0 ==> notes == old(notes) && stored == old(stored)
    {
      if id != 0 {
        notes := RemoveById(notes, id, NoteId);
        SaveToLocalStorage();
      }
    }

    method SetInitialized(initialized: bool)
      modifies this`initialized
      ensures this.initialized == initialized
    {
      this.initialized := initialized;
    }
  }

  /** Holds `NoteStoreManager.instance`, the one manager of the page. */
  class NoteStoreRegistry {
    var instance: Option<NoteStoreManager>

    constructor ()
      ensures instance == None
    {
      instance := None;
    }

    /** `getInstance()`: built from the storage on the first call, the same object on every later one. */
    method GetInstance(stored: StoredNotes) returns (m: NoteStoreManager)
      modifies this
      ensures instance == Some(m)
      ensures old(instance).Some? ==> m == old(instance).value
      ensures old(instance).None? ==> fresh(m) && m.stored == stored
      ensures old(instance).None? && Adopts(stored) ==> m.notes == stored.value.items && m.initialized
      ensures old(instance).None? && !Adopts(stored) ==> m.notes == [] && !m.initialized
    {
      if instance.Some? {
        m := instance.value;
      } else {
        m := new NoteStoreManager(stored);
        instance := Some(m);
      }
    }
  }
}
