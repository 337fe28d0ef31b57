/** The `NoteForm` dialog of the older front end: its content field and the blank-content check. */
module LegacyNoteForm {
  import opened Wrappers
  import opened Text
  import opened ApiTypes

  class NoteFormState {
    var content: string
    var contentError: bool

    constructor ()
      ensures content == "" && !contentError
    {
      content := "";
      contentError := false;
    }

    /** The effect on `[initialData, open]`: the edited note's content, or empty for a new note. */
    method Reset(initialData: Option<Note>)
      modifies this`content
      ensures content == if initialData.Some? then initialData.value.content else ""
    {
      content := if initialData.Some? then initialData.value.content else "";
    }

    /** Typing in the content field: a non-blank value clears the error. */
    method ChangeContent(value: string)
      modifies this`content, this`contentError
      ensures content == value
      ensures Trim(value) != "" ==> !contentError
      ensures Trim(value) == "" ==> contentError == old(contentError)
    {
      content := value;
      if Trim(value) != "" {
        contentError := false;
      }
    }

    /**
     * `handleSubmit`: content of only whitespace is refused and flagged;
     * otherwise the content, untrimmed, goes to `onSubmit` (returned as
     * `submitted`) and the dialog closes.
     */
    method HandleSubmit() returns (submitted: Option<NoteInput>)
      modifies this`contentError
      ensures submitted.None? <==> AllWhitespace(content)
      ensures submitted.None? ==> contentError
      ensures submitted.Some? ==> contentError == old(contentError) && submitted.value == NoteInput(content)
    {
      TrimEmptyIffAllWhitespace(content);
      if Trim(content) == "" {
        contentError := true;
        return None;
      }
      submitted := Some(NoteInput(content));
    }
  }
}
