/** The `NoteCard` component: the card title and the 150-character content summary. */
module NoteCard {
  import opened JsValues
  import opened Text
  import opened Numeric
  import opened ApiTypes

  const SummaryLength := 150

  /** `summarizeContent(content)`: at most 150 characters, then '...' when cut. */
  function SummarizeContent(content: string): string
  {
    Ellipsize(content, SummaryLength)
  }

  /**
   * Short content is shown whole; longer content is cut to its first 150
   * characters followed by '...', 153 in all; either way the summary begins
   * with the first `min(length, 150)` characters.
   */
  lemma SummaryShape(content: string)
    ensures |content| <= 150 ==> SummarizeContent(content) == content
    ensures |content| > 150 ==> SummarizeContent(content) == content[..150] + "..."
    ensures |content| > 150 ==> |SummarizeContent(content)| == 153
    ensures var n := Min(|content|, 150); content[..n] <= SummarizeContent(content)
  {
    var r := SummarizeContent(content);
    if |content| > 150 {
      assert r[..150] == content[..150] && r[150..] == "...";
      assert r == r[..150] + r[150..];
    }
  }

  /** The card title `노트 #<id>`. */
  function CardTitle(note: Note): string
  {
    "노트 #" + IntToString(note.id)
  }

  /** The title names the note: notes with different ids get different titles. */
  lemma CardTitleNamesNote(a: Note, b: Note)
    requires CardTitle(a) == CardTitle(b)
    ensures a.id == b.id
  {
    var prefix := "노트 #";
    assert CardTitle(a)[|prefix|..] == IntToString(a.id);
    assert CardTitle(b)[|prefix|..] == IntToString(b.id);
    IntToStringInjective(a.id, b.id);
  }
}
