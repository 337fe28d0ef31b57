/** The dashboard page: the todo and note counters and the 50-character note preview. */
module Dashboard {
  import opened Wrappers
  import opened Text
  import opened ApiTypes
  import opened Sequences

  datatype TodoStats = TodoStats(total: int, completed: nat, pending: nat, highPriority: nat)
  datatype NoteStats = NoteStats(total: int, recentCount: nat)

  predicate IsCompleted(t: Todo) { t.status == Completed }
  predicate IsPending(t: Todo) { t.status == Pending }
  predicate IsHighPriority(t: Todo) { t.priority == High }

  /**
   * `todoStats`: the count of the whole list, and for each counter the
   * number of the page's todos that match it; no data gives zeros.
   */
  function TodoStatsOf(data: Option<PaginatedResponse<Todo>>): (s: TodoStats)
    ensures data.None? ==> s == TodoStats(0, 0, 0, 0)
    ensures data.Some? ==> s.total == data.value.count
    ensures data.Some? ==> s.completed == |PassingIndices(data.value.results, IsCompleted)|
    ensures data.Some? ==> s.pending == |PassingIndices(data.value.results, IsPending)|
    ensures data.Some? ==> s.highPriority == |PassingIndices(data.value.results, IsHighPriority)|
    ensures data.Some? ==> s.highPriority <= |data.value.results|
  {
    if data.None? then TodoStats(0, 0, 0, 0)
    else
      var rs := data.value.results;
      CountIsPassingIndices(rs, IsCompleted);
      CountIsPassingIndices(rs, IsPending);
      CountIsPassingIndices(rs, IsHighPriority);
      TodoStats(data.value.count, Count(rs, IsCompleted), Count(rs, IsPending), Count(rs, IsHighPriority))
  }

  /** Every todo on the page is either completed or pending, so the two counts add up to the page's length. */
  lemma CompletedPlusPendingIsPage(data: PaginatedResponse<Todo>)
    ensures TodoStatsOf(Some(data)).completed + TodoStatsOf(Some(data)).pending == |data.results|
  {
    FilterComplement(data.results, IsCompleted, IsPending);
  }

  /** `noteStats`: the count of all notes and the length of the page. */
  function NoteStatsOf(data: Option<PaginatedResponse<Note>>): (s: NoteStats)
    ensures data.None? ==> s == NoteStats(0, 0)
    ensures data.Some? ==> s.total == data.value.count && s.recentCount == |data.value.results|
  {
    if data.None? then NoteStats(0, 0)
    else NoteStats(data.value.count, |data.value.results|)
  }

  /** A recent note's preview: more than 50 characters are cut to 50 and '...'. */
  function NotePreview(content: string): (r: string)
    ensures |content| <= 50 ==> r == content
    ensures |content| > 50 ==> r == content[..50] + "..."
  {
    var e := Ellipsize(content, 50);
    assert |content| > 50 ==> e == e[..50] + e[50..];
    e
  }
}
