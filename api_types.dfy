/**
 * The records the REST API exchanges. Timestamps (`created_at`) are
 * milliseconds since the epoch; `due_date` keeps the wire text ("YYYY-MM-DD"),
 * because the today view compares that text, and may be absent (`null`).
 */
module ApiTypes {
  import opened Wrappers

  datatype Priority = High | Medium | Low
  datatype Status = Pending | Completed

  /** The wire spelling of a priority. */
  function PriorityName(p: Priority): string
  {
    match p
    case High => "High"
    case Medium => "Medium"
    case Low => "Low"
  }

  /** The wire spelling of a status. */
  function StatusName(s: Status): string
  {
    match s
    case Pending => "Pending"
    case Completed => "Completed"
  }

  datatype Todo = Todo(
    id: int,
    task: string,
    dueDate: Option<string>,
    priority: Priority,
    status: Status,
    createdAt: int)

  datatype Note = Note(id: int, content: string, createdAt: int)

  /** The body a form sends to create or update a todo. */
  datatype TodoInput = TodoInput(task: string, priority: Priority, status: Status, dueDate: Option<string>)

  /** The body a form sends to create or update a note. */
  datatype NoteInput = NoteInput(content: string)

  function TodoId(t: Todo): int
  {
    t.id
  }

  function NoteId(n: Note): int
  {
    n.id
  }

  /**
   * A `next`/`previous` link of a page. `new URL(text)` either throws or
   * yields the value of its `page` query parameter; an empty or missing
   * parameter is `None`.
   */
  datatype PageUrl = Unparsable | ParsedUrl(page: Option<int>)

  /** A page of results; a `null` (or empty) link is `None`. */
  datatype PaginatedResponse<T> = PaginatedResponse(
    count: int,
    next: Option<PageUrl>,
    previous: Option<PageUrl>,
    results: seq<T>)

  /** A slot that `Array.isArray` may accept or reject. */
  datatype MaybeArray<T> = IsArray(items: seq<T>) | NotArray

  /**
   * The shapes a list endpoint's `response.data` can take in the older
   * components: a bare array, an object whose `results` is an array, an object
   * with a `results` key holding something else, or any other value.
   */
  datatype ListBody<T> =
    | BareArray(items: seq<T>)
    | ResultsArray(results: seq<T>)
    | ResultsNotArray
    | NoResults
}
