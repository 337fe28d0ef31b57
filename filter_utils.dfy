/** Query-parameter cleaning and the priority/status colour tables. */
module FilterUtils {
  import opened Wrappers
  import opened JsValues
  import opened ApiTypes

  /** The values `removeEmptyValues` drops: `undefined`, `null` and the empty string. */
  predicate IsEmptyValue(v: JsValue)
  {
    v == Undefined || v == Null || v == Str("")
  }

  /** `removeEmptyValues(obj)`: the entries whose value is not empty, unchanged. */
  function RemoveEmptyValues(obj: map<string, JsValue>): (r: map<string, JsValue>)
    ensures forall k :: k in r <==> k in obj && !IsEmptyValue(obj[k])
    ensures forall k :: k in r ==> r[k] == obj[k]
  {
    map k | k in obj && !IsEmptyValue(obj[k]) :: obj[k]
  }

  /** Cleaning twice is cleaning once. */
  lemma RemoveEmptyValuesIdempotent(obj: map<string, JsValue>)
    ensures RemoveEmptyValues(RemoveEmptyValues(obj)) == RemoveEmptyValues(obj)
  {
  }

  /** `0` and `false` are kept: only the three empty values are dropped. */
  lemma FalsyButNotEmptySurvives(obj: map<string, JsValue>, k: string)
    requires k in obj && (obj[k] == Num(0) || obj[k] == Bool(false))
    ensures k in RemoveEmptyValues(obj) && RemoveEmptyValues(obj)[k] == obj[k]
  {
  }

  /** The keys of `TodoFilterOptions`. */
  const TodoFilterKeys: set<string> := {"priority", "status", "search", "ordering", "page"}

  /** The keys of `NoteFilterOptions`. */
  const NoteFilterKeys: set<string> := {"search", "ordering", "page"}

  /** The object `{k1: options.k1, ...}` over the given keys, with missing keys read as `undefined`. */
  function Pick(options: map<string, JsValue>, keys: set<string>): (r: map<string, JsValue>)
    ensures r.Keys == keys
    ensures forall k :: k in keys ==> r[k] == Get(options, k)
  {
    map k | k in keys :: Get(options, k)
  }

  /** `createTodoFilterOptions(options)`. */
  function CreateTodoFilterOptions(options: map<string, JsValue>): (r: map<string, JsValue>)
    ensures r.Keys <= TodoFilterKeys
    ensures forall k :: k in r ==> k in options && r[k] == options[k]
    ensures forall k :: k in TodoFilterKeys && k in options && !IsEmptyValue(options[k]) ==> k in r
  {
    RemoveEmptyValues(Pick(options, TodoFilterKeys))
  }

  /** `createNoteFilterOptions(options)`: priority and status never pass. */
  function CreateNoteFilterOptions(options: map<string, JsValue>): (r: map<string, JsValue>)
    ensures r.Keys <= NoteFilterKeys
    ensures "priority" !in r && "status" !in r
    ensures forall k :: k in r ==> k in options && r[k] == options[k]
    ensures forall k :: k in NoteFilterKeys && k in options && !IsEmptyValue(options[k]) ==> k in r
  {
    RemoveEmptyValues(Pick(options, NoteFilterKeys))
  }

  /** A value of Next.js's `router.query`: a string, a repeated parameter, or absent. */
  datatype QueryValue = QueryUndefined | QueryString(s: string) | QueryArray(items: seq<string>)

  /**
   * `parseQueryParams(query)`. A repeated parameter gives its first value;
   * `value[0]` of an empty array is `undefined`, written `None`.
   */
  function ParseQueryParams(query: map<string, QueryValue>): (r: map<string, Option<string>>)
    ensures forall k :: k in r <==> k in query && !query[k].QueryUndefined?
    ensures forall k :: k in r && query[k].QueryString? ==> r[k] == Some(query[k].s)
    ensures forall k :: k in r && query[k].QueryArray? && |query[k].items| > 0 ==> r[k] == Some(query[k].items[0])
    ensures forall k :: k in r && query[k].QueryArray? && |query[k].items| == 0 ==> r[k] == None
  {
    map k | k in query && !query[k].QueryUndefined? ::
      match query[k]
      case QueryString(s) => Some(s)
      case QueryArray(items) => if |items| > 0 then Some(items[0]) else None
  }

  const Red := "#f44336"
  const Orange := "#ff9800"
  const Green := "#4caf50"
  const Blue := "#2196f3"
  const Grey := "#757575"

  /** `getPriorityColor(priority)`. */
  function GetPriorityColor(priority: string): (c: string)
    ensures c == Red <==> priority == "High"
    ensures c == Orange <==> priority == "Medium"
    ensures c == Green <==> priority == "Low"
    ensures c == Grey <==> priority !in {"High", "Medium", "Low"}
  {
    if priority == "High" then Red
    else if priority == "Medium" then Orange
    else if priority == "Low" then Green
    else Grey
  }

  /** `getStatusColor(status)`. */
  function GetStatusColor(status: string): (c: string)
    ensures c == Green <==> status == "Completed"
    ensures c == Blue <==> status == "Pending"
    ensures c == Grey <==> status !in {"Completed", "Pending"}
  {
    if status == "Completed" then Green
    else if status == "Pending" then Blue
    else Grey
  }

  /** Every priority a todo can carry gets its own colour, never the fallback grey. */
  lemma PriorityColorsTellPrioritiesApart(p: Priority, q: Priority)
    ensures GetPriorityColor(PriorityName(p)) != Grey
    ensures GetPriorityColor(PriorityName(p)) == GetPriorityColor(PriorityName(q)) <==> p == q
  {
  }

  /** The same for statuses. */
  lemma StatusColorsTellStatusesApart(s: Status, t: Status)
    ensures GetStatusColor(StatusName(s)) != Grey
    ensures GetStatusColor(StatusName(s)) == GetStatusColor(StatusName(t)) <==> s == t
  {
  }

  /** An option of a select input: the wire value and its Korean label (`caption`). */
  datatype SelectOption = SelectOption(value: string, caption: string)

  /** `todoPriorityOptions`. */
  const TodoPriorityOptions: seq<SelectOption> :=
    [SelectOption("High", "높음"), SelectOption("Medium", "중간"), SelectOption("Low", "낮음")]

  /** `todoStatusOptions`. */
  const TodoStatusOptions: seq<SelectOption> :=
    [SelectOption("Pending", "진행 중"), SelectOption("Completed", "완료")]

  /** The label of the first option whose value is strictly equal to `v`. */
  function OptionCaption(options: seq<SelectOption>, v: JsValue): (r: Option<string>)
    ensures r.None? <==> forall i :: 0 <= i < |options| ==> v != Str(options[i].value)
    ensures r.Some? ==> exists i :: 0 <= i < |options| && v == Str(options[i].value) && r.value == options[i].caption &&
                          forall j :: 0 <= j < i ==> v != Str(options[j].value)
  {
    if options == [] then None
    else if v == Str(options[0].value) then Some(options[0].caption)
    else
      var r := OptionCaption(options[1..], v);
      if r.Some? then
        ghost var i :| 0 <= i < |options[1..]| && v == Str(options[1..][i].value) && r.value == options[1..][i].caption &&
                       forall j :: 0 <= j < i ==> v != Str(options[1..][j].value);
        assert options[i + 1] == options[1..][i] && forall j :: 0 <= j < i + 1 ==> v != Str(options[j].value);
        r
      else r
  }
}
