/** Normalising thrown errors into `{message, code, status, details}`, and routing them to a form. */
module ErrorUtils {
  import opened Wrappers
  import opened JsValues

  /** What a failed call can throw. */
  datatype Thrown =
    | HttpError(status: int, data: JsValue)   // an AxiosError that carries a response
    | ErrorObject(message: string)            // any other Error, including an AxiosError without a response
    | NonError                                // a thrown value that is not an Error

  /** `ApiError`; an absent `code` is `Undefined`. */
  datatype ApiError = ApiError(
    message: string,
    code: JsValue,
    status: Option<int>,
    details: Option<map<string, seq<string>>>)

  const ValidationMessage := "입력 데이터에 오류가 있습니다."
  const UnknownErrorMessage := "알 수 없는 오류가 발생했습니다."
  const GenericStatusMessage := "오류가 발생했습니다."

  /** The status codes `getErrorMessageByStatus` has a message of its own for. */
  const StatusMessages: map<int, string> := map[
    400 := "잘못된 요청입니다.",
    401 := "인증이 필요합니다.",
    403 := "접근 권한이 없습니다.",
    404 := "요청한 리소스를 찾을 수 없습니다.",
    405 := "허용되지 않은 메서드입니다.",
    408 := "요청 시간이 초과되었습니다.",
    409 := "요청이 현재 서버의 상태와 충돌합니다.",
    429 := "너무 많은 요청을 보냈습니다. 잠시 후 다시 시도해주세요.",
    500 := "서버 내부 오류가 발생했습니다.",
    502 := "게이트웨이 오류가 발생했습니다.",
    503 := "서비스를 일시적으로 사용할 수 없습니다.",
    504 := "게이트웨이 시간 초과가 발생했습니다."]

  /** `getErrorMessageByStatus(status)`. */
  function GetErrorMessageByStatus(status: int): (m: string)
    ensures status in StatusMessages ==> m == StatusMessages[status]
    ensures m == GenericStatusMessage <==> status !in StatusMessages
  {
    if status in StatusMessages then StatusMessages[status] else GenericStatusMessage
  }

  /** The twelve listed codes have twelve different messages. */
  lemma StatusMessagesDistinct(a: int, b: int)
    requires a in StatusMessages && b in StatusMessages && a != b
    ensures GetErrorMessageByStatus(a) != GetErrorMessageByStatus(b)
  {
  }

  /** `typeof data === 'object' && data !== null`. */
  predicate IsObjectBody(data: JsValue)
  {
    data.Obj? || data.Arr?
  }

  /** The `[key, value]` pairs `Object.entries` gives for an array: index texts to elements. */
  function ArrayEntries(elems: seq<JsValue>): (m: map<string, JsValue>)
    ensures |elems| > 0 ==> NatToString(|elems| - 1) in m
  {
    if elems == [] then map[]
    else ArrayEntries(elems[..|elems| - 1])[NatToString(|elems| - 1) := elems[|elems| - 1]]
  }

  /** The decimal texts of the indices below `n`. */
  ghost function IndexTexts(n: nat): set<string>
  {
    set i | 0 <= i < n :: NatToString(i)
  }

  /** One more index adds its text. */
  lemma IndexTextsStep(n: nat)
    ensures IndexTexts(n + 1) == IndexTexts(n) + {NatToString(n)}
  {
    forall k | k in IndexTexts(n + 1)
      ensures k in IndexTexts(n) + {NatToString(n)}
    {
      var i :| 0 <= i < n + 1 && k == NatToString(i);
      if i < n {
        assert k in IndexTexts(n);
      }
    }
  }

  /** The array's entries are keyed by exactly its index texts. */
  lemma {:induction false} ArrayEntriesKeys(elems: seq<JsValue>)
    ensures ArrayEntries(elems).Keys == IndexTexts(|elems|)
  {
    if elems != [] {
      var n := |elems| - 1;
      ArrayEntriesKeys(elems[..n]);
      IndexTextsStep(n);
      assert ArrayEntries(elems).Keys == ArrayEntries(elems[..n]).Keys + {NatToString(n)};
    }
  }

  /** Each index text maps to the element at that index. */
  lemma {:induction false} ArrayEntriesValues(elems: seq<JsValue>, i: nat)
    requires i < |elems|
    ensures NatToString(i) in ArrayEntries(elems)
    ensures ArrayEntries(elems)[NatToString(i)] == elems[i]
  {
    var n := |elems| - 1;
    if i < n {
      ArrayEntriesValues(elems[..n], i);
      if NatToString(i) == NatToString(n) {
        NatToStringInjective(i, n);
      }
    }
  }

  /** `Object.entries(data)` for an object body, as a map. */
  function Entries(data: JsValue): map<string, JsValue>
    requires IsObjectBody(data)
  {
    if data.Obj? then data.fields else ArrayEntries(data.elems)
  }

  /** `data.detail`. */
  function DetailOf(data: JsValue): JsValue
  {
    if data.Obj? then Get(data.fields, "detail") else Undefined
  }

  /**
   * What the `forEach` of `parseApiError` records for one field: an array
   * becomes its elements as text, a string a one-element list, a non-null
   * object its JSON text; anything else is left out (`None`).
   */
  function FieldDetail(value: JsValue, stringify: JsValue -> string): (d: Option<seq<string>>)
    ensures d.None? <==> !(value.Arr? || value.Str? || value.Obj?)
    ensures value.Arr? ==> d == Some(seq(|value.elems|, i requires 0 <= i < |value.elems| => ToStr(value.elems[i])))
    ensures value.Str? ==> d == Some([value.s])
    ensures value.Obj? ==> d == Some([stringify(value)])
  {
    match value
    case Arr(vs) => Some(seq(|vs|, i requires 0 <= i < |vs| => ToStr(vs[i])))
    case Str(s) => Some([s])
    case Obj(_) => Some([stringify(value)])
    case _ => None
  }

  /** The `details` record `parseApiError` builds from a body's entries. */
  function DetailsOf(entries: map<string, JsValue>, stringify: JsValue -> string): (d: map<string, seq<string>>)
    ensures forall k :: k in d <==> k in entries && FieldDetail(entries[k], stringify).Some?
    ensures forall k :: k in d ==> d[k] == FieldDetail(entries[k], stringify).value
  {
    map k | k in entries && FieldDetail(entries[k], stringify).Some? :: FieldDetail(entries[k], stringify).value
  }

  /**
   * `parseApiError(error)` as a value; `stringify` stands for `JSON.stringify`.
   * The branches are, in order: a truthy `detail`, a non-empty object body, any
   * other HTTP error, and a non-HTTP error.
   */
  function ApiErrorOf(e: Thrown, stringify: JsValue -> string): (r: ApiError)
    ensures e.HttpError? && IsObjectBody(e.data) && Truthy(DetailOf(e.data)) ==>
      r == ApiError(ToStr(DetailOf(e.data)), Get(e.data.fields, "code"), Some(e.status), None)
    ensures e.HttpError? && IsObjectBody(e.data) && !Truthy(DetailOf(e.data)) && |Entries(e.data)| > 0 ==>
      r == ApiError(ValidationMessage, Undefined, Some(e.status), Some(DetailsOf(Entries(e.data), stringify)))
    ensures e.HttpError? && (!IsObjectBody(e.data) || (!Truthy(DetailOf(e.data)) && |Entries(e.data)| == 0)) ==>
      r == ApiError(GetErrorMessageByStatus(e.status), Undefined, Some(e.status), None)
    ensures e.ErrorObject? ==> r == ApiError(e.message, Undefined, None, None)
    ensures e.NonError? ==> r == ApiError(UnknownErrorMessage, Undefined, None, None)
    // Only the validation branch has details, and only HTTP errors have a status.
    ensures r.details.Some? ==> r.message == ValidationMessage
    ensures r.status.Some? <==> e.HttpError?
  {
    match e
    case HttpError(status, data) =>
      if IsObjectBody(data) && Truthy(DetailOf(data)) then
        ApiError(ToStr(DetailOf(data)), Get(data.fields, "code"), Some(status), None)
      else if IsObjectBody(data) && |Entries(data)| > 0 then
        ApiError(ValidationMessage, Undefined, Some(status), Some(DetailsOf(Entries(data), stringify)))
      else
        ApiError(GetErrorMessageByStatus(status), Undefined, Some(status), None)
    case ErrorObject(message) => ApiError(message, Undefined, None, None)
    case NonError => ApiError(UnknownErrorMessage, Undefined, None, None)
  }

  /** The `forEach` of `parseApiError`: `details` filled in one entry at a time. */
  method CollectDetails(entries: map<string, JsValue>, stringify: JsValue -> string) returns (details: map<string, seq<string>>)
    ensures details == DetailsOf(entries, stringify)
  {
    details := map[];
    var pending := entries.Keys;
    while pending != {}
      invariant pending <= entries.Keys
      invariant details == DetailsOf(entries - pending, stringify)
      decreases |pending|
    {
      var key :| key in pending;
      var d := FieldDetail(entries[key], stringify);
      if d.Some? {
        details := details[key := d.value];
      }
      pending := pending - {key};
    }
    assert entries - {} == entries;
  }

  /** `parseApiError(error)`. */
  method ParseApiError(e: Thrown, stringify: JsValue -> string) returns (r: ApiError)
    ensures r == ApiErrorOf(e, stringify)
  {
    match e {
      case HttpError(status, data) =>
        if IsObjectBody(data) && Truthy(DetailOf(data)) {
          r := ApiError(ToStr(DetailOf(data)), Get(data.fields, "code"), Some(status), None);
        } else if IsObjectBody(data) && |Entries(data)| > 0 {
          var details := CollectDetails(Entries(data), stringify);
          r := ApiError(ValidationMessage, Undefined, Some(status), Some(details));
        } else {
          r := ApiError(GetErrorMessageByStatus(status), Undefined, Some(status), None);
        }
      case ErrorObject(message) =>
        r := ApiError(message, Undefined, None, None);
      case NonError =>
        r := ApiError(UnknownErrorMessage, Undefined, None, None);
    }
  }

  /** `getErrorMessage(error)`: the message `parseApiError` settles on. */
  method GetErrorMessage(e: Thrown, stringify: JsValue -> string) returns (message: string)
    ensures message == ApiErrorOf(e, stringify).message
  {
    var apiError := ParseApiError(e, stringify);
    message := apiError.message;
  }

  /** One recorded `setError(name, {type, message})` call. */
  datatype FieldError = FieldError(field: string, kind: string, message: string)

  /** The `setError` calls a `details` record yields: each field with a message once, with its first message. */
  predicate ReportsDetails(calls: seq<FieldError>, details: map<string, seq<string>>)
  {
    && (forall i :: 0 <= i < |calls| ==>
          && calls[i].field in details
          && |details[calls[i].field]| > 0
          && calls[i].message == details[calls[i].field][0]
          && calls[i].kind == "manual")
    && (forall f :: f in details && |details[f]| > 0 ==> exists i :: 0 <= i < |calls| && calls[i].field == f)
    && (forall i, j :: 0 <= i < j < |calls| ==> calls[i].field != calls[j].field)
  }

  /** The `forEach` of `handleFormErrors` over `apiError.details`. */
  method ReportFieldErrors(details: map<string, seq<string>>) returns (calls: seq<FieldError>)
    ensures ReportsDetails(calls, details)
  {
    calls := [];
    var pending := details.Keys;
    while pending != {}
      invariant pending <= details.Keys
      invariant forall i :: 0 <= i < |calls| ==>
        && calls[i].field in details && calls[i].field !in pending
        && |details[calls[i].field]| > 0
        && calls[i].message == details[calls[i].field][0]
        && calls[i].kind == "manual"
      invariant forall f :: f in details && f !in pending && |details[f]| > 0 ==>
        exists i :: 0 <= i < |calls| && calls[i].field == f
      invariant forall i, j :: 0 <= i < j < |calls| ==> calls[i].field != calls[j].field
      decreases |pending|
    {
      var field :| field in pending;
      var messages := details[field];
      ghost var before := calls;
      if |messages| > 0 {
        calls := calls + [FieldError(field, "manual", messages[0])];
      }
      forall f | f in details && f !in pending - {field} && |details[f]| > 0
        ensures exists i :: 0 <= i < |calls| && calls[i].field == f
      {
        if f == field {
          assert calls[|calls| - 1].field == f;
        } else {
          var i :| 0 <= i < |before| && before[i].field == f;
          assert calls[i] == before[i];
        }
      }
      pending := pending - {field};
    }
  }

  /**
   * `handleFormErrors(error, setError)`: the `setError` calls it makes, in call
   * order, and the text it would toast. With details, every field that has a
   * message is reported and nothing is toasted; without, only the toast.
   */
  method HandleFormErrors(e: Thrown, stringify: JsValue -> string) returns (calls: seq<FieldError>, toast: Option<string>)
    ensures var a := ApiErrorOf(e, stringify);
      && (toast.Some? <==> a.details.None?)
      && (toast.Some? ==> toast.value == a.message)
      && (a.details.None? ==> calls == [])
      && (a.details.Some? ==> ReportsDetails(calls, a.details.value))
  {
    var apiError := ParseApiError(e, stringify);
    if apiError.details.Some? {
      calls := ReportFieldErrors(apiError.details.value);
      toast := None;
    } else {
      calls := [];
      toast := Some(apiError.message);
    }
  }
}
