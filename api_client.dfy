/**
 * The Next.js front-end's HTTP client and the retry policy of its query
 * provider: how a failed response or a thrown exception becomes an
 * `ApiError`, how a `GET` URL is built, when a `DELETE` carries a body,
 * and how many times a failed query or mutation is retried.
 */
module ApiClient {
  import opened Wrappers
  import opened Seqs
  import opened Strings
  import opened JsUtils
  import opened LegacyApi

  /** The error the client throws: a message, an HTTP status (0 for no response) and the status text. */
  datatype ApiError = ApiError(message: string, status: int, statusText: string)

  // ---------------------------------------------------------------------------
  // Error responses
  // ---------------------------------------------------------------------------

  /** One entry of a FastAPI validation `detail` list: its `msg` ("" when absent) and its own text. */
  datatype DetailItem = DetailItem(msg: string, text: string)

  /** The `detail` member of a JSON error body: a list of entries or a single value. */
  datatype Detail = DetailList(items: seq<DetailItem>) | DetailText(s: string)

  /**
   * The body of a non-ok response as the client reads it: JSON with
   * optional `detail` and `message` members, plain text, or a body whose
   * reading failed.
   */
  datatype ErrorBody =
    | JsonBody(detail: Option<Detail>, message: Option<string>)
    | TextBody(text: string)
    | Unreadable

  /** The message used when the body says nothing better. */
  function DefaultErrorMessage(status: int): (r: string)
    ensures StartsWith(r, "HTTP error! status: ") && r[20..] == IntToString(status)
  {
    "HTTP error! status: " + IntToString(status)
  }

  /** An entry's `msg`, or the entry itself when it has none. */
  function ItemMessage(item: DetailItem): string {
    if item.msg != "" then item.msg else item.text
  }

  /** Whether a `detail` member counts as present: any list does, a string only when non-empty. */
  predicate DetailTruthy(d: Detail) {
    d.DetailList? || d.s != ""
  }

  /** The message of the `ApiError` thrown for a non-ok response. */
  function ErrorMessage(status: int, body: ErrorBody): string {
    match body
    case JsonBody(detail, message) =>
      if detail.Some? && DetailTruthy(detail.value) then
        match detail.value
        case DetailList(items) => Join(Map(items, ItemMessage), ", ")
        case DetailText(s) => s
      else if message.Some? && message.value != "" then message.value
      else DefaultErrorMessage(status)
    case TextBody(text) => if text != "" then text else DefaultErrorMessage(status)
    case Unreadable => DefaultErrorMessage(status)
  }

  /** The error thrown for a non-ok response: its status and status text are the response's. */
  function ResponseError(status: int, statusText: string, body: ErrorBody): (e: ApiError)
    ensures e.status == status && e.statusText == statusText
  {
    ApiError(ErrorMessage(status, body), status, statusText)
  }

  /**
   * Whether the message falls back to the default: the body could not be
   * read, is empty text, or is JSON with neither a truthy `detail` nor a
   * non-empty `message`.
   */
  predicate FallsBack(body: ErrorBody) {
    match body
    case JsonBody(detail, message) =>
      !(detail.Some? && DetailTruthy(detail.value)) && !(message.Some? && message.value != "")
    case TextBody(text) => text == ""
    case Unreadable => true
  }

  /**
   * Which message a non-ok response yields. The bodies that fall back are
   * exactly an unreadable body, empty text, and JSON whose `detail` is
   * absent or `""` and whose `message` is absent or `""`; they give the
   * default, which names the status. Every other body gives a message that
   * does not depend on the status at all: non-empty text wins; a non-empty
   * `detail` string wins over `message`; a one-entry `detail` list gives
   * that entry's message.
   */
  lemma ErrorMessageSpec(status: int, otherStatus: int, body: ErrorBody)
    ensures FallsBack(body) <==>
      || body.Unreadable?
      || body == TextBody("")
      || (body.JsonBody? && (body.detail.None? || body.detail == Some(DetailText("")))
                         && (body.message.None? || body.message == Some("")))
    ensures FallsBack(body) ==> ErrorMessage(status, body) == DefaultErrorMessage(status)
    ensures !FallsBack(body) ==> ErrorMessage(status, body) == ErrorMessage(otherStatus, body)
    ensures body.TextBody? && body.text != "" ==> ErrorMessage(status, body) == body.text
    ensures body.JsonBody? && body.detail.Some? && body.detail.value.DetailText? && body.detail.value.s != "" ==>
      ErrorMessage(status, body) == body.detail.value.s
    ensures body.JsonBody? && (body.detail.None? || body.detail == Some(DetailText(""))) && body.message.Some? && body.message.value != "" ==>
      ErrorMessage(status, body) == body.message.value
    ensures body.JsonBody? && body.detail.Some? && body.detail.value.DetailList? && |body.detail.value.items| == 1 ==>
      ErrorMessage(status, body) == ItemMessage(body.detail.value.items[0])
  {
  }

  /**
   * A `detail` list gives its entries' messages joined by `, `, whatever
   * `message` says: nothing for no entries, the one entry's message for
   * one, and the first entry's message, `, ` and the rest's message for
   * more.
   */
  lemma ErrorMessageDetailList(status: int, items: seq<DetailItem>, message: Option<string>)
    ensures items == [] ==> ErrorMessage(status, JsonBody(Some(DetailList(items)), message)) == ""
    ensures |items| == 1 ==> ErrorMessage(status, JsonBody(Some(DetailList(items)), message)) == ItemMessage(items[0])
    ensures |items| > 1 ==>
      ErrorMessage(status, JsonBody(Some(DetailList(items)), message))
      == ItemMessage(items[0]) + ", " + ErrorMessage(status, JsonBody(Some(DetailList(items[1..])), None))
  {
    if |items| > 1 {
      var msgs := Map(items, ItemMessage);
      assert msgs[1..] == Map(items[1..], ItemMessage);
    }
  }

  /** Different statuses give different default messages. */
  lemma DefaultMessageNamesStatus(s: int, t: int)
    ensures DefaultErrorMessage(s) == DefaultErrorMessage(t) ==> s == t
  {
    if DefaultErrorMessage(s) == DefaultErrorMessage(t) {
      assert IntToString(s) == IntToString(t) by {
        assert DefaultErrorMessage(s)[20..] == DefaultErrorMessage(t)[20..];
      }
      IntToStringInjective(s, t);
    }
  }

  // ---------------------------------------------------------------------------
  // Exceptions
  // ---------------------------------------------------------------------------

  /** What `request` can catch: its own `ApiError`, a `TypeError`, another `Error`, or any other value. */
  datatype Thrown =
    | ThrownApiError(e: ApiError)
    | ThrownTypeError(typeMessage: string)
    | ThrownError(errorMessage: string)
    | ThrownValue

  const NetworkMessage := "Network error: Unable to connect to server. Please check your connection."

  /** The `ApiError` that `request` rethrows for what it caught. */
  function Rethrown(t: Thrown): (e: ApiError)
    ensures t.ThrownApiError? ==> e == t.e
    ensures !t.ThrownApiError? ==> e.status == 0 && e.message != ""
  {
    match t
    case ThrownApiError(e) => e
    case ThrownTypeError(m) =>
      if Contains(m, "fetch") then ApiError(NetworkMessage, 0, "Network Error")
      else ApiError(if m != "" then m else "Network error occurred", 0, "Network Error")
    case ThrownError(m) => ApiError(if m != "" then m else "Network error occurred", 0, "Network Error")
    case ThrownValue => ApiError("An unexpected error occurred", 0, "Unknown Error")
  }

  // ---------------------------------------------------------------------------
  // Retry policy
  // ---------------------------------------------------------------------------

  /** What the retry policy sees of an error: an API error's status, or nothing for other errors. */
  function StatusOf(e: Option<ApiError>): Option<int> {
    if e.Some? then Some(e.value.status) else None
  }

  predicate IsClientError(status: Option<int>) {
    status.Some? && 400 <= status.value < 500
  }

  /** The query `retry` option: never for 4xx, three tries for status 0, two otherwise. */
  function QueryRetry(failureCount: nat, status: Option<int>): bool {
    if IsClientError(status) then false
    else if status == Some(0) then failureCount < 3
    else failureCount < 2
  }

  /** The mutation `retry` option: never for 4xx, one try otherwise. */
  function MutationRetry(failureCount: nat, status: Option<int>): bool {
    if IsClientError(status) then false else failureCount < 1
  }

  /** How many failures each policy tolerates before it stops retrying. */
  function QueryRetryLimit(status: Option<int>): (n: nat)
    ensures n <= 3
    ensures n == 0 <==> IsClientError(status)
  {
    if IsClientError(status) then 0 else if status == Some(0) then 3 else 2
  }

  /**
   * A query is retried exactly while fewer failures than the limit have
   * happened; a mutation at most once, and only when a query would be.
   */
  lemma RetrySpec(failureCount: nat, status: Option<int>)
    ensures QueryRetry(failureCount, status) <==> failureCount < QueryRetryLimit(status)
    ensures MutationRetry(failureCount, status) <==> !IsClientError(status) && failureCount < 1
    ensures MutationRetry(failureCount, status) ==> QueryRetry(failureCount, status)
  {
  }

  /** Once a policy says stop, it says stop for every later failure count. */
  lemma RetryMonotone(n: nat, m: nat, status: Option<int>)
    requires n <= m
    ensures !QueryRetry(n, status) ==> !QueryRetry(m, status)
    ensures !MutationRetry(n, status) ==> !MutationRetry(m, status)
  {
  }

  /**
   * An exception that is not an `ApiError` becomes one with status 0, so
   * a query that fails that way is retried after its first three failures
   * and not after more.
   */
  lemma ThrownNetworkRetries(t: Thrown, failureCount: nat)
    requires !t.ThrownApiError?
    ensures QueryRetry(failureCount, StatusOf(Some(Rethrown(t)))) <==> failureCount < 3
  {
  }

  /** A 4xx response is never retried, by either policy. */
  lemma ClientErrorsNotRetried(status: int, statusText: string, body: ErrorBody, failureCount: nat)
    requires 400 <= status < 500
    ensures !QueryRetry(failureCount, StatusOf(Some(ResponseError(status, statusText, body))))
    ensures !MutationRetry(failureCount, StatusOf(Some(ResponseError(status, statusText, body))))
  {
  }

  // ---------------------------------------------------------------------------
  // Requests
  // ---------------------------------------------------------------------------

  /**
   * `get`: with parameters supplied (even none), `?` and the encoded
   * query follow the endpoint; without, the endpoint alone.
   */
  function ClientGetUrl(endpoint: string, params: Option<seq<(string, string)>>, encode: string -> string): (url: string)
    ensures StartsWith(url, endpoint)
    ensures params.None? <==> url == endpoint
  {
    if params.Some? then endpoint + "?" + QueryString(params.value, encode) else endpoint
  }

  /**
   * With at least one parameter the Next.js client and the legacy client
   * build the same URL; with an empty parameter object the Next.js client
   * still appends a bare `?`.
   */
  lemma ClientGetUrlVersusLegacy(endpoint: string, params: seq<(string, string)>, encode: string -> string)
    ensures params != [] ==> ClientGetUrl(endpoint, Some(params), encode) == GetUrl(endpoint, params, encode)
    ensures ClientGetUrl(endpoint, Some([]), encode) == endpoint + "?"
  {
    GetUrlSpec(ApiBaseUrl, endpoint, params, encode);
    assert QueryString([], encode) == "";
  }

  /** The body a `DELETE` sends: the JSON text of the data when the data is truthy, none otherwise. */
  function DeleteBody(data: JsValue, stringify: JsValue -> string): (body: Option<string>)
    ensures body.Some? <==> Truthy(data)
  {
    if Truthy(data) then Some(stringify(data)) else None
  }

  /** JavaScript truthiness of a value. */
  predicate Truthy(v: JsValue) {
    match v
    case Null => false
    case Undefined => false
    case Str(s) => s != ""
    case Num(n) => n != 0.0
    case Bool(b) => b
  }
}
