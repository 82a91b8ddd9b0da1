/** The request gateway's error handling: how a failed axios call becomes an `ApiError`,
    how the token is attached to outgoing requests, what is stored after a successful
    login or registration, and how any thrown value becomes display text. */
module RequestInstance {
  import opened Optional
  import opened Storage
  import opened Bus

  // ---------------------------------------------------------------------------
  // Data model
  // ---------------------------------------------------------------------------

  /** One element of `data.errors` (array element or object value), as far as the
      message lookup can tell them apart: null/undefined, a string, or an object
      with or without a `message` string. */
  datatype Entry = NullEntry | TextEntry(text: string) | ObjectEntry(message: Option<string>)

  /** The `errors` field of a response body: an array, a plain object (its values in
      `Object.values` order), `null`, or a non-object scalar. */
  datatype Errors =
    | ErrorArray(items: seq<Entry>)
    | ErrorObject(values: seq<Entry>)
    | ErrorNull
    | ErrorScalar

  /** A response body: absent (or falsy), a string, or a record whose `message`,
      `error` and `errors` fields may each be missing. */
  datatype Data =
    | NoData
    | TextData(text: string)
    | RecordData(message: Option<string>, error: Option<string>, errors: Option<Errors>)

  datatype Response = Response(status: int, data: Data)

  /** The axios error as the normaliser inspects it. */
  datatype AxiosError = AxiosError(isCancel: bool, code: Option<string>, response: Option<Response>)

  datatype ApiErrorCode = Status(n: int) | NetworkError | Timeout | Unknown

  /** `ApiError`: message, code, optional HTTP status and the raw body as details. */
  datatype ApiError = ApiError(message: string, code: ApiErrorCode, status: Option<int>, details: Data)

  /** A value `extractServerMessage` can return: a string, or an object (the first
      element of an `errors` array when it has no truthy `message`, or the first value of an
      `errors` object when that value is any object, with or without a `message`). */
  datatype Extracted = Text(text: string) | ObjectValue

  const CancelledMessage := "Request cancelled"
  const TimeoutMessage := "Request timed out"
  const NetworkMessage := "Network error. Check your internet connection."
  const BadRequestMessage := "Bad request. Please check the input."
  const NotFoundMessage := "Resource not found."
  const ServerErrorMessage := "Server error. Please try again."
  const UnexpectedMessage := "Unexpected error occurred."
  /** What `String(obj)` gives for a plain object, as `Error(message)` stores it. */
  const ObjectText := "[object Object]"
  const DefaultFallback := "Something went wrong. Please try again."

  // ---------------------------------------------------------------------------
  // extractServerMessage
  // ---------------------------------------------------------------------------

  /** `Object.values(errors)[0] || undefined` (also `errors[0]` for an array). */
  function FirstValue(entries: seq<Entry>): (r: Option<Extracted>)
    ensures entries == [] ==> r.None?
    ensures r.Some? && r.value.Text? ==> r.value.text != ""
    ensures r.Some? ==>
      && entries != []
      && (r.value.Text? ==> entries[0] == TextEntry(r.value.text))
      && (r.value.ObjectValue? ==> entries[0].ObjectEntry?)
    ensures entries != [] && (entries[0].ObjectEntry? || (entries[0].TextEntry? && entries[0].text != "")) ==> r.Some?
  {
    if entries == [] then None
    else match entries[0]
      case NullEntry => None
      case TextEntry(t) => if t == "" then None else Some(Text(t))
      case ObjectEntry(_) => Some(ObjectValue)
  }

  /** `errors[0]?.message` for an array of entries, when truthy. */
  function FirstEntryMessage(items: seq<Entry>): Option<string> {
    if items != [] && items[0].ObjectEntry? && Truthy(items[0].message) then items[0].message
    else None
  }

  /** The lookup does not throw: it throws (in `Object.values(null)`) exactly when the
      record has no truthy `message` or `error` and `errors` is `null`. */
  predicate Extractable(data: Data) {
    !(data.RecordData? && !Truthy(data.message) && !Truthy(data.error) && data.errors == Some(ErrorNull))
  }

  function AsText(o: Option<string>): Option<Extracted> {
    if Truthy(o) then Some(Text(o.value)) else None
  }

  /** `extractServerMessage`: the server-supplied message of a response body. */
  function ExtractServerMessage(data: Data): (r: Option<Extracted>)
    requires Extractable(data)
    ensures data.NoData? ==> r.None?
    ensures data.TextData? ==> r == AsText(Some(data.text))
    ensures r.Some? && r.value.Text? ==> r.value.text != ""
    ensures data.RecordData? && Truthy(data.message) ==> r == Some(Text(data.message.value))
    ensures data.RecordData? && !Truthy(data.message) && Truthy(data.error) ==> r == Some(Text(data.error.value))
    ensures data.RecordData? && !Truthy(data.message) && !Truthy(data.error) && data.errors.None? ==> r.None?
  {
    match data
    case NoData => None
    case TextData(t) => if t == "" then None else Some(Text(t))
    case RecordData(message, error, errors) =>
      if Truthy(message) then Some(Text(message.value))
      else if Truthy(error) then Some(Text(error.value))
      else match errors
        case None => None
        case Some(ErrorArray(items)) =>
          var m := FirstEntryMessage(items);
          if m.Some? then Some(Text(m.value)) else FirstValue(items)
        case Some(ErrorObject(values)) => FirstValue(values)
        case Some(ErrorScalar) => None
        case Some(ErrorNull) => assert false; None
  }

  /** The precedence of the lookup as a list: `data.message`, `data.error`, the first
      array element's `message`, the first value of `errors`; falsy ones as `None`. */
  function Candidates(data: Data): seq<Option<Extracted>>
    requires Extractable(data)
  {
    match data
    case NoData => []
    case TextData(t) => [AsText(Some(t))]
    case RecordData(message, error, errors) =>
      [AsText(message), AsText(error)] +
      match errors
      case None => []
      case Some(ErrorArray(items)) => [AsText(FirstEntryMessage(items)), FirstValue(items)]
      case Some(ErrorObject(values)) => [None, FirstValue(values)]
      case Some(ErrorScalar) => [None, None]
      case Some(ErrorNull) => []
  }

  /** The first present candidate: the meaning of a JavaScript `a || b || ...` chain. */
  function FirstPresent(cs: seq<Option<Extracted>>): (r: Option<Extracted>)
    ensures r.Some? ==> exists i :: 0 <= i < |cs| && cs[i] == r && forall j :: 0 <= j < i ==> cs[j].None?
    ensures r.None? <==> forall i :: 0 <= i < |cs| ==> cs[i].None?
  {
    if cs == [] then None
    else if cs[0].Some? then cs[0]
    else FirstPresent(cs[1..])
  }

  /** An `||` chain split in two: the first half decides unless it is all falsy. */
  lemma {:induction false} FirstPresentAppend(a: seq<Option<Extracted>>, b: seq<Option<Extracted>>)
    ensures FirstPresent(a + b) == if FirstPresent(a).Some? then FirstPresent(a) else FirstPresent(b)
  {
    if a != [] {
      assert (a + b)[1..] == a[1..] + b;
      FirstPresentAppend(a[1..], b);
    } else {
      assert a + b == b;
    }
  }

  /** The server message is the first truthy candidate, in the order the `||` chain tests them. */
  lemma ExtractIsFirstCandidate(data: Data)
    requires Extractable(data)
    ensures ExtractServerMessage(data) == FirstPresent(Candidates(data))
  {
    if data.RecordData? {
      var head := [AsText(data.message), AsText(data.error)];
      var tail := Candidates(data)[2..];
      assert Candidates(data) == head + tail;
      FirstPresentAppend(head, tail);
      assert FirstPresent(head) == if Truthy(data.message) then AsText(data.message) else FirstPresent(head[1..]);
      if |tail| == 2 {
        assert tail[1..][1..] == [];
      }
    }
  }

  // ---------------------------------------------------------------------------
  // normalizeAxiosError
  // ---------------------------------------------------------------------------

  /** The text `new ApiError(serverMessage || fallback, ...)` ends up with. */
  function MessageOr(server: Option<Extracted>, fallback: string): (r: string)
    ensures server.None? ==> r == fallback
    ensures server.Some? && server.value.Text? ==> r == server.value.text
    ensures server == Some(ObjectValue) ==> r == ObjectText
  {
    match server
    case None => fallback
    case Some(Text(t)) => t
    case Some(ObjectValue) => ObjectText
  }

  /** The normaliser reaches the switch on the status. */
  predicate HasResponse(err: AxiosError) {
    !err.isCancel && err.code != Some("ECONNABORTED") && err.response.Some?
  }

  /** The normaliser does not throw (see `Extractable`). */
  predicate NormalizeDefined(err: AxiosError) {
    HasResponse(err) ==> Extractable(err.response.value.data)
  }

  /** The default message of a response-bearing error, determined by its code. */
  function ResponseDefault(code: ApiErrorCode): string {
    match code
    case Status(400) => BadRequestMessage
    case Status(404) => NotFoundMessage
    case Status(500) => ServerErrorMessage
    case _ => UnexpectedMessage
  }

  /** `normalizeAxiosError`: classifies a failed request into exactly one code. */
  function NormalizeAxiosError(err: AxiosError): (r: ApiError)
    requires NormalizeDefined(err)
    // cancellation first, then timeout, then no response
    ensures err.isCancel ==> r == ApiError(CancelledMessage, Unknown, None, NoData)
    ensures r.code == Timeout <==> !err.isCancel && err.code == Some("ECONNABORTED")
    ensures r.code == Timeout ==> r == ApiError(TimeoutMessage, Timeout, None, NoData)
    ensures r.code == NetworkError <==> !err.isCancel && err.code != Some("ECONNABORTED") && err.response.None?
    ensures r.code == NetworkError ==> r == ApiError(NetworkMessage, NetworkError, None, NoData)
    // status-derived codes
    ensures r.code == Status(400) <==> HasResponse(err) && err.response.value.status in {400, 422}
    ensures HasResponse(err) && err.response.value.status !in {0, 422} ==> r.code == Status(err.response.value.status)
    ensures r.code == Unknown <==> err.isCancel || (HasResponse(err) && err.response.value.status == 0)
    ensures r.code.Status? ==> r.code.n != 0
    // a response-bearing error keeps the original status and the raw body
    ensures r.status.Some? <==> HasResponse(err)
    ensures HasResponse(err) ==> r.status == Some(err.response.value.status) && r.details == err.response.value.data
    ensures HasResponse(err) ==>
      r.message == MessageOr(ExtractServerMessage(err.response.value.data), ResponseDefault(r.code))
    ensures r.message != ""
  {
    if err.isCancel then
      ApiError(CancelledMessage, Unknown, None, NoData)
    else if err.code == Some("ECONNABORTED") then
      ApiError(TimeoutMessage, Timeout, None, NoData)
    else if err.response.None? then
      ApiError(NetworkMessage, NetworkError, None, NoData)
    else
      var status, data := err.response.value.status, err.response.value.data;
      var serverMessage := ExtractServerMessage(data);
      if status == 400 || status == 422 then
        ApiError(MessageOr(serverMessage, BadRequestMessage), Status(400), Some(status), data)
      else if status == 404 then
        ApiError(MessageOr(serverMessage, NotFoundMessage), Status(404), Some(status), data)
      else if status == 500 then
        ApiError(MessageOr(serverMessage, ServerErrorMessage), Status(500), Some(status), data)
      else
        ApiError(MessageOr(serverMessage, UnexpectedMessage), if status != 0 then Status(status) else Unknown, Some(status), data)
  }

  /** A 404 whose body is `{ "message": "not found" }` reads as code 404, "not found". */
  lemma NotFoundExample()
    ensures NormalizeAxiosError(AxiosError(false, None, Some(Response(404, RecordData(Some("not found"), None, None)))))
      == ApiError("not found", Status(404), Some(404), RecordData(Some("not found"), None, None))
  {
  }

  // ---------------------------------------------------------------------------
  // getErrorMessage
  // ---------------------------------------------------------------------------

  /** A thrown value as `getErrorMessage` tells them apart: an `ApiError`, some other
      object (with or without a `message` string), or anything else (`null`, a
      string, a number, ...). */
  datatype Thrown = ThrownApiError(apiError: ApiError) | ThrownObject(message: Option<string>) | ThrownOther

  /** `getErrorMessage(err, fallback)`; a call without `fallback` uses `DefaultFallback`. */
  function GetErrorMessage(err: Thrown, fallback: string := DefaultFallback): (r: string)
    ensures err.ThrownApiError? ==> r == err.apiError.message
    ensures err.ThrownObject? && Truthy(err.message) ==> r == err.message.value
    ensures !err.ThrownApiError? && !(err.ThrownObject? && Truthy(err.message)) ==> r == fallback
  {
    match err
    case ThrownApiError(e) => e.message
    case ThrownObject(m) => if Truthy(m) then m.value else fallback
    case ThrownOther => fallback
  }

  /** The screens call `getErrorMessage(error)` without a fallback: anything that is
      neither an `ApiError` nor an object with a truthy `message` shows the default text. */
  lemma DefaultFallbackShown(err: Thrown)
    requires !err.ThrownApiError? && !(err.ThrownObject? && Truthy(err.message))
    ensures GetErrorMessage(err) == "Something went wrong. Please try again."
  {
  }

  /** A screen that catches the gateway's rejection shows the normalised message, which
      is never empty. */
  lemma RejectionMessageShown(err: AxiosError, fallback: string)
    requires NormalizeDefined(err)
    ensures GetErrorMessage(ThrownApiError(NormalizeAxiosError(err)), fallback) == NormalizeAxiosError(err).message
    ensures GetErrorMessage(ThrownApiError(NormalizeAxiosError(err)), fallback) != ""
  {
  }

  // ---------------------------------------------------------------------------
  // Interceptors and the login helper
  // ---------------------------------------------------------------------------

  const TokenKey := "token"
  const UserIdKey := "userId"
  const AuthorizationHeader := "Authorization"

  /** The token the request interceptor attaches: the stored "token", when truthy. */
  function BearerToken(items: map<string, string>): (r: Option<string>)
    ensures r.Some? <==> TokenKey in items && items[TokenKey] != ""
    ensures r.Some? ==> r.value == items[TokenKey]
  {
    if Truthy(Lookup(items, TokenKey)) then Some(items[TokenKey]) else None
  }

  /** The outgoing request's configuration; the interceptor edits its headers in place. */
  class RequestConfig {
    var headers: map<string, string>

    constructor (headers: map<string, string>)
      ensures this.headers == headers
    {
      this.headers := headers;
    }
  }

  /** The request interceptor: sets `Authorization: Bearer <token>` when a truthy token
      is stored and otherwise leaves the headers alone; hands back the same config. */
  method AttachToken(config: RequestConfig, storage: KeyValueStore) returns (r: RequestConfig)
    modifies config
    ensures r == config
    ensures BearerToken(storage.items).Some? ==>
      config.headers == old(config.headers)[AuthorizationHeader := "Bearer " + BearerToken(storage.items).value]
    ensures BearerToken(storage.items).None? ==> config.headers == old(config.headers)
  {
    var token := storage.GetItem(TokenKey);
    if Truthy(token) {
      config.headers := config.headers[AuthorizationHeader := "Bearer " + token.value];
    }
    r := config;
  }

  /** The part of the login/register response the helper uses. */
  datatype AuthResponse = AuthResponse(userId: string, accessToken: string)

  /** `handleAuthSuccess`: stores the access token and the user id, in that order, and
      returns the response unchanged; afterwards the request interceptor attaches that
      token (when non-empty). */
  method HandleAuthSuccess(storage: KeyValueStore, auth: AuthResponse) returns (r: AuthResponse)
    modifies storage
    ensures r == auth
    ensures storage.items == old(storage.items)[TokenKey := auth.accessToken][UserIdKey := auth.userId]
    ensures BearerToken(storage.items) == if auth.accessToken != "" then Some(auth.accessToken) else None
  {
    storage.SetItem(TokenKey, auth.accessToken);
    storage.SetItem(UserIdKey, auth.userId);
    r := auth;
  }

  /** How an axios call came back before the response interceptor runs. */
  datatype Transport = Received(response: Response) | Failed(error: AxiosError)

  /** What the caller's promise settles to after the response interceptor. */
  datatype Settled = Resolved(response: Response) | Rejected(apiError: ApiError)

  /** The response interceptor: a response passes through untouched and nothing is
      emitted; a failure is normalised, that same `ApiError` is emitted to every
      listener on the bus, and the promise rejects with it, never with the raw error. */
  method HandleResponse(bus: ErrorBus, outcome: Transport, throwing: set<Listener>)
      returns (settled: Settled, calls: seq<Call<ApiError>>)
    requires bus.Valid()
    requires outcome.Failed? ==> NormalizeDefined(outcome.error)
    ensures outcome.Received? ==> settled == Resolved(outcome.response) && calls == []
    ensures outcome.Failed? ==> settled == Rejected(NormalizeAxiosError(outcome.error))
    ensures outcome.Failed? ==> |calls| == |bus.listeners|
    ensures outcome.Failed? ==> forall l :: CallsTo(calls, l) == if l in bus.listeners then 1 else 0
    ensures forall i :: 0 <= i < |calls| ==>
      calls[i].listener == bus.listeners[i] && Rejected(calls[i].error) == settled
  {
    match outcome
    case Received(response) =>
      settled, calls := Resolved(response), [];
    case Failed(error) =>
      var normalized := NormalizeAxiosError(error);
      calls := bus.Emit(normalized, throwing);
      settled := Rejected(normalized);
  }
}
