/** `fetchAPI` and the exported endpoint wrappers: how the request options
    and headers are merged, when the bearer token is attached, and how a
    response becomes a value or an error. `fetch` itself is not modelled:
    the reply it produced is an input. */
module Api {
  import opened Wrappers
  import opened Js

  type Headers = map<string, string>

  /** A JSON request body, kept as the value that `JSON.stringify` is applied to. */
  datatype Payload =
    | Analisis(symbol: JsValue, year1: JsValue, year2: JsValue)
    | Credentials(identifier: string, password: string)

  /** The `RequestInit` a caller passes (`verb` is its `method`); a missing
      member is `None`. */
  datatype Init = Init(verb: Option<string>, body: Option<Payload>, headers: Option<Headers>)

  /** `options = {}`. */
  const NoOptions := Init(None, None, None)

  /** An endpoint together with the options a wrapper passes to `fetchAPI`. */
  datatype Call = Call(endpoint: string, options: Init)

  /** What is handed to `fetch`: URL and merged options. */
  datatype Request = Request(url: string, verb: Option<string>, body: Option<Payload>, headers: Headers)

  /** What `fetch` and `res.json()` produced: a transport failure, or a
      response with its `ok` flag and its body parsed as JSON (`None` when
      the body is not JSON and `res.json()` rejects). */
  datatype Reply<T> = NetworkFailure | Received(ok: bool, json: Option<T>)

  datatype ApiError =
    | NetworkError          // `fetch` rejected
    | InvalidJson           // `res.json()` rejected
    | BodyAlreadyUsed       // `res.text()` rejected: the body was already read
    | HttpError(message: string)

  const ContentType := "Content-Type"
  const JsonMediaType := "application/json"
  const Authorization := "Authorization"
  const FetchErrorMessage := "An error occurred while fetching the data."
  const DefaultHeaders: Headers := map[ContentType := JsonMediaType]

  function CallerHeaders(options: Init): Headers {
    options.headers.GetOr(map[])
  }

  /** `{...defaultOptions, ...options, headers: {...defaultHeaders, ...options.headers}}`:
      caller options win over defaults, and caller headers over default headers. */
  function MergeOptions(options: Init): Init {
    Init(options.verb, options.body, Some(DefaultHeaders + CallerHeaders(options)))
  }

  /** Adds `Authorization: Bearer <token>` when the stored token is truthy. */
  function Authorize(headers: Headers, token: Option<string>): Headers {
    if TruthyString(token) then headers[Authorization := "Bearer " + token.value] else headers
  }

  /** `${API_URL}${endpoint}`; an unset `API_URL` renders as "undefined". */
  function Url(apiUrl: Option<string>, endpoint: string): string {
    apiUrl.GetOr("undefined") + endpoint
  }

  /** The request `fetchAPI` sends for `call` with `token` in storage. */
  function BuildRequest(apiUrl: Option<string>, token: Option<string>, call: Call): (r: Request)
    ensures r.url == Url(apiUrl, call.endpoint)
    ensures r.verb == call.options.verb && r.body == call.options.body
    // Content-Type is always present: the caller's own value, or the JSON default.
    ensures ContentType in r.headers
    ensures r.headers[ContentType] ==
              (if ContentType in CallerHeaders(call.options) then CallerHeaders(call.options)[ContentType]
               else JsonMediaType)
    // A truthy token forces Authorization, whatever the caller set.
    ensures TruthyString(token) ==>
              Authorization in r.headers && r.headers[Authorization] == "Bearer " + token.value
    // Without a token, Authorization is exactly the caller's (if any).
    ensures !TruthyString(token) ==>
              (Authorization in r.headers <==> Authorization in CallerHeaders(call.options)) &&
              (Authorization in r.headers ==> r.headers[Authorization] == CallerHeaders(call.options)[Authorization])
    // Every other header is the caller's, unchanged.
    ensures forall h :: h != ContentType && h != Authorization ==>
              (h in r.headers <==> h in CallerHeaders(call.options)) &&
              (h in r.headers ==> r.headers[h] == CallerHeaders(call.options)[h])
  {
    var merged := MergeOptions(call.options);
    Request(Url(apiUrl, call.endpoint), merged.verb, merged.body, Authorize(merged.headers.value, token))
  }

  /** Without a stored token the headers are the defaults overridden by the
      caller's, and nothing else. */
  lemma NoTokenPassesThrough(apiUrl: Option<string>, token: Option<string>, call: Call)
    requires !TruthyString(token)
    ensures BuildRequest(apiUrl, token, call).headers == DefaultHeaders + CallerHeaders(call.options)
  {
  }

  /** `fetchAPI`'s outcome as written. The body is read with `res.json()`
      before `ok` is looked at, so a body that is not JSON fails as such
      even on an error status. On an error status with a JSON body the
      error branch calls `res.text()` on a body already read; that call
      rejects, and its rejection is what `fetchAPI` throws. The fixed
      message is never reached. */
  function Interpret<T>(reply: Reply<T>): (r: Result<T, ApiError>)
    ensures r.Success? <==> reply.Received? && reply.ok && reply.json.Some?
    ensures r.Success? ==> r.value == reply.json.value
    ensures reply.NetworkFailure? ==> r == Failure(NetworkError)
    ensures reply.Received? && reply.json.None? ==> r == Failure(InvalidJson)
    ensures reply.Received? && reply.json.Some? && !reply.ok ==> r == Failure(BodyAlreadyUsed)
  {
    match reply
    case NetworkFailure => Failure(NetworkError)
    case Received(ok, json) =>
      if json.None? then Failure(InvalidJson)
      else if !ok then Failure(BodyAlreadyUsed)
      else Success(json.value)
  }

  /** As written, no reply makes `fetchAPI` throw its fixed message. */
  lemma FixedMessageUnreachable<T>(reply: Reply<T>)
    ensures Interpret(reply) != Failure(HttpError(FetchErrorMessage))
  {
    match reply
    case NetworkFailure =>
    case Received(ok, json) =>
      if json.Some? && !ok {
        assert Interpret(reply) == Failure(BodyAlreadyUsed);
      }
  }

  /** The evidently intended outcome: every error status fails with the
      fixed message, whatever its body, and an ok reply is read as JSON. */
  function InterpretIntended<T>(reply: Reply<T>): (r: Result<T, ApiError>)
    ensures reply.Received? && !reply.ok ==> r == Failure(HttpError(FetchErrorMessage))
    ensures r.Success? <==> reply.Received? && reply.ok && reply.json.Some?
  {
    match reply
    case NetworkFailure => Failure(NetworkError)
    case Received(ok, json) =>
      if !ok then Failure(HttpError(FetchErrorMessage))
      else if json.None? then Failure(InvalidJson)
      else Success(json.value)
  }

  /** The two readings differ only on error statuses. */
  lemma IntendedAgreesOnSuccess<T>(reply: Reply<T>)
    requires !(reply.Received? && !reply.ok)
    ensures InterpretIntended(reply) == Interpret(reply)
  {
  }

  /** `fetchAPI(endpoint, options)`: the request sent and its outcome. The
      token is the one read from storage when the call starts. */
  function FetchApi<T>(apiUrl: Option<string>, token: Option<string>, call: Call, reply: Reply<T>): (r: (Request, Result<T, ApiError>))
    ensures r.0.url == Url(apiUrl, call.endpoint)
    ensures r.0.verb == call.options.verb && r.0.body == call.options.body
    ensures TruthyString(token) ==>
              Authorization in r.0.headers && r.0.headers[Authorization] == "Bearer " + token.value
    ensures r.1.Success? <==> reply.Received? && reply.ok && reply.json.Some?
    ensures r.1.Failure? ==> r.1.error != HttpError(FetchErrorMessage)
  {
    FixedMessageUnreachable(reply);
    (BuildRequest(apiUrl, token, call), Interpret(reply))
  }

  /* ---------- exported wrappers ---------- */

  /** `searchActivos`; the query arrives already URI-encoded. */
  function SearchActivos(encodedQuery: string): Call {
    Call("/api/search?query=" + encodedQuery, NoOptions)
  }

  /** The fields of the `data` object `createAnalisis` reads. */
  datatype AnalisisData = AnalisisData(activo: JsValue, inicio: JsValue, fin: JsValue)

  function CreateAnalisis(data: AnalisisData): Call {
    Call("/api/analisis", Init(Some("POST"), Some(Analisis(data.activo, data.inicio, data.fin)), None))
  }

  function GetAnalisis(): Call {
    Call("/api/analisis", NoOptions)
  }

  function AuthApi(data: Payload): Call {
    Call("/api/auth/local", Init(Some("POST"), Some(data), None))
  }

  function ValidateToken(): Call {
    Call("/api/users/me", NoOptions)
  }

  /** `createAnalisis` POSTs `{symbol: activo, year1: inicio, year2: fin}` as
      JSON to `/api/analisis`, and the form fields can be read back from it. */
  lemma CreateAnalisisRequest(apiUrl: Option<string>, token: Option<string>, data: AnalisisData)
    ensures var r := BuildRequest(apiUrl, token, CreateAnalisis(data));
            && r.url == Url(apiUrl, "/api/analisis")
            && r.verb == Some("POST")
            && r.body.Some? && r.body.value.Analisis?
            && AnalisisData(r.body.value.symbol, r.body.value.year1, r.body.value.year2) == data
            && r.headers[ContentType] == JsonMediaType
            && (TruthyString(token) <==> Authorization in r.headers)
  {
  }

  /** Endpoint and method of every other wrapper: `authApi` POSTs its data
      to `/api/auth/local`; `getAnalisis`, `validateToken` and
      `searchActivos` use the default method and send no body. */
  lemma WrapperRoutes(data: Payload, encodedQuery: string)
    ensures AuthApi(data).endpoint == "/api/auth/local"
    ensures AuthApi(data).options.verb == Some("POST") && AuthApi(data).options.body == Some(data)
    ensures GetAnalisis().endpoint == "/api/analisis" && GetAnalisis().options == NoOptions
    ensures ValidateToken().endpoint == "/api/users/me" && ValidateToken().options == NoOptions
    ensures SearchActivos(encodedQuery).endpoint == "/api/search?query=" + encodedQuery
    ensures SearchActivos(encodedQuery).options == NoOptions
  {
  }
}
