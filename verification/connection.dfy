/** The request-shaping and response-classifying half of the client
    (lib/cb/client/connection.rb). The network is not modelled: what the
    transport answered arrives as an Outcome value. */
module Connection {
  import opened Values

  datatype Verb = Get | Post

  /** A response body as `JSON.parse` sees it. */
  datatype Body = WellFormed(doc: Json) | Malformed

  /** What the transport answered: a timeout, any other transport failure
      (not rescued by the client), or an HTTP status with a body. */
  datatype Outcome = Timeout | Failed | Response(status: int, body: Body)

  /** The exceptions a call can raise: the client's own three error classes,
      the JSON parser's error, the `NoMethodError` of `symbolize_keys` on a
      document that is not an object, and a transport failure other than a
      timeout, passed through unchanged. */
  datatype Error =
    | AppError(message: string)
    | TimeoutError(message: string)
    | NotFoundError(message: string)
    | ParserError
    | NoMethodError
    | TransportFailure

  /** What a call returns when it raises nothing: nil (no `case` branch
      matched), an `[ok, payload]` pair (tuple mode) or a bare payload
      (raising mode). */
  datatype Returned = NilValue | Pair(ok: bool, payload: Payload) | Data(payload: Payload)

  datatype CallResult = Return(value: Returned) | Raise(error: Error)

  /** The request handed to the transport. */
  datatype Request = Request(
    verb: Verb,
    baseUrl: string,
    path: string,
    params: map<string, Value>,
    headers: map<string, string>,
    body: Form,
    timeout: nat,
    openTimeout: nat)

  const RequestTimeout: nat := 5
  const ConnectTimeout: nat := 2

  const TimeoutMessage := "CB API Timeout"
  const NotFoundMessage := "CB API Ressource not found"
  const AppErrorMessage := "CB API Application error"

  /** The payload tuple mode answers a timeout with: `{message: 'Timeout'}`. */
  const TimeoutPayload: Payload := map[SymKey("message") := JStr("Timeout")]

  /** The statuses the `case` expressions handle. */
  predicate Mapped(status: int)
  {
    status == 200 || status == 404 || status == 500
  }

  /** The connection object `get_connection` creates: a base URL plus the
      query parameters and headers set on it before the call. */
  class HttpConnection {
    const url: string
    var params: map<string, Value>
    var headers: map<string, string>

    constructor (url: string)
      ensures this.url == url && params == map[] && headers == map[]
    {
      this.url := url;
      params := map[];
      headers := map[];
    }

    method SetParam(name: string, value: Value)
      modifies this
      ensures params == old(params)[name := value] && headers == old(headers)
    {
      params := params[name := value];
    }

    method SetHeader(name: string, value: string)
      modifies this
      ensures headers == old(headers)[name := value] && params == old(params)
    {
      headers := headers[name := value];
    }
  }

  /** `http_call`: the request the connection sends for `verb` on `path`.
      The form parameters become the body of a POST only; every request
      carries a 5 second timeout and a 2 second connect timeout. */
  function HttpCall(verb: Verb, baseUrl: string, params: map<string, Value>,
                    headers: map<string, string>, path: string, formParams: Form): (req: Request)
    ensures req.verb == verb && req.path == path && req.baseUrl == baseUrl
    ensures req.params == params && req.headers == headers
    ensures verb == Post ==> req.body == formParams
    ensures verb == Get ==> req.body == Leaf(Nil)
    ensures req.timeout == 5 && req.openTimeout == 2
  {
    Request(verb, baseUrl, path, params, headers,
            if verb == Post then formParams else Leaf(Nil),
            RequestTimeout, ConnectTimeout)
  }

  /** A GET carries no body, so its form parameters make no difference. */
  lemma GetIgnoresFormParams(baseUrl: string, params: map<string, Value>, headers: map<string, string>,
                             path: string, f1: Form, f2: Form)
    ensures HttpCall(Get, baseUrl, params, headers, path, f1) == HttpCall(Get, baseUrl, params, headers, path, f2)
  {
  }

  /** A POST carries its form parameters, so different ones give different requests. */
  lemma PostKeepsFormParams(baseUrl: string, params: map<string, Value>, headers: map<string, string>,
                            path: string, f1: Form, f2: Form)
    requires f1 != f2
    ensures HttpCall(Post, baseUrl, params, headers, path, f1) != HttpCall(Post, baseUrl, params, headers, path, f2)
  {
  }

  datatype ParseResult = Parsed(payload: Payload) | Unparsable(error: Error)

  /** `JSON.parse(body).symbolize_keys`. */
  function ParseBody(body: Body): (r: ParseResult)
    ensures r.Parsed? <==> body.WellFormed? && body.doc.JObject?
    ensures r.Parsed? ==> r.payload == SymbolizeKeys(body.doc.members)
    ensures r.Unparsable? ==> r.error == (if body.Malformed? then ParserError else NoMethodError)
  {
    match body
    case Malformed => Unparsable(ParserError)
    case WellFormed(doc) =>
      if doc.JObject? then Parsed(SymbolizeKeys(doc.members)) else Unparsable(NoMethodError)
  }

  /** `perform_request` (tuple mode). */
  function PerformRequest(o: Outcome): (r: CallResult)
    ensures o.Timeout? ==> r == Return(Pair(false, TimeoutPayload))
    ensures o.Failed? ==> r == Raise(TransportFailure)
    ensures o.Response? && Mapped(o.status) && ParseBody(o.body).Parsed? ==>
              r == Return(Pair(o.status == 200, ParseBody(o.body).payload))
    ensures o.Response? && Mapped(o.status) && ParseBody(o.body).Unparsable? ==>
              r == Raise(ParseBody(o.body).error)
    ensures r == Return(NilValue) <==> o.Response? && !Mapped(o.status)
    ensures r.Return? ==> !r.value.Data?
    ensures r.Return? && r.value.Pair? && r.value.ok ==> o.Response? && o.status == 200
    ensures r.Raise? ==> r.error in {ParserError, NoMethodError, TransportFailure}
  {
    match o
    case Timeout => Return(Pair(false, TimeoutPayload))
    case Failed => Raise(TransportFailure)
    case Response(status, body) =>
      if Mapped(status) then
        match ParseBody(body)
        case Parsed(payload) => Return(Pair(status == 200, payload))
        case Unparsable(error) => Raise(error)
      else Return(NilValue)
  }

  /** `perform_request!` (raising mode). */
  function PerformRequestRaising(o: Outcome): (r: CallResult)
    ensures o.Timeout? ==> r == Raise(TimeoutError(TimeoutMessage))
    ensures o.Failed? ==> r == Raise(TransportFailure)
    ensures o.Response? && o.status == 404 ==> r == Raise(NotFoundError(NotFoundMessage))
    ensures o.Response? && o.status == 500 ==> r == Raise(AppError(AppErrorMessage))
    ensures o.Response? && o.status == 200 && ParseBody(o.body).Parsed? ==>
              r == Return(Data(ParseBody(o.body).payload))
    ensures o.Response? && o.status == 200 && ParseBody(o.body).Unparsable? ==>
              r == Raise(ParseBody(o.body).error)
    ensures r == Return(NilValue) <==> o.Response? && !Mapped(o.status)
    ensures r.Return? ==> !r.value.Pair?
  {
    match o
    case Timeout => Raise(TimeoutError(TimeoutMessage))
    case Failed => Raise(TransportFailure)
    case Response(status, body) =>
      if status == 200 then
        match ParseBody(body)
        case Parsed(payload) => Return(Data(payload))
        case Unparsable(error) => Raise(error)
      else if status == 404 then Raise(NotFoundError(NotFoundMessage))
      else if status == 500 then Raise(AppError(AppErrorMessage))
      else Return(NilValue)
  }

  /** The two modes agree on success: tuple mode answers `[true, p]` exactly
      when raising mode answers `p`. */
  lemma ModesAgreeOnSuccess(o: Outcome, p: Payload)
    ensures PerformRequest(o) == Return(Pair(true, p)) <==> PerformRequestRaising(o) == Return(Data(p))
  {
  }

  /** Both modes answer nil for exactly the same outcomes. */
  lemma ModesAgreeOnUnmapped(o: Outcome)
    ensures PerformRequest(o) == Return(NilValue) <==> PerformRequestRaising(o) == Return(NilValue)
  {
  }

  /** When the body is a JSON object, a `[false, payload]` answer in tuple mode
      corresponds exactly to one of the client's three errors in raising mode. */
  lemma FailuresCorrespond(o: Outcome)
    requires o.Response? ==> o.body.WellFormed? && o.body.doc.JObject?
    ensures PerformRequest(o).Return? && PerformRequest(o).value.Pair? && !PerformRequest(o).value.ok
            <==>
            PerformRequestRaising(o).Raise? &&
            (PerformRequestRaising(o).error.TimeoutError? || PerformRequestRaising(o).error.NotFoundError? ||
             PerformRequestRaising(o).error.AppError?)
  {
  }

  /** Raising mode never reads the body of a 404 or a 500. */
  lemma RaisingIgnoresErrorBody(status: int, b1: Body, b2: Body)
    requires status == 404 || status == 500
    ensures PerformRequestRaising(Response(status, b1)) == PerformRequestRaising(Response(status, b2))
  {
  }

  /** A 403 matches no branch: both modes return nil and raise nothing. */
  lemma ForbiddenIsUnmapped(body: Body)
    ensures PerformRequest(Response(403, body)) == Return(NilValue)
    ensures PerformRequestRaising(Response(403, body)) == Return(NilValue)
  {
  }

  /** A stub answering 200 with `{"content": "data"}` gives `[true, {content: 'data'}]`
      in tuple mode; one answering 404 with a message gives `[false, {message: ...}]`
      in tuple mode and raises NotFoundError in raising mode. */
  lemma StubScenarios()
    ensures PerformRequest(Response(200, WellFormed(JObject(map["content" := JStr("data")]))))
            == Return(Pair(true, map[SymKey("content") := JStr("data")]))
    ensures PerformRequest(Response(404, WellFormed(JObject(map["message" := JStr("no channel with this prefix")]))))
            == Return(Pair(false, map[SymKey("message") := JStr("no channel with this prefix")]))
    ensures PerformRequestRaising(Response(404, WellFormed(JObject(map["message" := JStr("no channel with this prefix")]))))
            == Raise(NotFoundError(NotFoundMessage))
  {
    SymbolizeSingleton("content", JStr("data"));
    SymbolizeSingleton("message", JStr("no channel with this prefix"));
  }
}
