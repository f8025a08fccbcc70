/** The remote-session client: session start, the per-call URL, the HTTP checks that precede
    stream decoding, and the integration guard of `agentExecute`. The network is replaced by
    the response it returns, given as an input. */
module ApiClient {
  import opened Values
  import opened Text
  import StreamDecoder

  /** The errors the client raises. */
  datatype ApiError =
    | MissingModelApiKey            // StagehandAPIError: modelApiKey is required
    | Unauthorized                  // StagehandAPIUnauthorizedError
    | HttpError(status: int)        // StagehandHttpError
    | ServerUnsuccessful(message: JsValue)  // StagehandAPIError carrying the server's message
    | RuntimeError                  // the SyntaxError or TypeError of reading a malformed body
    | ResponseBodyError             // StagehandResponseBodyError
    | ResponseParseError            // StagehandResponseParseError
    | IntegrationsUnsupported       // StagehandAPIError: MCP integrations in API mode

  /** The client's mutable fields that the modelled operations read or write. */
  datatype ClientState = ClientState(sessionId: JsValue, modelApiKey: JsValue)

  /** A freshly constructed client: no session id, no model API key. */
  const Unstarted: ClientState := ClientState(Undefined, Undefined)

  /** No string held by `v`, itself or anywhere inside a nested array, contains `c`. */
  predicate StringsAvoid(v: JsValue, c: char)
    decreases v
  {
    match v
    case Str(s) => c !in s
    case Array(_, elems) => forall e :: e in elems ==> StringsAvoid(e, c)
    case _ => true
  }

  /** `${v}`: how a template literal renders a value. An array renders as its elements joined
      with `,`, and a plain object as `[object Object]`. Only the strings held by `v` can put a
      `/` or a `?` into the text. */
  function TemplateText(v: JsValue): (r: string)
    ensures v.Str? ==> r == v.s
    ensures StringsAvoid(v, '/') ==> '/' !in r
    ensures StringsAvoid(v, '?') ==> '?' !in r
    decreases v
  {
    match v
    case Undefined => "undefined"
    case Null => "null"
    case Bool(b) => if b then "true" else "false"
    case Num(n) =>
      DecimalIsDigits(if n < 0 then -n else n);
      if n < 0 then "-" + NatToDecimal(-n) else NatToDecimal(n)
    case NaN => "NaN"
    case Str(s) => s
    case Array(_, elems) => JoinText(elems)
    case Object(_) => "[object Object]"
  }

  /** `Array.prototype.join(",")` over the elements: `null` and `undefined` render empty, every
      other element as its template text. */
  function JoinText(elems: seq<JsValue>): (r: string)
    ensures (forall e :: e in elems ==> StringsAvoid(e, '/')) ==> '/' !in r
    ensures (forall e :: e in elems ==> StringsAvoid(e, '?')) ==> '?' !in r
    decreases elems
  {
    if elems == [] then ""
    else
      var first := if Nullish(elems[0]) then "" else TemplateText(elems[0]);
      if |elems| == 1 then first else first + "," + JoinText(elems[1..])
  }

  /** The path of a method call: `/sessions/{id}/{method}`, then `?` and the query string
      when that is non-empty. */
  function SessionUrl(sessionId: JsValue, methodName: string, queryString: string): (url: string)
    ensures StartsWith(url, "/sessions/" + TemplateText(sessionId) + "/" + methodName)
    ensures queryString == "" ==> url == "/sessions/" + TemplateText(sessionId) + "/" + methodName
  {
    "/sessions/" + TemplateText(sessionId) + "/" + methodName + (if queryString == "" then "" else "?" + queryString)
  }

  /** Reads a session URL back into its session id, method and query string. */
  function ParseSessionUrl(url: string): Option<(string, string, string)> {
    if !StartsWith(url, "/sessions/") then None
    else
      var rest := url[10..];
      if '/' !in rest then None
      else
        var (id, tail) := SplitAtFirst(rest, '/');
        if '?' in tail then
          var (m, query) := SplitAtFirst(tail, '?');
          Some((id, m, query))
        else
          Some((id, tail, ""))
  }

  /** The URL format is unambiguous: when the rendered session id has no `/` and the method no
      `?`, the three parts can be read back. */
  lemma {:induction false} SessionUrlRoundTrip(sessionId: JsValue, methodName: string, queryString: string)
    requires '/' !in TemplateText(sessionId)
    requires '?' !in methodName
    ensures ParseSessionUrl(SessionUrl(sessionId, methodName, queryString)) == Some((TemplateText(sessionId), methodName, queryString))
  {
    var id := TemplateText(sessionId);
    var url := SessionUrl(sessionId, methodName, queryString);
    var tail := methodName + (if queryString == "" then "" else "?" + queryString);
    assert url == "/sessions/" + (id + "/" + tail);
    assert url[..10] == "/sessions/";
    assert url[10..] == id + "/" + tail;
    SplitAtFirstOfJoin(id, '/', tail);
    if queryString == "" {
      assert tail == methodName;
    } else {
      assert tail == methodName + "?" + queryString;
      SplitAtFirstOfJoin(methodName, '?', queryString);
    }
  }

  /** Every id whose strings hold no `/` (`undefined` before a session starts, `null`, a
      number, a slash-free string or an array of such values) reads back from its calls. */
  lemma SlashFreeIdRoundTrip(sessionId: JsValue, methodName: string, queryString: string)
    requires StringsAvoid(sessionId, '/')
    requires '?' !in methodName
    ensures ParseSessionUrl(SessionUrl(sessionId, methodName, queryString)) ==
      Some((TemplateText(sessionId), methodName, queryString))
  {
    SessionUrlRoundTrip(sessionId, methodName, queryString);
  }

  /** An array id renders through `join`, so a `/` inside one of its strings moves the cut:
      the call `act` on the id `["a/b"]` has the very path of the call `b/act` on session `a`. */
  lemma ArrayIdWithSlashMisaddressed()
    ensures TemplateText(Array(0, [Str("a/b")])) == "a/b"
    ensures SessionUrl(Array(0, [Str("a/b")]), "act", "") == SessionUrl(Str("a"), "b/act", "")
    ensures ParseSessionUrl(SessionUrl(Array(0, [Str("a/b")]), "act", "")) == Some(("a", "b/act", ""))
  {
    SlashInArrayIdText();
    SessionUrlRoundTrip(Str("a"), "b/act", "");
  }

  /** The two paths of `ArrayIdWithSlashMisaddressed`, spelt out. */
  lemma SlashInArrayIdText()
    ensures TemplateText(Array(0, [Str("a/b")])) == "a/b"
    ensures SessionUrl(Array(0, [Str("a/b")]), "act", "") == "/sessions/a/b/act"
    ensures SessionUrl(Str("a"), "b/act", "") == "/sessions/a/b/act"
  {
    assert JoinText([Str("a/b")]) == "a/b";
  }

  /** A call made before any session was started addresses `/sessions/undefined/...`. */
  lemma UnstartedCallAddressesUndefined(methodName: string)
    ensures SessionUrl(Unstarted.sessionId, methodName, "") == "/sessions/undefined/" + methodName
  {
  }

  /** `end()`: the same path format with the method `end` and no query. */
  function EndUrl(sessionId: JsValue): (url: string)
    ensures url == SessionUrl(sessionId, "end", "")
  {
    "/sessions/" + TemplateText(sessionId) + "/end"
  }

  /** The parameters of `init` the modelled logic reads. */
  datatype StartParams = StartParams(modelApiKey: JsValue, region: JsValue, browserbaseSessionID: JsValue)

  /** The `data` of a session-start response, and what `init` returns. */
  datatype SessionData = SessionData(sessionId: JsValue, available: JsValue)

  /** A parsed session-start body; `data` is `None` when it is null or undefined. */
  datatype StartBody = StartBody(success: JsValue, message: JsValue, data: Option<SessionData>)

  /** The answer to `POST /sessions/start`; `body` is `None` when it is not JSON or is `null`. */
  datatype StartResponse = StartResponse(status: int, body: Option<StartBody>)

  /** What `init` did: whether it sent the start request, the client state after it, and its
      result. */
  datatype InitCall = InitCall(requested: bool, state: ClientState, result: Result<SessionData, ApiError>)

  /** The only region the remote service starts sessions in. */
  const DefaultRegion: string := "us-west-2"

  /** `init`. */
  function Init(st: ClientState, params: StartParams, response: StartResponse): (c: InitCall)
    ensures !Truthy(params.modelApiKey) ==> c == InitCall(false, st, Failure(MissingModelApiKey))
    ensures Truthy(params.modelApiKey) ==> c.state.modelApiKey == params.modelApiKey
    ensures c.result.Failure? ==> c.state.sessionId == st.sessionId
    ensures Truthy(params.modelApiKey) && Truthy(params.region) && params.region != Str(DefaultRegion) ==>
      !c.requested && c.state.sessionId == st.sessionId &&
      c.result == Success(SessionData(if Nullish(params.browserbaseSessionID) then Null else params.browserbaseSessionID, Bool(false)))
    ensures c.requested <==>
      Truthy(params.modelApiKey) && !(Truthy(params.region) && params.region != Str(DefaultRegion))
    ensures c.requested && response.status == 401 ==> c.result == Failure(Unauthorized)
    ensures c.requested && response.status != 401 && response.status != 200 ==> c.result == Failure(HttpError(response.status))
    ensures (c.requested && response.status == 200 && response.body.Some? &&
             response.body.value.success == Bool(false)) ==>
      c.result == Failure(ServerUnsuccessful(response.body.value.message))
    ensures (c.requested && response.status == 200 && response.body.Some? &&
             response.body.value.success != Bool(false) && response.body.value.data.Some?) ==> c.result.Success?
    ensures (c.requested && response.status == 200 &&
             (response.body.None? || (response.body.value.success != Bool(false) && response.body.value.data.None?))) ==>
      c.result == Failure(RuntimeError)
    ensures c.requested && c.result.Success? ==>
      response.status == 200 && response.body.Some? && response.body.value.success != Bool(false) &&
      response.body.value.data.Some? &&
      c.state.sessionId == response.body.value.data.value.sessionId &&
      c.result.value.available == response.body.value.data.value.available
  {
    if !Truthy(params.modelApiKey) then
      InitCall(false, st, Failure(MissingModelApiKey))
    else
      var st' := st.(modelApiKey := params.modelApiKey);
      if Truthy(params.region) && params.region != Str(DefaultRegion) then
        var id := if Nullish(params.browserbaseSessionID) then Null else params.browserbaseSessionID;
        InitCall(false, st', Success(SessionData(id, Bool(false))))
      else if response.status == 401 then
        InitCall(true, st', Failure(Unauthorized))
      else if response.status != 200 then
        InitCall(true, st', Failure(HttpError(response.status)))
      else if response.body.None? then
        InitCall(true, st', Failure(RuntimeError))
      else if response.body.value.success == Bool(false) then
        InitCall(true, st', Failure(ServerUnsuccessful(response.body.value.message)))
      else if response.body.value.data.None? then
        InitCall(true, st', Failure(RuntimeError))
      else
        var data := response.body.value.data.value;
        var st'' := st'.(sessionId := data.sessionId);
        if !Truthy(data.available) && Truthy(params.browserbaseSessionID) then
          InitCall(true, st'', Success(data.(sessionId := params.browserbaseSessionID)))
        else
          InitCall(true, st'', Success(data))
  }

  /** A started session stores the server's id, while the caller gets the Browserbase session
      id instead exactly when the server reports the session unavailable and that id is
      truthy. */
  lemma {:induction false} InitStoresServerId(st: ClientState, params: StartParams, response: StartResponse)
    requires Init(st, params, response).requested
    requires Init(st, params, response).result.Success?
    ensures var c := Init(st, params, response);
      var server := response.body.value.data.value;
      c.state.sessionId == server.sessionId &&
      c.result.value.sessionId ==
        (if !Truthy(server.available) && Truthy(params.browserbaseSessionID)
         then params.browserbaseSessionID else server.sessionId)
  {
  }

  /** After a successful start, every later call addresses the session id the server gave,
      even when `init` handed the caller the Browserbase id instead. */
  lemma StartedCallsAddressServerSession(st: ClientState, params: StartParams, response: StartResponse,
                                         op: Operation, answer: HttpResponse, parse: string -> StreamDecoder.Parsed)
    requires Init(st, params, response).requested && Init(st, params, response).result.Success?
    requires !(op.AgentExecute? && op.integrations.Some? && |op.integrations.value| > 0)
    ensures Perform(Init(st, params, response).state, op, answer, parse).url ==
      Some(SessionUrl(response.body.value.data.value.sessionId, MethodName(op), ""))
  {
    InitStoresServerId(st, params, response);
  }

  /** A 401 on session start raises the unauthorized error and leaves a fresh client without a
      session id. */
  lemma UnauthorizedLeavesSessionUnset(params: StartParams, body: Option<StartBody>)
    requires Truthy(params.modelApiKey)
    requires !Truthy(params.region) || params.region == Str(DefaultRegion)
    ensures var c := Init(Unstarted, params, StartResponse(401, body));
      c.requested && c.result == Failure(Unauthorized) && c.state.sessionId == Undefined
  {
  }

  /** The answer to a method call: its status and, when present, the body as decoded chunks. */
  datatype HttpResponse = HttpResponse(status: int, body: Option<seq<string>>)

  /** `response.ok`. */
  predicate Ok(status: int) {
    200 <= status <= 299
  }

  /** What a method call did: the URL it requested (`None`: no request), the log messages it
      forwarded, and its result. */
  datatype Call = Call(url: Option<string>, logs: seq<JsValue>, result: Result<StreamDecoder.Outcome, ApiError>)

  /** `execute`: request the method URL, check the status and the body, then decode the
      stream. */
  function Execute(sessionId: JsValue, methodName: string, queryString: string, response: HttpResponse,
                   parse: string -> StreamDecoder.Parsed): (c: Call)
    ensures c.url == Some(SessionUrl(sessionId, methodName, queryString))
    ensures !Ok(response.status) ==> c.logs == [] && c.result == Failure(HttpError(response.status))
    ensures Ok(response.status) && response.body.None? ==> c.logs == [] && c.result == Failure(ResponseBodyError)
    ensures Ok(response.status) && response.body.Some? ==>
      var (logs, outcome) := StreamDecoder.Decode(response.body.value, parse);
      c.logs == logs &&
      c.result == (if outcome.ParseFailed? then Failure(ResponseParseError) else Success(outcome))
  {
    var url := Some(SessionUrl(sessionId, methodName, queryString));
    if !Ok(response.status) then Call(url, [], Failure(HttpError(response.status)))
    else if response.body.None? then Call(url, [], Failure(ResponseBodyError))
    else
      var (logs, outcome) := StreamDecoder.Decode(response.body.value, parse);
      Call(url, logs, if outcome.ParseFailed? then Failure(ResponseParseError) else Success(outcome))
  }

  /** The session operations that go through `execute`. */
  datatype Operation = Act | Extract | Observe | Goto | AgentExecute(integrations: Option<seq<JsValue>>)

  /** The method segment of each operation's URL. */
  function MethodName(op: Operation): string {
    match op
    case Act => "act"
    case Extract => "extract"
    case Observe => "observe"
    case Goto => "navigate"
    case AgentExecute(_) => "agentExecute"
  }

  /** `act`, `extract`, `observe`, `goto` and `agentExecute`; none passes query parameters.
      `agentExecute` refuses non-empty MCP integrations before any request. */
  function Perform(st: ClientState, op: Operation, response: HttpResponse,
                   parse: string -> StreamDecoder.Parsed): (c: Call)
    ensures op.AgentExecute? && op.integrations.Some? && |op.integrations.value| > 0 ==>
      c == Call(None, [], Failure(IntegrationsUnsupported))
    ensures !(op.AgentExecute? && op.integrations.Some? && |op.integrations.value| > 0) ==>
      c.url == Some("/sessions/" + TemplateText(st.sessionId) + "/" + MethodName(op))
  {
    if op.AgentExecute? && op.integrations.Some? && |op.integrations.value| > 0 then
      Call(None, [], Failure(IntegrationsUnsupported))
    else
      Execute(st.sessionId, MethodName(op), "", response, parse)
  }

  /** Status and body are checked before anything is decoded: a failing status or a missing
      body forwards no log line, whatever the stream would have said. */
  lemma {:induction false} HttpChecksPrecedeDecoding(st: ClientState, op: Operation, status: int, chunks: seq<string>,
                                                     parse: string -> StreamDecoder.Parsed)
    requires !(op.AgentExecute? && op.integrations.Some? && |op.integrations.value| > 0)
    ensures !Ok(status) ==> (Perform(st, op, HttpResponse(status, Some(chunks)), parse) ==
      Call(Some(SessionUrl(st.sessionId, MethodName(op), "")), [], Failure(HttpError(status))))
    ensures Ok(status) ==> (Perform(st, op, HttpResponse(status, None), parse) ==
      Call(Some(SessionUrl(st.sessionId, MethodName(op), "")), [], Failure(ResponseBodyError)))
  {
  }
}
