/**
 * The streaming `lambdaHandler` override: warmer rejection, the `x-forwarded-host`
 * override applied in place, the pre-send header hook, and the short-circuit versus
 * process-then-revalidate branches. The event mapper, the routing step, the request
 * processor, the three header fixes and revalidation are collaborators whose calls
 * are recorded, in order, in a call log.
 */
module StreamingHandler {
  import opened Wrappers

  type Headers = map<string, string>

  /** A Lambda event; `hasTypeField` is `"type" in event`, which marks a warmer event. */
  datatype LambdaEvent<Raw> = LambdaEvent(hasTypeField: bool, raw: Raw)

  /** The canonical request `convertFrom` produces. */
  datatype InternalEventValue = InternalEventValue(httpMethod: string, rawPath: string, url: string, headers: Headers, body: string)

  /** What `processInternalEvent` resolves to: a finished result (it has a `type`), or what to process. */
  datatype PreprocessResult<Req> =
    | ShortCircuit(statusCode: int, body: string, headers: Headers)
    | Proceed(req: Req, httpMethod: string, requestHeaders: Headers, isExternalRewrite: bool, internalEvent: InternalEventValue)

  /** What the request processor writes through the response. */
  datatype AppResponse = AppResponse(statusCode: int, headers: Headers, body: string)

  /** `fixCacheHeaderForHtmlPages`, `fixSWRCacheHeader` and `addOpenNextHeader`, each as its effect on the headers. */
  datatype HeaderFixes = HeaderFixes(
    fixCacheHeaderForHtmlPages: (string, Headers) -> Headers,
    fixSWRCacheHeader: Headers -> Headers,
    addOpenNextHeader: Headers -> Headers)

  datatype Collaborators<!Raw, !Req> = Collaborators(
    convertFrom: Raw -> InternalEventValue,
    processInternalEvent: InternalEventValue -> PreprocessResult<Req>,
    processRequest: (Req, InternalEventValue, bool) -> AppResponse,
    fixes: HeaderFixes)

  /** A call into a collaborator, as recorded in the call log. */
  datatype Call =
    | ConvertFrom
    | ProcessInternalEvent(event: InternalEventValue)
    | FixCacheHeaderForHtmlPages(rawPath: string)
    | FixSWRCacheHeader
    | AddOpenNextHeader
    | ProcessRequest(event: InternalEventValue, isExternalRewrite: bool)
    | RevalidateIfRequired(host: Option<string>, rawPath: string, headers: Headers)

  class CallLog {
    var calls: seq<Call>

    constructor ()
      ensures calls == []
    {
      calls := [];
    }

    method Record(c: Call)
      modifies this
      ensures calls == old(calls) + [c]
    {
      calls := calls + [c];
    }
  }

  /** What leaves through the Lambda response stream: the committed head, then body data. */
  datatype Frame = Head(statusCode: int, headers: Headers) | Body(data: string)

  class ResponseStream {
    var frames: seq<Frame>

    constructor ()
      ensures frames == []
    {
      frames := [];
    }

    method Write(frame: Frame)
      modifies this
      ensures frames == old(frames) + [frame]
    {
      frames := frames + [frame];
    }
  }

  // ---------------------------------------------------------------------------
  // The forwarded-host override
  // ---------------------------------------------------------------------------

  /** `internalEvent.headers["x-forwarded-host"]` is truthy: present and non-empty. */
  predicate ForwardedHostSet(h: Headers) {
    "x-forwarded-host" in h && h["x-forwarded-host"] != ""
  }

  /** The headers after the override: `host` takes a set `x-forwarded-host`, nothing else changes. */
  function ForwardedHostOverride(h: Headers): (r: Headers)
    ensures r.Keys == h.Keys + (if ForwardedHostSet(h) then {"host"} else {})
    ensures forall k :: k in h && k != "host" ==> r[k] == h[k]
    ensures ForwardedHostSet(h) ==> r["host"] == h["x-forwarded-host"]
    ensures !ForwardedHostSet(h) ==> r == h
  {
    if ForwardedHostSet(h) then h["host" := h["x-forwarded-host"]] else h
  }

  /** Applying the override a second time changes nothing. */
  lemma ForwardedHostOverrideIdempotent(h: Headers)
    ensures ForwardedHostOverride(ForwardedHostOverride(h)) == ForwardedHostOverride(h)
  {
  }

  /** `headers.host`, which is `undefined` when absent. */
  function HostOf(h: Headers): (host: Option<string>)
    ensures host.Some? <==> "host" in h
    ensures host.Some? ==> host.value == h["host"]
  {
    if "host" in h then Some(h["host"]) else None
  }

  /** The request object `convertFrom` returns; only its headers are ever reassigned. */
  class InternalEvent {
    const httpMethod: string
    const rawPath: string
    const url: string
    var headers: Headers
    const body: string

    constructor (v: InternalEventValue)
      ensures Value() == v
    {
      httpMethod, rawPath, url, headers, body := v.httpMethod, v.rawPath, v.url, v.headers, v.body;
    }

    function Value(): InternalEventValue
      reads this
    {
      InternalEventValue(httpMethod, rawPath, url, headers, body)
    }

    /** The workaround: `host` is overwritten in place when `x-forwarded-host` is set. */
    method ApplyForwardedHost()
      modifies this`headers
      ensures headers == ForwardedHostOverride(old(headers))
    {
      if "x-forwarded-host" in headers && headers["x-forwarded-host"] != "" {
        headers := headers["host" := headers["x-forwarded-host"]];
      }
    }
  }

  // ---------------------------------------------------------------------------
  // The header hook and the streaming response
  // ---------------------------------------------------------------------------

  /** The pre-send hook closure: it reads the request's `rawPath` and runs the three fixes. */
  datatype HeaderHook = HeaderHook(event: InternalEvent, fixes: HeaderFixes)

  /** The headers the hook leaves: HTML fix, then SWR fix, then the OpenNext marker. */
  function HookedHeaders(fixes: HeaderFixes, rawPath: string, h: Headers): Headers {
    fixes.addOpenNextHeader(fixes.fixSWRCacheHeader(fixes.fixCacheHeaderForHtmlPages(rawPath, h)))
  }

  /** The calls the hook makes, in order. */
  function HookCalls(rawPath: string): seq<Call> {
    [FixCacheHeaderForHtmlPages(rawPath), FixSWRCacheHeader, AddOpenNextHeader]
  }

  /** The streaming response: staged status and headers, committed once through the hook. */
  class StreamingServerResponse {
    const httpMethod: string
    const requestHeaders: Headers
    const stream: ResponseStream
    const hook: HeaderHook
    var statusCode: int
    var headers: Headers
    var headersSent: bool

    constructor (httpMethod: string, requestHeaders: Headers, stream: ResponseStream, hook: HeaderHook)
      ensures this.httpMethod == httpMethod && this.requestHeaders == requestHeaders
      ensures this.stream == stream && this.hook == hook
      ensures statusCode == 200 && headers == map[] && !headersSent
    {
      this.httpMethod := httpMethod;
      this.requestHeaders := requestHeaders;
      this.stream := stream;
      this.hook := hook;
      statusCode := 200;
      headers := map[];
      headersSent := false;
    }

    /** Runs the hook on the staged headers: each fix rewrites the same headers in turn. */
    method RunHook(log: CallLog)
      modifies this`headers, log
      ensures headers == HookedHeaders(hook.fixes, hook.event.rawPath, old(headers))
      ensures log.calls == old(log.calls) + HookCalls(hook.event.rawPath)
    {
      headers := hook.fixes.fixCacheHeaderForHtmlPages(hook.event.rawPath, headers);
      log.Record(FixCacheHeaderForHtmlPages(hook.event.rawPath));
      headers := hook.fixes.fixSWRCacheHeader(headers);
      log.Record(FixSWRCacheHeader);
      headers := hook.fixes.addOpenNextHeader(headers);
      log.Record(AddOpenNextHeader);
    }

    /** Sends a complete response: on the first send, the hook runs before the head is committed. */
    method SendNextResponse(statusCode: int, body: string, headers: Headers, log: CallLog)
      modifies this, stream, log
      ensures headersSent
      ensures !old(headersSent) ==>
        && this.statusCode == statusCode
        && this.headers == HookedHeaders(hook.fixes, hook.event.rawPath, old(this.headers) + headers)
        && log.calls == old(log.calls) + HookCalls(hook.event.rawPath)
        && stream.frames == old(stream.frames) + [Head(statusCode, this.headers), Body(body)]
      ensures old(headersSent) ==>
        && this.statusCode == old(this.statusCode) && this.headers == old(this.headers)
        && log.calls == old(log.calls)
        && stream.frames == old(stream.frames) + [Body(body)]
    {
      if !headersSent {
        this.statusCode := statusCode;
        this.headers := this.headers + headers;
        RunHook(log);
        stream.Write(Head(statusCode, this.headers));
        headersSent := true;
      }
      stream.Write(Body(body));
    }
  }

  /** `createServerResponse`: whatever the method and headers, the same stream and the same hook. */
  method CreateServerResponse(httpMethod: string, headers: Headers, responseStream: ResponseStream, hook: HeaderHook)
    returns (res: StreamingServerResponse)
    ensures fresh(res)
    ensures res.stream == responseStream && res.hook == hook
    ensures res.httpMethod == httpMethod && res.requestHeaders == headers
    ensures res.headers == map[] && !res.headersSent
  {
    res := new StreamingServerResponse(httpMethod, headers, responseStream, hook);
  }

  /** The request processor: it writes its response through `res`, which commits through the hook. */
  method ProcessRequestWith<Raw, Req>(collab: Collaborators<Raw, Req>, req: Req, res: StreamingServerResponse,
                                      event: InternalEventValue, isExternalRewrite: bool, log: CallLog)
    requires !res.headersSent
    modifies res, res.stream, log
    ensures var app := collab.processRequest(req, event, isExternalRewrite);
      && res.headers == HookedHeaders(res.hook.fixes, res.hook.event.rawPath, old(res.headers) + app.headers)
      && log.calls == old(log.calls) + [ProcessRequest(event, isExternalRewrite)] + HookCalls(res.hook.event.rawPath)
      && res.stream.frames == old(res.stream.frames) + [Head(app.statusCode, res.headers), Body(app.body)]
  {
    log.Record(ProcessRequest(event, isExternalRewrite));
    var app := collab.processRequest(req, event, isExternalRewrite);
    res.SendNextResponse(app.statusCode, app.body, app.headers, log);
  }

  // ---------------------------------------------------------------------------
  // The handler
  // ---------------------------------------------------------------------------

  const WarmerNotSupported := "Warmer function are not supported with streaming"

  /** The request after conversion and the forwarded-host override. */
  function ConvertedEvent<Raw, Req>(raw: Raw, collab: Collaborators<Raw, Req>): InternalEventValue {
    var v := collab.convertFrom(raw);
    v.(headers := ForwardedHostOverride(v.headers))
  }

  /** The collaborator calls made once the converted request `ev` is known, in order. */
  function EventCalls<Raw, Req>(ev: InternalEventValue, collab: Collaborators<Raw, Req>): seq<Call> {
    match collab.processInternalEvent(ev)
    case ShortCircuit(_, _, _) => HookCalls(ev.rawPath)
    case Proceed(req, _, _, isExternalRewrite, overwritten) =>
      var app := collab.processRequest(req, overwritten, isExternalRewrite);
      [ProcessRequest(overwritten, isExternalRewrite)] + HookCalls(ev.rawPath) +
      [RevalidateIfRequired(HostOf(ev.headers), ev.rawPath, HookedHeaders(collab.fixes, ev.rawPath, app.headers))]
  }

  /** The collaborator calls a non-warmer invocation makes, in order. */
  function HandlerCalls<Raw, Req>(raw: Raw, collab: Collaborators<Raw, Req>): seq<Call> {
    var ev := ConvertedEvent(raw, collab);
    [ConvertFrom, ProcessInternalEvent(ev)] + EventCalls(ev, collab)
  }

  /** The frames written to the response stream for the converted request `ev`. */
  function HandlerFrames<Raw, Req>(raw: Raw, collab: Collaborators<Raw, Req>): seq<Frame> {
    EventFrames(ConvertedEvent(raw, collab), collab)
  }

  /** The frames a non-warmer invocation writes to the response stream. */
  function EventFrames<Raw, Req>(ev: InternalEventValue, collab: Collaborators<Raw, Req>): seq<Frame> {
    match collab.processInternalEvent(ev)
    case ShortCircuit(statusCode, body, headers) =>
      [Head(statusCode, HookedHeaders(collab.fixes, ev.rawPath, headers)), Body(body)]
    case Proceed(req, _, _, isExternalRewrite, overwritten) =>
      var app := collab.processRequest(req, overwritten, isExternalRewrite);
      [Head(app.statusCode, HookedHeaders(collab.fixes, ev.rawPath, app.headers)), Body(app.body)]
  }

  /**
   * The part of `lambdaHandler` after `processInternalEvent`: either the short-circuit
   * response or the request processor, then the revalidation.
   */
  method RespondTo<Raw, Req>(ev: InternalEventValue, hook: HeaderHook, responseStream: ResponseStream,
                             collab: Collaborators<Raw, Req>, requestHeaders: Headers, log: CallLog)
    requires hook.event.rawPath == ev.rawPath && hook.fixes == collab.fixes
    modifies responseStream, log
    ensures log.calls == old(log.calls) + EventCalls(ev, collab)
    ensures responseStream.frames == old(responseStream.frames) + EventFrames(ev, collab)
  {
    match collab.processInternalEvent(ev) {
      case ShortCircuit(statusCode, body, headers) =>
        var res := CreateServerResponse("GET", requestHeaders, responseStream, hook);
        assert map[] + headers == headers;
        res.SendNextResponse(statusCode, body, headers, log);
      case Proceed(req, httpMethod, reqHeaders, isExternalRewrite, overwritten) =>
        var res := CreateServerResponse(httpMethod, reqHeaders, responseStream, hook);
        assert map[] + collab.processRequest(req, overwritten, isExternalRewrite).headers
            == collab.processRequest(req, overwritten, isExternalRewrite).headers;
        ProcessRequestWith(collab, req, res, overwritten, isExternalRewrite, log);
        log.Record(RevalidateIfRequired(HostOf(ev.headers), ev.rawPath, res.headers));
    }
  }

  /**
   * `lambdaHandler`. `requestHeaders` stands for the identifier the short-circuit branch
   * passes to `createServerResponse`, which this file does not define.
   */
  method LambdaHandler<Raw, Req>(event: LambdaEvent<Raw>, responseStream: ResponseStream,
                                 collab: Collaborators<Raw, Req>, requestHeaders: Headers, log: CallLog)
    returns (outcome: Result<(), string>)
    modifies responseStream, log
    ensures event.hasTypeField ==>
      && outcome == Failure(WarmerNotSupported)
      && log.calls == old(log.calls)
      && responseStream.frames == old(responseStream.frames)
    ensures !event.hasTypeField ==>
      && outcome == Success(())
      && log.calls == old(log.calls) + HandlerCalls(event.raw, collab)
      && responseStream.frames == old(responseStream.frames) + HandlerFrames(event.raw, collab)
  {
    if event.hasTypeField {
      outcome := Failure(WarmerNotSupported);
      return;
    }
    log.Record(ConvertFrom);
    var internalEvent := new InternalEvent(collab.convertFrom(event.raw));
    internalEvent.ApplyForwardedHost();
    var hook := HeaderHook(internalEvent, collab.fixes);
    var ev := internalEvent.Value();
    assert ev == ConvertedEvent(event.raw, collab);
    log.Record(ProcessInternalEvent(ev));
    RespondTo(ev, hook, responseStream, collab, requestHeaders, log);
    outcome := Success(());
  }

  // ---------------------------------------------------------------------------
  // Properties of an invocation
  // ---------------------------------------------------------------------------

  /**
   * The hook's three fixes run back to back, in order, with the request's own `rawPath`:
   * right after routing on a short circuit, right after processing otherwise, and once only.
   */
  lemma HookRunsInOrder<Raw, Req>(raw: Raw, collab: Collaborators<Raw, Req>)
    ensures var calls := HandlerCalls(raw, collab);
      var rawPath := collab.convertFrom(raw).rawPath;
      var hookAt := if collab.processInternalEvent(ConvertedEvent(raw, collab)).ShortCircuit? then 2 else 3;
      && hookAt + 3 <= |calls|
      && calls[hookAt..hookAt + 3] == HookCalls(rawPath)
      && (forall i :: 0 <= i < |calls| && calls[i].FixCacheHeaderForHtmlPages? ==> i == hookAt)
  {
    var calls := HandlerCalls(raw, collab);
    var ev := ConvertedEvent(raw, collab);
    assert ev.rawPath == collab.convertFrom(raw).rawPath;
    var hookAt := if collab.processInternalEvent(ev).ShortCircuit? then 2 else 3;
    assert calls[hookAt..hookAt + 3] == HookCalls(ev.rawPath);
    assert |calls| == hookAt + 3 + (if hookAt == 2 then 0 else 1);
  }

  /** A short-circuit result is sent as is: nothing is processed and nothing is revalidated. */
  lemma ShortCircuitSkipsRevalidation<Raw, Req>(raw: Raw, collab: Collaborators<Raw, Req>)
    requires collab.processInternalEvent(ConvertedEvent(raw, collab)).ShortCircuit?
    ensures forall c :: c in HandlerCalls(raw, collab) ==> !c.RevalidateIfRequired? && !c.ProcessRequest?
    ensures var pre := collab.processInternalEvent(ConvertedEvent(raw, collab));
      HandlerFrames(raw, collab) ==
        [Head(pre.statusCode, HookedHeaders(collab.fixes, collab.convertFrom(raw).rawPath, pre.headers)), Body(pre.body)]
  {
  }

  /**
   * Otherwise revalidation is the last call, after request processing; it sees the
   * overridden host, the original `rawPath` and the headers as the hook left them.
   */
  lemma RevalidationFollowsProcessing<Raw, Req>(raw: Raw, collab: Collaborators<Raw, Req>)
    requires collab.processInternalEvent(ConvertedEvent(raw, collab)).Proceed?
    ensures var calls := HandlerCalls(raw, collab);
      var v := collab.convertFrom(raw);
      var pre := collab.processInternalEvent(ConvertedEvent(raw, collab));
      var app := collab.processRequest(pre.req, pre.internalEvent, pre.isExternalRewrite);
      && |calls| == 7
      && calls[2] == ProcessRequest(pre.internalEvent, pre.isExternalRewrite)
      && (forall i :: 0 <= i < 6 ==> !calls[i].RevalidateIfRequired?)
      && calls[6].RevalidateIfRequired?
      && calls[6].rawPath == v.rawPath
      && (ForwardedHostSet(v.headers) ==> calls[6].host == Some(v.headers["x-forwarded-host"]))
      && (!ForwardedHostSet(v.headers) ==> calls[6].host == HostOf(v.headers))
      && calls[6].headers == HookedHeaders(collab.fixes, v.rawPath, app.headers)
      && HandlerFrames(raw, collab)[0].headers == calls[6].headers
  {
  }
}
