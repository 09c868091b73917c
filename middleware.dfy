/**
 * The request and error tracing middleware. `requestTracingMiddleware`
 * annotates the active span on entry and replaces `res.send` by a wrapper
 * that annotates again and then delegates to the send it replaced.
 * `errorTracingMiddleware` annotates the span with a failure; as written it
 * forwards the error only when no span is active, because reading
 * `trace.SpanStatusCode.ERROR` throws. Both that version and the intended
 * one, which marks the span ERROR and always forwards, are modelled.
 *
 * `Date.now()` readings and `Math.random().toString(36)` are parameters; the
 * span a helper writes to is the one active when it runs.
 */
module Middleware {
  import opened JsValues
  import opened Spans
  import opened Tracer

  /** The request fields the middleware reads; `routePath` is `req.route?.path`. */
  datatype Request = Request(httpMethod: string, url: string, routePath: Option<Value>,
                             headers: map<string, Value>, userAgent: Value, ip: Value, remoteAddress: Value)

  function Header(req: Request, name: string): Value
  {
    if name in req.headers then req.headers[name] else Undefined
  }

  /** `req.route?.path || req.url`. */
  function Route(req: Request): (route: Value)
    ensures req.routePath.Some? && Truthy(req.routePath.value) ==> route == req.routePath.value
    ensures !(req.routePath.Some? && Truthy(req.routePath.value)) ==> route == Str(req.url)
  {
    if req.routePath.Some? && Truthy(req.routePath.value) then req.routePath.value else Str(req.url)
  }

  /** `s.substr(start, length)` for non-negative arguments. */
  function Substr(s: string, start: nat, length: nat): (r: string)
    ensures |r| <= length
  {
    if start >= |s| then "" else if start + length <= |s| then s[start..start + length] else s[start..]
  }

  /**
   * `req.headers['x-request-id'] || req_<now>_<suffix>`, the suffix being up to
   * nine base-36 digits of a random number (`randomText` is its base-36 text).
   */
  function RequestId(req: Request, now: int, randomText: string): (id: Value)
    ensures Truthy(Header(req, "x-request-id")) ==> id == Header(req, "x-request-id")
    ensures !Truthy(Header(req, "x-request-id")) ==>
              id.Str? && "req_" <= id.s && id.s == "req_" + IntToString(now) + "_" + Substr(randomText, 2, 9)
    ensures Truthy(id)
  {
    var header := Header(req, "x-request-id");
    if Truthy(header) then header else Str("req_" + IntToString(now) + "_" + Substr(randomText, 2, 9))
  }

  /** The attributes written on entry: the request line, route, client and id. */
  function RequestAttributes(req: Request, requestId: Value): (a: Attributes)
    ensures a.Keys == {"http.method", "http.url", "http.route", "http.user_agent", "http.remote_addr", "request.id"}
    ensures a["http.method"] == Str(req.httpMethod) && a["http.url"] == Str(req.url)
    ensures a["http.user_agent"] == req.userAgent
    ensures a["http.route"] == Route(req) && a["request.id"] == requestId
    ensures Truthy(req.ip) ==> a["http.remote_addr"] == req.ip
    ensures !Truthy(req.ip) ==> a["http.remote_addr"] == req.remoteAddress
  {
    map["http.method" := Str(req.httpMethod),
        "http.url" := Str(req.url),
        "http.route" := Route(req),
        "http.user_agent" := req.userAgent,
        "http.remote_addr" := if Truthy(req.ip) then req.ip else req.remoteAddress,
        "request.id" := requestId]
  }

  /** The entry event carries the request line and the time the request arrived. */
  function StartEvent(req: Request, startTime: int): (e: SpanEvent)
    ensures e.name == "http.request.start"
    ensures e.attributes.Keys == {"method", "url", "timestamp"}
    ensures e.attributes["method"] == Str(req.httpMethod) && e.attributes["url"] == Str(req.url)
    ensures e.attributes["timestamp"] == Int(startTime)
  {
    SpanEvent("http.request.start",
              map["method" := Str(req.httpMethod), "url" := Str(req.url), "timestamp" := Int(startTime)])
  }

  /**
   * `data ? Buffer.byteLength(data, 'utf8') : 0`: the UTF-8 length of a string,
   * 0 for falsy data, and `None` where `Buffer.byteLength` throws a TypeError
   * (a truthy value that is not a string).
   */
  function ResponseSize(data: Value): (size: Option<nat>)
    ensures !Truthy(data) ==> size == Some(0)
    ensures Truthy(data) && data.Str? ==> size == Some(Utf8Length(data.s)) && |data.s| <= size.value
    ensures Truthy(data) && !data.Str? ==> size.None?
  {
    if !Truthy(data) then Some(0) else if data.Str? then Some(Utf8Length(data.s)) else None
  }

  /** The size every wrapper of one `send` computes; Express's own send computes none. */
  function SizeOrZero(data: Value): nat
  {
    if ResponseSize(data).Some? then ResponseSize(data).value else 0
  }

  const ByteLengthTypeError := JsError("TypeError", "The \"string\" argument must be of type string or an instance of Buffer or ArrayBuffer.", Undefined)

  /** The attributes the wrapped `send` writes; `http.success` holds exactly below status 400. */
  function CompleteAttributes(statusCode: int, size: nat, duration: int): (a: Attributes)
    ensures a.Keys == {"http.status_code", "http.response_size", "http.duration_ms", "http.success"}
    ensures a["http.success"] == Bool(true) <==> statusCode < 400
    ensures a["http.status_code"] == Int(statusCode) && a["http.response_size"] == Int(size)
    ensures a["http.duration_ms"] == Int(duration)
  {
    map["http.status_code" := Int(statusCode),
        "http.response_size" := Int(size),
        "http.duration_ms" := Int(duration),
        "http.success" := Bool(statusCode < 400)]
  }

  /** The completion event repeats the status, size and duration of the attributes. */
  function CompleteEvent(statusCode: int, size: nat, duration: int): (e: SpanEvent)
    ensures e.name == "http.request.complete"
    ensures e.attributes.Keys == {"status_code", "duration_ms", "response_size"}
    ensures e.attributes["status_code"] == CompleteAttributes(statusCode, size, duration)["http.status_code"]
    ensures e.attributes["response_size"] == CompleteAttributes(statusCode, size, duration)["http.response_size"]
    ensures e.attributes["duration_ms"] == CompleteAttributes(statusCode, size, duration)["http.duration_ms"]
  {
    SpanEvent("http.request.complete",
              map["status_code" := Int(statusCode), "duration_ms" := Int(duration), "response_size" := Int(size)])
  }

  /** `res.send`: Express's own send, or a tracing wrapper around the send it replaced. */
  datatype SendHandler = OriginalSend | TracedSend(startTime: int, original: SendHandler)

  /** The events a chain of wrappers appends, outermost first. */
  function ChainEvents(handler: SendHandler, statusCode: int, size: nat, now: int): seq<SpanEvent>
  {
    match handler
    case OriginalSend => []
    case TracedSend(startTime, original) =>
      [CompleteEvent(statusCode, size, now - startTime)] + ChainEvents(original, statusCode, size, now)
  }

  /** The attributes a chain of wrappers writes, inner writes overwriting outer ones. */
  function ChainAttributes(handler: SendHandler, statusCode: int, size: nat, now: int): Attributes
  {
    match handler
    case OriginalSend => map[]
    case TracedSend(startTime, original) =>
      CompleteAttributes(statusCode, size, now - startTime) + ChainAttributes(original, statusCode, size, now)
  }

  /** The response object: its status code, its `send` field, and the payloads Express's send transmitted. */
  class Response {
    var statusCode: int
    var send: SendHandler
    var sent: seq<Value>

    constructor (statusCode: int)
      ensures this.statusCode == statusCode && send == OriginalSend && sent == []
    {
      this.statusCode := statusCode;
      send := OriginalSend;
      sent := [];
    }

    /**
     * `res.send(data)`: every wrapper annotates the span active at that time,
     * then the original send transmits exactly `data`. A truthy non-string
     * payload makes the outermost wrapper throw before anything happens.
     */
    method Send(data: Value, active: Option<Span>, now: int) returns (thrown: Option<JsError>)
      modifies this, Frame(active)
      ensures statusCode == old(statusCode) && send == old(send)
      ensures send.TracedSend? && ResponseSize(data).None? ==>
                thrown == Some(ByteLengthTypeError) && sent == old(sent)
                && (active.Some? ==> active.value.attributes == old(active.value.attributes)
                                     && active.value.events == old(active.value.events))
      ensures send.OriginalSend? || ResponseSize(data).Some? ==>
                var size := SizeOrZero(data);
                && thrown.None? && sent == old(sent) + [data]
                && (active.Some? ==>
                      && active.value.attributes
                         == old(active.value.attributes) + ChainAttributes(send, statusCode, size, now)
                      && active.value.events == old(active.value.events) + ChainEvents(send, statusCode, size, now))
      ensures active.Some? ==> active.value.status == old(active.value.status)
                               && active.value.exceptions == old(active.value.exceptions)
                               && active.value.endCount == old(active.value.endCount)
    {
      thrown := Dispatch(send, data, active, now);
    }

    /** One handler of the chain: Express's own send, or a wrapper. */
    method Dispatch(handler: SendHandler, data: Value, active: Option<Span>, now: int) returns (thrown: Option<JsError>)
      modifies this`sent, Frame(active)
      decreases handler, 1
      ensures handler.TracedSend? && ResponseSize(data).None? ==>
                thrown == Some(ByteLengthTypeError) && sent == old(sent)
                && (active.Some? ==> active.value.attributes == old(active.value.attributes)
                                     && active.value.events == old(active.value.events))
      ensures handler.OriginalSend? || ResponseSize(data).Some? ==>
                var size := SizeOrZero(data);
                && thrown.None? && sent == old(sent) + [data]
                && (active.Some? ==>
                      && active.value.attributes
                         == old(active.value.attributes) + ChainAttributes(handler, statusCode, size, now)
                      && active.value.events == old(active.value.events) + ChainEvents(handler, statusCode, size, now))
      ensures active.Some? ==> active.value.status == old(active.value.status)
                               && active.value.exceptions == old(active.value.exceptions)
                               && active.value.endCount == old(active.value.endCount)
    {
      if handler.OriginalSend? {
        sent := sent + [data];
        thrown := None;
      } else if ResponseSize(data).None? {
        // The wrapper's `Buffer.byteLength` throws before it writes anything.
        thrown := Some(ByteLengthTypeError);
      } else {
        thrown := Wrapper(handler, data, active, now);
      }
    }

    /** A tracing wrapper over a measurable payload: annotate the span, then delegate to the send it replaced. */
    method Wrapper(handler: SendHandler, data: Value, active: Option<Span>, now: int) returns (thrown: Option<JsError>)
      requires handler.TracedSend? && ResponseSize(data).Some?
      modifies this`sent, Frame(active)
      decreases handler, 0
      ensures thrown.None? && sent == old(sent) + [data]
      ensures active.Some? ==>
                active.value.attributes
                == old(active.value.attributes) + ChainAttributes(handler, statusCode, ResponseSize(data).value, now)
      ensures active.Some? ==>
                active.value.events
                == old(active.value.events) + ChainEvents(handler, statusCode, ResponseSize(data).value, now)
      ensures active.Some? ==> active.value.status == old(active.value.status)
                               && active.value.exceptions == old(active.value.exceptions)
                               && active.value.endCount == old(active.value.endCount)
    {
      var duration := now - handler.startTime;
      var size := ResponseSize(data);
      ghost var before := if active.Some? then active.value.events else [];
      ghost var attributesBefore := if active.Some? then active.value.attributes else map[];
      Annotate(active, statusCode, size.value, duration);
      thrown := Dispatch(handler.original, data, active, now);
      EventsAssociative(before, [CompleteEvent(statusCode, size.value, duration)],
                        ChainEvents(handler.original, statusCode, size.value, now));
      MergesCompose(attributesBefore, CompleteAttributes(statusCode, size.value, duration),
                       ChainAttributes(handler.original, statusCode, size.value, now));
    }
  }

  lemma EventsAssociative(a: seq<SpanEvent>, b: seq<SpanEvent>, c: seq<SpanEvent>)
    ensures (a + b) + c == a + (b + c)
  {
  }

  /** What one wrapper writes to the active span before delegating. */
  method Annotate(active: Option<Span>, statusCode: int, size: nat, duration: int)
    modifies Frame(active)
    ensures active.Some? ==>
              && active.value.attributes == old(active.value.attributes) + CompleteAttributes(statusCode, size, duration)
              && active.value.events == old(active.value.events) + [CompleteEvent(statusCode, size, duration)]
              && active.value.status == old(active.value.status)
              && active.value.exceptions == old(active.value.exceptions)
              && active.value.endCount == old(active.value.endCount)
  {
    AddSpanAttributes(active, CompleteAttributes(statusCode, size, duration));
    var complete := CompleteEvent(statusCode, size, duration);
    RecordSpanEvent(active, complete.name, complete.attributes);
  }

  /** The `next` callback: every call with the error it was given, if any. */
  class NextCallback {
    var calls: seq<Option<JsError>>

    constructor ()
      ensures calls == []
    {
      calls := [];
    }

    method Call(error: Option<JsError>)
      modifies this
      ensures calls == old(calls) + [error]
    {
      calls := calls + [error];
    }
  }

  /**
   * `requestTracingMiddleware(req, res, next)`: with an active span, writes
   * the request attributes, records the start event and wraps `res.send`;
   * without one it changes nothing. `next()` is called exactly once.
   */
  method RequestTracingMiddleware(req: Request, res: Response, next: NextCallback, active: Option<Span>,
                                  startTime: int, idTime: int, randomText: string)
    modifies res, next, Frame(active)
    ensures next.calls == old(next.calls) + [None]
    ensures res.statusCode == old(res.statusCode) && res.sent == old(res.sent)
    ensures active.None? ==> res.send == old(res.send)
    ensures active.Some? ==>
              && res.send == TracedSend(startTime, old(res.send))
              && active.value.attributes
                 == old(active.value.attributes) + RequestAttributes(req, RequestId(req, idTime, randomText))
              && active.value.events == old(active.value.events) + [StartEvent(req, startTime)]
              && active.value.status == old(active.value.status)
              && active.value.exceptions == old(active.value.exceptions)
              && active.value.endCount == old(active.value.endCount)
  {
    if active.Some? {
      AddSpanAttributes(active, RequestAttributes(req, RequestId(req, idTime, randomText)));
      var start := StartEvent(req, startTime);
      RecordSpanEvent(active, start.name, start.attributes);
      res.send := TracedSend(startTime, res.send);
    }
    next.Call(None);
  }

  /**
   * One request through `requestTracingMiddleware` whose handler answers with
   * `res.status(statusCode).send(data)`: `next()` runs once, the span holds the
   * request attributes and then the completion attributes, and the payload
   * reaches Express's send unchanged.
   */
  method TracedRequest(req: Request, statusCode: int, data: Value, startTime: int, idTime: int,
                       randomText: string, sendTime: int)
    returns (attributes: Attributes, events: seq<SpanEvent>, sent: seq<Value>,
             nextCalls: seq<Option<JsError>>, thrown: Option<JsError>)
    ensures nextCalls == [None]
    ensures ResponseSize(data).Some? ==>
              var size := ResponseSize(data).value;
              && thrown.None? && sent == [data]
              && events == [StartEvent(req, startTime), CompleteEvent(statusCode, size, sendTime - startTime)]
              && attributes == RequestAttributes(req, RequestId(req, idTime, randomText))
                               + CompleteAttributes(statusCode, size, sendTime - startTime)
              && (attributes["http.success"] == Bool(true) <==> statusCode < 400)
    ensures ResponseSize(data).None? ==>
              && thrown == Some(ByteLengthTypeError) && sent == []
              && events == [StartEvent(req, startTime)]
              && attributes == RequestAttributes(req, RequestId(req, idTime, randomText))
  {
    var span, res, next := BeginRequest(req, statusCode, startTime, idTime, randomText);
    SingleWrapper(startTime, statusCode, SizeOrZero(data), sendTime);
    thrown := res.Send(data, Some(span), sendTime);
    attributes, events, sent, nextCalls := span.attributes, span.events, res.sent, next.calls;
    SuccessSurvivesMerge(RequestAttributes(req, RequestId(req, idTime, randomText)), statusCode,
                         SizeOrZero(data), sendTime - startTime);
  }

  /** A fresh request span, response and `next` after the middleware ran and the handler set the status. */
  method BeginRequest(req: Request, statusCode: int, startTime: int, idTime: int, randomText: string)
    returns (span: Span, res: Response, next: NextCallback)
    ensures fresh(span) && fresh(res) && fresh(next)
    ensures span.attributes == RequestAttributes(req, RequestId(req, idTime, randomText))
    ensures span.events == [StartEvent(req, startTime)]
    ensures res.statusCode == statusCode && res.send == TracedSend(startTime, OriginalSend) && res.sent == []
    ensures next.calls == [None]
  {
    span := new Span.Start("HTTP " + req.httpMethod, NoOptions);
    res := new Response(200);
    next := new NextCallback();
    RequestTracingMiddleware(req, res, next, Some(span), startTime, idTime, randomText);
    res.statusCode := statusCode;
  }

  /** A chain of one wrapper writes one completion event and its attributes. */
  lemma SingleWrapper(startTime: int, statusCode: int, size: nat, now: int)
    ensures ChainEvents(TracedSend(startTime, OriginalSend), statusCode, size, now)
            == [CompleteEvent(statusCode, size, now - startTime)]
    ensures ChainAttributes(TracedSend(startTime, OriginalSend), statusCode, size, now)
            == CompleteAttributes(statusCode, size, now - startTime)
  {
    assert CompleteAttributes(statusCode, size, now - startTime) + map[]
           == CompleteAttributes(statusCode, size, now - startTime);
  }

  /** The completion attributes overwrite whatever was there before them. */
  lemma SuccessSurvivesMerge(before: Attributes, statusCode: int, size: nat, duration: int)
    ensures (before + CompleteAttributes(statusCode, size, duration))["http.success"] == Bool(true)
            <==> statusCode < 400
  {
  }

  /** `error.status || 500`. */
  function ErrorStatus(error: JsError): (status: Value)
    ensures Truthy(error.status) ==> status == error.status
    ensures !Truthy(error.status) ==> status == Int(500)
    ensures Truthy(status)
  {
    if Truthy(error.status) then error.status else Int(500)
  }

  /** The attributes the error middleware writes: the error's kind and message and its HTTP status. */
  function ErrorAttributes(error: JsError): (a: Attributes)
    ensures a.Keys == {"error.occurred", "error.type", "error.message", "http.status_code"}
    ensures a["error.occurred"] == Bool(true) && a["error.type"] == Str(error.typeName)
    ensures a["error.message"] == Str(error.message) && a["http.status_code"] == ErrorStatus(error)
  {
    map["error.occurred" := Bool(true),
        "error.type" := Str(error.typeName),
        "error.message" := Str(error.message),
        "http.status_code" := ErrorStatus(error)]
  }

  /** The `http.request.error` event repeats the type, message and status of the error attributes. */
  function ErrorEvent(error: JsError): (e: SpanEvent)
    ensures e.name == "http.request.error"
    ensures e.attributes.Keys == {"error_type", "error_message", "status_code"}
    ensures e.attributes["error_type"] == Str(error.typeName) && e.attributes["error_message"] == Str(error.message)
    ensures e.attributes["status_code"] == ErrorAttributes(error)["http.status_code"]
  {
    SpanEvent("http.request.error",
              map["error_type" := Str(error.typeName),
                  "error_message" := Str(error.message),
                  "status_code" := ErrorStatus(error)])
  }

  /** What reading `trace.SpanStatusCode.ERROR` throws: `trace` has no `SpanStatusCode` member. */
  const MissingStatusCode := JsError("TypeError", "Cannot read properties of undefined (reading 'ERROR')", Undefined)

  /**
   * `errorTracingMiddleware(error, req, res, next)` as written: with an active
   * span, reading `trace.SpanStatusCode.ERROR` throws after the exception is
   * recorded, so the status is never set and `next(error)` is never reached.
   */
  method ErrorTracingMiddlewareAsWritten(error: JsError, next: NextCallback, active: Option<Span>)
    returns (thrown: Option<JsError>)
    modifies next, Frame(active)
    ensures active.None? ==> thrown.None? && next.calls == old(next.calls) + [Some(error)]
    ensures active.Some? ==>
              && thrown == Some(MissingStatusCode) && next.calls == old(next.calls)
              && active.value.attributes == old(active.value.attributes) + ErrorAttributes(error)
              && active.value.events == old(active.value.events) + [ErrorEvent(error)]
              && active.value.exceptions == old(active.value.exceptions) + [error]
              && active.value.status == old(active.value.status)
              && active.value.endCount == old(active.value.endCount)
  {
    if active.Some? {
      var span := active.value;
      AddSpanAttributes(active, ErrorAttributes(error));
      var e := ErrorEvent(error);
      RecordSpanEvent(active, e.name, e.attributes);
      span.RecordException(error);
      return Some(MissingStatusCode);
    }
    next.Call(Some(error));
    thrown := None;
  }

  /**
   * `errorTracingMiddleware` as intended: the span is marked ERROR with the
   * message and the very same error is forwarded with `next(error)` exactly once.
   */
  method ErrorTracingMiddleware(error: JsError, next: NextCallback, active: Option<Span>)
    modifies next, Frame(active)
    ensures next.calls == old(next.calls) + [Some(error)]
    ensures active.Some? ==>
              && active.value.attributes == old(active.value.attributes) + ErrorAttributes(error)
              && active.value.events == old(active.value.events) + [ErrorEvent(error)]
              && active.value.exceptions == old(active.value.exceptions) + [error]
              && active.value.status == SpanStatus(Error, Some(error.message))
              && active.value.endCount == old(active.value.endCount)
  {
    if active.Some? {
      var span := active.value;
      AddSpanAttributes(active, ErrorAttributes(error));
      var e := ErrorEvent(error);
      RecordSpanEvent(active, e.name, e.attributes);
      span.RecordException(error);
      span.SetStatus(SpanStatus(Error, Some(error.message)));
    }
    next.Call(Some(error));
  }

  /** An error reaching the middleware while a span is active is not forwarded, as written. */
  method ErrorNotForwardedAsWritten(error: JsError) returns (thrown: Option<JsError>, forwarded: seq<Option<JsError>>,
                                                             status: SpanStatus)
    ensures thrown == Some(MissingStatusCode) && forwarded == []
    ensures status == SpanStatus(Unset, None)
  {
    var span := new Span.Start("GET /", NoOptions);
    var next := new NextCallback();
    thrown := ErrorTracingMiddlewareAsWritten(error, next, Some(span));
    forwarded := next.calls;
    status := span.status;
  }

  /** The same error, with the status read from `SpanStatusCode`: forwarded once and the span marked ERROR. */
  method ErrorForwarded(error: JsError) returns (forwarded: seq<Option<JsError>>, status: SpanStatus)
    ensures forwarded == [Some(error)]
    ensures status == SpanStatus(Error, Some(error.message))
  {
    var span := new Span.Start("GET /", NoOptions);
    var next := new NextCallback();
    ErrorTracingMiddleware(error, next, Some(span));
    forwarded := next.calls;
    status := span.status;
  }
}
