/**
 * The event-hook registry of lib/handlers.ts: `getHandlers`, which picks the
 * user's `on<Event>` callbacks for the six http-proxy events and supplies
 * defaults for `error` and `close`, and `defaultErrorHandler`, which maps a
 * proxy error to an HTTP status and writes a fixed error body.
 *
 * Callbacks are opaque: a callable option value is identified by a number,
 * and the two built-in handlers are tags.
 */
module Handlers {
  import opened Results
  import opened Strings

  /** The http-proxy events a handler can be subscribed to. */
  datatype Event = ErrorEvent | ProxyReqEvent | ProxyReqWsEvent | ProxyResEvent | OpenEvent | CloseEvent

  /** The events in the order `getHandlers` visits them. */
  const ProxyEvents: seq<Event> := [ErrorEvent, ProxyReqEvent, ProxyReqWsEvent, ProxyResEvent, OpenEvent, CloseEvent]

  /** The name under which http-proxy emits an event; also the key it is bound under. */
  function EventName(e: Event): string
  {
    match e
    case ErrorEvent => "error"
    case ProxyReqEvent => "proxyReq"
    case ProxyReqWsEvent => "proxyReqWs"
    case ProxyResEvent => "proxyRes"
    case OpenEvent => "open"
    case CloseEvent => "close"
  }

  /** The names of the six events. */
  const CanonicalNames: set<string> := {"error", "proxyReq", "proxyReqWs", "proxyRes", "open", "close"}

  /** The event a canonical name belongs to: the inverse of `EventName`. */
  function EventNamed(name: string): (r: Option<Event>)
    ensures r.Some? <==> name in CanonicalNames
    ensures r.Some? ==> EventName(r.value) == name
  {
    if name == "error" then Some(ErrorEvent)
    else if name == "proxyReq" then Some(ProxyReqEvent)
    else if name == "proxyReqWs" then Some(ProxyReqWsEvent)
    else if name == "proxyRes" then Some(ProxyResEvent)
    else if name == "open" then Some(OpenEvent)
    else if name == "close" then Some(CloseEvent)
    else None
  }

  /** The option field holding a user's handler for `e` (see `FieldNamesAreCamelCased`). */
  function FieldName(e: Event): string
  {
    match e
    case ErrorEvent => "onError"
    case ProxyReqEvent => "onProxyReq"
    case ProxyReqWsEvent => "onProxyReqWs"
    case ProxyResEvent => "onProxyRes"
    case OpenEvent => "onOpen"
    case CloseEvent => "onClose"
  }

  /** A value stored in an option field: a function, or anything else. */
  datatype Value = Callable(fn: nat) | NotCallable

  /** The proxy options object; `None` stands for `undefined`. */
  type Options = Option<map<string, Value>>

  /** `_.get(options, field)` filtered by `_.isFunction`: the callback stored in `field`, if any. */
  function CallableField(options: Options, field: string): (r: Option<nat>)
    ensures r.Some? <==> options.Some? && field in options.value && options.value[field].Callable?
    ensures r.Some? ==> options.value[field] == Callable(r.value)
  {
    match options
    case None => None
    case Some(fields) =>
      if field in fields && fields[field].Callable? then Some(fields[field].fn) else None
  }

  /** What `getHandlers` binds: a user callback, or one of the two built-in handlers. */
  datatype Handler = UserHandler(fn: nat) | DefaultErrorHandlerTag | LogCloseTag

  /** The user's handler for `e`, if the options hold a callable `on<Event>` field. */
  function UserBinding(options: Options, e: Event): Option<Handler>
  {
    match CallableField(options, FieldName(e))
    case Some(f) => Some(UserHandler(f))
    case None => None
  }

  /** The built-in handler installed for `e` when the user supplies none. */
  function DefaultBinding(e: Event): Option<Handler>
  {
    match e
    case ErrorEvent => Some(DefaultErrorHandlerTag)
    case CloseEvent => Some(LogCloseTag)
    case _ => None
  }

  /** What ends up bound for `e`: the user's callback if there is one, otherwise the default. */
  function Binding(options: Options, e: Event): Option<Handler>
  {
    if UserBinding(options, e).Some? then UserBinding(options, e) else DefaultBinding(e)
  }

  /**
   * The bindings `getHandlers(options)` returns, stated event by event:
   * every event name with a binding, and nothing else.
   */
  function GetHandlers(options: Options): (r: map<string, Handler>)
    ensures r.Keys <= CanonicalNames
    ensures EventName(ErrorEvent) in r && EventName(CloseEvent) in r
    ensures forall e :: EventName(e) in r <==> UserBinding(options, e).Some? || e == ErrorEvent || e == CloseEvent
    ensures forall e :: UserBinding(options, e).Some? ==> r[EventName(e)] == UserBinding(options, e).value
    ensures UserBinding(options, ErrorEvent).None? ==> r[EventName(ErrorEvent)] == DefaultErrorHandlerTag
    ensures UserBinding(options, CloseEvent).None? ==> r[EventName(CloseEvent)] == LogCloseTag
  {
    EventNameInjective();
    map name | name in CanonicalNames && Binding(options, EventNamed(name).value).Some?
      :: Binding(options, EventNamed(name).value).value
  }

  /** Where `e` sits in `ProxyEvents`. */
  function EventIndex(e: Event): (i: nat)
    ensures i < |ProxyEvents| && ProxyEvents[i] == e
  {
    match e
    case ErrorEvent => 0
    case ProxyReqEvent => 1
    case ProxyReqWsEvent => 2
    case ProxyResEvent => 3
    case OpenEvent => 4
    case CloseEvent => 5
  }

  /**
   * `getHandlers` as written: a loop over the six events binding each
   * callable `on<Event>` field, then the default error handler and
   * `logClose` for whichever of `error` and `close` is still unbound.
   */
  method GetHandlersLoop(options: Options) returns (handlers: map<string, Handler>)
    ensures handlers == GetHandlers(options)
  {
    EventNameInjective();
    handlers := map[];
    for i := 0 to |ProxyEvents|
      invariant handlers.Keys <= CanonicalNames
      invariant forall e :: EventName(e) in handlers <==> EventIndex(e) < i && UserBinding(options, e).Some?
      invariant forall e :: EventName(e) in handlers ==> handlers[EventName(e)] == UserBinding(options, e).value
    {
      var e := ProxyEvents[i];
      assert EventIndex(e) == i;
      var fnHandler := CallableField(options, FieldName(e));
      if fnHandler.Some? {
        handlers := handlers[EventName(e) := UserHandler(fnHandler.value)];
      }
    }
    DefaultsCompleteBindings(options, handlers);
    handlers := WithDefault(WithDefault(handlers, ErrorEvent, DefaultErrorHandlerTag), CloseEvent, LogCloseTag);
  }

  /** Installs `fallback` for `e` unless a handler is already bound under its name. */
  function WithDefault(handlers: map<string, Handler>, e: Event, fallback: Handler): (r: map<string, Handler>)
    ensures r.Keys == handlers.Keys + {EventName(e)}
    ensures forall k :: k in handlers ==> r[k] == handlers[k]
    ensures EventName(e) !in handlers ==> r[EventName(e)] == fallback
  {
    if EventName(e) !in handlers then handlers[EventName(e) := fallback] else handlers
  }

  /** Installing both defaults after the loop yields exactly the bindings `GetHandlers` describes. */
  lemma DefaultsCompleteBindings(options: Options, bound: map<string, Handler>)
    requires bound.Keys <= CanonicalNames
    requires forall e :: EventName(e) in bound <==> UserBinding(options, e).Some?
    requires forall e :: EventName(e) in bound ==> bound[EventName(e)] == UserBinding(options, e).value
    ensures WithDefault(WithDefault(bound, ErrorEvent, DefaultErrorHandlerTag), CloseEvent, LogCloseTag)
              == GetHandlers(options)
  {
    var withError := WithDefault(bound, ErrorEvent, DefaultErrorHandlerTag);
    var r := WithDefault(withError, CloseEvent, LogCloseTag);
    var spec := GetHandlers(options);
    EventNameInjective();
    forall e ensures (EventName(e) in r <==> EventName(e) in spec) && (EventName(e) in r ==> r[EventName(e)] == spec[EventName(e)]) {
      if EventName(e) in bound {
        assert r[EventName(e)] == withError[EventName(e)] == bound[EventName(e)];
      } else if e == ErrorEvent {
        assert r[EventName(e)] == withError[EventName(e)];
      }
    }
    assert r.Keys <= CanonicalNames;
    forall k | k in CanonicalNames ensures (k in r <==> k in spec) && (k in r ==> r[k] == spec[k]) {
      var e := EventNamed(k).value;
    }
  }

  /** Distinct events have distinct names. */
  lemma EventNameInjective()
    ensures forall e, e' :: EventName(e) == EventName(e') ==> e == e'
  {
  }

  /**
   * Each field name is the camel-cased `'on ' + event`: "on" followed by the
   * event name with its first letter upper-cased.
   */
  lemma FieldNamesAreCamelCased(e: Event)
    ensures FieldName(e) == "on" + Capitalize(EventName(e))
  {
  }

  /** With no options at all, exactly the two defaults are bound. */
  lemma NoOptionsBindsDefaults()
    ensures GetHandlers(None) == map[EventName(ErrorEvent) := DefaultErrorHandlerTag, EventName(CloseEvent) := LogCloseTag]
  {
    var r := GetHandlers(None);
    assert forall e :: UserBinding(None, e).None?;
    forall k | k in r ensures k == EventName(ErrorEvent) || k == EventName(CloseEvent) {
      var e := EventNamed(k).value;
    }
  }

  /** Only the six `on<Event>` fields matter: options agreeing on them give the same bindings. */
  lemma HandlersIgnoreOtherFields(options: Options, options': Options)
    requires forall e :: CallableField(options, FieldName(e)) == CallableField(options', FieldName(e))
    ensures GetHandlers(options) == GetHandlers(options')
  {
    assert forall e :: Binding(options, e) == Binding(options', e);
  }

  /**
   * As in the unit test: when every `on<Event>` field holds the same
   * callback, all six events are bound to it, whatever other callable fields
   * (`onDummy`, `foobar`) exist.
   */
  lemma AllFieldsCallableBindsAll(fields: map<string, Value>, f: nat)
    requires forall e :: FieldName(e) in fields && fields[FieldName(e)] == Callable(f)
    ensures GetHandlers(Some(fields)).Keys == CanonicalNames
    ensures forall k :: k in GetHandlers(Some(fields)) ==> GetHandlers(Some(fields))[k] == UserHandler(f)
  {
    var r := GetHandlers(Some(fields));
    assert forall e :: UserBinding(Some(fields), e) == Some(UserHandler(f));
    forall k | k in CanonicalNames ensures k in r && r[k] == UserHandler(f) {
      var e := EventNamed(k).value;
    }
  }

  /** Names that are not event names, such as `dummy`, `onDummy`, `foobar` or `target`, are never keys. */
  lemma UnrelatedNamesNeverBound(options: Options)
    ensures "dummy" !in GetHandlers(options) && "onDummy" !in GetHandlers(options)
    ensures "foobar" !in GetHandlers(options) && "target" !in GetHandlers(options)
  {
  }

  // ---------------------------------------------------------------------
  // The default error handler
  // ---------------------------------------------------------------------

  /** The proxy error; only its `code` is read. */
  datatype ProxyError = ProxyError(code: Option<string>)

  /** The inbound request: its headers object and its url, either of which may be missing. */
  datatype Request = Request(headers: Option<map<string, string>>, url: Option<string>)

  /** The response as the handler sees it: whether it has `writeHead` and whether headers were sent. */
  datatype Response = Response(hasWriteHead: bool, headersSent: bool)

  /** A call the handler makes on the response. */
  datatype ResponseCall = WriteHead(status: int) | End(body: string)

  /** A possibly missing string as JavaScript concatenates it. */
  function JsText(v: Option<string>): string
  {
    match v
    case Some(s) => s
    case None => "undefined"
  }

  /** `req.headers && req.headers.host`. */
  function Host(req: Request): Option<string>
  {
    if req.headers.Some? && "host" in req.headers.value then Some(req.headers.value["host"]) else None
  }

  const ErrorBodyPrefix: string := "Error occured while trying to proxy to: "

  /** The error codes answered with 504 Gateway Timeout. */
  const GatewayTimeoutCodes: set<string> := {"ECONNRESET", "ENOTFOUND", "ECONNREFUSED"}

  /**
   * The status for an error code: 502 when the code contains `HPE_INVALID`
   * anywhere (tested first), otherwise 504 for a connection failure, else 500.
   */
  function StatusFor(code: Option<string>): (status: int)
    ensures status in {500, 502, 504}
    ensures status == 502 <==> exists i :: OccursAt(JsText(code), "HPE_INVALID", i)
    ensures status == 504 <==> status != 502 && code.Some? && code.value in GatewayTimeoutCodes
  {
    if Contains(JsText(code), "HPE_INVALID") then 502
    else if code == Some("ECONNRESET") || code == Some("ENOTFOUND") || code == Some("ECONNREFUSED") then 504
    else 500
  }

  /**
   * The text the handler ends the response with: the prefix, then the `host`
   * header verbatim, then the url, where each missing part reads as the
   * JavaScript text "undefined" (no headers object, or no `host` key in it).
   */
  function ErrorBody(req: Request): (body: string)
    ensures StartsWith(body, ErrorBodyPrefix)
    ensures req.headers.Some? && "host" in req.headers.value && req.url.Some? ==>
              body == ErrorBodyPrefix + req.headers.value["host"] + req.url.value
    ensures req.headers.Some? && "host" in req.headers.value && req.url.None? ==>
              body == ErrorBodyPrefix + req.headers.value["host"] + "undefined"
    ensures (req.headers.None? || "host" !in req.headers.value) && req.url.Some? ==>
              body == ErrorBodyPrefix + "undefined" + req.url.value
    ensures (req.headers.None? || "host" !in req.headers.value) && req.url.None? ==>
              body == ErrorBodyPrefix + "undefined" + "undefined"
  {
    ErrorBodyPrefix + JsText(Host(req)) + JsText(req.url)
  }

  /**
   * `defaultErrorHandler(err, req, res)`: writes the status only when the
   * response has `writeHead` and has not sent its headers, and always ends
   * the response, once, with the error body.
   */
  function DefaultErrorHandler(err: ProxyError, req: Request, res: Response): (calls: seq<ResponseCall>)
    ensures 1 <= |calls| <= 2
    ensures calls[|calls| - 1] == End(ErrorBody(req))
    ensures |calls| == 2 <==> res.hasWriteHead && !res.headersSent
    ensures |calls| == 2 ==> calls[0] == WriteHead(StatusFor(err.code))
    ensures forall i :: 0 <= i < |calls| - 1 ==> calls[i].WriteHead?
  {
    var status := if res.hasWriteHead && !res.headersSent then [WriteHead(StatusFor(err.code))] else [];
    status + [End(ErrorBody(req))]
  }

  /** A code containing `HPE_INVALID` at any position is answered with 502. */
  lemma InvalidParserCodeIs502(before: string, after: string)
    ensures StatusFor(Some(before + "HPE_INVALID" + after)) == 502
  {
    var code := before + "HPE_INVALID" + after;
    assert code[|before|..|before| + |"HPE_INVALID"|] == "HPE_INVALID";
    assert OccursAt(code, "HPE_INVALID", |before|);
  }

  /** The 502 rows of the unit test's status table. */
  lemma ParserErrorStatuses()
    ensures StatusFor(Some("HPE_INVALID_FOO")) == 502
    ensures StatusFor(Some("HPE_INVALID_BAR")) == 502
  {
    assert OccursAt("HPE_INVALID_FOO", "HPE_INVALID", 0);
    assert OccursAt("HPE_INVALID_BAR", "HPE_INVALID", 0);
  }

  /** The 504 rows of the unit test's status table. */
  lemma GatewayTimeoutStatuses()
    ensures StatusFor(Some("ECONNRESET")) == 504
    ensures StatusFor(Some("ENOTFOUND")) == 504
    ensures StatusFor(Some("ECONNREFUSED")) == 504
  {
    WithoutLetterHNever502("ECONNRESET");
    WithoutLetterHNever502("ENOTFOUND");
    WithoutLetterHNever502("ECONNREFUSED");
  }

  /** Any other code, and a missing one, is answered with 500. */
  lemma OtherStatuses()
    ensures StatusFor(Some("any")) == 500
    ensures StatusFor(None) == 500
  {
    WithoutLetterHNever502("any");
    WithoutLetterHNever502("undefined");
  }

  /** A code in which the letter `H` does not occur cannot contain `HPE_INVALID`. */
  lemma WithoutLetterHNever502(code: string)
    requires forall i :: 0 <= i < |code| ==> code[i] != 'H'
    ensures StatusFor(Some(code)) != 502
  {
    forall i ensures !OccursAt(code, "HPE_INVALID", i) {
      if 0 <= i && i + 11 <= |code| {
        assert code[i..i + 11][0] == code[i] != 'H';
      }
    }
  }

  /** The body depends on the request alone, never on the error or the response state. */
  lemma BodyIndependentOfErrorAndResponse(err: ProxyError, err': ProxyError, req: Request, res: Response, res': Response)
    ensures var calls, calls' := DefaultErrorHandler(err, req, res), DefaultErrorHandler(err', req, res');
            calls[|calls| - 1] == calls'[|calls'| - 1]
  {
  }

  /** The request of the unit test. */
  const TestRequest: Request := Request(Some(map["host" := "localhost:3000"]), Some("/api"))

  /** The body names the host from the request headers, then the url. */
  lemma TestRequestBody()
    ensures ErrorBody(TestRequest) == "Error occured while trying to proxy to: localhost:3000/api"
  {
    assert Host(TestRequest) == Some("localhost:3000");
  }

  /** The unit test's refused connection, before the headers were sent: 504 and the body. */
  lemma RefusedConnectionScenario()
    ensures DefaultErrorHandler(ProxyError(Some("ECONNREFUSED")), TestRequest, Response(true, false))
              == [WriteHead(504), End("Error occured while trying to proxy to: localhost:3000/api")]
  {
    GatewayTimeoutStatuses();
    TestRequestBody();
  }

  /** The same after the headers were sent: only the body is written. */
  lemma RefusedAfterHeadersSentScenario()
    ensures DefaultErrorHandler(ProxyError(Some("ECONNREFUSED")), TestRequest, Response(true, true))
              == [End("Error occured while trying to proxy to: localhost:3000/api")]
  {
    TestRequestBody();
  }
}
