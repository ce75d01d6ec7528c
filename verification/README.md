# http-proxy-middleware: logger and event hooks, modelled in Dafny

This project models two small decision components of http-proxy-middleware
and proves what their callers rely on.

- **The logging facade** (`lib/logger.ts`). The LEVELS weight table is debug 10,
  info 20, warn 30, error 50 and silent 80. A gated message is emitted only when
  the current level weighs no more than the message's level. `log()` is never
  gated. `setLevel` validates the name and throws on anything unknown. A new
  logger starts at `info`. `getArrow` returns the diagnostics arrow `->`, `~>`,
  `=>` or `≈>`.
- **The event-hook registry** (`lib/handlers.ts`). `getHandlers` binds the
  user's `on<Event>` callbacks for the six http-proxy events (`error`,
  `proxyReq`, `proxyReqWs`, `proxyRes`, `open`, `close`). It ignores every other
  field and falls back to built-in handlers for `error` and `close`.
  `defaultErrorHandler` maps an error code to 502, 504 or 500. It writes that
  status only when the response can still take one, and it always ends the
  response with the fixed error body.

Files:

- `results.dfy`: module `Results`. `Result` stands for a value or a thrown Error. `Option` stands for JavaScript `undefined`.
- `strings.dfy`: module `Strings`. Unanchored substring search, proved equal to "occurs at some index". Also ASCII capitalisation.
- `logging.dfy`: module `Logging`. Levels, the `Logger` state record (current level plus the entries handed to the provider), `setLevel`, gating, `getArrow`.
- `handlers.dfy`: module `Handlers`. The event table, `getHandlers` (a declarative definition plus the loop as written, proved equal), and `defaultErrorHandler`.

Modelling choices:

- The singleton logger is an explicit `Logger` value. The output provider is
  reduced to a trace of `Entry(via, message)` records, one per provider call.
  `via` is the logger method that was called, which is also the name of the
  provider function. Messages arrive already interpolated.
- Callbacks are opaque. A callable option value is `Callable(id)`, and every
  other value is `NotCallable`. The options object is `Option<map<string, Value>>`,
  with `None` for `undefined`. The two built-in handlers are the tags
  `DefaultErrorHandlerTag` and `LogCloseTag`.
- `defaultErrorHandler` returns the calls it makes on the response, as
  `WriteHead(status)` and `End(body)`, in order. A missing `host` header or
  url appears in the body as the text `undefined`, as JavaScript string
  concatenation does. A missing error code is never printed: the
  `HPE_INVALID` test (lib/handlers.ts:57) reads it as the text `undefined`,
  and the `switch` (lib/handlers.ts:60) compares it strictly, so it falls
  through to 500.
- `getHandlers` binds only the events whose `on<Event>` field is callable,
  plus `error` and `close`. Its result does not always have six keys.
- `defaultErrorHandler` takes three parameters. The host comes only from
  `req.headers.host`.

## Model

| member | source | states |
|---|---|---|
| `Logging.ParseLevel` | lib/logger.ts:116-125 | a name is recognised exactly when it is one of the five level names, and it parses to the level of that name |
| `Logging.LevelNameRoundTrip` | lib/logger.ts:15-21 | every level's name is recognised as that level |
| `Logging.SetLevel` | lib/logger.ts:69-73 | succeeds exactly for the five names and then stores that level with the emitted output untouched; otherwise fails with the "Invalid logLevel" error |
| `Logging.AfterSetLevel` | lib/logger.ts:116-125 | after a throwing `setLevel` the logger is unchanged; after a successful one its level is the named one |
| `Logging.UnknownLevelThrows` | lib/logger.ts:120-122 | `setLevel('foo')` throws and leaves the logger as it was |
| `Logging.NewLogger` | lib/logger.ts:35-38 | a fresh logger is at level `info` and has emitted nothing |
| `Logging.WeightsFollowDeclaration` | lib/logger.ts:15-21 | the weights order the levels as declared (debug < info < warn < error < silent) and are distinct |
| `Logging.ShowLevel` | lib/logger.ts:86-95 | a level is shown iff a current level is set and it comes no later in the declared order than the message's level |
| `Logging.Call` | lib/logger.ts:40-67 | a call keeps the level and all earlier output; it appends exactly one entry, naming the method and message, iff the method is `log` or the current weight is at most the method level's weight |
| `Logging.EmissionMonotone` | lib/logger.ts:86-95 | if a message of some level is emitted, a message of any heavier level is emitted too |
| `Logging.RaisingLevelHidesMore` | lib/logger.ts:86-95 | anything emitted at a heavier current level is also emitted at a lighter one |
| `Logging.SilentShowsOnlyLog` | lib/logger.ts:45-67 | at `silent`, debug/info/warn/error calls change nothing |
| `Logging.LogAlwaysEmits` | lib/logger.ts:40-43 | `log` appends its message at every level, `silent` and "no level yet" included |
| `Logging.AcceptedLevelShowsErrors` | lib/logger.ts:116-125 | every level `SetLevel` accepts, except `silent`, shows error messages |
| `Logging.ParseLevelKeyAsWritten` | lib/logger.ts:116-118 | as written, a name is accepted iff it is a key of the LEVELS enum object: a level name or a weight written in decimal |
| `Logging.ShowLevelAsWritten` | lib/logger.ts:86-95 | as written, a stored level name behaves like `ShowLevel`; a stored weight key or no level shows nothing |
| `Logging.WeightTextIsDecimal` | lib/logger.ts:15-21 | the reverse-mapping keys are exactly the weights spelled in decimal |
| `Logging.NumericLevelSilencesEverything` | lib/logger.ts:116-125 | as written, `setLevel('10')` is accepted and then even error messages are suppressed; the corrected `SetLevel` rejects `'10'` |
| `Logging.GetArrow` | lib/logger.ts:140-156 | the arrow is two characters ending in `>`, and it is `->`, `~>`, `=>` or `≈>` exactly for (path same, target same), (changed, same), (same, changed) and (changed, changed) |
| `Logging.ArrowRoundTrip` | lib/logger.ts:128-133 | reading the arrow back recovers exactly the pair (path changed, target changed) |
| `Logging.ArrowDependsOnlyOnChanges` | lib/logger.ts:142-143 | two calls whose two equality tests agree give the same arrow |
| `Strings.Contains` | lib/handlers.ts:57 | the unanchored pattern test succeeds exactly when the pattern occurs at some index of the text |
| `Handlers.EventNamed` | lib/handlers.ts:17-24 | a name belongs to an event exactly when it is one of the six canonical names, and then names that event |
| `Handlers.EventNameInjective` | lib/handlers.ts:17-24 | distinct events have distinct names |
| `Handlers.FieldNamesAreCamelCased` | lib/handlers.ts:31 | each event's option field is "on" followed by the event name with its first letter upper-cased |
| `Handlers.GetHandlers` | lib/handlers.ts:15-50 | keys are canonical event names only; `error` and `close` are always bound; any other event is bound iff the options exist and its `on<Event>` field holds a function; a callable field is bound unchanged; a missing `onError`/`onClose` gets the default error handler/`logClose` |
| `Handlers.GetHandlersLoop` | lib/handlers.ts:25-49 | the loop over the six events followed by the two default checks computes exactly the bindings of `GetHandlers` |
| `Handlers.WithDefault` | lib/handlers.ts:39-47 | installing a default adds only that event's name, keeps every existing binding, and binds the fallback only when the name was unbound |
| `Handlers.DefaultsCompleteBindings` | lib/handlers.ts:39-49 | after a loop that bound exactly the callable fields, installing both defaults yields `GetHandlers` |
| `Handlers.NoOptionsBindsDefaults` | lib/handlers.ts:39-47 | with `undefined` options the bindings are exactly `error` to the default error handler and `close` to `logClose` |
| `Handlers.HandlersIgnoreOtherFields` | lib/handlers.ts:27-37 | options that agree on the six `on<Event>` fields give identical bindings, whatever else they contain |
| `Handlers.AllFieldsCallableBindsAll` | lib/handlers.ts:27-37 | when all six fields hold the same callback, all six events and nothing else are bound, each to that callback |
| `Handlers.UnrelatedNamesNeverBound` | lib/handlers.ts:17-37 | `dummy`, `onDummy`, `foobar` and `target` are never keys of the bindings |
| `Handlers.StatusFor` | lib/handlers.ts:56-69 | the status is 502 iff `HPE_INVALID` occurs anywhere in the code; otherwise 504 iff the code is ECONNRESET, ENOTFOUND or ECONNREFUSED; otherwise 500 |
| `Handlers.InvalidParserCodeIs502` | lib/handlers.ts:57-58 | a code with `HPE_INVALID` at any position gets 502 |
| `Handlers.WithoutLetterHNever502` | lib/handlers.ts:57 | a code without the letter H never gets 502 |
| `Handlers.ParserErrorStatuses` | lib/handlers.ts:57-58 | HPE_INVALID_FOO and HPE_INVALID_BAR get 502 |
| `Handlers.GatewayTimeoutStatuses` | lib/handlers.ts:60-64 | ECONNRESET, ENOTFOUND and ECONNREFUSED get 504 |
| `Handlers.OtherStatuses` | lib/handlers.ts:66-67 | `any` and a missing code get 500 |
| `Handlers.ErrorBody` | lib/handlers.ts:53-72 | the body is the fixed "Error occured while trying to proxy to: " prefix, then the `host` header verbatim, or `undefined` when there are no headers or no `host` key, then the url verbatim, or `undefined` when it is missing |
| `Handlers.DefaultErrorHandler` | lib/handlers.ts:52-73 | one or two calls; the last is always the single `End` with the error body; a `WriteHead` of the code's status comes first iff the response has `writeHead` and has not sent headers |
| `Handlers.BodyIndependentOfErrorAndResponse` | lib/handlers.ts:72 | the body is the same for every error and every response state |
| `Handlers.TestRequestBody` | lib/handlers.ts:53 | for host header `localhost:3000` and url `/api` the body ends in `localhost:3000/api` |
| `Handlers.RefusedConnectionScenario` | lib/handlers.ts:56-72 | ECONNREFUSED before headers are sent writes 504, then the body |
| `Handlers.RefusedAfterHeadersSentScenario` | lib/handlers.ts:56-72 | ECONNREFUSED after headers are sent writes only the body |

## Findings

| source | as written | input that shows it | evidently intended | confidence | as-written member | corrected member |
|---|---|---|---|---|---|---|
| lib/logger.ts:116-125 | `isValidLevel` checks the name against `Object.keys(LEVELS)`. For a numeric TypeScript enum those keys include the reverse mappings "10", "20", "30", "50" and "80". After such a level is stored, `_showLevel` looks up a level NAME and compares it with a number, which is always false. | `setLevel('10')` followed by `error('x')`: nothing is printed, although 10 is the debug weight | only the five names listed in the `_showLevel` doc comment (line 83) are accepted | not executed; medium | `Logging.NumericLevelSilencesEverything` | `Logging.SetLevel` |

The as-written behaviour is `Logging.ParseLevelKeyAsWritten` and
`Logging.ShowLevelAsWritten`. The corrected `Logging.SetLevel` accepts only
`Logging.ParseLevel` names. The rest of the model builds on it: `NewLogger`
uses it, and `Logging.AcceptedLevelShowsErrors` proves the intended property.

## Left out

- `setProvider` / `isValidProvider` (lib/logger.ts:75-79, 106-114): they take function-valued providers and console bindings. Output is modelled as the entry trace instead.
- `_interpolate` (lib/logger.ts:99-104): it delegates to Node's `util.format`. Messages are taken as already formatted.
- `getInstance` (lib/logger.ts:23-29): the process-wide singleton becomes an explicit `Logger` value.
- `Logging.SetLevel`: only string arguments are modelled. A non-string argument (a number, `undefined`) always throws in the source, because `includes` compares strictly.
- `init` (lib/handlers.ts:5-13): it subscribes the handlers on the proxy object and logs. This is event plumbing with no decision in it.
- `logClose` (lib/handlers.ts:75-78): it only logs a notice. It is the opaque tag `LogCloseTag`.
- `Handlers.CallableField`: lodash `_.get` would also follow dotted paths and prototype properties. The six field names contain no dots, and only own fields are modelled.
- `Handlers.FieldNamesAreCamelCased`: general lodash `camelCase` is not modelled. The lemma covers only the six event names, where it amounts to capitalising the first letter.
- `Handlers.DefaultErrorHandler`: `null` headers, `null` codes and non-string codes are not modelled. Missing values are `undefined`.
- dist/handlers.js: it is the compiled twin of lib/handlers.ts with the same logic, so it is not modelled separately.
- lib/context-matcher.ts and lib/path-rewriter.ts are not part of this model. Only their tests are available, and the glob matching and regular-expression rewriting depend on external libraries.
