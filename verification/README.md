# handlers — a Dafny model of the middleware core

This project models the pure logic inside the Go package
`github.com/kevinburke/handlers`, a set of `net/http` middlewares:

- **the regular-expression router** (`Regexp`). It holds an ordered list of
  routes and dispatches a request to the first route whose pattern matches
  and whose method list accepts the method. Unanswered OPTIONS requests get
  an `Allow` header. Everything else gets 405 or 404;
- **the response-writer decorators.**
  - `serverWriter` stamps `Server` once.
  - `startWriter` stamps `X-Request-Duration` once.
  - `responseLogger` remembers the status and counts bytes.
  - The `push` probe forwards HTTP/2 pushes.
  - makeLogger picks a shape, and the shape decides which optional interfaces
    the logger advertises;
- **the small decision functions**: the trailing-slash redirect, the
  basic-auth gate, the JSON and HSTS headers, remote-IP extraction,
  millisecond rounding and the access-log record;
- **the request id, durations and deadlines.** These are kept either in
  headers (`noctx.go`) or in the request context (`ctx.go`), and
  `WithTimeout` rejects a negative timeout.

## How the model is built

The underlying `http.ResponseWriter` is a `Sink` (module `Http`). It holds:

- the live header map;
- the header snapshot and status committed by the first `WriteHeader` or
  `Write`;
- the body bytes and the pushes carried out, each with its target and
  `http.PushOptions`;
- the capability flags Pusher, CloseNotifier, Hijacker and Flusher;
- the answer its own `Push` gives when it is a Pusher (`pushReply`): an
  HTTP/2 writer answers `http.ErrNotSupported` when the client has disabled
  push.

As in `net/http`, a superfluous `WriteHeader` is ignored and a `Write`
commits status 200. What the client receives is the committed snapshot
(`Delivered`, `DeliveredStatus`).

An inner handler is opaque, so what it does on one request is a *trace* of
`Event`s: header Set/Add, `WriteHeader`, `Write` and `Push`. Each decorator
is a datatype (module `Writers`) with one transition function per method,
run over the trace.

The central lemmas say that a decorator is transparent. The wrapped writer
sees exactly the handler's calls, plus one header set, which `Injected`
inserts just before the first write.

Other external parts are parameters:

- Regular-expression matching is a `Matcher` function.
- Clocks are explicit readings: `uint64` monotonic values, or elapsed
  nanoseconds.
- `time.Duration.String` is a `render` function.
- The new UUID in `UUID` is an argument.

UUID text is the canonical 8-4-4-4-12 lower-case hexadecimal form. The model
implements both the formatter and the parser, so the round trip is proved
rather than assumed.

Go's integer semantics are written out where the source relies on them:

- truncating division (`Text.GoDiv`);
- `uint64` wrap-around followed by an `int64` reinterpretation
  (`Http.MonoSince`);
- decimal rendering with a proved read-back (`Text.FormatIntRoundTrip`).

Files that define the same function for different build tags are modelled
separately:

- lib.go's and push.go's `push` and `Push` methods: `Lib` and `PushMethods`;
- lib.go's and lib_noslog.go's `writeLog`: `LibLog` and `LibNoSlog`.

Lemmas relate each pair of definitions.

Some behaviour of the code differs from what its doc comments or a quick
reading suggest; the model follows the code:

- noctx.go's `Duration` is documented as setting `X-Request-Duration` on the
  response (noctx.go:67), but it does not set it when the inner handler never
  writes. The header is stamped only inside `WriteHeader` and
  `Write` (noctx.go:45-61), and nothing runs after the handler returns
  (noctx.go:69-78). `NoCtx.Duration` states exactly that.
- The responseLogger reports the status of a `WriteHeader` call even when
  the writer ignored that call because a body write had already committed
  200 (`LibLog.StatusAfterCommit`).
- The logger returned by makeLogger advertises `http.Pusher` only when the
  underlying writer is not a CloseNotifier. The two close-notify wrappers
  embed the `loggingResponseWriter` interface, which has no Push method
  (lib.go:254-263, lib.go:281-286). `LibLog.MakeLogger` states this. For the
  same reason `*closeNotifyWriter` is never an `http.Hijacker`.
- The access log is written from the request as the handler left it
  (lib.go:297-298). Inner middlewares share its header map and its log
  holder, so an X-Request-Id that an inner `UUID` generated is logged
  (`LibLog.ServeLogSeesInnerRequestId`).

## Model

| member | source | states |
|---|---|---|
| RegexHandler.Handle | regex_handler.go:27-33 | appends exactly one route, calling the given handler, after all earlier routes, which are unchanged |
| RegexHandler.HandleFunc | regex_handler.go:39-45 | appends exactly one route calling the wrapped function, after all earlier routes, which are unchanged |
| RegexHandler.FirstHit | regex_handler.go:64-77 | the index of the first route whose pattern matches and whose methods accept the request; no earlier route does; it equals the number of routes exactly when no route takes the request |
| RegexHandler.ServeHTTP | regex_handler.go:60-98 | dispatches exactly when some route takes the upper-cased method, and then to the first such route. Otherwise an OPTIONS request gets `Allow` (the collected explicit methods, or allMethods, then OPTIONS); any other request gets 405 when some pattern matched and 404 when none did |
| RegexHandler.AdmitsAny | regex_handler.go:71-77 | the inner loop over a route's methods finds one exactly when some listed method, upper-cased, equals the request method, or is GET for a HEAD request |
| RegexHandler.Scan | regex_handler.go:60-98 | the single-pass loop, with early return, the `allowed` accumulator and the `oneMatch` flag, decides exactly what `ServeHTTP` describes |
| RegexHandler.HandleKeepsDispatch | regex_handler.go:27-33 | registering another route never changes the dispatch of a request that the existing routes already dispatch, so registration order is priority order |
| RegexHandler.HandleReachedLast | regex_handler.go:39-45 | a newly appended route is dispatched exactly when it takes the request and no earlier route does |
| RegexHandler.MethodCaseInsensitive | regex_handler.go:61 | the outcome for a method equals the outcome for its upper-cased form |
| RegexHandler.RouteMethodCaseInsensitive | regex_handler.go:72-73 | upper-casing every listed route method changes no dispatch, 405 or 404 decision; only the `Allow` text keeps the original case |
| RegexHandler.NilMethodsAcceptAllButOptions | regex_handler.go:67-70 | a route with a nil method list accepts every method except OPTIONS |
| RegexHandler.HeadViaGet | regex_handler.go:73 | a route listing GET, in any case, accepts HEAD |
| RegexHandler.OptionsDispatchNeedsListing | regex_handler.go:71-80 | an OPTIONS request reaches a handler only through a route that explicitly lists OPTIONS |
| RegexHandler.AllowEndsWithOptions | regex_handler.go:83-90 | the `Allow` value always ends with ", OPTIONS" |
| RegexHandler.DefaultAllow | regex_handler.go:47-55 | with nothing collected, `Allow` names GET, POST, PUT, PATCH, DELETE, CONNECT and TRACE, then OPTIONS |
| RegexHandler.SingleRoute | regex_handler.go:60-98 | with one registered route: dispatch when it matches and accepts the method; otherwise `Allow` from its own list (or the default) for OPTIONS, 405 when it matched, 404 when it did not |
| RegexHandler.GetPostGet | regex_handler_test.go:12-26 | a GET/POST route on /v1 dispatches GET /v1 |
| RegexHandler.GetPostHead | regex_handler_test.go:43-57 | the same route dispatches HEAD /v1, through its GET entry |
| RegexHandler.GetPostPatch | regex_handler_test.go:28-33 | the same route gives 405 for PATCH /v1 |
| RegexHandler.GetPostUnknown | regex_handler_test.go:35-40 | the same route gives 404 for POST /unknown |
| RegexHandler.MatchingRoutesPost | regex_handler_test.go:75-94 | with a GET route then a POST route on the same pattern, POST goes to the second route |
| RegexHandler.TwoRoutesNoOptions | regex_handler.go:71-77 | neither a GET route nor a "post" route takes an OPTIONS request |
| RegexHandler.TwoRoutesAllowed | regex_handler.go:78-82 | both routes match, so their lists are collected in registration order and original case |
| RegexHandler.MatchingRoutesOptions | regex_handler.go:78-90 | with a GET route then a "post" route, an OPTIONS request gets "GET, post, OPTIONS" |
| RegexHandler.NilRoutePatch | regex_handler_test.go:59-73 | a nil-method route dispatches PATCH |
| RegexHandler.NilRouteOptions | regex_handler_test.go:96-114 | a nil-method route does not take OPTIONS; the request gets the full default `Allow` list, which names CONNECT |
| Text.ToUpper | regex_handler.go:61 | strings.ToUpper on ASCII: same length, each character upper-cased |
| Text.ToUpperIdempotent | regex_handler.go:61 | upper-casing twice is upper-casing once |
| Text.BeforeFirst | lib.go:306 | `strings.Split(s, ",")[0]`: a prefix of the input containing no separator, ending where the first separator begins |
| Text.GoDiv | lib.go:313 | Go's truncating division: the quotient times the divisor is within one divisor of the dividend, on the side of zero |
| Text.FormatIntRoundTrip | lib.go:321-323 | the decimal text strconv produces for any integer reads back as that integer |
| Text.DigitsRoundTrip | lib.go:322-323 | the digits of a natural number read back as that number |
| Uuid.ParseFormat | noctx.go:16-27 | parsing the canonical text of any UUID gives that UUID back |
| Uuid.FormatInjective | ctx.go:23 | different UUIDs have different canonical texts |
| Uuid.UnhexHex | noctx.go:25 | decoding the hexadecimal encoding of any bytes gives those bytes back |
| Uuid.Format | noctx.go:16 | the canonical text is 36 characters, with hyphens at positions 8, 13, 18 and 23 |
| Uuid.Parse | noctx.go:25-28 | only a 36-character string with hyphens at positions 8, 13, 18 and 23 can parse |
| Http.Set | lib.go:49 | http.Header.Set: `Get` returns the new value for that key, and every other key is unchanged |
| Http.Add | lib_test.go:57 | http.Header.Add: the value is appended after the values already held, which stay in order; every other key is unchanged; an existing first value is kept, and with no earlier value Get returns the new one |
| Http.RunSinkAppend | lib.go:105 | running two traces one after the other on the writer is running their concatenation |
| Http.RunSinkKeepsWire | lib.go:60-74 | once the header is committed, later calls cannot change the committed status or header |
| Http.InjectedIsDelivered | lib.go:60-74 | a header set just before the first write reaches the client with that value, whatever the handler set before or after |
| Http.RunSinkBody | lib.go:68-74 | the body the writer holds is the concatenation of the bytes of every write, in order |
| Http.MonoSince | ctx.go:45 | the uint64 difference reinterpreted as int64 equals now - start whenever that fits |
| PushMethods.Push | push.go:9-14 | a Pusher's own answer is returned, and the target with its options is pushed exactly when that answer is no error; a writer that is not a Pusher gives ErrNotSupported; nothing else about the writer changes |
| PushMethods.PushIsDirectPush | push.go:9-12 | pushing through the probe is the same as the handler pushing on the writer itself |
| PushMethods.StartWriterPush | push.go:16-19 | forwards to the wrapped writer; `monoStart` and `wroteHeader` are unchanged |
| PushMethods.ResponseLoggerPush | push.go:21-24 | forwards to the wrapped writer; `status` and `size` are unchanged |
| PushMethods.ServerWriterPush | push.go:26-29 | forwards to the wrapped writer; `name` and `wroteHeader` are unchanged |
| Lib.Push | lib.go:34-39 | lib.go's probe: no error exactly when the writer is a Pusher that accepts the push; ErrNotSupported exactly when it is not a Pusher or refuses with ErrNotSupported; only an accepted push, with its options, is recorded |
| Lib.PushAgreesWithPushGo | lib.go:34-39 | lib.go's `push` and push.go's `push` agree on every writer and target |
| Lib.JSON | lib.go:47-52 | Content-Type becomes "application/json; charset=utf-8"; nothing else changes |
| Lib.STS | lib.go:371-376 | Strict-Transport-Security becomes "max-age=31536000; preload"; nothing else changes |
| Lib.ServerInject | lib.go:61-64 | the first call sets `Server` on the wrapped writer and raises the flag; later calls change nothing |
| Lib.ServerWriteHeader | lib.go:60-66 | on the first call the committed header carries `Server` with the given code; after that the call is only delegated; the body is untouched |
| Lib.ServerWrite | lib.go:68-74 | on the first call the write commits status 200 with `Server` set; after that it is only delegated; returns the writer's count and appends the bytes to the body |
| Lib.ServerWriterPush | lib.go:80-83 | forwards through lib.go's probe; `name` and `wroteHeader` are unchanged |
| Lib.RunServerCommitted | lib.go:60-74 | once `Server` is set, every later call is only delegated |
| Lib.RunServerFresh | lib.go:60-74 | from a fresh serverWriter, the wrapped writer receives exactly the handler's calls, with one `Server` set inserted just before the first write |
| Lib.Server | lib.go:98-111 | the writer ends as if the handler's calls had been made on it, with one `Server` set inserted before the first write, or after the last call when nothing was written |
| Lib.ServerDelivered | lib.go:62-110 | the client receives `Server: name`, overriding any value the handler set, and the handler's body byte for byte |
| Lib.TrailingSlashRedirect | lib.go:87-95 | redirects with 301 exactly when the path is longer than 1 and ends in '/'; the location plus "/" is the path; the location ends in '/' exactly when the path ends in "//" |
| Lib.UUID | lib.go:115-123 | a request with an X-Request-Id is unchanged; otherwise the generated id is in the header (as text) and in the context; afterwards the header is never empty |
| Lib.ConstantTimeCompare | lib.go:147 | returns 1 exactly when the two passwords are equal, otherwise 0 |
| Lib.BasicAuth | lib.go:127-157 | no credentials: 401. Unknown user: 401 if the name is empty, else 403 "forbidden". Wrong password: 403 "incorrect_password". The inner handler runs exactly when a known user gives the right password |
| LibLog.LoggerWrite | lib.go:212-220 | a write records 200 when no status was recorded, and adds the writer's reported count to the size; the bytes reach the writer |
| LibLog.LoggerWriteHeader | lib.go:222-225 | records the code whatever the writer did with it; the size is unchanged |
| LibLog.ResponseLoggerPush | lib.go:245-248 | forwards through lib.go's probe; `status` and `size` are unchanged |
| LibLog.RunLoggerSize | lib.go:217-218 | after the handler's calls, the size is the starting size plus every byte count the writer reported |
| LibLog.SizeMonotone | lib.go:234-236 | the size never decreases as the handler makes more calls |
| LibLog.RunLoggerStatus | lib.go:212-232 | Status() is the last WriteHeader code (200 for a zero code); with no WriteHeader it is the status before the calls (200 for none), whether or not anything was written |
| LibLog.FreshStatus | lib.go:227-236 | a logger whose handler made no call reports 200 and size 0 |
| LibLog.RunLoggerTransparent | lib.go:208-248 | the writer receives exactly the handler's calls, minus the pushes, when the logger's shape hides Push |
| LibLog.StatusAfterCommit | lib.go:222-225 | after a body write, WriteHeader(404) is ignored by the writer (the client gets 200), but Status() reports 404 |
| LibLog.MakeLogger | lib.go:265-279 | the logger advertises CloseNotifier exactly when the writer has it, Hijacker exactly when the writer has it and hijackLogger implements it, Flusher always, and Pusher exactly when the writer is not a CloseNotifier |
| LibLog.RemoteIP | lib.go:301-307 | RemoteAddr when X-Forwarded-For is empty; otherwise the header up to its first comma, untrimmed |
| LibLog.TimeSinceMs | lib.go:310-314 | for non-negative nanoseconds, the milliseconds rounded half up; for large negative inputs, truncated toward zero |
| LibLog.BasePairs | lib.go:318-327 | the eight keys method, path, time, bytes, status, remote_addr, host, user_agent in order, each followed by its value (method, path, remote address, host and user agent given exactly) |
| LibLog.BasePairsNumbers | lib.go:321-323 | the time, bytes and status values are decimal texts that read back as the milliseconds, size and status logged |
| LibLog.WriteLog | lib.go:316-335 | the base pairs first; then "user" when the basic-auth user is non-empty; then "request_id" last when X-Request-Id is set; the length counts exactly those |
| LibLog.ServeLog | lib.go:293-299 | the writer receives the handler's calls, minus hidden pushes; the record is built from the request as the handler left it and carries the final Status() (last WriteHeader code, else 200) and the total bytes written |
| LibLog.ServeLogSeesInnerRequestId | lib.go:115-121 | an id an inner UUID middleware generates on the shared header map ends up as the record's last pair |
| LibNoSlog.WriteLog | lib_noslog.go:39-61 | requires a log holder in the context. The base pairs come first and are never replaced; then the optional "user" and "request_id" pairs; then the holder's pairs, in order, at the end |
| LibNoSlog.AgreesWithLib | lib_noslog.go:39-59 | this build's record is lib.go's record followed by the holder's pairs |
| LibNoSlog.ExtraPairsLast | lib_noslog_test.go:24-42 | appended ("via", "test", "user", 7) and ("more", true) are the last six values; the base pairs stay as they were |
| LibNoSlog.ServeLog | lib_noslog.go:39-60 | with this build's writeLog, the writer sees the same calls as with lib.go's, and the record, built from the request as the handler left it, is lib.go's followed by the holder's pairs as they stand then |
| NoCtx.SetRequestID | noctx.go:15-18 | X-Request-Id becomes the canonical text of the id; nothing else changes |
| NoCtx.GetRequestID | noctx.go:22-31 | (u, true) exactly when X-Request-Id parses as u; (Nil, false) when it is empty or does not parse |
| NoCtx.GetAfterSet | noctx.go:15-31 | reading the id after setting it gives back (u, true) |
| NoCtx.GetWithoutHeader | noctx.go:23-30 | a request without X-Request-Id gives (Nil, false) |
| NoCtx.TruncatedDuration | noctx.go:41 | a multiple of 100µs; for a non-negative elapsed time, at most the elapsed time and more than elapsed - 100µs |
| NoCtx.DurationAt | noctx.go:40-43 | the time since monoStart, truncated to a multiple of 100µs, and within 100µs below the elapsed time |
| NoCtx.StartInject | noctx.go:46-49 | the first call sets X-Request-Duration on the wrapped writer and raises the flag; later calls change nothing |
| NoCtx.StartWriteHeader | noctx.go:45-51 | on the first call the committed header carries X-Request-Duration, measured at that call, with the given code; after that the call is only delegated; the body is untouched |
| NoCtx.StartWrite | noctx.go:53-61 | on the first call the write commits status 200 with X-Request-Duration set; after that it is only delegated; returns the writer's count and appends the bytes to the body |
| NoCtx.RunStartCommitted | noctx.go:45-61 | once stamped, every later call is only delegated |
| NoCtx.RunStartFresh | noctx.go:45-61 | from a fresh startWriter, the wrapped writer receives exactly the handler's calls, with one duration header set inserted just before the first write and measured at that write |
| NoCtx.Duration | noctx.go:69-78 | with a write, the writer ends as if the duration header had been set just before the first write; without one, exactly as the handler left it, with no duration header added |
| NoCtx.DurationDelivered | noctx.go:45-61 | when the handler writes, the client receives the duration measured at its first write |
| Ctx.SetRequestID | ctx.go:22-25 | X-Request-Id holds the id's text and the context binds the id; other headers, values and the deadline are unchanged |
| Ctx.GetRequestID | ctx.go:29-36 | (u, true) exactly when the context binds an identifier u; (Nil, false) when nothing is bound or the bound value is another type |
| Ctx.GetAfterSet | ctx.go:22-36 | after SetRequestID both the context and the header readers return (u, true) |
| Ctx.GetWithoutId | ctx.go:29-35 | a context that never bound an id gives (Nil, false) |
| Ctx.GetStartTime | ctx.go:49-56 | the recorded wall-clock start, or the zero time when none is recorded |
| Ctx.GetStartMono | ctx.go:59-66 | the recorded monotonic start, or 0 when none is recorded |
| Ctx.GetDuration | ctx.go:40-46 | 0 when no monotonic start is recorded; otherwise now minus the start |
| Ctx.Duration | ctx.go:71-83 | the inner handler's context records the wall-clock start and the monotonic start, with every other value and the deadline unchanged; the writer is a fresh startWriter |
| Ctx.DurationThenGet | ctx.go:40-83 | inside Duration, GetStartTime returns the start, GetDuration measures from the monotonic start, and the request id is still visible |
| Ctx.WithTimeout | ctx.go:89-92 | a negative timeout is rejected (the Go code panics); zero and positive timeouts are accepted unchanged |
| Ctx.ServeTimeout | ctx.go:93-97 | the handler's deadline is the earlier of the parent's and now + timeout; every context value stays visible |

## Left out

- `Debug` (lib.go:161-198) reads an environment variable, dumps the request and writes to stderr; all of it is I/O.
- `RedirectProto` (lib.go:354-368) rests on `url.URL.String()` rendering, a library call.
- `All`, `Log` and `WithLogger` only compose or construct handlers. `logHandler.ServeHTTP` is modelled as `LibLog.ServeLog` and `LibNoSlog.ServeLog`; the logger itself, and log15/slog formatting and terminal detection, are a foreign library.
- logger_slog.go, `NewLogger`, `AppendLog` and the code that puts a log holder into the context are not part of this model. `LibNoSlog.WriteLog` takes the holder's pairs as found in the context.
- GZip: its implementation is not part of this model.
- Regular expressions: `pattern.MatchString` is the `Matcher` parameter.
- The `rest.Unauthorized`, `Forbidden`, `NotAllowed` and `NotFound` response bodies and the `http.Redirect` body: only the outcome (status, realm, error id, location) is modelled.
- Lib.TrailingSlashRedirect: `http.Redirect` also cleans the location with `path.Clean` and may make it absolute; the model gives the location argument the code passes, `path[:len(path)-1]`.
- UUID generation (`uuid.NewV4`) is an argument.
- PushMethods.Push: a Pusher's answer is one fixed reply per writer (`pushReply`); an answer that changes from one push to the next is not modelled.
- LibLog.ServeLog: how the handler changes the request is not modelled step by step; the request as it stands after the handler is a parameter.
- Uuid.Parse: `uuid.FromString` also accepts braced, `urn:uuid:` and unhyphenated forms; the model parses only the 36-character hyphenated form (either letter case), which is what `String` produces.
- Clocks (`time.Now`, `monotime.Now`, `time.Since`) are explicit readings or elapsed nanoseconds.
- `time.Duration.String` is the `render` parameter.
- `WithTimeout`'s cancellation and timer cleanup are concurrency; only the deadline and the negative check are modelled.
- `Flush`, `Hijack` and `CloseNotify` calls are not trace events: only whether each interface is advertised is modelled. Whether `*hijackLogger` has a Hijack method depends on code outside this model, so it is the `hijackLoggerHijacks` parameter.
- Decorators wrap the underlying writer directly. Stacking several decorators, where one decorator's writer is another decorator, is not modelled.
- `http.Header` keys are not canonicalised (`CanonicalHeaderKey`), and Add keeps only the first value visible to Get; key spelling is taken as the code writes it.
- Text.ToUpper: only ASCII letters are mapped; Unicode case mapping in `strings.ToUpper` is not modelled.
- Lib.ConstantTimeCompare: the XOR/OR accumulation over bytes is modelled as an "any pair differed" flag; timing is not modelled, and strings are compared as character sequences rather than UTF-8 bytes.
- LibLog.TimeSinceMs: int64 overflow of the nanosecond count plus 500µs is not modelled; integers are unbounded.
- NoCtx.TruncatedDuration: the int64 multiplication back to nanoseconds cannot overflow for inputs of int64 range, so no wrap is modelled there.
- Http.MonoSince: the result is stated only when the difference fits in int64; outside that range it is the wrapped value, as the body computes, but no contract names it.
- net/http's panic on WriteHeader codes outside 100-999 is not modelled: any integer code is recorded.
