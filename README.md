# OpenTelemetry test API: tracing helpers, metrics and the performance-test controller

This project is a Dafny model of the instrumentation core of a small Express +
Sequelize API that exports OpenTelemetry traces. It covers six source files:

- `src/otel/tracer.js` (module `Tracer`). `withSpan` wraps a function in a
  new span that is active while the function runs, so the function's own
  attribute and event writes land on it. The span ends once, is marked OK or
  ERROR, and records the exception. `addSpanAttributes` and `recordSpanEvent` annotate the active
  span when there is one.
- `src/otel/database.js` (module `Database`). `withDatabaseSpan` gives each
  data-access call a `db.<operation>` span with a start event and then exactly
  one complete or error event. `createDatabaseWrappers` maps each model method
  to its operation kind.
- `src/controllers/productController.js` (module `Products`). The
  performance-test endpoint runs a three-state machine on the module-level
  counter: an optimized list, then a heavy list, then a 404 that resets the
  counter. Also modelled are the reset and status endpoints, and the
  validation and defaulting done by `createProduct`.
- `src/otel/metrics.js` (module `Metrics`). `getSystemMetrics` samples the
  process against the previous CPU reading, then replaces that reading.
  `addSystemMetricsToSpan` copies one sample onto the active span.
- `src/controllers/metricsController.js` (module `MetricsController`). It
  classifies a sample's health, and its handler turns a failure into a 500
  response instead of rethrowing it.
- `src/otel/middleware.js` (module `Middleware`). The request middleware
  annotates the active span and wraps `res.send`. The error middleware records
  the failure on the span; as written it forwards the error only when no span
  is active (see "## Findings").

Shared modules:

- `JsValues` models JavaScript values and their truthiness. JS numbers
  include `NaN` and the infinities. The module also gives `Math.round` and
  UTF-8 byte length.
- `Spans` models the OpenTelemetry span object. It is a class whose
  attributes, events, status, exceptions and end count change in place.

The ambient "active span" is an explicit `Option<Span>` parameter. Every method
that may write to it declares `modifies Frame(active)`. A function wrapped by
`Tracer.WithSpan` is a pure function from arguments to a `Run`: the attributes
and events the function writes to the span active while it runs, and its
`Outcome` (returned value or thrown error). A function wrapped by
`Database.WithDatabaseSpan` maps arguments to an `Outcome` only, so the model
does not let it write to the `db.<operation>` span.
Readings of `Date.now()`, `Math.random()`, `process.cpuUsage()`,
`process.memoryUsage()` and the `os` module are parameters.

## Model

| member | source | states |
|---|---|---|
| Tracer.ResultAttributes | src/otel/tracer.js:11-16 | the result attributes are written exactly when `setResult` and the result are both truthy and `fn` returned; the count is the array length, or 1 for any other truthy value, and `operation.success` is true |
| Tracer.StatusAfter | src/otel/tracer.js:18-25 | the status is OK exactly when `fn` returned and ERROR exactly when it threw, carrying the error's message |
| Tracer.SettleSpan | src/otel/tracer.js:8-29 | after `fn` settles, the span gains the result attributes, the matching status, the exception on a throw, and exactly one `end` |
| Tracer.WithSpan | src/otel/tracer.js:5-32 | a fresh span named `spanName`, started with the options' attributes and active while `fn` runs: it ends with the options' attributes, then `fn`'s own writes, then the result attributes, and holds exactly the events `fn` recorded; the caller gets `fn`'s outcome unchanged; the span ends exactly once with the status and exception that match the outcome |
| Tracer.RecordSpanEvents | src/otel/tracer.js:41-46 | a run's `recordSpanEvent` calls append exactly its events, in order, to the active span and change nothing else |
| Tracer.AddSpanAttributes | src/otel/tracer.js:34-39 | with an active span, its attributes are merged with the new ones and nothing else changes; without one, nothing happens |
| Tracer.RecordSpanEvent | src/otel/tracer.js:41-46 | with an active span, exactly one event with this name and attributes is appended and nothing else changes |
| Database.RowsAffected | src/otel/database.js:30-34 | rows affected is the array length, else 1 for a truthy result and 0 for a falsy one |
| Database.CreationAttributes | src/otel/database.js:8-12 | the span starts with exactly `db.operation`, `db.table` and `db.system = mysql` |
| Database.SuccessAttributes | src/otel/database.js:27-35 | on success, exactly three attributes are written: the duration, `db.success = true`, and `RowsAffected(result)` as the row count |
| Database.ErrorAttributes | src/otel/database.js:51-55 | on failure, exactly three attributes are written: the duration, `db.success = false`, and the error message |
| Database.StartEvent | src/otel/database.js:18-21 | the start event is named `db.<operation>.start` and carries exactly the table and the start time |
| Database.CompleteEvent | src/otel/database.js:37-44 | the complete event is named `db.<operation>.complete` and carries exactly the duration and row count of the success attributes |
| Database.ErrorEvent | src/otel/database.js:57-60 | the error event is named `db.<operation>.error` and carries exactly the duration and message of the error attributes |
| Database.EventNamesDistinct | src/otel/database.js:18-60 | the start, complete and error event names of one operation are pairwise different |
| Database.RecordSuccess | src/otel/database.js:27-46 | the try-path writes the success attributes, appends the complete event and sets status OK |
| Database.RecordFailure | src/otel/database.js:48-64 | the catch-path writes the error attributes, appends the error event, records the exception and sets ERROR with the message |
| Database.WithDatabaseSpan | src/otel/database.js:3-71 | a fresh `db.<operation>` span; its events are exactly the start event and then one complete or error event; its attributes are the creation attributes plus the success or error ones; status and exception match the outcome; it ends exactly once; the outcome of `fn` is passed back unchanged |
| Database.CreateDatabaseWrappers | src/otel/database.js:73-83 | exactly seven wrapped methods on the given table; an operation is `select` iff the method is one of the three finders; create, update, destroy and count map to insert, update, delete and count |
| Products.BranchFor | src/controllers/productController.js:38-51 | after the increment, count 1 takes the optimized branch, count 2 the heavy one, and every other count the 404 branch |
| Products.OptimizedProducts | src/controllers/productController.js:64-73 | exactly 1000 products with ids 1..1000, available and not deleted; every price is within 10..1009 for draws in [0, 1) |
| Products.JsRemainder1000 | src/controllers/productController.js:108 | JavaScript's `%` by 1000: the remainder has the sign of the dividend and is smaller than 1000 in magnitude |
| Products.HeavyPrice | src/controllers/productController.js:108 | the heavy price is within 10..1009 for a non-negative accumulation and within -990..10 for a negative one |
| Products.DetailedDescriptionLength | src/controllers/productController.js:98-103 | n sentences are at least 66·n characters long |
| Products.Substring | src/controllers/productController.js:109 | `substring(0, end)` is a prefix of length `min(end, length)` |
| Products.HeavyDescriptionTruncated | src/controllers/productController.js:98-109 | every heavy description is exactly the first 255 characters of its 100 sentences |
| Products.ProductController.PerformanceTest | src/controllers/productController.js:33-61 | the counter goes 0→1 (optimized list, call 1), 1→2 (heavy list, call 2), 2→0 (404, call number 3) and stays in 0..2; a failure while answering gives a 500 that carries the updated counter |
| Products.ProductController.HandleOptimizedResponse | src/controllers/productController.js:63-85 | the optimized answer is the 1000-product listing tagged with the current call number |
| Products.ProductController.HandleHeavyProcessing | src/controllers/productController.js:87-128 | the nested loops build exactly the 1000 heavy products, each with its 100-sentence description cut to at most 255 characters |
| Products.ProductController.HandleNotFoundAndReset | src/controllers/productController.js:130-142 | resets the counter and answers 404 `INDISPONÍVEL` with call number 3 |
| Products.ProductController.ResetCounter | src/controllers/productController.js:144-150 | the counter becomes 0 and the reply reports 0 with the fixed message |
| Products.ProductController.GetCounterStatus | src/controllers/productController.js:152-162 | reports the counter and the label of the branch the next call will take |
| Products.ThreeCallsCycle | src/controllers/productController.js:33-61 | from a fresh counter, three calls give optimized (1), heavy (2) and 404 (3), and the next call is announced as optimized again |
| Products.CreateProduct | src/controllers/productController.js:15-31 | 400 exactly when the name or the price is falsy (so a price of 0 is refused), and then nothing is inserted; otherwise exactly one record with the given fields is inserted, `isAvailable` defaults to 1 only when absent, and the reply is 201 with the stored product or 500 with the insert's message |
| JsValues.Divide | src/otel/metrics.js:20-23 | IEEE-style division: finite exactly for a non-zero divisor, and then the exact quotient |
| JsValues.Round | src/otel/metrics.js:20-23 | `Math.round` maps a finite x to the integer within half of it, rounding halves upward, and keeps NaN and the infinities |
| JsValues.RoundOfQuotient | src/otel/metrics.js:32-36 | for an even positive divisor, rounding the quotient equals integer division of `n + d/2` by `d` |
| JsValues.Utf8Length | src/otel/middleware.js:33 | a string's UTF-8 byte length lies between its length and four times its length |
| Metrics.ToMb | src/otel/metrics.js:32-54 | the integer conversion equals `Math.round(bytes / 1024 / 1024)` |
| Metrics.ToMillis | src/otel/metrics.js:40-41 | the integer conversion equals `Math.round(micros / 1000)` |
| Metrics.Percent | src/otel/metrics.js:20-24 | a percentage is finite exactly when time has passed since the previous sample; otherwise it is NaN for no CPU time and +Infinity for positive CPU time |
| Metrics.PercentMonotone | src/otel/metrics.js:20-24 | over a positive elapsed time, a percentage is never negative and never decreases as the CPU time grows |
| Metrics.CpuPercentages | src/otel/metrics.js:13-24 | each of the three percentages is finite exactly when time has passed; when time moves forward and both CPU counters do not decrease, the user and system percentages are non-negative and each is at most the total |
| Metrics.Snapshot | src/otel/metrics.js:30-63 | the sample's percentages are those of the two readings; every megabyte figure is `Math.round(bytes / 1024 / 1024)`, the CPU times are `Math.round(µs / 1000)`, uptimes are rounded, and load average, cores, platform, architecture, pid, version and process title are passed through |
| Metrics.MemoryAttributes | src/otel/metrics.js:70-77 | exactly the six `system.memory.*` keys: rss, heap used, heap total, free and total memory in whole megabytes from the sample, and the usage percentage |
| Metrics.CpuAttributes | src/otel/metrics.js:79-85 | exactly the seven `system.cpu.*` keys: cores, the sample's user, system and total percentages, and the three load averages in 1, 5, 15-minute order |
| Metrics.ProcessAttributes | src/otel/metrics.js:87-89 | exactly the three `process.*` keys: the sample's uptime in seconds, pid and Node.js version |
| Metrics.GroupOfKey | src/otel/metrics.js:69-90 | a key's group is determined by its prefix: `system.memory.`, `system.cpu.` or `process.` |
| Metrics.GroupsDisjoint | src/otel/metrics.js:69-90 | no key belongs to two attribute groups, so merging the groups loses no attribute |
| Metrics.SystemAttributes | src/otel/metrics.js:69-90 | exactly the sixteen keys of the three groups, each with the value its group gives it |
| Metrics.PercentagesDependOnlyOnDeltas | src/otel/metrics.js:13-25 | the percentages depend only on the CPU and time differences between the two readings |
| Metrics.TotalIsNotSumOfRoundedParts | src/otel/metrics.js:20-24 | the total is rounded from the summed deltas: 5 µs user and 5 µs system in 1 ms give 1 %, 1 % and 1 % |
| Metrics.HalfLoadScenario | src/otel/metrics.js:20 | 50 ms of user CPU time over 100 ms reports 50 % user |
| Metrics.UsagePercent | src/otel/metrics.js:75-77 | the usage percentage is rss over total memory, rounded, whenever the total is non-zero |
| Metrics.MetricsEvent | src/otel/metrics.js:92-98 | the event is named `system.metrics.collected` and carries exactly the sample's rss, its total, user and system CPU percentages, and the process uptime |
| Metrics.EventRepeatsAttributes | src/otel/metrics.js:69-98 | each of the event's five values equals the attribute written for the same figure of the same sample |
| Metrics.MetricsSampler.GetSystemMetrics | src/otel/metrics.js:8-64 | the sample is measured against the stored reading, which is then replaced by the new one |
| Metrics.MetricsSampler.AddSystemMetricsToSpan | src/otel/metrics.js:66-99 | exactly one sample is taken; with an active span, its attributes gain that sample's attributes and exactly one metrics event is appended |
| Metrics.TwoConsecutiveSamples | src/otel/metrics.js:5-28 | the second of two samples computes its percentages from the first and second readings only |
| MetricsController.MemoryStatus | src/controllers/metricsController.js:31 | memory is `ok` exactly below 500 MB of rss, else `high` |
| MetricsController.CpuStatus | src/controllers/metricsController.js:32 | CPU is `ok` exactly below a one-minute load average of 2, else `high` |
| MetricsController.Health | src/controllers/metricsController.js:26-33 | `healthy` exactly when both memory and CPU are ok, else `warning` |
| MetricsController.RequestAttributes | src/controllers/metricsController.js:7-11 | exactly three attributes on entry: the request method, the fixed route `/api/metrics/system`, and `operation.type = system.monitoring` |
| MetricsController.SampleAttributes | src/controllers/metricsController.js:15-21 | the span attributes repeat the sample's rss and its three CPU percentages, and record success |
| MetricsController.FailureAttributes | src/controllers/metricsController.js:36-39 | the `catch` writes exactly `operation.success = false` and the error's type |
| MetricsController.RunHandler | src/controllers/metricsController.js:6-41 | no failure: 200 with the sample and its health, and request plus sample attributes; a failure reading memory or CPU: 500, the sampler untouched, request plus failure attributes; a failing `os`/`process` query: 500, the sampler already replaced, request plus failure attributes; a failing `res.json`: 500, the sampler replaced, request, sample and failure attributes with `operation.success` false |
| MetricsController.GetSystemMetrics | src/controllers/metricsController.js:5-42 | the handler runs through `withSpan` in one fresh `metrics.system` span that holds exactly the handler's attributes for each failure point above; because the error is swallowed, the span always ends once with status OK and no exception |
| Middleware.Route | src/otel/middleware.js:13 | the route path if it is truthy, else the URL |
| Middleware.Substr | src/otel/middleware.js:18 | `substr(2, 9)` is at most nine characters |
| Middleware.RequestId | src/otel/middleware.js:16-18 | the request id is the `x-request-id` header when truthy, else the generated `req_<time>_<suffix>`; either way it is truthy |
| Middleware.StartEvent | src/otel/middleware.js:21-25 | the entry event is named `http.request.start` and carries exactly the method, the URL and the start time |
| Middleware.RequestAttributes | src/otel/middleware.js:10-19 | exactly six request attributes; the method, URL and user agent are passed through, the route is `Route(req)`, the id is the given request id, and the remote address is `req.ip` when truthy, else the connection's address |
| Middleware.ResponseSize | src/otel/middleware.js:33 | 0 for falsy data; the UTF-8 length of a string, which is at least its length; a TypeError for any other truthy value |
| Middleware.CompleteAttributes | src/otel/middleware.js:31-36 | exactly four attributes: the status code, the response size, the duration, and `http.success`, which holds exactly below status 400 |
| Middleware.CompleteEvent | src/otel/middleware.js:38-42 | the complete event repeats the status, size and duration of the attributes |
| Middleware.Annotate | src/otel/middleware.js:31-42 | one wrapper writes the completion attributes and appends one completion event to the active span |
| Middleware.Response.Wrapper | src/otel/middleware.js:28-45 | the wrapped `send` annotates the span active at send time, then passes exactly the same data to the send it replaced |
| Middleware.Response.Dispatch | src/otel/middleware.js:28-45 | a chain of wrappers annotates outermost first and delivers the data once; a TypeError from the byte length stops it before any write |
| Middleware.Response.Send | src/otel/middleware.js:28-45 | `res.send(data)` leaves the status and handler alone, transmits `data` once, and annotates the span once per wrapper |
| Middleware.NextCallback.Call | src/otel/middleware.js:48 | every call of `next` is recorded with its error argument |
| Middleware.RequestTracingMiddleware | src/otel/middleware.js:4-49 | calls `next()` exactly once; with an active span, writes the request attributes, records the start event and wraps `res.send`; without one, changes nothing |
| Middleware.TracedRequest | src/otel/middleware.js:4-49 | one request end to end: `next()` runs once; the span holds the start event then the completion event; `http.success` holds iff the status is below 400; the payload reaches Express's send unchanged |
| Middleware.ErrorStatus | src/otel/middleware.js:59-65 | the status is the error's own status when truthy, else 500; it is always truthy |
| Middleware.ErrorAttributes | src/otel/middleware.js:55-60 | exactly four attributes: `error.occurred` true, the error's type and message, and the status `error.status \|\| 500` |
| Middleware.ErrorEvent | src/otel/middleware.js:62-66 | the event is named `http.request.error` and carries exactly the error's type name, its message, and the status code of the error attributes |
| Middleware.ErrorTracingMiddlewareAsWritten | src/otel/middleware.js:51-76 | with an active span, the attributes, event and exception are recorded, then reading `trace.SpanStatusCode.ERROR` throws; the status is not set and `next` is not called; without a span, the error is forwarded once |
| Middleware.ErrorTracingMiddleware | src/otel/middleware.js:51-76 | the span is annotated and set to ERROR with the message, and the same error is forwarded with `next(error)` exactly once |
| Middleware.ErrorNotForwardedAsWritten | src/otel/middleware.js:68-75 | as written, an error reaching the middleware under an active span is never forwarded and the span's status stays unset |
| Middleware.ErrorForwarded | src/otel/middleware.js:68-75 | as intended, the same error is forwarded once and the span is marked ERROR |

## Left out

- OpenTelemetry SDK behaviour beyond the span's own state is not modelled: attribute value validation, dropping of `undefined` values, attribute limits, ignoring writes after `end`, and the status rules (OK is final and cannot be replaced by ERROR, while ERROR can be replaced by OK). `Spans.Span` stores exactly what it is given.
- The ambient context (`startActiveSpan`, `trace.getActiveSpan`) is an explicit parameter. Concurrency and interleaving of async requests are not modelled; calls are sequential.
- `await` and promises are not modelled. A wrapped function's outcome is a value, and the `setTimeout(2)` pause in the heavy branch is left out.
- Products.HeavyPrice: the floating-point accumulation `Σ sin(j)·cos(j)·√j` is an input real (the same for every product), not computed; IEEE rounding is not modelled.
- Metrics.Percent and the other conversions use exact reals rather than IEEE doubles, so results near a rounding tie may differ from the binary64 result.
- The `createdAt`, `updatedAt` and response `timestamp` ISO strings, and the response `message` texts other than the counter reset's, are not modelled.
- JSON serialisation by `res.json` and Express's own `send` are not modelled beyond recording the payload sent.
- `Buffer.byteLength` also accepts buffers and typed arrays; the value model has none, so every truthy non-string payload is a TypeError.
- Middleware.Response.Send: all wrappers of one chain share a single `Date.now()` reading; the two `Buffer.byteLength` calls in one wrapper are one.
- Middleware.Response.Send: the order between writing the span and transmitting the payload is fixed by the method body, not stated in the postcondition, since they are different objects.
- What Express does after the error middleware throws is not modelled.
- Products.PerformanceResponse: `executionTimeMs` is kept as the integer number of milliseconds; the source sends the string `<n>ms` (src/controllers/productController.js:57, 80, 123, 138), and that text formatting is not modelled.
- Middleware.Response.Send: the wrapped `send` returns nothing in the model, while the source returns what `originalSend.call(this, data)` returns (src/otel/middleware.js:44), which is the response object for chaining; the return value is not modelled.
- Every thrown value is modelled as an error object with a type name and a string message. A `throw undefined` or `throw null` inside a wrapped function would make reading `error.message` (src/otel/tracer.js:24, src/otel/database.js:54-63) or `error.constructor.name` (src/otel/middleware.js:57, src/controllers/metricsController.js:38) throw a TypeError in its place; that replacement is not modelled.
- MetricsController.GetSystemMetrics: a throw from `res.status(500).json` inside the `catch` is not modelled; the handler is taken to return normally from its `catch`.
- The wrapped function's writes to its span are summarised as one merged attribute map and one event list; the interleaving of its attribute and event writes is not kept, since it does not affect the span's final state.
- `getAllProducts`, the other controllers and the route table are outside the modelled core; `src/otel/tracing.js` (SDK start-up and exporters) is not part of this model.

## Findings

| source | as written | input that shows it | evidently intended | confidence | as-written member | corrected member |
|---|---|---|---|---|---|---|
| src/otel/middleware.js:68-75 | `trace.SpanStatusCode.ERROR` reads a member that `trace` does not have, so a TypeError is thrown after `recordException`; the status is never set and `next(error)` is never called | any error handled while a span is active; neither middleware is mounted in `src/index.js` or `src/routes.js`, so the defect shows only once the error middleware is mounted and an error arrives under an active span | set the span status to ERROR with the message (the `SpanStatusCode` export of the API package, as `src/otel/tracer.js:1` imports it) and forward the error with `next(error)` | not executed | Middleware.ErrorNotForwardedAsWritten | Middleware.ErrorForwarded |
