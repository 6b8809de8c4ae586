# Async trace and entry interceptors of a Java tracing agent, in Dafny

This project models three pieces of a Java application-performance-monitoring
agent and proves properties of them.

- **`DefaultAsyncTrace`** is one span event recorded for asynchronous work. It
  has a completion state held in an `AtomicInteger`. `fire()` moves INIT to
  FIRE and `timeout()` moves INIT to TIMEOUT, each by one compare-and-set.
  Around that sits a recorder that appends annotations to the span and hands
  the span to a storage sink.
- **`DoXXXInterceptor`** is the servlet entry interceptor. `before` reads the
  propagation headers and starts a new trace or continues one, then records
  the request. `after` unbinds the trace, records the request parameters, the
  API, the outcome and the end time, and ends the block.
- **`ExecuteMethodInterceptor`** is the bloc/coyote entry interceptor with the
  same shape. It differs in four ways. The parameters are concatenated with no
  separator. They are recorded in `before`. The port is always part of the end
  point. The root block is ended with `traceRootBlockEnd`.

Layout, one module per file:

- `wrappers.dfy` (`Wrappers`): Option and Result.
- `java_text.dfy` (`JavaText`): the Java library behaviour the interceptors
  rely on. This is `Integer.parseInt`/`Short.parseShort` behind
  `NumberUtils.parseInteger`/`parseShort`, `Boolean.parseBoolean`, and the
  decimal form of an `int` in string concatenation.
- `trace_model.dfy` (`TraceModel`): the shared types. It also holds the
  synchronous `Trace` and the `TraceContext` as the interceptors see them. A
  `Trace` keeps the log of calls made on it. The context keeps the current
  binding and a log of attach/detach events.
- `async_state.dfy` (`AsyncState`): the fire/timeout state machine as values,
  with lemmas over every sequence of calls.
- `async_trace.dfy` (`AsyncTraces`): the `DefaultAsyncTrace` class and its
  `AtomicInteger`.
- `propagation.dfy` (`Propagation`): `populateTraceIdFromRequest`. The two
  interceptors implement it with identical code, so it is modelled once.
- `request_params.dfy` (`RequestParams`): the `key=value` entry and joining
  helpers.
- `servlet_interceptor.dfy` (`ServletInterceptor`) and
  `bloc_interceptor.dfy` (`BlocInterceptor`): the two interceptors.

The race between `fire` and `timeout` is modelled as follows. Each call is one
atomic compare-and-set. So any interleaving of calls from any threads is a
sequence of `Step`s. `AsyncState.ExactlyOneWinner` proves that from INIT
exactly one call of any non-empty sequence wins. The final state names the
winner. `DefaultAsyncTrace.Fire` and `Timeout` are proved to perform exactly
one `Step` on the object's state.

## Behaviour worth knowing

- The record methods and `traceBlockEnd` of `DefaultAsyncTrace` do not check
  the state, so a record after FIRE or TIMEOUT still changes the span. Only
  the callers make sure that the fire winner is the one that stores.
- `timeout()` only changes the state. It records and stores nothing (the code
  leaves this as a to-do).
- The servlet parameter string puts `", "` after every non-null value when more
  parameter names follow. This holds even when the value was dropped by the
  length filter, and even when all names that follow have null values. So
  `a=1, ` and `a=1, , c=2` occur (`ServletInterceptor.SeparatorExamples`).
- On the new-trace path the bloc interceptor builds a scratch `DefaultTrace`.
  It then drops it and records on the trace `newTraceObject` binds.

## Model

| member | source | states |
|---|---|---|
| `AsyncState.ExactlyOneWinner` | src/main/java/com/profiler/context/DefaultAsyncTrace.java:180-196 | from INIT, over any sequence of fire/timeout calls, at most one call wins, and exactly one does if any call is made; the final state is FIRE iff a fire won, TIMEOUT iff a timeout won, INIT iff no call was made |
| `AsyncState.TerminalIsFinal` | src/main/java/com/profiler/context/DefaultAsyncTrace.java:180-196 | once the state is FIRE or TIMEOUT, every later fire returns false, every later timeout is a no-op, and the state and cancel log do not change |
| `AsyncState.CancelOnlyOnWinningFire` | src/main/java/com/profiler/context/DefaultAsyncTrace.java:187-196 | from INIT, over any sequence of calls, the timeout task is cancelled at most once, and only when a fire won and a task was set |
| `AsyncTraces.AtomicInteger.CompareAndSet` | src/main/java/com/profiler/context/DefaultAsyncTrace.java:28 | swaps iff the current value equals the expected one; otherwise the value is unchanged |
| `AsyncTraces.DefaultAsyncTrace.constructor` | src/main/java/com/profiler/context/DefaultAsyncTrace.java:21-38 | a new async trace holds the given span, is in state INIT, has async id NON_REGIST (-1), no storage, no timeout task, and has cancelled and stored nothing |
| `AsyncTraces.DefaultAsyncTrace.Fire` | src/main/java/com/profiler/context/DefaultAsyncTrace.java:187-196 | returns true iff the state was INIT, and then the state is FIRE; the timeout task is cancelled iff the fire won and a task is set; a losing fire changes nothing; the effect is one `Step` of the state machine; keeps the invariant that the task is cancelled at most once, and only in state FIRE |
| `AsyncTraces.DefaultAsyncTrace.Timeout` | src/main/java/com/profiler/context/DefaultAsyncTrace.java:180-185 | INIT becomes TIMEOUT; FIRE and TIMEOUT are left unchanged; the effect is one `Step` of the state machine |
| `AsyncTraces.DefaultAsyncTrace.GetState` | src/main/java/com/profiler/context/DefaultAsyncTrace.java:176-178 | returns the current state |
| `AsyncTraces.DefaultAsyncTrace.SetAsyncId` | src/main/java/com/profiler/context/DefaultAsyncTrace.java:49-52 | the async id becomes the given value |
| `AsyncTraces.DefaultAsyncTrace.GetAsyncId` | src/main/java/com/profiler/context/DefaultAsyncTrace.java:54-57 | returns the last value set, or NON_REGIST if none was set |
| `AsyncTraces.DefaultAsyncTrace.SetStorage` | src/main/java/com/profiler/context/DefaultAsyncTrace.java:40-42 | the storage becomes the given sink (or none) |
| `AsyncTraces.DefaultAsyncTrace.SetTimeoutTask` | src/main/java/com/profiler/context/DefaultAsyncTrace.java:44-47 | the timeout task becomes the given task (or none) |
| `AsyncTraces.DefaultAsyncTrace.TraceBlockEnd` | src/main/java/com/profiler/context/DefaultAsyncTrace.java:86-89 | each call hands the current span to the storage exactly once; with no storage set, nothing is stored and the call still returns normally (logSpan catches the exception) |
| `AsyncTraces.DefaultAsyncTrace.RecordAttribute` | src/main/java/com/profiler/context/DefaultAsyncTrace.java:131-134 | appends exactly the one annotation at the end of the span's list; earlier annotations and every other span field are unchanged |
| `AsyncTraces.DefaultAsyncTrace.RecordApi` | src/main/java/com/profiler/context/DefaultAsyncTrace.java:97-107 | a null descriptor adds nothing; otherwise exactly one annotation is appended: API with the full name when apiId is 0, else API_DID with the id |
| `AsyncTraces.DefaultAsyncTrace.RecordException` | src/main/java/com/profiler/context/DefaultAsyncTrace.java:114-127 | for a Throwable, exactly one EXCEPTION annotation with the dropped message is appended; for any other result the span is unchanged |
| `AsyncTraces.DefaultAsyncTrace.MarkBeforeTime` | src/main/java/com/profiler/context/DefaultAsyncTrace.java:76-79 | sets the span's start time to the given time; nothing else changes |
| `AsyncTraces.DefaultAsyncTrace.GetBeforeTime` | src/main/java/com/profiler/context/DefaultAsyncTrace.java:81-84 | returns the span's start time |
| `AsyncTraces.DefaultAsyncTrace.MarkAfterTime` | src/main/java/com/profiler/context/DefaultAsyncTrace.java:91-94 | sets the span's end time to the given time; nothing else changes |
| `AsyncTraces.DefaultAsyncTrace.RecordServiceType` | src/main/java/com/profiler/context/DefaultAsyncTrace.java:136-139 | sets only the span's service type |
| `AsyncTraces.DefaultAsyncTrace.RecordRpcName` | src/main/java/com/profiler/context/DefaultAsyncTrace.java:141-145 | sets only the span's RPC name |
| `AsyncTraces.DefaultAsyncTrace.RecordDestinationId` | src/main/java/com/profiler/context/DefaultAsyncTrace.java:148-151 | sets only the span's destination id |
| `AsyncTraces.DefaultAsyncTrace.RecordEndPoint` | src/main/java/com/profiler/context/DefaultAsyncTrace.java:154-157 | sets only the span's end point |
| `AsyncTraces.ApiAnnotation` | src/main/java/com/profiler/context/DefaultAsyncTrace.java:98-106 | an annotation exists iff the descriptor is not null; its key is API iff apiId is 0, and is otherwise API_DID |
| `AsyncTraces.ExceptionAnnotation` | src/main/java/com/profiler/context/DefaultAsyncTrace.java:116-119 | an annotation exists iff the result is a Throwable; it is an EXCEPTION text that is a prefix of the message and no longer than the drop limit |
| `AsyncTraces.Drop` | src/main/java/com/profiler/context/DefaultAsyncTrace.java:118 | the dropped message is a prefix of the message, no longer than the limit, and equal to the message when the message fits |
| `Propagation.PopulateTraceId` | src/main/java/com/profiler/modifier/servlet/interceptors/DoXXXInterceptor.java:136-153 | no trace-id header gives null (start a new trace); a trace-id header that UUID.fromString rejects gives the exception; otherwise a continued identifier with that UUID (the bloc interceptor has the same code, ExecuteMethodInterceptor.java lines 111-128) |
| `Propagation.MalformedFieldsFallBack` | src/main/java/com/profiler/modifier/servlet/interceptors/DoXXXInterceptor.java:140-143 | an absent or unparsable parent span id or span id becomes SpanID.NULL, absent or unparsable flags become 0, and a parsable one keeps its value, each field depending on its own header only; sampled is true iff the header is present and equals "true" ignoring case |
| `Propagation.MalformedHeaderScenario` | src/main/java/com/profiler/modifier/servlet/interceptors/DoXXXInterceptor.java:139-142 | parent span id "notanumber", no span id header and sampled "true" give NULL, NULL and true |
| `Propagation.PropagationRoundTrip` | src/main/java/com/profiler/modifier/servlet/interceptors/DoXXXInterceptor.java:136-152 | headers written from any identifier (decimal span ids and flags, "true"/"false") parse back to exactly that identifier, given a UUID text form UUID.fromString reads back |
| `Propagation.OriginOf` | src/main/java/com/profiler/modifier/servlet/interceptors/DoXXXInterceptor.java:66-80 | a null identifier means a new trace, and a present one means a continued trace |
| `JavaText.ParseDecimal` | src/main/java/com/profiler/modifier/servlet/interceptors/DoXXXInterceptor.java:140-143 | a parsed value always lies in the type's range and comes from text that starts with a sign or a digit |
| `JavaText.ParseInteger` | src/main/java/com/profiler/modifier/servlet/interceptors/DoXXXInterceptor.java:140-141 | a null or unparsable header gives the default |
| `JavaText.ParseShort` | src/main/java/com/profiler/modifier/servlet/interceptors/DoXXXInterceptor.java:143 | a null or unparsable header gives the default |
| `JavaText.ParseBoolean` | src/main/java/com/profiler/modifier/servlet/interceptors/DoXXXInterceptor.java:142 | true iff the value is non-null and equals "true" ignoring case; "true" gives true and "false" gives false |
| `JavaText.ParseIntToString` | src/main/java/com/profiler/modifier/servlet/interceptors/DoXXXInterceptor.java:87-88 | parsing the decimal form that concatenation gives an in-range int yields that int back |
| `TraceModel.Header` | src/main/java/com/profiler/modifier/servlet/interceptors/DoXXXInterceptor.java:137 | a header reads as non-null iff the request carries it |
| `TraceModel.TraceContext.AttachTraceObject` | src/main/java/com/profiler/modifier/servlet/interceptors/DoXXXInterceptor.java:29-32 | with a trace already bound, the attach fails (IllegalStateException) and nothing changes; otherwise a fresh trace with an empty call log and frame id 0 is bound and the attach is logged |
| `TraceModel.TraceContext.NewTraceObject` | src/main/java/com/profiler/modifier/servlet/interceptors/DoXXXInterceptor.java:75 | binds a fresh new-trace object, unless a trace is already bound |
| `TraceModel.TraceContext.ContinueTraceObject` | src/main/java/com/profiler/modifier/servlet/interceptors/DoXXXInterceptor.java:73 | binds a fresh trace continuing the given identifier, unless a trace is already bound |
| `TraceModel.TraceContext.CurrentTraceObject` | src/main/java/com/profiler/modifier/servlet/interceptors/DoXXXInterceptor.java:103 | returns the bound trace, or null |
| `TraceModel.TraceContext.DetachTraceObject` | src/main/java/com/profiler/modifier/servlet/interceptors/DoXXXInterceptor.java:107 | unbinds the current trace and logs one detach |
| `TraceModel.Trace.GetStackFrameId` | src/main/java/com/profiler/modifier/servlet/interceptors/DoXXXInterceptor.java:116 | returns the trace's current stack frame id |
| `JavaText.Utf16Length` | src/main/java/com/profiler/modifier/servlet/interceptors/DoXXXInterceptor.java:165 | `String.length()` counts UTF-16 units: at least one and at most two per character |
| `RequestParams.KeptCountsUtf16Units` | src/main/java/com/profiler/modifier/servlet/interceptors/DoXXXInterceptor.java:165-167 | 99 characters of the Basic Multilingual Plane pass the length filter, 50 supplementary characters (100 UTF-16 units) do not |
| `RequestParams.Entry` | src/main/java/com/profiler/modifier/servlet/interceptors/DoXXXInterceptor.java:163-169 | a non-null value contributes a non-empty `key=value` iff 0 < length() < 100, the length counted in UTF-16 units |
| `ServletInterceptor.GetRequestParameter` | src/main/java/com/profiler/modifier/servlet/interceptors/DoXXXInterceptor.java:155-177 | the result is the `key=value` entries of the non-null values, joined by `", "`, with one more `", "` when the last parameter name has a null value |
| `ServletInterceptor.PiecesIsParameterString` | src/main/java/com/profiler/modifier/servlet/interceptors/DoXXXInterceptor.java:159-175 | appending, per name, the entry and `", "` after each non-null value while names remain gives the same string as the join description |
| `ServletInterceptor.ParameterStringEmpty` | src/main/java/com/profiler/modifier/servlet/interceptors/DoXXXInterceptor.java:110-113 | the string is empty (no HTTP_PARAM is recorded) iff no value is non-null, or the only non-null value belongs to the last name and the length filter drops it |
| `ServletInterceptor.SeparatorExamples` | src/main/java/com/profiler/modifier/servlet/interceptors/DoXXXInterceptor.java:163-174 | `a=1` followed by a null-valued name gives `a=1, `; a value dropped by the length filter still gets its separator, giving `a=1, , c=2` |
| `ServletInterceptor.EndPointCarriesPort` | src/main/java/com/profiler/modifier/servlet/interceptors/DoXXXInterceptor.java:86-88 | the end point is protocol, ":" and the destination; the destination is the server name plus ":" and a port that parses back when the port is positive, and just the server name otherwise |
| `ServletInterceptor.Before` | src/main/java/com/profiler/modifier/servlet/interceptors/DoXXXInterceptor.java:54-95 | a malformed trace id or an already bound trace is caught, and nothing is bound or recorded; otherwise a fresh trace is bound, new or continued according to the headers, and receives exactly: start time, TOMCAT, RPC name, end point, destination, HTTP_URL |
| `ServletInterceptor.After` | src/main/java/com/profiler/modifier/servlet/interceptors/DoXXXInterceptor.java:97-128 | with no bound trace, nothing happens; otherwise the trace is detached exactly once and receives, in order, HTTP_PARAM (only for a non-empty parameter string), the API, the outcome, the end time and the block end; a frame id other than 0 is reported and changes nothing else |
| `BlocInterceptor.GetRequestParameter` | src/main/java/com/profiler/modifier/bloc/handler/interceptors/ExecuteMethodInterceptor.java:130-149 | the result is the plain concatenation, with no separator, of the `key=value` entries of the non-null values |
| `BlocInterceptor.ParameterStringEmpty` | src/main/java/com/profiler/modifier/bloc/handler/interceptors/ExecuteMethodInterceptor.java:69-71 | the string is empty (no HTTP_PARAM is recorded) iff every value is null or dropped by the length filter |
| `BlocInterceptor.EndPointCarriesPort` | src/main/java/com/profiler/modifier/bloc/handler/interceptors/ExecuteMethodInterceptor.java:66-67 | the end point is protocol, ":" and the destination; the destination is always the server name, ":" and the port, and the port parses back whatever its value |
| `BlocInterceptor.Before` | src/main/java/com/profiler/modifier/bloc/handler/interceptors/ExecuteMethodInterceptor.java:31-78 | a malformed trace id or an already bound trace is caught, and nothing is bound or recorded; otherwise the trace bound by the context (not the scratch one) receives exactly: start time, BLOC, RPC name, end point, destination, HTTP_URL, then HTTP_PARAM only for a non-empty parameter string |
| `BlocInterceptor.After` | src/main/java/com/profiler/modifier/bloc/handler/interceptors/ExecuteMethodInterceptor.java:80-103 | with no bound trace, nothing happens; otherwise the trace is detached exactly once and receives, in order, the API, the outcome, the end time and the root block end; a frame id other than 0 is only reported |

## Left out

- Logging (`logger.*`, `LoggingUtils`, the `isDebug` branches) is side output only.
- `System.currentTimeMillis` is not modelled. Timestamps are method parameters.
- The `TimerTask` and its scheduling are not modelled. A task is an identity, and `cancel()` calls are logged.
- Real `AtomicInteger` atomicity is not modelled. Each compare-and-set is one sequential step, and mutual exclusion is proved over sequences of calls, not threads.
- `Storage.store` is an external sink. Its calls are a ghost log. A failure inside it never reaches the caller, so it has no separate model.
- The servlet and coyote request APIs are replaced by a `Request` record. Parameter names are a sequence in enumeration order, each with what `getParameter` returns. The remote address is only logged, so it is left out.
- `UUID.fromString` is not part of this model. It is a function parameter that may fail.
- The sources of `Header`, `SpanID`, `AsyncTrace`, `NumberUtils`, `StringUtils`, `DefaultTrace`, `TraceContext` and `SpanEvent` are not among the modelled files. `JavaText.ParseInteger`/`ParseShort`, `TraceModel.TraceContext` and `TraceModel.SpanEvent` model them from how the core files use them, and this line lists what the model assumes about them. Assumed values: STATE_INIT/FIRE/TIMEOUT are 0/1/2 (only their distinctness is used), `SpanID.NULL` is -1, and the header names are five abstract keys.
- JavaText.ParseDecimal: accepts ASCII digits only. Java's `Character.digit` also accepts other Unicode decimal digits.
- AsyncTraces.Drop: keeps the first `limit` characters. The limit is a parameter because `StringUtils.drop` is not shown, and the real one may also append a marker.
- AsyncTraces.DefaultAsyncTrace.RecordException: a Throwable whose message is null is not modelled. The message is always a string.
- `getAttachObject`/`setAttachObject` are an opaque pass-through, left out.
- `traceBlockBegin` has an empty body, and the private `annotate(key)` is never called. Both are left out.
- `setMethodDescriptor`, `setTraceContext` and `cacheApi` are interceptor configuration. The descriptor and the context are parameters of `before`/`after`.
- `DefaultTrace` internals are not modelled. A `Trace` is the log of calls the interceptors make on it. The order between context events (attach/detach) and trace calls is not captured, because they are two separate logs.
- Exceptions inside `before` other than a malformed trace id or an already bound trace are not modelled. Examples are a failed cast of `args[0]` or a null request URI. Exceptions in `after` propagate in the source and are not modelled either.
- `SpanEvent` aliasing is not modelled. The async trace holds the span by value, so a span handed to storage is a snapshot.
