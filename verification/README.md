# Verified model of the Ripht PHP SAPI

Ripht embeds PHP in a Rust process. A request is an `ExecutionContext`; the executor turns it into a
boxed `ServerContext`, publishes the box through a global pointer, lets PHP start up, run a script and
shut down, and takes the box back. While PHP runs it calls back: it writes output, flushes, sends
headers, reads the request body, logs, asks for variables. This project models that lifecycle and the
codecs, builders and worker processes around it, and proves what they promise over every input, every
callback sequence and every sequence of requests.

PHP itself is an arbitrary sequence of events in each of its three phases, together with the success or
failure of startup and script. Nothing is assumed about which callbacks it makes, in which order, or
with which arguments, null pointers included.

## How it is organised

Code that updates state in the source is a class or a method with a loop here, proved equal to a
function on values; the theorems are lemmas about those functions.

- `Bytes`, `Division`, `Utf8`: byte streams, a sink that can fail, arithmetic, UTF-8 text as bytes.
- `ResponseHeaders`: header lines that PHP emits.
- `ServerVariables` (in `ServerVars.dfy`), `Web`, `PercentEncoding`: CGI variables and the request builder.
- `OutputBuffers`, `ServerContexts`, `Callbacks`: the growable buffer, the per-request object, the
  callbacks, and `Step`/`Run`, the machine that they drive.
- `RequestRuns`, `OutputModes`, `PostBody`: what every callback sequence keeps.
- `Executors`, `Lifecycle`, `Results`: executions, their order of steps, sequences of them, and what a
  caller gets.
- `Outcomes`: what PHP is told and answered, and what a caller gets, in terms of the job itself.
- `FastCgi`: the name-value and record codec of the benchmark client.
- `Protocol`, `Workers`, `Pools`, `PoolSteps`: framed messages, the worker loop, round-robin dispatch,
  and the pool with its processes as a concurrent system.

Functions that only compute are tied to laws that do not mention them. Where code filters a list, the
law is `Bytes.Collects`: the result holds exactly the accepted entries, each at the place that the
accepted ones before it leave; `Bytes.CollectsOnce` shows that only one list does.

In the machine, boxes are numbered in the order of their creation. `live` holds the boxes not yet
reclaimed and `reclaimed` those reclaimed, in order. `fetches` is the whole history of contexts that
callbacks obtained through the pointer, each entry with its box and whether that was live at the time.
Strings that PHP borrows carry the number of the box that owns them.

## What the code does where its comments say something else

- A comment in `src/sapi/callbacks.rs` says that the context is valid between request startup and
  shutdown. When startup fails, `src/sapi/executor.rs:98-103` reclaims the box first and clears the
  pointer only after PHP's shutdown. `Lifecycle.Failure` and `Lifecycle.EveryRun` state exactly when a
  callback can then obtain the reclaimed context: when PHP's shutdown after a failed startup makes a
  callback that asks for one. `Lifecycle.LateAccess` is a concrete request for which it happens.
- A comment at `src/sapi/executor.rs:282` says that request-related pointers are cleared to prevent stale
  access between requests. The cleanup leaves `request_method` out, and a failed startup skips the
  cleanup. `Lifecycle.StrayStrings` says exactly which strings lead into the reclaimed box afterwards.
- The header parser is said to follow RFC 7230. It keeps white space at the end of a value, trims the
  name, and skips carriage return, line feed and form feed after the colon as well. The model does the
  same.
- A header spelled `Content_Type` normalises to `CONTENT_TYPE` but does not suppress the default for a
  request with a body, so the default hides it (`Web.UnderscoreSpelling`). `Web.HeaderBeatsDefault`
  and `Web.LengthBeatsDefault` give the exact conditions under which such headers win.
- Conversion to C strings drops pairs that hold a NUL. An earlier value can then stay in the list while
  the cached field is empty (`ServerVariables.StaleListEntry`); `ServerVariables.ConversionAgrees` says
  exactly when list and cache agree.
- `write_fcgi_record` writes 16 bits of the length whatever the content; `FastCgi.OversizedRecord` says
  exactly which records survive. Likewise `FastCgi.ParamsRoundTrip` and `Protocol.FrameRoundTrip` for
  31-bit and 32-bit lengths.

## What is assumed about the surroundings

- PHP's request startup clears `headers_sent`, the header list and the code before any callback.
  `sapi_send_headers` does nothing once headers are sent, otherwise it calls the `send_headers` callback
  once, and marks the headers as sent when that succeeds.
- `Vec::reserve` grows as the standard library does: to the larger of twice the old capacity and the
  request. It panics beyond the largest object size; the callback catches the panic and returns 0.
- `to_uppercase` is a parameter of which only the ASCII part is known, and only where a lemma says so.
- Payload serialisation and the execution of a script by a worker are parameters. The lemmas that need
  it require that every answer the worker can give serialises to less than 2^32 bytes.

## Model

| member | source | states |
|---|---|---|
| Lifecycle.EveryRun | src/sapi/executor.rs:61-246 | For any sequence of streaming and hooked calls with any callbacks and outcomes: every box is reclaimed exactly once and in order, the pointer is null and no box is live after the sequence, one box is made per call that passes the early checks, callbacks obtain only boxes of these calls, and one is obtained after its reclamation if and only if some call has a failed startup followed by a shutdown that asks for the context |
| Lifecycle.OneCall | src/sapi/executor.rs:130-195 | The same for one call from any clean state with any history: each fetch it causes is of its own box; an early error leaves the whole process state as it was |
| Lifecycle.Success | src/sapi/executor.rs:93-113 | When startup succeeds, each single fetch by a callback in any of the three phases gives the box of the current request while it is live, and the call ends clean |
| Lifecycle.Failure | src/sapi/executor.rs:162-169 | A failed startup also ends clean; the startup's fetches give the live box, the shutdown's give the reclaimed one, and there are such if and only if the shutdown events include one that asks for a context |
| Lifecycle.LateAccess | src/sapi/executor.rs:162-169 | A concrete request whose failed startup is followed by a log message: its callback obtains the reclaimed box, twice |
| Lifecycle.StrayStrings | src/sapi/executor.rs:249-297 | After a successful call exactly the request method, and after a failed startup exactly the method, the content type and the query string, lead into the reclaimed box, each if and only if its last variable is present and free of NUL |
| Outcomes.PhpIsTold | src/sapi/executor.rs:249-269 | When startup ends and until shutdown PHP's content length is the length of the job's body, and method, content type and query string are the last values under those names, lent from the live box; without such a value free of NUL they are the constant GET or null |
| Outcomes.PhpBegins | src/sapi/executor.rs:150-160 | PHP's startup begins with the context published in the only live box, no headers, nothing sent, and code 200 |
| Outcomes.OverridesArrive | src/sapi/executor.rs:105-108 | After a successful call of either kind PHP's settings have grown by the overrides of the job, and the body counts as read |
| Executors.AppliedCollects | src/sapi/executor.rs:307-326 | The overrides that PHP receives are exactly those whose names can be interned, in order |
| Outcomes.PhpIsAnswered | src/sapi/callbacks.rs:219-260 | At every point of a request `$_SERVER` is the software and then all pairs of the job without NUL, the cookie string is the last value of its variable, and an environment variable is the first pair of that name |
| Outcomes.JobIsServed | src/sapi/callbacks.rs:74-387 | No callbacks make the context anything but that of the job |
| Outcomes.WhichCallsFail | src/sapi/executor.rs:75-103 | Both kinds of execution fail exactly when and how the source says: not initialised, script missing, NUL in the path, startup failed, in this order; the first three leave process and hooks alone |
| Outcomes.StreamingResult | src/sapi/executor.rs:107-115 | The result has the status and headers of the lines that PHP sent last, all messages of the three phases with level and text, and no body |
| Outcomes.HookedResult | src/sapi/executor.rs:197-240 | The same with hooks of any kind, and the headers are exactly those sent ones that the hooks accept when they are offered, after the literal calls before them |
| Outcomes.FinalMessages | src/sapi/callbacks.rs:330-335 | The messages of a result are those logged in startup, script and shutdown, once each and in order |
| Outcomes.FinalPost | src/sapi/server_context.rs:144-163 | What PHP reads in all three phases together is the first min(sum of sizes, length) bytes of the body |
| Lifecycle.RunStale | src/sapi/callbacks.rs:33-46 | While the pointer leads to a reclaimed box, any events change nothing but PHP's own headers and the history, every fetch is late, and there is one if and only if an event asks for the context |
| Lifecycle.StartFacts | src/sapi/executor.rs:150-160 | After startup the pointer leads to the only live box, every fetch so far gave that box, and PHP keeps the request information and settings it was given |
| Lifecycle.ScriptFacts | src/sapi/executor.rs:171-179 | Overrides extend PHP's settings; they and the script keep the box, the request data and the request information |
| Lifecycle.ShutdownFacts | src/sapi/executor.rs:188-190 | PHP's shutdown finds the live box of this request with the body marked as read, and keeps its request data |
| Executors.Executor.Publish | src/sapi/executor.rs:147-152 | The new box is the next number, it is the only new live one, and the pointer leads to it; its content is the converted execution context |
| Executors.Executor.SetGlobals | src/sapi/executor.rs:249-269 | The four fields and the code are set from the context of the published box; what they then hold is said by `Outcomes.PhpIsTold` |
| Executors.Executor.ApplyIniOverrides | src/sapi/executor.rs:300-327 | PHP receives exactly the overrides whose names can be interned, in their order |
| Executors.Executor.Cleanup | src/sapi/executor.rs:283-297 | The pointer and the three borrowed strings are cleared, the rest of the globals is untouched |
| Executors.Executor.FromRaw | src/sapi/executor.rs:192-192 | Reclaiming makes the box dead and records it |
| Executors.Executor.Abandon | src/sapi/executor.rs:98-103 | The failure path in the order of the source: reclaim, shutdown, clear; no cleanup of the other globals |
| Executors.Executor.RunScript | src/sapi/executor.rs:105-106 | Overrides are applied before the script's callbacks |
| Executors.Executor.RunScriptWithHooks | src/sapi/executor.rs:171-183 | The same with the four hook calls around the script, the third telling whether it succeeded |
| Executors.Executor.Release | src/sapi/executor.rs:190-195 | The pointer is cleared before the box is reclaimed, and the globals are cleaned |
| Executors.Executor.ExecuteStreaming | src/sapi/executor.rs:61-117 | The imperative execution yields the process state and result of the specification, nothing happens on an early error, and the chunks that the callback received are those of the final context |
| Executors.Executor.Finish | src/sapi/executor.rs:197-244 | Result and hook trace of the part after reclamation, for any hooks |
| Executors.Executor.OfferHeaders | src/sapi/executor.rs:201-206 | The filter loop with its hook calls is the recursive offering, of which `Results.OfferCollects` says what is kept |
| Executors.Executor.NoteMessages | src/sapi/executor.rs:212-214 | One call per message, in order |
| Executors.Executor.ExecuteWithHooks | src/sapi/executor.rs:119-246 | The imperative execution yields the process state, trace and result of the specification; an early error touches neither state nor hooks |
| Results.HookTrace | src/sapi/executor.rs:145-242 | The trace of every successful call is created, starting, started, executing, executed, finishing, one call per header, status, one call per message, output, finished; a failed startup ends after starting |
| Results.OfferTrace | src/sapi/executor.rs:201-206 | The header calls are all headers in order, whatever the hooks decide |
| Results.OfferCollects | src/sapi/executor.rs:201-206 | The kept headers are exactly the accepted ones, all of them and in order, where the i-th decision is made after the calls for the headers before it |
| Results.FastPath | src/sapi/executor.rs:197-219 | The branch for `NoOpHooks` gives the state and result that any hooks give which accept every header and let output pass |
| Results.FastPathExact | src/sapi/executor.rs:197-219 | For arbitrary hooks: the branch gives their result if and only if they accept each header of this request when it is offered, after the calls before it, and let its output pass, or it has none |
| Results.OfferKeepsAll | src/sapi/executor.rs:201-206 | The filter keeps the whole list if and only if every header is accepted in its turn, where each decision may depend on the earlier calls |
| Results.ModesAgree | src/sapi/executor.rs:87-115 | For hooks of any kind: the streamed chunks joined and the single slice given to `on_output` are both exactly what PHP wrote; the buffered body is that too, or empty if the hooks stop it; the streaming result has no body; status and messages agree, the headers as far as the hooks accept them, and the process ends in the same state |
| Results.ConcludeEnd | src/sapi/executor.rs:209-244 | The last two hook calls are the output in one piece and the finished result, whose body follows the hooks' answer to the former |
| Results.ServeTwins | src/sapi/executor.rs:216-219 | Requests that differ only in where output goes pass through a whole execution alike |
| Results.FinalHeaders | src/sapi/callbacks.rs:123-192 | Status and headers of a result are the parse of the lines walked since the last capture in any phase |
| Results.FinalContext | src/sapi/server_context.rs:165-201 | Every successful call ends with a status in 100..599, with captured headers if there is any output, and with the buffer inside its capacity and cost bounds |
| Results.InitialContexts | src/sapi/server_context.rs:250-279 | A fresh context has status 200, no headers, the whole body unread and no output, whatever its variables |
| RequestRuns.RunKeepsBox | src/sapi/callbacks.rs:74-337 | No callback sequence creates, reclaims or swaps a box or changes request data; each single fetch gives the current box while it is live; messages only grow |
| RequestRuns.StepEffect | src/sapi/callbacks.rs:74-337 | The effect of each single callback on a live context, with header capture reduced to parsing the list |
| RequestRuns.RunWire | src/sapi/callbacks.rs:143-155 | Over every callback sequence, status and response headers are those of the last code, clamped to 500 outside 100..599, and of the lines walked since the last capture, in order |
| RequestRuns.ResendChangesNothing | src/sapi/callbacks.rs:123-161 | After sending a list the headers are its parse, and sending it again changes nothing but the history of fetches |
| RequestRuns.CaptureFields | src/sapi/callbacks.rs:135-155 | Walking a list replaces status and headers, drops malformed lines, keeps order, and touches nothing else |
| RequestRuns.CaptureLaw | src/sapi/callbacks.rs:82-155 | A direct capture, or the first output or flush, sets the status to the code when it is in 100..599 and to 500 otherwise, and the headers to those that the lines denote, in order; output and flush leave headers sent |
| RequestRuns.ParseAllCollects | src/sapi/callbacks.rs:148-155 | The headers of a list are exactly the lines that parse, each by itself, in order |
| RequestRuns.RunMessages | src/sapi/callbacks.rs:302-337 | Over every callback sequence each logged message is kept once, in order, with its level and its text made well-formed |
| ServerContexts.LevelIsClamped | src/execution/message.rs:15-28 | The level of a message is its number on the syslog scale, clamped to the ends of the scale |
| RequestRuns.RunHeadersFirst | src/sapi/callbacks.rs:82-84 | Over every callback sequence the status stays in 100..599 and no output is accepted before headers are captured |
| RequestRuns.RunOutput | src/sapi/callbacks.rs:74-100 | The output is the concatenation of the writes that PHP was told were taken, and the returned counts add up to its length, in both modes |
| RequestRuns.RunEconomical | src/sapi/server_context.rs:172-198 | Capacity and copying bounds hold after every callback sequence |
| OutputModes.RunTwins | src/sapi/server_context.rs:165-201 | On any callback sequence with an affordable total, buffer and callback receive the same bytes, which are all that PHP wrote, and PHP gets the same replies in both modes |
| OutputModes.CountsTell | src/sapi/callbacks.rs:96-99 | For any sizes and in either mode: all that PHP wrote was put out if and only if the counts it got back add up to what it wrote |
| PostBody.Conservation | src/sapi/server_context.rs:144-163 | The reads of any callback sequence deliver, joined, the first min(sum of sizes, length) bytes of the body |
| PostBody.RunPost | src/sapi/server_context.rs:149-162 | The same from any cursor position: the cursor moves by what was asked for or to the end, and the delivered bytes are those in between |
| PostBody.EmptyReadMeansEnd | src/sapi/callbacks.rs:196-215 | A read into a non-empty buffer delivers nothing if and only if the body is consumed |
| PostBody.ProductiveReads | src/sapi/server_context.rs:144-163 | Draining n bytes through a buffer of b bytes takes ceil(n/b) productive reads |
| OutputBuffers.PolicyFrom | src/sapi/server_context.rs:30-52 | Whatever the two settings, the initial capacity is at least the minimum and the policy makes progress |
| OutputBuffers.PolicyChoices | src/sapi/server_context.rs:30-52 | Which size and which growth each setting chooses, in full |
| OutputBuffers.FixedIsLeast | src/sapi/server_context.rs:185-191 | The stepping loop reaches the least capacity in whole steps that meets the need |
| OutputBuffers.AppendIsEconomical | src/sapi/server_context.rs:172-198 | Each accepted write keeps: under x4, capacity at most max(4 len, len + initial), three times the bytes copied at most the capacity, and capacity at least initial times 4^moves; under x2 and fixed steps, once moved, capacity at most max(2 len, len + initial or step), bytes copied at most the capacity, and capacity at least initial times 2^moves |
| OutputBuffers.FactorsGetWhatTheyAsk | src/sapi/server_context.rs:179-184 | The two factors ask for at least a doubling, so the amortised growth of `reserve` adds nothing to their request |
| OutputBuffers.FreshIsEconomical | src/sapi/server_context.rs:92-92 | The bounds hold of a fresh buffer |
| OutputBuffers.AffordableWrite | src/sapi/server_context.rs:172-200 | No write is refused while the total stays within the stated share of the address space |
| ServerContexts.ServerContext.constructor | src/sapi/server_context.rs:250-279 | Conversion keeps body and flag, drops environment and INI pairs with NUL, and starts empty |
| ServerContexts.ServerContext.ReadPost | src/sapi/server_context.rs:144-163 | The front of the caller's buffer is the next stretch of the body, the rest of the buffer and of the context is untouched |
| ServerContexts.ServerContext.GrownCapacity | src/sapi/server_context.rs:178-192 | The stepping loop and the two factors compute the specified capacity, including saturation |
| ServerContexts.ServerContext.WriteOutput | src/sapi/server_context.rs:165-201 | Output goes to the callback if there is one, else whole to the end of the buffer, whose capacity grows as `reserve` does, or, when no capacity is available, nowhere |
| ServerContexts.GetEnv | src/sapi/server_context.rs:233-238 | The value is the first one under the name, and there is none if and only if the name does not occur |
| Callbacks.Sapi.GetContext | src/sapi/callbacks.rs:33-46 | A null pointer gives nothing; each box obtained is added to the history with whether it is live |
| Callbacks.Sapi.RiphtUbWrite | src/sapi/callbacks.rs:74-100 | Null or empty text is refused before anything else; otherwise headers are sent first, and the count is what the context took |
| Callbacks.Sapi.RiphtFlush | src/sapi/callbacks.rs:104-119 | Flushing sends headers at most once |
| Callbacks.Sapi.RiphtSendHeaders | src/sapi/callbacks.rs:123-161 | The loop over the list performs the capture of which `RequestRuns.CaptureLaw` speaks, fetches the context once more per line, and fails without a list or a context |
| Callbacks.Sapi.RiphtSendHeader | src/sapi/callbacks.rs:165-192 | One line is parsed and appended, or dropped |
| Callbacks.Sapi.PhpSendHeaders | src/sapi/ffi.rs:406-406 | Sending is idempotent and is remembered only if the callback succeeded |
| Callbacks.Sapi.RiphtReadPost | src/sapi/callbacks.rs:196-215 | Bytes reach the caller's buffer only up to the count returned, for every buffer, null included |
| Callbacks.Sapi.RiphtLogMessage | src/sapi/callbacks.rs:302-337 | A message is appended with its level and its text made valid UTF-8, when there is a context |
| Callbacks.Sapi.Fire | src/sapi/callbacks.rs:74-387 | Every callback on the objects acts and answers as the step function says |
| Callbacks.Sapi.FireAll | src/sapi/callbacks.rs:74-387 | So does every finite sequence of them |
| Callbacks.StepSound | src/sapi/callbacks.rs:74-387 | Every callback keeps: a usable context is always the live one behind the pointer, and the cursor stays inside the body |
| FastCgi.ParamsRoundTrip | benches/shared/fpm.rs:183-213 | A decoder of section 3.4 of the FastCGI Specification 1.0 recovers a list from its encoding if and only if every length is below 2^31 |
| FastCgi.ParamsInjective | benches/shared/fpm.rs:183-213 | Two such lists with the same encoding are equal |
| FastCgi.LengthReadsBack | benches/shared/fpm.rs:190-206 | Any length reads back modulo 2^31 in the same number of bytes, across the boundary of one and four bytes |
| FastCgi.LengthForm | benches/shared/fpm.rs:190-206 | A length below 128 is one byte, any other four with the most significant first and marked |
| FastCgi.PairReadsBack | benches/shared/fpm.rs:186-209 | A representable pair reads back whatever follows it |
| FastCgi.LongPairIsLost | benches/shared/fpm.rs:193-196 | A pair with a longer text never reads back |
| FastCgi.BuildParams | benches/shared/fpm.rs:183-213 | The pushing loop computes that encoding |
| FastCgi.WriteRecord | benches/shared/fpm.rs:215-244 | A sink receives the whole record, or the byte prefix for which it has room and a failure |
| FastCgi.RecordLayout | benches/shared/fpm.rs:221-241 | The bytes of a written record have the layout of section 3.3: version 1, type, request number and length with the high byte first, padding length, a zero, content, and zeros up to a multiple of eight |
| FastCgi.CollectStdout | benches/shared/fpm.rs:246-267 | On any bytes at all the loop stays in bounds, terminates, and collects what the recursive reader collects |
| FastCgi.ExtractStdout | benches/shared/fpm.rs:246-278 | It then drops everything through the first CR LF CR LF, if there is one |
| FastCgi.FindBlankLine | benches/shared/fpm.rs:270-272 | The position found is the first, and none is found if and only if there is none |
| FastCgi.StripExactly | benches/shared/fpm.rs:269-277 | Without a blank line nothing is stripped, otherwise everything through the first one is |
| FastCgi.StreamRoundTrip | benches/shared/fpm.rs:246-267 | From any list of records of any versions, types, padding lengths and padding bytes, with at most 65535 bytes of content each, extraction collects exactly the contents of type 6, in order |
| FastCgi.TruncatedStream | benches/shared/fpm.rs:250-267 | From any byte prefix of such a stream it collects exactly the type-6 contents of the records whose header and content are wholly inside, even when the cut falls in padding |
| FastCgi.TruncationIsPrefix | benches/shared/fpm.rs:250-267 | So a broken connection yields a prefix of the full output |
| FastCgi.CountedIsWhole | benches/shared/fpm.rs:256-260 | The count used in the truncation theorem is right: the i-th record is counted if and only if the stream before it, its header and its content fit the prefix |
| FastCgi.OversizedRecord | benches/shared/fpm.rs:221-230 | A type-6 record of the client comes back as its content if and only if that has at most 65535 bytes |
| FastCgi.ResponseBody | benches/shared/fpm.rs:269-277 | However a CGI response is cut into records, the client returns the body behind its first blank line |
| ServerVariables.ServerVars.Set | src/sapi/server_vars.rs:29-39 | The pair is appended and every cached field stays the last value under its key |
| ServerVariables.ServerVars.Extend | src/sapi/server_vars.rs:41-51 | So for any list of pairs, in order |
| ServerVariables.ServerVars.TrackSpecial | src/sapi/server_vars.rs:53-61 | Exactly the field of the key changes |
| ServerVariables.ServerVars.HttpHeader | src/sapi/server_vars.rs:184-194 | The header lands under its normalised name, with the two content variables unprefixed, and the caches stay exact |
| ServerVariables.ServerVars.IntoCStringPairs | src/sapi/server_vars.rs:262-294 | Pairs with NUL are dropped in order; a cached value with NUL becomes absent |
| ServerVariables.CacheAfterConversion | src/sapi/server_vars.rs:262-294 | Each of the four fields, under its own key, is present if and only if the last value there has no NUL, and is then that value and the last kept pair; absent, the key was never set or its last value held a NUL |
| ServerVariables.KeptCollects | src/sapi/server_vars.rs:263-269 | The kept pairs are exactly those without NUL, all of them and in order |
| ServerVariables.LastOfIsLast | src/sapi/server_vars.rs:29-39 | The lookup by which all these laws are stated is the last value stored under a key |
| ServerVariables.ConversionAgrees | src/sapi/server_vars.rs:262-294 | Cache and kept list agree on a key if and only if its last value has no NUL or none of its values is without |
| ServerVariables.StaleListEntry | src/sapi/server_vars.rs:264-277 | An input for which they disagree |
| ServerVariables.KeptLast | src/sapi/server_vars.rs:263-269 | The kept list shows the last value without NUL |
| Web.Build | src/adapters/web.rs:376-484 | The two errors in their order; otherwise a context whose variables are the specified list with exact caches and whose body, environment and overrides are those of the request |
| Web.SetHeaders | src/adapters/web.rs:456-466 | The loop appends one variable per header, and each flag tells whether some header matches its name up to ASCII case |
| Web.SetOwnVars | src/adapters/web.rs:425-443 | The chain of setters appends the variables of the request in order, in a fresh object with exact caches; their values are said by the next four rows |
| Web.TargetVariables | src/adapters/web.rs:402-431 | Method, URI, query string, script name and PHP_SELF as the script sees them, from the method and from the target or, without one, the file name, split at its first question mark |
| Web.PlaceVariables | src/adapters/web.rs:414-443 | Gateway, times, script file, document root with its default, path info and its translation below that root, the last two absent without path info |
| Web.ConnectionVariables | src/adapters/web.rs:433-439 | Names and addresses of both ends, both ports as decimal numbers without leading zeros that read back, protocol, scheme, and HTTPS if and only if it is on |
| Web.MethodNames | src/adapters/web.rs:81-91 | The seven methods and their names |
| Web.SetCookies | src/adapters/web.rs:445-454 | Cookies, if any, are one variable |
| Web.CookiesJoin | src/adapters/web.rs:446-451 | Each cookie gives name, equals sign and value, and a semicolon and a space stand between two |
| Web.SetBodyDefaults | src/adapters/web.rs:468-474 | The defaults are appended after the headers, each only for a body and only without the matching header |
| Web.Noninterference | src/adapters/web.rs:425-474 | Whatever headers, cookies and body a request carries, the last-wins lookup of every variable other than `HTTP_*`, `CONTENT_TYPE` and `CONTENT_LENGTH` is what it is without them |
| Web.MetaVariables | src/adapters/web.rs:425-443 | Every variable that the builder sets itself reaches the script, whatever headers, cookies and body there are |
| Web.QueryVariable | src/adapters/web.rs:423-429 | The query string is what follows the first question mark of the target, else empty |
| Web.DataReachesScript | src/adapters/web.rs:423-429 | Percent-encoded bytes in the target arrive in the query string and decode to the same bytes |
| Web.HttpVariables | src/adapters/web.rs:445-466 | Each `HTTP_*` lookup is the last header normalising to that name, `HTTP_COOKIE` falling back to the joined cookies (section 4.1.18 of RFC 3875) |
| Web.AddedHeaderWins | src/adapters/web.rs:200-208 | A header added last to the builder decides its `HTTP_*` variable |
| Web.HeaderLookup | src/sapi/server_vars.rs:184-194 | Two headers share a variable if and only if their normalised names are equal; the last one wins |
| Web.LastHeaderIsLast | src/adapters/web.rs:459-466 | The header that such a lookup shows is the last one whose normalised name matches |
| Web.ContentType | src/adapters/web.rs:468-470 | The content type that the script sees, for headers of any spelling |
| Web.ContentLength | src/adapters/web.rs:472-474 | The same for the content length |
| Web.BodyDefaults | src/adapters/web.rs:456-474 | For ASCII names without underscores: the last matching header, else the default when there is a body, else nothing |
| Web.HeaderBeatsDefault | src/adapters/web.rs:456-470 | For names of any spelling: the header takes precedence over the default if and only if the stated check on the request holds |
| Web.LengthBeatsDefault | src/adapters/web.rs:456-474 | The same for the content length and the size of the body |
| Web.UnderscoreSpelling | src/adapters/web.rs:456-470 | An input for which it does not |
| Web.SameHeader | src/sapi/server_vars.rs:185-187 | On names with dashes only, normalising identifies exactly the spellings that differ in case |
| Web.NormaliseAscii | src/sapi/server_vars.rs:185-187 | Character by character, a dash becomes an underscore and a small letter its capital, for ASCII names |
| Web.FlagImpliesHeader | src/adapters/web.rs:459-466 | A header that suppresses a default provides the variable itself; with dash names the converse holds too |
| Web.DecimalReadsBack | src/sapi/server_vars.rs:200-202 | Printed lengths and ports are decimal digits without leading zeros that read back |
| PercentEncoding.PercentEncode | examples/encoding_gaunlet.rs:9-24 | The loop computes the encoding |
| PercentEncoding.RoundTrip | examples/encoding_gaunlet.rs:9-24 | A decoder of section 2.1 of RFC 3986 inverts it on every byte string |
| PercentEncoding.Alphabet | examples/encoding_gaunlet.rs:12-21 | Every character of an encoding is unreserved or a percent sign, and every percent sign is followed by two upper-case hexadecimal digits |
| PercentEncoding.UnreservedStays | examples/encoding_gaunlet.rs:12-18 | Unreserved text encodes to itself, whatever follows |
| PercentEncoding.EncodedLength | examples/encoding_gaunlet.rs:11-22 | Every other byte takes exactly three characters |
| PercentEncoding.UnreservedCharacters | examples/encoding_gaunlet.rs:12-16 | The unreserved characters are those of section 2.3 of RFC 3986 |
| PercentEncoding.ParsedUriJoins | src/adapters/web.rs:487-492 | Splitting loses nothing and leaves no question mark in the path |
| PercentEncoding.JoinedUriParses | src/adapters/web.rs:487-492 | Joining and splitting gives path and query back if and only if the path has no question mark |
| PercentEncoding.QueryData | examples/encoding_gaunlet.rs:9-24 | Encoded data after `/?data=` comes out of the split as exactly that query and decodes |
| ResponseHeaders.Parse | src/execution/header.rs:27-61 | The loop and its early returns compute the header that a line denotes, or drop it |
| ResponseHeaders.LineParses | src/execution/header.rs:27-61 | What every line with a colon denotes: the name is what stands before the first colon, trimmed; the line is dropped if that is ill-formed or nothing is left; the value is what follows the white space, made well-formed |
| ResponseHeaders.NoColonIsDropped | src/execution/header.rs:28-28 | Every other line is dropped |
| ResponseHeaders.PaddedName | src/execution/header.rs:45-50 | White space around a name is not part of it, and a name of white space alone drops the line |
| ResponseHeaders.RoundTrip | src/execution/header.rs:27-61 | Printing as name, colon, space, value and parsing gives a header back if and only if it is in normal form: a trimmed non-empty name without colon, and a value that does not start with ASCII white space, both valid UTF-8 |
| ResponseHeaders.CanonicalLine | src/execution/header.rs:27-61 | Every accepted line, valid UTF-8 or not, has the same header as the printed form of its header |
| ResponseHeaders.ParsedIsNormal | src/execution/header.rs:45-60 | What is accepted is in normal form |
| ResponseHeaders.AnySpacingParses | src/execution/header.rs:36-41 | Any ASCII white space after the colon, or none, gives the same header (section 3.2 of RFC 7230) |
| Utf8.LossyIsValid | src/execution/header.rs:52-55 | The lossy conversion always yields valid UTF-8 |
| Utf8.LossyOfValid | src/execution/header.rs:52-55 | It leaves valid text alone |
| Utf8.LossyAfter | src/execution/header.rs:54-54 | Valid text in front of anything stays as it is |
| Utf8.LossyOfBad | src/execution/header.rs:54-54 | Each ill-formed subpart gives one U+FFFD |
| Utf8.BadLenIsMaximal | src/execution/header.rs:54-54 | That subpart is a single byte or the start of a character, and no longer piece of the text is one |
| Utf8.TrimFacts | src/execution/header.rs:45-47 | A trimmed text has no white space at either end, what was removed is white space, and trimming is idempotent and keeps validity |
| Utf8.TrimPadded | src/execution/header.rs:45-47 | Trimming finds a text inside any white space around it |
| Utf8.SpaceOfScalar | src/execution/header.rs:45-47 | White space is exactly the encoded code points with the White_Space property |
| Utf8.ValidIsEncoded | src/execution/header.rs:45-53 | Valid text is exactly what encoding sequences of Unicode scalar values yields |
| Protocol.ReadMessage | benches/shared/protocol.rs:81-91 | One frame is consumed whether or not it decodes; an unfinished one is an end of file |
| Protocol.WriteMessage | benches/shared/protocol.rs:66-79 | A message reaches the stream as one frame, or as the prefix that fits with a failure |
| Protocol.FrameRoundTrip | benches/shared/protocol.rs:66-91 | A frame reads back with what follows it if and only if its payload is shorter than 2^32 bytes |
| Protocol.FrameIncomplete | benches/shared/protocol.rs:83-87 | No proper prefix of a frame reads as one |
| Protocol.FrameLayout | benches/shared/protocol.rs:73-75 | A frame is four bytes of length, the least significant first, and the payload |
| Protocol.FramesOfEncoded | benches/shared/protocol.rs:66-91 | A stream of frames and an unfinished tail is read as exactly those frames and that tail |
| Protocol.EncodedFrames | benches/shared/protocol.rs:81-91 | Conversely, every byte stream is the encoding of the frames read from it, followed by the tail |
| Workers.HandleRequest | benches/shared/worker.rs:45-61 | Shutdown has no answer, an echo repeats its size and leaves the state alone, an execution answers in the new state |
| Workers.RunWorkerLoop | benches/shared/worker.rs:14-43 | The loop writes and leaves unread what the specification says, on any input and with any room in the output pipe |
| Workers.LoopAnswers | benches/shared/worker.rs:23-42 | On any input and with any room: the output is the answers to the whole frames before the first shutdown, one each and in order, as far as they fit; an undecodable payload costs one error answer and no alignment |
| Workers.ReplyAt | benches/shared/worker.rs:36-38 | The i-th answer is to the i-th request, in the state that the earlier ones left |
| Workers.AnswerTo | benches/shared/worker.rs:24-61 | What each reply is: an error with the reason for an undecodable payload, the same size for an echo, otherwise the response of the execution, which alone moves the state |
| Workers.OneReplyPerFrame | benches/shared/worker.rs:23-42 | The reader of an unobstructed worker's output finds exactly one answer per request frame and nothing after them |
| Workers.LoopStops | benches/shared/worker.rs:24-26 | What follows a shutdown request is left unread; otherwise the whole input is used up, a partial frame included |
| Workers.BrokenPipe | benches/shared/worker.rs:26-41 | When an answer does not fit the pipe the worker stops after a request that decoded and goes on reading after one that did not |
| Pools.Worker.Send | benches/shared/pool.rs:45-49 | The reply read is the answer to the request written in the same send, and both pipes are empty afterwards |
| Pools.Pool.Send | benches/shared/pool.rs:70-75 | One worker takes its turn, the others and all pipes stay as they were, and the turn moves on |
| Pools.Pool.Drop | benches/shared/pool.rs:106-112 | Every worker receives one shutdown frame and nothing else |
| Pools.DroppedWorkerStops | benches/shared/worker.rs:57-59 | A worker that reads it stops without writing |
| Pools.RoundRobin | benches/shared/pool.rs:70-75 | After k sends it is the turn of worker k mod n, and worker w has served k div n requests, plus one if w is below k mod n |
| Pools.ExchangeAt | benches/shared/pool.rs:70-75 | The k-th request goes to worker k mod n |
| Pools.RepliesAreOwn | benches/shared/pool.rs:45-75 | Each reply is the answer of its worker to its request, in the state that the worker's own earlier requests alone lead to |
| Pools.WorkerStates | benches/shared/pool.rs:70-75 | Requests to other workers never change the state of a worker |
| Pools.Balanced | benches/shared/pool.rs:70-75 | The numbers of requests of any two workers differ by at most one |
| PoolSteps.EveryRunIsSequential | benches/shared/pool.rs:45-75 | With parent and workers moving any number of bytes at a time, in any order, through pipes of any capacity, every reachable state is where whole sends of the logged requests lead, plus at most one exchange in progress |
| PoolSteps.IdleIsSequential | benches/shared/pool.rs:45-75 | Between sends all pipes are empty, and states and replies are those of whole sends |
| PoolSteps.StepKept | benches/shared/pool.rs:45-49 | Every step keeps the invariant, and only reading a whole reply advances the sequential pool |
| PoolSteps.FinishDispatches | benches/shared/pool.rs:48-48 | The reply that ends a send is the whole answer of the worker whose turn it was |
| PoolSteps.SendIsBounded | benches/shared/pool.rs:45-49 | A send takes a bounded number of steps under any schedule |
| PoolSteps.WorkDecreases | benches/shared/pool.rs:45-49 | Each step of a send brings it closer to its end |
| PoolSteps.ProgressKept | benches/shared/pool.rs:45-49 | Any step inside a send, with requests and answers spread over pipes and partly read frames, keeps the exchange intact and leaves less to do |
| PoolSteps.NoDeadlock | benches/shared/pool.rs:45-49 | For every pipe capacity of at least one byte: while a send is under way some step of it is possible, so neither side waits for ever on a full or empty pipe |
| PoolSteps.PipesHold | benches/shared/pool.rs:45-49 | No pipe ever holds more than its capacity |

## Left out

- Executors.Executor.Abandon: what a callback reads from or writes to a reclaimed box is not modelled; obtaining it is recorded and the callback then does nothing, since the contents of freed memory have no meaning.
- OutputBuffers.AppendIsEconomical: an overflow of the plain additions in the request for capacity counts as a failed reservation.
- ServerVariables.ServerVars.HttpHeader: the Unicode part of upper-casing is a parameter; lemmas about spellings are for ASCII names and say so.
- ServerVariables.ServerVars.Extend: the named setters are folded into groups of pairs; each of them only calls `set` with a fixed key.
- Callbacks.Sapi.RiphtFlush: a flush callback is never installed by any execution, so flushing ends after the headers.
- Callbacks.Sapi.RiphtLogMessage: printing to standard error and tracing are not modelled.
- Callbacks.Sapi.GetContext: the alignment check never fails for a pointer that the executor stored, so that branch is not modelled.
- Pools.Worker.Send: a pipe that breaks makes the source panic; the model covers pipes that work, and requests that are not shutdowns and have less than 2^32 bytes.
- Lifecycle.StrayStrings: `cookie_data` is assigned by PHP itself, which is not modelled; the executor only clears it.
- Workers.LoopAnswers: a buffered writer that retries unwritten bytes after a failed flush is not modelled; the output pipe stays full once it is full.
- FastCgi.BuildParams: the two copies of the length branch are one helper method.
- Web.Build: whether the script exists, its canonical path, file name and parent, and the clock are parameters; `with_header` is a functional update because the source takes and returns the builder by value.
- The defaults of a new `WebRequest` and its other `with_*` builders, which set or push to one field, the CLI builder, `from_http_request`, method parsing and validation helpers.
- PHP itself, the struct layouts and functions of `src/sapi/ffi.rs`, module startup and the SAPI singleton.
- The FCGI_BEGIN_REQUEST bytes, sockets, child processes and the other benchmark backends.
- The byte format of serialised requests and responses (`rmp_serde`); payloads are opaque bytes.
- Panics other than the failed reservation, which callbacks turn into a zero or a null result.
- `ripht_sapi_get_request_time`, which only reads the clock; `treat_data` and `input_filter`, which only call PHP.
