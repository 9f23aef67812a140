/** What PHP is told, what it is answered, and what a caller gets, in terms of the job itself. */
module Outcomes {
  import opened Bytes
  import opened Callbacks
  import opened Executors
  import opened Lifecycle
  import opened OutputBuffers
  import opened OutputModes
  import opened PostBody
  import opened RequestRuns
  import opened ResponseHeaders
  import opened Results
  import opened ServerContexts
  import opened ServerVariables

  // ---------------------------------------------------------------- errors

  /** The error or success of both kinds of execution, from the arguments and the startup alone. */
  ghost predicate Answers<T>(job: Job, r: Result<T, ExecutionError>) {
    && (!job.initialized ==> r == Err(NotInitialized))
    && (job.initialized && !job.scriptExists ==> r == Err(ScriptNotFound(job.path)))
    && (job.initialized && job.scriptExists && '\0' in job.path ==> r == Err(InvalidPath))
    && (job.initialized && job.scriptExists && '\0' !in job.path ==>
          if job.php.startupOk then r.Ok? else r == Err(StartupFailed))
  }

  /** Which calls fail and how; one that fails early has touched neither the process nor the hooks. */
  lemma WhichCallsFail(m: Machine, job: Job, b: Behaviour, t: Trace)
    requires Clean(m)
    ensures Ready(m)
    ensures Answers(job, Streaming(m, job).1) && Answers(job, Hooked(m, job, b, t).2)
    ensures !job.initialized || !job.scriptExists || '\0' in job.path ==>
              Streaming(m, job).0 == m && Hooked(m, job, b, t).0 == m && Hooked(m, job, b, t).1 == t
  {
    CleanIsReady(m);
    if EarlyError(job).None? && job.php.startupOk {
      LastExists(m, InitialContext(m.policy, job, true), job.php);
      LastExists(m, InitialContext(m.policy, job, false), job.php);
    }
    if EarlyError(job).None? && !job.php.startupOk {
      Failure(m, InitialContext(m.policy, job, true), job.php);
      Failure(m, InitialContext(m.policy, job, false), job.php);
    }
    hide Serve, FromExecution, Conclude, Clean;
  }

  // ---------------------------------------------------------------- what PHP is told

  /** A string lent to PHP: the last value under the key, unless there is none or it holds a NUL. */
  ghost predicate Told(s: CString, box: nat, vars: seq<Pair>, key: string, otherwise: CString) {
    || (s.Borrowed? && s.box == box && IsLast(vars, key, s.text) && '\0' !in s.text)
    || (s == otherwise && ((forall i :: 0 <= i < |vars| ==> vars[i].0 != key)
                           || exists value :: IsLast(vars, key, value) && '\0' in value))
  }

  lemma LentIsTold(vars: seq<Pair>, key: string, box: nat, otherwise: CString)
    requires NulFree(key)
    ensures var field := CStringOf(LastOf(vars, key));
            Told(if field.Some? then Lent(field, box) else otherwise, box, vars, key, otherwise)
  {
    FieldConverted(vars, key);
    hide LastOf, IsLast, Kept;
  }

  /**
   * From the end of startup until its shutdown PHP knows the request as it is: the length of the
   * body, and method, content type and query string from the last variables of these names.
   */
  lemma PhpIsTold(m: Machine, job: Job, streaming: bool)
    requires Clean(m)
    ensures Ready(m)
    ensures var started := StartPhase(m, InitialContext(m.policy, job, streaming), job.php);
            var scripted := ScriptPhase(started, Kept(job.ini), job.php);
            var info := started.g.info;
            && info.contentLength == |job.input|
            && Told(info.requestMethod, m.boxed, job.vars, "REQUEST_METHOD", Static("GET"))
            && Told(info.contentType, m.boxed, job.vars, "CONTENT_TYPE", Null)
            && Told(info.queryString, m.boxed, job.vars, "QUERY_STRING", Null)
            && scripted.g.info == info
  {
    CleanIsReady(m);
    var c := InitialContext(m.policy, job, streaming);
    StartFacts(m, c, job.php);
    ScriptFacts(StartPhase(m, c, job.php), m.boxed, Kept(job.ini), job.php);
    LentIsTold(job.vars, REQUEST_METHOD, m.boxed, Static("GET"));
    LentIsTold(job.vars, CONTENT_TYPE, m.boxed, Null);
    LentIsTold(job.vars, QUERY_STRING, m.boxed, Null);
    hide StartPhase, ScriptPhase, Told, LastOf, Kept, Only, SameRequest, Applied;
  }

  /**
   * After a successful call PHP's settings have grown by the overrides of the job without NUL
   * whose names can be interned, and the body counts as read.
   */
  lemma OverridesArrive(m: Machine, job: Job, b: Behaviour, t: Trace)
    requires Clean(m) && EarlyError(job).None? && job.php.startupOk
    ensures Ready(m)
    ensures Streaming(m, job).0.g.ini == m.g.ini + Applied(Kept(job.ini), job.php.interns)
    ensures Hooked(m, job, b, t).0.g.ini == m.g.ini + Applied(Kept(job.ini), job.php.interns)
    ensures Streaming(m, job).0.g.postRead && Hooked(m, job, b, t).0.g.postRead
  {
    Success(m, InitialContext(m.policy, job, true), job.php);
    Success(m, InitialContext(m.policy, job, false), job.php);
    StreamingEnd(m, job);
    HookedEnd(m, job, b, t);
    assert InitialContext(m.policy, job, true).ini == InitialContext(m.policy, job, false).ini == Kept(job.ini);
    hide *;
  }

  /** What PHP's startup begins with: no headers, nothing sent, and code 200. */
  lemma PhpBegins(m: Machine, c: Context, php: PhpRun)
    requires Clean(m) && WellFormed(c)
    ensures Ready(m)
    ensures var s := Activate(SetupGlobals(Install(m, c), c, m.boxed));
            && StartPhase(m, c, php) == Run(s, php.startup)
            && s.ptr == Some(m.boxed) && s.live == {m.boxed} && s.context == Some(c)
            && s.g.headers == HeaderStruct(200, []) && !s.g.headersSent
  {
    CleanIsReady(m);
    assert {} + {m.boxed} == {m.boxed};
    hide Run, InfoFor;
  }

  // ---------------------------------------------------------------- what PHP is answered

  /** A request of this job is being served, at whatever point. */
  ghost predicate ServingJob(m: Machine, p: BufferPolicy, job: Job, streaming: bool) {
    Serving(m) && SameRequest(InitialContext(p, job, streaming), m.context.value)
  }

  /** A job is served from the end of its startup on, and at every point of any callbacks. */
  lemma JobIsServed(m: Machine, p: BufferPolicy, job: Job, streaming: bool, events: seq<Event>)
    requires ServingJob(m, p, job, streaming)
    ensures ServingJob(Run(m, events), p, job, streaming)
  {
    RunKeepsBox(m, events);
    hide Run, InitialContext;
  }

  lemma JobIsServedAtStart(m: Machine, job: Job, streaming: bool)
    requires Clean(m)
    ensures Ready(m)
    ensures ServingJob(Activate(SetupGlobals(Install(m, InitialContext(m.policy, job, streaming)),
                                             InitialContext(m.policy, job, streaming), m.boxed)),
                       m.policy, job, streaming)
  {
    CleanIsReady(m);
    hide FromExecution, InfoFor;
  }

  /**
   * The answers to PHP's questions during a request: `$_SERVER` is the software and then every
   * pair of the job without NUL, in order; the cookie string is the last one, if it has no NUL;
   * an environment variable is the first pair without NUL of that name.
   */
  lemma PhpIsAnswered(m: Machine, p: BufferPolicy, job: Job, streaming: bool, name: string)
    requires ServingJob(m, p, job, streaming)
    ensures Step(m, RegisterVariables(true)).1 == Variables([("SERVER_SOFTWARE", "Ripht/0.1.0-rc.7")] + Kept(job.vars))
    ensures var reply := Step(m, ReadCookies).1; reply.Value? && Converted(reply.text, job.vars, "HTTP_COOKIE")
    ensures name != "" ==>
              var reply := Step(m, GetEnvironment(Some(name))).1;
              reply.Value?
              && (reply.text.Some? ==> IsFirst(Kept(job.env), name, reply.text.value))
              && (reply.text.None? ==> forall pair :: pair in Kept(job.env) ==> pair.0 != name)
  {
    FieldConverted(job.vars, HTTP_COOKIE);
    hide LastOf, Kept, Converted, IsFirst;
  }

  // ---------------------------------------------------------------- what the caller gets

  /** The three runs of callbacks of a successful execution. */
  function Runs(m: Machine, c: Context, php: PhpRun): (r: (Machine, Machine, Machine))
    requires Ready(m) && WellFormed(c)
    ensures Sound(r.0) && Sound(r.1) && Sound(r.2)
  {
    var start := Activate(SetupGlobals(Install(m, c), c, m.boxed));
    var ready := ApplyIni(Run(start, php.startup), c.ini, php.interns);
    var scripted := Run(ready, php.script);
    (start, ready, scripted.(g := scripted.g.(postRead := true)))
  }

  lemma RunsServe(m: Machine, c: Context, php: PhpRun)
    requires Clean(m) && WellFormed(c) && php.startupOk
    ensures Ready(m) && Serve(m, c, php).1.Some?
    ensures var (x, y, z) := Runs(m, c, php);
            && Serving(x) && Serving(y) && Serving(z)
            && x.context == Some(c)
            && y.context == Run(x, php.startup).context
            && z.context == Run(y, php.script).context
            && Some(Last(m, c, php)) == Run(z, php.shutdown).context
  {
    LastExists(m, c, php);
    var (x, y, z) := Runs(m, c, php);
    RunKeepsBox(x, php.startup);
    RunKeepsBox(y, php.script);
    RunKeepsBox(z, php.shutdown);
    hide Run, InfoFor, Applied, SameRequest, SameBox;
  }

  /** All messages of the three phases, in order. */
  lemma FinalMessages(m: Machine, c: Context, php: PhpRun)
    requires Clean(m) && WellFormed(c) && php.startupOk
    ensures Ready(m) && Serve(m, c, php).1.Some?
    ensures Last(m, c, php).messages == c.messages + Logged(php.startup) + Logged(php.script) + Logged(php.shutdown)
  {
    RunsServe(m, c, php);
    var (x, y, z) := Runs(m, c, php);
    hide Run, Runs, Serve, Last, Logged, Clean, Ready, Serving;
    RunMessages(x, php.startup);
    RunMessages(y, php.script);
    RunMessages(z, php.shutdown);
  }

  lemma MovedThrice(c0: Context, c1: Context, c2: Context, c3: Context, i: nat, j: nat, k: nat,
      x: seq<byte>, y: seq<byte>, z: seq<byte>)
    requires Moved(c0, c1, i, x) && Moved(c1, c2, j, y) && Moved(c2, c3, k, z)
    requires c0.pos == 0
    ensures x + y + z == c0.post[..Min(|c0.post|, i + j + k)]
  {
    MovedTwice(c0, c1, c2, i, j, x, y);
    MovedTwice(c0, c2, c3, i + j, k, x + y, z);
  }

  /** What PHP reads of the body in a run of callbacks. */
  function ReadBy(m: Machine, events: seq<Event>): seq<byte>
    requires Sound(m)
  {
    Delivered(RunReplies(m, events))
  }

  lemma RunReads(m: Machine, events: seq<Event>)
    requires Serving(m)
    ensures var r := Run(m, events);
            && r.context.Some?
            && Moved(m.context.value, r.context.value, Requested(events), ReadBy(m, events))
  {
    RunPost(m, events);
  }

  /** What PHP reads of the body in the three phases: its first bytes, as many as it asked for. */
  lemma FinalPost(m: Machine, c: Context, php: PhpRun)
    requires Clean(m) && WellFormed(c) && php.startupOk && c.pos == 0
    ensures Ready(m)
    ensures var (x, y, z) := Runs(m, c, php);
            var asked := Requested(php.startup) + Requested(php.script) + Requested(php.shutdown);
            ReadBy(x, php.startup) + ReadBy(y, php.script) + ReadBy(z, php.shutdown)
            == c.post[..Min(|c.post|, asked)]
  {
    hide *;
    RunsServe(m, c, php);
    var (x, y, z) := Runs(m, c, php);
    RunReads(x, php.startup);
    RunReads(y, php.script);
    RunReads(z, php.shutdown);
    MovedThrice(c, y.context.value, z.context.value, Run(z, php.shutdown).context.value,
                Requested(php.startup), Requested(php.script), Requested(php.shutdown),
                ReadBy(x, php.startup), ReadBy(y, php.script), ReadBy(z, php.shutdown));
  }

  /** Status, headers and messages of a result, from what PHP did. */
  ghost predicate ResultOf(m: Machine, c: Context, php: PhpRun, status: nat, headers: seq<Header>, messages: seq<Message>)
    requires Ready(m) && WellFormed(c)
  {
    var wire := FinalWire(m, c, php);
    && status == wire.status
    && Collects(LineValues(wire.lines), headers)
    && messages == Logged(php.startup) + Logged(php.script) + Logged(php.shutdown)
  }

  lemma LastResult(m: Machine, job: Job, streaming: bool)
    requires Clean(m) && job.php.startupOk
    ensures Ready(m)
    ensures var c := InitialContext(m.policy, job, streaming);
            && Serve(m, c, job.php).1.Some?
            && var last := Last(m, c, job.php);
               ResultOf(m, c, job.php, last.status, last.headers, last.messages)
  {
    var c := InitialContext(m.policy, job, streaming);
    InitialContexts(m.policy, job, streaming);
    FinalHeaders(m, c, job.php);
    FinalMessages(m, c, job.php);
    ParseAllCollects(FinalWire(m, c, job.php).lines);
    assert c.messages == [] && [] + Logged(job.php.startup) == Logged(job.php.startup);
    hide Serve, Last, FinalWire, Logged, Collects, LineValues, ParseAll, Clean, Ready, InitialContext, Initial;
  }

  /** The result of a streaming execution: what PHP sent and logged, and no body. */
  lemma StreamingResult(m: Machine, job: Job)
    requires Clean(m) && EarlyError(job).None? && job.php.startupOk
    ensures Ready(m) && Streaming(m, job).1.Ok?
    ensures var r := Streaming(m, job).1.value;
            && ResultOf(m, InitialContext(m.policy, job, true), job.php, r.status, r.headers, r.messages)
            && r.body == []
  {
    LastResult(m, job, true);
    StreamingEnd(m, job);
    hide ResultOf, Serve, Last, Clean, Ready, InitialContext, Streaming;
  }

  /** Which of the sent headers a result carries: all, or those that the hooks accept in their turn. */
  ghost predicate Accepted(b: Behaviour, before: Trace, sent: seq<Header>, kept: seq<Header>) {
    if b.NoOp? then kept == sent else Collects(Verdicts(b, before, sent), kept)
  }

  lemma ConcludeAccepts(b: Behaviour, t: Trace, c: Context)
    ensures var r := Conclude(b, t, c).0;
            r.status == c.status && r.messages == c.messages && Accepted(b, t, c.headers, r.headers)
  {
    if b.Custom? {
      OfferCollects(b, t, c.headers);
    }
    hide Offer, SeenMessages, Collects, Verdicts, Action;
  }

  /** The calls before the headers, literally. */
  function CallsBefore(job: Job): Trace {
    [ContextCreated, RequestStarting, RequestStarted, ScriptExecuting(job.path), ScriptExecuted(job.php.scriptOk),
     RequestFinishing]
  }

  lemma ScriptCallsAre(t: Trace, job: Job)
    ensures ScriptCalls(t + [ContextCreated] + [RequestStarting], job.path, job.php.scriptOk) == t + CallsBefore(job)
  {
  }

  /**
   * The result of an execution with hooks: status and messages are what PHP sent and logged; the
   * headers are those of the sent ones that the hooks accept when they are offered, all of them
   * and in order.
   */
  lemma HookedResult(m: Machine, job: Job, b: Behaviour, t: Trace) returns (sent: seq<Header>)
    requires Clean(m) && EarlyError(job).None? && job.php.startupOk
    ensures Ready(m) && Hooked(m, job, b, t).2.Ok?
    ensures var r := Hooked(m, job, b, t).2.value;
            && ResultOf(m, InitialContext(m.policy, job, false), job.php, r.status, sent, r.messages)
            && Accepted(b, t + CallsBefore(job), sent, r.headers)
  {
    LastResult(m, job, false);
    HookedEnd(m, job, b, t);
    var last := Last(m, InitialContext(m.policy, job, false), job.php);
    ScriptCallsAre(t, job);
    ConcludeAccepts(b, t + CallsBefore(job), last);
    sent := last.headers;
    hide ResultOf, Serve, Last, Clean, Ready, InitialContext, Hooked, Conclude, ScriptCalls, CallsBefore, Accepted;
  }
}
