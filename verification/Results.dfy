/** What a caller gets from an execution: results, hook calls, and the agreement of the modes. */
module Results {
  import opened Bytes
  import opened Callbacks
  import opened Executors
  import opened Lifecycle
  import opened OutputBuffers
  import opened OutputModes
  import opened RequestRuns
  import opened ResponseHeaders
  import opened ServerContexts
  import ServerVariables

  /** The context at the end of an execution whose startup succeeds. */
  function Last(m: Machine, c: Context, php: PhpRun): Context
    requires Ready(m) && WellFormed(c) && php.startupOk
    requires Serve(m, c, php).1.Some?
  {
    Serve(m, c, php).1.value
  }

  lemma LastExists(m: Machine, c: Context, php: PhpRun)
    requires Clean(m) && WellFormed(c) && php.startupOk
    ensures Ready(m) && Serve(m, c, php).1.Some?
  {
    Success(m, c, php);
    hide Serve;
  }

  // ---------------------------------------------------------------- hooks

  function SeenHeaders(headers: seq<Header>): (t: Trace)
    ensures |t| == |headers| && forall i :: 0 <= i < |headers| ==> t[i] == HeaderSeen(headers[i])
  {
    if headers == [] then [] else [HeaderSeen(headers[0])] + SeenHeaders(headers[1..])
  }

  /** Every header is offered once, in order, whatever the hooks decide. */
  lemma {:induction false} OfferTrace(b: Behaviour, t: Trace, headers: seq<Header>)
    requires b.Custom?
    ensures Offer(b, t, headers).1 == t + SeenHeaders(headers)
    decreases headers
  {
    if headers == [] {
      assert t + [] == t;
    } else {
      OfferTrace(b, t + [HeaderSeen(headers[0])], headers[1..]);
      ConcatAssoc(t, [HeaderSeen(headers[0])], SeenHeaders(headers[1..]));
    }
  }

  /** The calls of a successful execution, in order. */
  function Calls(b: Behaviour, path: string, success: bool, c: Context, result: ExecutionResult): Trace {
    [ContextCreated, RequestStarting, RequestStarted, ScriptExecuting(path), ScriptExecuted(success), RequestFinishing]
    + (if b.NoOp? then [] else SeenHeaders(c.headers))
    + [StatusSeen(c.status)]
    + SeenMessages(c.messages)
    + [OutputSeen(c.buffer.data), RequestFinished(result)]
  }

  lemma ConcludeTrace(b: Behaviour, t: Trace, c: Context)
    ensures var (result, after) := Conclude(b, t, c);
            after == t + (if b.NoOp? then [] else SeenHeaders(c.headers)) + [StatusSeen(c.status)]
                   + SeenMessages(c.messages) + [OutputSeen(c.buffer.data)] + [RequestFinished(result)]
  {
    if b.Custom? {
      OfferTrace(b, t, c.headers);
    } else {
      assert t + [] == t;
    }
    hide Offer, SeenMessages, SeenHeaders;
  }

  lemma JoinCalls(t: Trace, path: string, success: bool, headers: Trace, status: HookCall, messages: Trace,
      output: HookCall, finished: HookCall)
    ensures ScriptCalls(t + [ContextCreated] + [RequestStarting], path, success)
            + headers + [status] + messages + [output] + [finished]
         == t + ([ContextCreated, RequestStarting, RequestStarted, ScriptExecuting(path), ScriptExecuted(success),
                  RequestFinishing] + headers + [status] + messages + [output, finished])
  {
  }

  /** The trace of a successful execution, and of one whose startup fails. */
  lemma HookTrace(m: Machine, job: Job, b: Behaviour, t: Trace)
    requires Clean(m) && EarlyError(job).None?
    ensures Ready(m)
    ensures !job.php.startupOk ==>
              && Hooked(m, job, b, t).2 == Err(StartupFailed)
              && Hooked(m, job, b, t).1 == t + [ContextCreated] + [RequestStarting]
    ensures job.php.startupOk ==>
              var c := InitialContext(m.policy, job, false);
              && Serve(m, c, job.php).1.Some?
              && Hooked(m, job, b, t).2.Ok?
              && Hooked(m, job, b, t).1
                 == t + Calls(b, job.path, job.php.scriptOk, Last(m, c, job.php), Hooked(m, job, b, t).2.value)
  {
    CleanIsReady(m);
    var c := InitialContext(m.policy, job, false);
    if job.php.startupOk {
      LastExists(m, c, job.php);
      var last := Last(m, c, job.php);
      hide Serve, FromExecution, SeenMessages, SeenHeaders;
      var t1 := t + [ContextCreated] + [RequestStarting];
      var t2 := ScriptCalls(t1, job.path, job.php.scriptOk);
      ConcludeTrace(b, t2, last);
      var result := Conclude(b, t2, last).0;
      hide Conclude;
      var headers := if b.NoOp? then [] else SeenHeaders(last.headers);
      JoinCalls(t, job.path, job.php.scriptOk, headers, StatusSeen(last.status), SeenMessages(last.messages),
                OutputSeen(last.buffer.data), RequestFinished(result));
    }
  }

  /** Hooks that accept every header and keep the output. */
  ghost predicate Accepting(b: Behaviour) {
    && b.Custom?
    && (forall t: Trace, h: Header :: b.accepts(t, h))
    && (forall t: Trace, data: seq<byte> :: b.action(t, data) == Continue)
  }

  lemma {:induction false} OfferAccepted(b: Behaviour, t: Trace, headers: seq<Header>)
    requires b.Custom? && forall t: Trace, h: Header :: b.accepts(t, h)
    ensures Offer(b, t, headers).0 == headers
    decreases headers
  {
    if headers != [] {
      OfferAccepted(b, t + [HeaderSeen(headers[0])], headers[1..]);
      assert [headers[0]] + headers[1..] == headers;
    }
  }

  /** The fast path for `NoOp` yields what accepting hooks yield. */
  lemma FastPath(m: Machine, job: Job, b: Behaviour, t: Trace)
    requires Clean(m) && Accepting(b)
    ensures Ready(m)
    ensures Hooked(m, job, NoOp, t).0 == Hooked(m, job, b, t).0
    ensures Hooked(m, job, NoOp, t).2 == Hooked(m, job, b, t).2
  {
    CleanIsReady(m);
    hide Serve, FromExecution;
    if EarlyError(job).None? {
      var (_, last) := Serve(m, InitialContext(m.policy, job, false), job.php);
      if last.Some? {
        var t2 := ScriptCalls(t + [ContextCreated] + [RequestStarting], job.path, job.php.scriptOk);
        OfferAccepted(b, t2, last.value.headers);
        hide Offer, SeenMessages, ScriptCalls;
        assert Conclude(NoOp, t2, last.value).0 == Conclude(b, t2, last.value).0;
      }
    }
  }

  /** Whether each header is accepted when it is offered, after those before it. */
  ghost predicate AcceptsEach(b: Behaviour, t: Trace, headers: seq<Header>)
    requires b.Custom?
  {
    forall i :: 0 <= i < |headers| ==> b.accepts(t + SeenHeaders(headers[..i]), headers[i])
  }

  /** A header, if it is accepted when it is offered after those before it. */
  function Verdict(b: Behaviour, t: Trace, headers: seq<Header>, i: nat): Option<Header>
    requires b.Custom? && i < |headers|
  {
    if b.accepts(t + SeenHeaders(headers[..i]), headers[i]) then Some(headers[i]) else None
  }

  lemma VerdictOfRest(b: Behaviour, t: Trace, headers: seq<Header>, i: nat)
    requires b.Custom? && 0 < i < |headers|
    ensures Verdict(b, t, headers, i) == Verdict(b, t + [HeaderSeen(headers[0])], headers[1..], i - 1)
  {
    assert headers[..i][1..] == headers[1..][..i - 1];
    ConcatAssoc(t, [HeaderSeen(headers[0])], SeenHeaders(headers[1..][..i - 1]));
  }

  function Verdicts(b: Behaviour, t: Trace, headers: seq<Header>): (verdicts: seq<Option<Header>>)
    requires b.Custom?
    ensures |verdicts| == |headers|
    ensures forall i :: 0 <= i < |headers| ==> verdicts[i] == Verdict(b, t, headers, i)
  {
    seq(|headers|, i requires 0 <= i < |headers| => Verdict(b, t, headers, i))
  }

  /** The kept headers are exactly the accepted ones, all of them and in their order. */
  lemma {:induction false} OfferCollects(b: Behaviour, t: Trace, headers: seq<Header>)
    requires b.Custom?
    ensures Collects(Verdicts(b, t, headers), Offer(b, t, headers).0)
    decreases headers
  {
    if headers != [] {
      var t1 := t + [HeaderSeen(headers[0])];
      OfferCollects(b, t1, headers[1..]);
      VerdictsCons(b, t, headers);
      FirstVerdict(b, t, headers);
      CollectsCons(Verdict(b, t, headers, 0), Verdicts(b, t1, headers[1..]), Offer(b, t1, headers[1..]).0);
      hide Collects, Verdict, Verdicts;
    }
  }

  lemma VerdictsCons(b: Behaviour, t: Trace, headers: seq<Header>)
    requires b.Custom? && headers != []
    ensures Verdicts(b, t, headers)
         == [Verdict(b, t, headers, 0)] + Verdicts(b, t + [HeaderSeen(headers[0])], headers[1..])
  {
    var rest := Verdicts(b, t + [HeaderSeen(headers[0])], headers[1..]);
    hide Verdict;
    forall i | 0 < i < |headers|
      ensures Verdicts(b, t, headers)[i] == rest[i - 1]
    {
      VerdictOfRest(b, t, headers, i);
    }
  }

  lemma FirstVerdict(b: Behaviour, t: Trace, headers: seq<Header>)
    requires b.Custom? && headers != []
    ensures Verdict(b, t, headers, 0) == if b.accepts(t, headers[0]) then Some(headers[0]) else None
  {
    assert t + SeenHeaders(headers[..0]) == t;
  }

  lemma AcceptsEachCons(b: Behaviour, t: Trace, headers: seq<Header>)
    requires b.Custom? && headers != []
    ensures AcceptsEach(b, t, headers)
       <==> b.accepts(t, headers[0]) && AcceptsEach(b, t + [HeaderSeen(headers[0])], headers[1..])
  {
    var first, rest := HeaderSeen(headers[0]), headers[1..];
    assert t + SeenHeaders(headers[..0]) == t;
    forall i | 0 <= i < |rest|
      ensures t + SeenHeaders(headers[..i + 1]) == t + [first] + SeenHeaders(rest[..i]) && headers[i + 1] == rest[i]
    {
      assert headers[..i + 1][1..] == rest[..i];
      ConcatAssoc(t, [first], SeenHeaders(rest[..i]));
    }
    assert forall j :: 1 <= j < |headers| ==> headers[j] == rest[j - 1];
    if AcceptsEach(b, t, headers) {
      assert b.accepts(t + SeenHeaders(headers[..0]), headers[0]);
      forall i | 0 <= i < |rest|
        ensures b.accepts(t + [first] + SeenHeaders(rest[..i]), rest[i])
      {
        assert b.accepts(t + SeenHeaders(headers[..i + 1]), headers[i + 1]);
      }
    }
    if b.accepts(t, headers[0]) && AcceptsEach(b, t + [first], rest) {
      forall j | 0 <= j < |headers|
        ensures b.accepts(t + SeenHeaders(headers[..j]), headers[j])
      {
        if j > 0 {
          assert b.accepts(t + [first] + SeenHeaders(rest[..j - 1]), rest[j - 1]);
        }
      }
    }
  }

  lemma {:induction false} OfferShrinks(b: Behaviour, t: Trace, headers: seq<Header>)
    requires b.Custom?
    ensures |Offer(b, t, headers).0| <= |headers|
    decreases headers
  {
    if headers != [] {
      OfferShrinks(b, t + [HeaderSeen(headers[0])], headers[1..]);
    }
  }

  /** Offering keeps the whole list exactly when every header is accepted in its turn. */
  lemma {:induction false} OfferKeepsAll(b: Behaviour, t: Trace, headers: seq<Header>)
    requires b.Custom?
    ensures Offer(b, t, headers).0 == headers <==> AcceptsEach(b, t, headers)
    decreases headers
  {
    if headers != [] {
      var (h, rest) := (headers[0], headers[1..]);
      var kept := Offer(b, t + [HeaderSeen(h)], rest).0;
      AcceptsEachCons(b, t, headers);
      OfferKeepsAll(b, t + [HeaderSeen(h)], rest);
      OfferShrinks(b, t + [HeaderSeen(h)], rest);
      hide AcceptsEach;
      assert headers == [h] + rest;
      if [h] + kept == headers {
        assert kept == ([h] + kept)[1..] == rest;
      }
    }
  }

  /**
   * For hooks of any kind: the fast path agrees with them exactly when they accept each header
   * of this request in its turn and either let its output pass or have none to stop.
   */
  lemma FastPathExact(m: Machine, job: Job, b: Behaviour, t: Trace)
    requires Clean(m) && b.Custom? && EarlyError(job).None? && job.php.startupOk
    ensures Ready(m) && Serve(m, InitialContext(m.policy, job, false), job.php).1.Some?
    ensures var last := Last(m, InitialContext(m.policy, job, false), job.php);
            var before := ScriptCalls(t + [ContextCreated] + [RequestStarting], job.path, job.php.scriptOk);
            var seen := before + SeenHeaders(last.headers) + [StatusSeen(last.status)] + SeenMessages(last.messages);
            Hooked(m, job, NoOp, t).2 == Hooked(m, job, b, t).2
            <==> AcceptsEach(b, before, last.headers)
                 && (b.action(seen, last.buffer.data).Continue? || last.buffer.data == [])
  {
    LastExists(m, InitialContext(m.policy, job, false), job.php);
    var last := Last(m, InitialContext(m.policy, job, false), job.php);
    var before := ScriptCalls(t + [ContextCreated] + [RequestStarting], job.path, job.php.scriptOk);
    OfferTrace(b, before, last.headers);
    OfferKeepsAll(b, before, last.headers);
    hide Serve, FromExecution, Offer, SeenMessages, SeenHeaders, ScriptCalls, AcceptsEach;
  }

  // ---------------------------------------------------------------- the final context

  /** Everything that PHP tries to write in the three phases. */
  function AllWrites(php: PhpRun): seq<byte> {
    Writes(php.startup) + Writes(php.script) + Writes(php.shutdown)
  }

  /** A context as it is when a request begins. */
  ghost predicate Initial(p: BufferPolicy, c: Context) {
    && WellFormed(c)
    && c.status == 200 && c.headers == [] && c.pos == 0
    && Body(c) == []
    && Economical(p, c.buffer)
  }

  lemma InitialContexts(p: BufferPolicy, job: Job, streaming: bool)
    requires Usable(p)
    ensures var c := InitialContext(p, job, streaming);
            && Initial(p, c)
            && c.post == job.input && c.logToStderr == job.logToStderr
            && c.streamed == (if streaming then Some([]) else None)
  {
    FreshIsEconomical(p);
    hide Economical, ServerVariables.CStrings, ServerVariables.Kept;
  }

  /** What holds of the final context of every successful execution. */
  lemma FinalContext(m: Machine, c: Context, php: PhpRun)
    requires Clean(m) && Initial(m.policy, c) && php.startupOk
    ensures Ready(m) && Serve(m, c, php).1.Some?
    ensures var last := Last(m, c, php);
            && HttpStatus(last.status)
            && (Body(last) != [] ==> last.captured)
            && Economical(m.policy, last.buffer)
  {
    LastExists(m, c, php);
    hide Economical, Body, SameRequest;
    var start := Activate(SetupGlobals(Install(m, c), c, m.boxed));
    RunHeadersFirst(start, php.startup);
    RunEconomical(start, php.startup);
    StartFacts(m, c, php);
    var started := Run(start, php.startup);
    var ready := ApplyIni(started, c.ini, php.interns);
    hide SetupGlobals, Activate, Install, Applied;
    RunHeadersFirst(ready, php.script);
    RunEconomical(ready, php.script);
    ScriptFacts(started, m.boxed, c.ini, php);
    var scripted := Run(ready, php.script);
    var closing := scripted.(g := scripted.g.(postRead := true));
    RunHeadersFirst(closing, php.shutdown);
    RunEconomical(closing, php.shutdown);
    ShutdownFacts(scripted, m.boxed, php);
    hide Run, HeadersFirst;
  }

  // ---------------------------------------------------------------- response headers

  /** The lines on the wire at the end: those walked since the last capture in any phase. */
  ghost function FinalWire(m: Machine, c: Context, php: PhpRun): Wire
    requires Ready(m) && WellFormed(c)
  {
    var start := Activate(SetupGlobals(Install(m, c), c, m.boxed));
    var ready := ApplyIni(Run(start, php.startup), c.ini, php.interns);
    var scripted := Run(ready, php.script);
    var closing := scripted.(g := scripted.g.(postRead := true));
    WireRun(closing, php.shutdown,
            WireRun(ready, php.script,
                    WireRun(start, php.startup, Wire(c.status, []))))
  }

  /** Status and headers of a result are the parse of the lines that PHP sent last. */
  lemma FinalHeaders(m: Machine, c: Context, php: PhpRun)
    requires Clean(m) && Initial(m.policy, c) && php.startupOk
    ensures Ready(m) && Serve(m, c, php).1.Some?
    ensures OnWire(Last(m, c, php), FinalWire(m, c, php))
  {
    LastExists(m, c, php);
    var start := Activate(SetupGlobals(Install(m, c), c, m.boxed));
    var w0 := Wire(c.status, []);
    assert OnWire(c, w0);
    RunWire(start, php.startup, w0);
    StartFacts(m, c, php);
    var started := Run(start, php.startup);
    var w1 := WireRun(start, php.startup, w0);
    hide SetupGlobals, Activate, Install, Applied, SameRequest, OnWire, WireRun;
    var ready := ApplyIni(started, c.ini, php.interns);
    RunWire(ready, php.script, w1);
    ScriptFacts(started, m.boxed, c.ini, php);
    var scripted := Run(ready, php.script);
    var w2 := WireRun(ready, php.script, w1);
    var closing := scripted.(g := scripted.g.(postRead := true));
    RunWire(closing, php.shutdown, w2);
    ShutdownFacts(scripted, m.boxed, php);
    hide Run;
  }

  // ---------------------------------------------------------------- agreement of the modes

  /** Two requests of one job at its beginning, the first one buffered and the second streamed. */
  ghost predicate TwinRequests(m: Machine, a: Context, b: Context) {
    && Initial(m.policy, a) && WellFormed(b) && Body(b) == []
    && Neutral(a) == Neutral(b) && a.streamed.None? && b.streamed.Some?
  }

  lemma StartTwins(m: Machine, a: Context, b: Context, php: PhpRun)
    requires Clean(m) && TwinRequests(m, a, b)
    requires Affordable(m.policy, |Writes(php.startup)|)
    ensures Ready(m)
    ensures var (x, y) := (StartPhase(m, a, php), StartPhase(m, b, php));
            && Twins(x, y) && Current(x, m.boxed) && Current(y, m.boxed)
            && x.policy == m.policy
            && Economical(x.policy, x.context.value.buffer)
            && Body(x.context.value) == Writes(php.startup) && Body(y.context.value) == Writes(php.startup)
  {
    CleanIsReady(m);
    var (x, y) := (Activate(SetupGlobals(Install(m, a), a, m.boxed)), Activate(SetupGlobals(Install(m, b), b, m.boxed)));
    assert [] + Writes(php.startup) == Writes(php.startup);
    RunTwins(x, y, php.startup);
    RunEconomical(x, php.startup);
    StartFacts(m, a, php);
    StartFacts(m, b, php);
    hide Run, SameRequest, Economical, Affordable, Only;
  }

  /** Twin contexts go through a whole execution alike and put out the same bytes. */
  lemma ServeTwins(m: Machine, a: Context, b: Context, php: PhpRun)
    requires Clean(m) && php.startupOk && TwinRequests(m, a, b)
    requires Affordable(m.policy, |AllWrites(php)|)
    ensures Ready(m) && Serve(m, a, php).1.Some? && Serve(m, b, php).1.Some?
    ensures Serve(m, a, php).0 == Serve(m, b, php).0
    ensures var (c, d) := (Last(m, a, php), Last(m, b, php));
            && Neutral(c) == Neutral(d) && c.streamed.None? && d.streamed.Some?
            && Body(c) == AllWrites(php) && Body(d) == AllWrites(php)
  {
    LastExists(m, a, php);
    LastExists(m, b, php);
    var (u, v, w) := (Writes(php.startup), Writes(php.script), Writes(php.shutdown));
    AffordableLess(m.policy, |u + v + w|, |u|);
    AffordableLess(m.policy, |u + v + w|, |u + v|);
    StartTwins(m, a, b, php);
    hide StartPhase, Economical, Affordable, Body, SameRequest;
    ScriptTwins(m.boxed, StartPhase(m, a, php), StartPhase(m, b, php), a.ini, php, u, v, w);
    hide ScriptPhase, ShutdownPhase;
  }

  lemma ScriptTwins(id: nat, x1: Machine, y1: Machine, ini: seq<ServerVariables.Pair>, php: PhpRun,
      u: seq<byte>, v: seq<byte>, w: seq<byte>)
    requires Twins(x1, y1) && Current(x1, id) && Current(y1, id)
    requires Economical(x1.policy, x1.context.value.buffer)
    requires Body(x1.context.value) == u && Body(y1.context.value) == u
    requires v == Writes(php.script) && w == Writes(php.shutdown)
    requires Affordable(x1.policy, |u + v|) && Affordable(x1.policy, |u + v + w|)
    ensures var (x3, y3) := (ShutdownPhase(ScriptPhase(x1, ini, php), php), ShutdownPhase(ScriptPhase(y1, ini, php), php));
            && Twins(x3, y3)
            && Body(x3.context.value) == u + v + w && Body(y3.context.value) == u + v + w
  {
    hide Economical, Affordable, Body;
    var x2, y2 := ApplyIni(x1, ini, php.interns), ApplyIni(y1, ini, php.interns);
    hide Applied;
    RunTwins(x2, y2, php.script);
    RunEconomical(x2, php.script);
    RunKeepsBox(x2, php.script);
    hide SameRequest;
    var x, y := Run(x2, php.script), Run(y2, php.script);
    RunTwins(x.(g := x.g.(postRead := true)), y.(g := y.g.(postRead := true)), php.shutdown);
    hide Run;
  }

  /**
   * How a buffered execution ends beside a streaming one that put out `all`: `on_output` receives
   * all of it in one piece, and the result carries it unless the hooks stop it; status and
   * messages are the same, and so are the headers as far as the hooks, called with `before`
   * behind them, accept them.
   */
  ghost predicate Matches(b: Behaviour, before: Trace, calls: Trace, buffered: ExecutionResult,
      streamed: ExecutionResult, all: seq<byte>)
  {
    && |calls| >= 2
    && calls[|calls| - 2] == OutputSeen(all) && calls[|calls| - 1] == RequestFinished(buffered)
    && buffered.body == (if Action(b, calls[..|calls| - 2], all).Continue? then all else [])
    && buffered.status == streamed.status && buffered.messages == streamed.messages
    && buffered.headers == (if b.NoOp? then streamed.headers else Offer(b, before, streamed.headers).0)
  }

  function WithoutBody(c: Context): (r: ExecutionResult)
    ensures r.body == []
  {
    IntoResult(c, [])
  }

  lemma ConcludeEnd(b: Behaviour, t: Trace, c: Context)
    ensures var (result, calls) := Conclude(b, t, c);
            Matches(b, t, calls, result, WithoutBody(c), c.buffer.data)
  {
    var headers := if b.NoOp? then t else Offer(b, t, c.headers).1;
    var before := headers + [StatusSeen(c.status)] + SeenMessages(c.messages);
    hide Offer, SeenMessages;
    var calls := Conclude(b, t, c).1;
    assert calls[..|calls| - 2] == before;
  }

  /** Twin contexts differ only in where their output is. */
  lemma TwinResults(c: Context, d: Context)
    requires Neutral(c) == Neutral(d)
    requires c.streamed.None? && d.streamed.Some?
    ensures c.status == d.status && c.headers == d.headers && c.messages == d.messages
    ensures c.buffer.data == Body(c) && Concat(d.streamed.value) == Body(d)
  {
  }

  lemma HookedEnd(m: Machine, job: Job, b: Behaviour, t: Trace)
    requires Clean(m) && EarlyError(job).None? && job.php.startupOk
    ensures Ready(m)
    ensures var c := InitialContext(m.policy, job, false);
            && Serve(m, c, job.php).1.Some?
            && var before := ScriptCalls(t + [ContextCreated] + [RequestStarting], job.path, job.php.scriptOk);
               var (result, calls) := Conclude(b, before, Last(m, c, job.php));
               Hooked(m, job, b, t) == (Serve(m, c, job.php).0, calls, Ok(result))
  {
    LastExists(m, InitialContext(m.policy, job, false), job.php);
    hide Serve, FromExecution, Conclude, ScriptCalls;
  }

  lemma StreamingEnd(m: Machine, job: Job)
    requires Clean(m) && EarlyError(job).None? && job.php.startupOk
    ensures Ready(m)
    ensures var c := InitialContext(m.policy, job, true);
            && Serve(m, c, job.php).1.Some?
            && Streaming(m, job) == (Serve(m, c, job.php).0, Ok(IntoResult(Last(m, c, job.php), [])))
            && StreamedContext(m, job) == Last(m, c, job.php)
  {
    LastExists(m, InitialContext(m.policy, job, true), job.php);
    hide Serve, FromExecution;
  }

  /** A streaming execution in terms of the buffered context of the same job. */
  lemma StreamingTwin(m: Machine, job: Job)
    requires Clean(m) && EarlyError(job).None? && job.php.startupOk
    requires Affordable(m.policy, |AllWrites(job.php)|)
    ensures Ready(m)
    ensures var c := InitialContext(m.policy, job, false);
            && Serve(m, c, job.php).1.Some?
            && Last(m, c, job.php).buffer.data == AllWrites(job.php)
            && Streaming(m, job) == (Serve(m, c, job.php).0, Ok(WithoutBody(Last(m, c, job.php))))
            && StreamedContext(m, job).streamed.Some?
            && Concat(StreamedContext(m, job).streamed.value) == AllWrites(job.php)
  {
    CleanIsReady(m);
    var (p, q) := (InitialContext(m.policy, job, false), InitialContext(m.policy, job, true));
    InitialContexts(m.policy, job, false);
    InitialContexts(m.policy, job, true);
    assert TwinRequests(m, p, q);
    ServeTwins(m, p, q, job.php);
    StreamingEnd(m, job);
    TwinResults(Last(m, p, job.php), Last(m, q, job.php));
    hide Serve, Economical, Affordable, AllWrites, InitialContext, Initial, Streaming, StreamedContext, Last, Clean;
    hide Neutral, Body, EarlyError, TwinRequests;
  }

  /**
   * The output modes agree, for hooks of any kind: the streaming result has no body and its
   * callback receives, in pieces, all that PHP writes; a buffered execution of the same job ends
   * in the same process state and matches it.
   */
  lemma ModesAgree(m: Machine, job: Job, b: Behaviour, t: Trace)
    requires Clean(m) && EarlyError(job).None? && job.php.startupOk
    requires Affordable(m.policy, |AllWrites(job.php)|)
    ensures Ready(m)
    ensures var ((r, streamed), (s, calls, buffered)) := (Streaming(m, job), Hooked(m, job, b, t));
            var all := AllWrites(job.php);
            var before := ScriptCalls(t + [ContextCreated] + [RequestStarting], job.path, job.php.scriptOk);
            && r == s
            && streamed.Ok? && buffered.Ok?
            && StreamedContext(m, job).streamed.Some?
            && Concat(StreamedContext(m, job).streamed.value) == all
            && streamed.value.body == []
            && Matches(b, before, calls, buffered.value, streamed.value, all)
  {
    StreamingTwin(m, job);
    HookedEnd(m, job, b, t);
    var before := ScriptCalls(t + [ContextCreated] + [RequestStarting], job.path, job.php.scriptOk);
    ConcludeEnd(b, before, Last(m, InitialContext(m.policy, job, false), job.php));
    hide *;
  }
}
