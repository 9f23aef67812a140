/** The lifecycle of a request: boxing the context, running PHP, reclaiming the box, and hooks. */
module Executors {
  import opened Bytes
  import opened Callbacks
  import opened OutputBuffers
  import opened ResponseHeaders
  import opened ServerContexts
  import opened ServerVariables
  import Web

  datatype ExecutionError =
    | NotInitialized
    | ScriptNotFound(path: string)
    | InvalidPath
    | StartupFailed

  /**
   * One execution of PHP: what it does while starting up, running the script and shutting down,
   * whether startup and script succeed, and which INI names can be interned.
   */
  datatype PhpRun = PhpRun(
    startup: seq<Event>,
    startupOk: bool,
    script: seq<Event>,
    scriptOk: bool,
    shutdown: seq<Event>,
    interns: string -> bool)

  /** The arguments of an execution, with the answers of the checks made before it. */
  datatype Job = Job(
    initialized: bool,
    scriptExists: bool,
    path: string,
    input: seq<byte>,
    vars: seq<Pair>,
    env: seq<Pair>,
    ini: seq<Pair>,
    logToStderr: bool,
    php: PhpRun)

  function EarlyError(job: Job): Option<ExecutionError> {
    if !job.initialized then Some(NotInitialized)
    else if !job.scriptExists then Some(ScriptNotFound(job.path))
    else if !NulFree(job.path) then Some(InvalidPath)
    else None
  }

  function InitialContext(p: BufferPolicy, job: Job, streaming: bool): Context {
    FromExecution(p, job.input, job.vars, job.env, job.ini, job.logToStderr, streaming)
  }

  // ---------------------------------------------------------------- steps on values

  function Install(m: Machine, c: Context): Machine {
    m.(boxed := m.boxed + 1, live := m.live + {m.boxed}, ptr := Some(m.boxed), context := Some(c))
  }

  /** A string of a box, as its `*_ptr` accessor gives it. */
  function Lent(value: Option<string>, box: nat): CString {
    match value
    case Some(text) => Borrowed(box, text)
    case None => Null
  }

  function InfoFor(before: RequestInfo, c: Context, box: nat): RequestInfo {
    before.(requestMethod := if c.vars.requestMethod.Some? then Lent(c.vars.requestMethod, box) else Static("GET"),
         contentType := Lent(c.vars.contentType, box),
         contentLength := |c.post|,
         queryString := Lent(c.vars.queryString, box))
  }

  function SetupGlobals(m: Machine, c: Context, box: nat): Machine {
    m.(g := m.g.(info := InfoFor(m.g.info, c, box), headers := m.g.headers.(code := 200)))
  }

  /** PHP forgets the headers of the previous request before anything else. */
  function Activate(m: Machine): Machine {
    m.(g := m.g.(headersSent := false, headers := HeaderStruct(200, [])))
  }

  /** The overrides whose names can be interned, in order. */
  function Applied(ini: seq<Pair>, interns: string -> bool): seq<Pair> {
    if ini == [] then []
    else
      var last := ini[|ini| - 1];
      Applied(ini[..|ini| - 1], interns) + if interns(last.0) then [last] else []
  }

  /** PHP receives exactly the overrides whose names can be interned, in their order. */
  lemma {:induction false} AppliedCollects(ini: seq<Pair>, interns: string -> bool, options: seq<Option<Pair>>)
    requires |options| == |ini|
    requires forall i :: 0 <= i < |ini| ==> options[i] == if interns(ini[i].0) then Some(ini[i]) else None
    ensures Collects(options, Applied(ini, interns))
  {
    if ini != [] {
      var last := |ini| - 1;
      AppliedCollects(ini[..last], interns, options[..last]);
      CollectsSnoc(options[..last], Applied(ini[..last], interns), options[last]);
      assert options == options[..last] + [options[last]];
      assert Applied(ini[..last], interns) + [] == Applied(ini[..last], interns);
    }
  }

  function ApplyIni(m: Machine, ini: seq<Pair>, interns: string -> bool): Machine {
    m.(g := m.g.(ini := m.g.ini + Applied(ini, interns)))
  }

  function Reclaim(m: Machine, id: nat): Machine {
    m.(live := m.live - {id}, reclaimed := m.reclaimed + [id],
       context := if m.ptr == Some(id) then None else m.context)
  }

  function ClearPointer(m: Machine): Machine {
    m.(ptr := None, context := None)
  }

  function CleanupGlobals(m: Machine): Machine {
    ClearPointer(m).(g := m.g.(info := m.g.info.(contentType := Null, queryString := Null, cookieData := Null)))
  }

  // ---------------------------------------------------------------- phases on values

  predicate Ready(m: Machine) {
    Sound(m) && m.boxed !in m.live
  }

  /** The box is created and published, globals are set, PHP starts up. */
  function StartPhase(m: Machine, c: Context, php: PhpRun): (r: Machine)
    requires Ready(m) && WellFormed(c)
    ensures Sound(r)
  {
    Run(Activate(SetupGlobals(Install(m, c), c, m.boxed)), php.startup)
  }

  /** Startup failed: the box is reclaimed, PHP shuts down, then the pointer is cleared. */
  function AbandonPhase(m: Machine, id: nat, php: PhpRun): (r: Machine)
    requires Sound(m)
    ensures Sound(r)
  {
    ClearPointer(Run(Reclaim(m, id), php.shutdown))
  }

  function ScriptPhase(m: Machine, ini: seq<Pair>, php: PhpRun): (r: Machine)
    requires Sound(m)
    ensures Sound(r)
  {
    Run(ApplyIni(m, ini, php.interns), php.script)
  }

  /** PHP shuts down while the context is still published. */
  function ShutdownPhase(m: Machine, php: PhpRun): (r: Machine)
    requires Sound(m)
    ensures Sound(r)
  {
    Run(m.(g := m.g.(postRead := true)), php.shutdown)
  }

  /** The pointer is cleared, the box reclaimed, the globals cleaned. */
  function ReleasePhase(m: Machine, id: nat): (r: Machine)
    requires Sound(m)
    ensures Sound(r)
  {
    CleanupGlobals(Reclaim(ClearPointer(m), id))
  }

  /** A whole execution after the early checks, and the final context unless startup failed. */
  function Serve(m: Machine, c: Context, php: PhpRun): (r: (Machine, Option<Context>))
    requires Ready(m) && WellFormed(c)
    ensures Sound(r.0)
  {
    var started := StartPhase(m, c, php);
    if !php.startupOk then (AbandonPhase(started, m.boxed, php), None)
    else
      var ended := ShutdownPhase(ScriptPhase(started, c.ini, php), php);
      (ReleasePhase(ended, m.boxed), ended.context)
  }

  // ---------------------------------------------------------------- hooks

  datatype OutputAction = Continue | Done

  datatype HookCall =
    | ContextCreated
    | RequestStarting
    | RequestStarted
    | ScriptExecuting(path: string)
    | ScriptExecuted(success: bool)
    | RequestFinishing
    | HeaderSeen(header: Header)
    | StatusSeen(status: nat)
    | MessageSeen(message: Message)
    | OutputSeen(data: seq<byte>)
    | RequestFinished(result: ExecutionResult)

  /**
   * Hooks decide about headers and output; they may remember every call made to them. `NoOp`
   * is the type that the executor recognises.
   */
  datatype Behaviour =
    | NoOp
    | Custom(accepts: (seq<HookCall>, Header) -> bool, action: (seq<HookCall>, seq<byte>) -> OutputAction)

  type Trace = seq<HookCall>

  /** Offering headers one by one: the kept ones and the trace. */
  function Offer(b: Behaviour, t: Trace, headers: seq<Header>): (seq<Header>, Trace)
    requires b.Custom?
    decreases headers
  {
    if headers == [] then ([], t)
    else
      var (kept, after) := Offer(b, t + [HeaderSeen(headers[0])], headers[1..]);
      (if b.accepts(t, headers[0]) then ([headers[0]] + kept, after) else (kept, after))
  }

  /** One call per message, in order. */
  function SeenMessages(messages: seq<Message>): (t: Trace)
    ensures |t| == |messages| && forall i :: 0 <= i < |messages| ==> t[i] == MessageSeen(messages[i])
  {
    if messages == [] then []
    else SeenMessages(messages[..|messages| - 1]) + [MessageSeen(messages[|messages| - 1])]
  }

  function Action(b: Behaviour, t: Trace, data: seq<byte>): OutputAction {
    match b
    case NoOp => Continue
    case Custom(_, action) => action(t, data)
  }

  /** From the final context to the result, with the hook calls on the way. */
  function Conclude(b: Behaviour, t: Trace, c: Context): (ExecutionResult, Trace) {
    var (headers, t1) := if b.NoOp? then (c.headers, t) else Offer(b, t, c.headers);
    var t2 := t1 + [StatusSeen(c.status)] + SeenMessages(c.messages);
    var body := if Action(b, t2, c.buffer.data).Continue? then c.buffer.data else [];
    var result := ExecutionResult(c.status, body, headers, c.messages);
    (result, t2 + [OutputSeen(c.buffer.data)] + [RequestFinished(result)])
  }

  function ScriptCalls(t: Trace, path: string, success: bool): Trace {
    t + [RequestStarted] + [ScriptExecuting(path)] + [ScriptExecuted(success)] + [RequestFinishing]
  }

  function Streaming(m: Machine, job: Job): (r: (Machine, Result<ExecutionResult, ExecutionError>))
    requires Ready(m)
    ensures Sound(r.0)
  {
    match EarlyError(job)
    case Some(error) => (m, Err(error))
    case None =>
      var (after, c) := Serve(m, InitialContext(m.policy, job, true), job.php);
      (after, match c case None => Err(StartupFailed) case Some(c) => Ok(IntoResult(c, [])))
  }

  /** The context at the end of a successful streaming execution. */
  function StreamedContext(m: Machine, job: Job): Context
    requires Ready(m) && Streaming(m, job).1.Ok?
  {
    Serve(m, InitialContext(m.policy, job, true), job.php).1.value
  }

  /** An execution with hooks once the early checks have passed. */
  function HookedServe(m: Machine, c: Context, php: PhpRun, path: string, b: Behaviour, t: Trace)
    : (r: (Machine, Trace, Result<ExecutionResult, ExecutionError>))
    requires Ready(m) && WellFormed(c)
    ensures Sound(r.0)
  {
    var (after, last) := Serve(m, c, php);
    var t1 := t + [ContextCreated] + [RequestStarting];
    match last
    case None => (after, t1, Err(StartupFailed))
    case Some(c) =>
      var (result, t2) := Conclude(b, ScriptCalls(t1, path, php.scriptOk), c);
      (after, t2, Ok(result))
  }

  function Hooked(m: Machine, job: Job, b: Behaviour, t: Trace)
    : (r: (Machine, Trace, Result<ExecutionResult, ExecutionError>))
    requires Ready(m)
    ensures Sound(r.0)
  {
    match EarlyError(job)
    case Some(error) => (m, t, Err(error))
    case None => HookedServe(m, InitialContext(m.policy, job, false), job.php, job.path, b, t)
  }

  // ---------------------------------------------------------------- the objects

  class Hooks {
    const behaviour: Behaviour
    var trace: Trace

    constructor (behaviour: Behaviour)
      ensures this.behaviour == behaviour && trace == []
    {
      this.behaviour, trace := behaviour, [];
    }

    method Note(call: HookCall)
      modifies this
      ensures trace == old(trace) + [call]
    {
      trace := trace + [call];
    }

    method OnHeader(h: Header) returns (keep: bool)
      requires behaviour.Custom?
      modifies this
      ensures keep == behaviour.accepts(old(trace), h) && trace == old(trace) + [HeaderSeen(h)]
    {
      keep := behaviour.accepts(trace, h);
      Note(HeaderSeen(h));
    }

    method OnOutput(data: seq<byte>) returns (action: OutputAction)
      modifies this
      ensures action == Action(behaviour, old(trace), data) && trace == old(trace) + [OutputSeen(data)]
    {
      action := Action(behaviour, trace, data);
      Note(OutputSeen(data));
    }
  }

  /** The arguments of an execution as a value. */
  ghost function JobOf(initialized: bool, scriptExists: bool, ctx: Web.ExecutionContext, php: PhpRun): Job
    reads ctx.serverVars
  {
    Job(initialized, scriptExists, ctx.scriptPath, ctx.input, ctx.serverVars.vars, ctx.envVars, ctx.iniOverrides,
        ctx.logToStderr, php)
  }

  class Executor {
    const sapi: Sapi

    constructor (sapi: Sapi)
      ensures this.sapi == sapi
    {
      this.sapi := sapi;
    }

    /** Boxing of the context and its publication; the box number stands for the raw pointer. */
    method Publish(ctx: Web.ExecutionContext, callback: OutputCallback?) returns (c: ServerContext)
      requires sapi.Valid() && sapi.boxed !in sapi.live
      requires ctx.serverVars.Valid()
      requires callback != null ==> callback.chunks == []
      modifies sapi`boxed, sapi`live, sapi`serverContext
      ensures fresh(c) && sapi.serverContext == c && sapi.Valid() && sapi.Alive()
      ensures c.id == old(sapi.boxed) && c.outputCallback == callback
      ensures c.View() == FromExecution(sapi.policy, ctx.input, ctx.serverVars.vars, ctx.envVars, ctx.iniOverrides,
                                        ctx.logToStderr, callback != null)
      ensures sapi.State() == Install(old(sapi.State()), c.View())
    {
      hide CStrings, Kept, ServerVars.Valid;
      var vars := ctx.serverVars.IntoCStringPairs();
      c := new ServerContext(sapi.boxed, sapi.policy, ctx.input, vars, ctx.envVars, ctx.iniOverrides,
                             ctx.logToStderr, callback);
      sapi.boxed, sapi.live := sapi.boxed + 1, sapi.live + {c.id};
      sapi.serverContext := c;
    }

    method SetGlobals(c: ServerContext)
      requires sapi.Valid() && sapi.serverContext == c
      modifies sapi`g
      ensures sapi.Valid() && sapi.State() == SetupGlobals(old(sapi.State()), c.View(), c.id)
    {
      var info := sapi.g.info;
      info := info.(requestMethod := if c.vars.requestMethod.Some? then Lent(c.vars.requestMethod, c.id) else Static("GET"));
      info := info.(contentType := Lent(c.vars.contentType, c.id));
      info := info.(contentLength := |c.postData|);
      info := info.(queryString := Lent(c.vars.queryString, c.id));
      sapi.g := sapi.g.(info := info, headers := sapi.g.headers.(code := 200));
    }

    /** PHP's request startup. */
    method PhpStartup(php: PhpRun)
      requires sapi.Valid()
      modifies sapi`fetches, sapi`g, sapi.serverContext, sapi.Sink()
      ensures sapi.Valid() && sapi.State() == Run(Activate(old(sapi.State())), php.startup)
    {
      sapi.g := sapi.g.(headersSent := false, headers := HeaderStruct(200, []));
      var _ := sapi.FireAll(php.startup);
    }

    method ApplyIniOverrides(ini: seq<Pair>, interns: string -> bool)
      requires sapi.Valid()
      modifies sapi`g
      ensures sapi.Valid() && sapi.State() == ApplyIni(old(sapi.State()), ini, interns)
    {
      if ini == [] {
        return;
      }
      ghost var before := sapi.g;
      for i := 0 to |ini|
        invariant sapi.Valid()
        invariant sapi.g == before.(ini := before.ini + Applied(ini[..i], interns))
      {
        assert ini[..i + 1][..i] == ini[..i];
        var (name, value) := ini[i];
        if interns(name) {
          sapi.g := sapi.g.(ini := sapi.g.ini + [(name, value)]);
        }
      }
      assert ini[..|ini|] == ini;
    }

    /** `Box::from_raw` and drop. */
    method FromRaw(id: nat)
      requires sapi.Valid()
      modifies sapi`live, sapi`reclaimed
      ensures sapi.Valid() && sapi.State() == Reclaim(old(sapi.State()), id)
    {
      sapi.live := sapi.live - {id};
      sapi.reclaimed := sapi.reclaimed + [id];
    }

    method Cleanup()
      requires sapi.Valid()
      modifies sapi`g, sapi`serverContext
      ensures sapi.Valid() && sapi.serverContext == null && sapi.State() == CleanupGlobals(old(sapi.State()))
    {
      sapi.serverContext := null;
      sapi.g := sapi.g.(info := sapi.g.info.(contentType := Null, queryString := Null, cookieData := Null));
    }

    method Start(ctx: Web.ExecutionContext, callback: OutputCallback?) returns (c: ServerContext)
      requires sapi.Valid() && sapi.boxed !in sapi.live
      requires ctx.serverVars.Valid()
      requires callback != null ==> callback.chunks == []
      modifies sapi`boxed, sapi`live, sapi`serverContext, sapi`g
      ensures fresh(c) && sapi.serverContext == c && sapi.Valid() && sapi.Alive()
      ensures c.id == old(sapi.boxed) && c.outputCallback == callback
      ensures var c0 := FromExecution(sapi.policy, ctx.input, ctx.serverVars.vars, ctx.envVars, ctx.iniOverrides,
                                      ctx.logToStderr, callback != null);
              sapi.State() == SetupGlobals(Install(old(sapi.State()), c0), c0, c.id) && c.iniOverrides == c0.ini
    {
      c := Publish(ctx, callback);
      SetGlobals(c);
    }

    /** The failure path: reclaim first, then let PHP shut down, then clear the pointer. */
    method Abandon(c: ServerContext, php: PhpRun)
      requires sapi.Valid() && sapi.serverContext == c
      modifies sapi, c, sapi.Sink()
      ensures sapi.Valid() && sapi.serverContext == null
      ensures sapi.State() == AbandonPhase(old(sapi.State()), c.id, php)
    {
      FromRaw(c.id);
      var _ := sapi.FireAll(php.shutdown);
      sapi.serverContext := null;
    }

    method RunScript(c: ServerContext, php: PhpRun)
      requires sapi.Valid() && sapi.serverContext == c
      modifies sapi`fetches, sapi`g, c, sapi.Sink()
      ensures sapi.Valid()
      ensures sapi.State() == ScriptPhase(old(sapi.State()), c.iniOverrides, php)
    {
      ApplyIniOverrides(c.iniOverrides, php.interns);
      var _ := sapi.FireAll(php.script);
    }

    method ShutDown(c: ServerContext, php: PhpRun)
      requires sapi.Valid() && sapi.serverContext == c
      modifies sapi`fetches, sapi`g, c, sapi.Sink()
      ensures sapi.Valid()
      ensures sapi.State() == ShutdownPhase(old(sapi.State()), php)
    {
      sapi.g := sapi.g.(postRead := true);
      var _ := sapi.FireAll(php.shutdown);
    }

    method Release(c: ServerContext)
      requires sapi.Valid() && sapi.serverContext == c
      modifies sapi
      ensures sapi.Valid() && sapi.serverContext == null
      ensures sapi.State() == ReleasePhase(old(sapi.State()), c.id)
    {
      sapi.serverContext := null;
      FromRaw(c.id);
      Cleanup();
    }

    method ExecuteStreaming(initialized: bool, scriptExists: bool, ctx: Web.ExecutionContext,
        onOutput: OutputCallback, php: PhpRun)
        returns (r: Result<ExecutionResult, ExecutionError>)
      requires sapi.Valid() && sapi.serverContext == null && sapi.boxed !in sapi.live
      requires ctx.serverVars.Valid() && onOutput.chunks == []
      modifies sapi, onOutput
      ensures sapi.Valid() && sapi.serverContext == null
      ensures (sapi.State(), r) == Streaming(old(sapi.State()), old(JobOf(initialized, scriptExists, ctx, php)))
      ensures r.Ok? ==>
                StreamedContext(old(sapi.State()), old(JobOf(initialized, scriptExists, ctx, php))).streamed
                == Some(onOutput.chunks)
    {
      hide ScriptPhase, ShutdownPhase, ReleasePhase, AbandonPhase;
      hide Run, Activate, SetupGlobals, Install, FromExecution;
      if !initialized {
        return Err(NotInitialized);
      }
      if !scriptExists {
        return Err(ScriptNotFound(ctx.scriptPath));
      }
      if !NulFree(ctx.scriptPath) {
        return Err(InvalidPath);
      }
      ghost var m, job := sapi.State(), JobOf(initialized, scriptExists, ctx, php);
      var c := Start(ctx, onOutput);
      PhpStartup(php);
      assert sapi.State() == StartPhase(m, InitialContext(sapi.policy, job, true), php);
      hide StartPhase;
      if !php.startupOk {
        Abandon(c, php);
        return Err(StartupFailed);
      }
      RunScript(c, php);
      ShutDown(c, php);
      Release(c);
      return Ok(ExecutionResult(c.statusCode, [], c.responseHeaders, c.messages));
    }

    /** The part after the box is reclaimed: headers, status, messages, output, result. */
    method Finish(c: ServerContext, hooks: Hooks) returns (result: ExecutionResult)
      modifies hooks
      ensures (result, hooks.trace) == Conclude(hooks.behaviour, old(hooks.trace), c.View())
    {
      var headers: seq<Header>;
      if hooks.behaviour.NoOp? {
        headers := c.responseHeaders;
      } else {
        headers := OfferHeaders(c.responseHeaders, hooks);
      }
      hooks.Note(StatusSeen(c.statusCode));
      NoteMessages(c.messages, hooks);
      var action := hooks.OnOutput(c.outputBuffer);
      var body := match action case Continue => c.outputBuffer case Done => [];
      result := ExecutionResult(c.statusCode, body, headers, c.messages);
      hooks.Note(RequestFinished(result));
    }

    method OfferHeaders(offered: seq<Header>, hooks: Hooks) returns (kept: seq<Header>)
      requires hooks.behaviour.Custom?
      modifies hooks
      ensures (kept, hooks.trace) == Offer(hooks.behaviour, old(hooks.trace), offered)
    {
      kept := [];
      var b := hooks.behaviour;
      assert offered[0..] == offered && [] + Offer(b, hooks.trace, offered).0 == Offer(b, hooks.trace, offered).0;
      for i := 0 to |offered|
        invariant Offer(b, old(hooks.trace), offered)
               == (kept + Offer(b, hooks.trace, offered[i..]).0, Offer(b, hooks.trace, offered[i..]).1)
      {
        assert offered[i..][1..] == offered[i + 1..];
        ghost var before, more := kept, Offer(b, hooks.trace + [HeaderSeen(offered[i])], offered[i + 1..]).0;
        var keep := hooks.OnHeader(offered[i]);
        ConcatAssoc(before, [offered[i]], more);
        if keep {
          kept := kept + [offered[i]];
        }
      }
      assert offered[|offered|..] == [] && kept + [] == kept;
    }

    method NoteMessages(messages: seq<Message>, hooks: Hooks)
      modifies hooks
      ensures hooks.trace == old(hooks.trace) + SeenMessages(messages)
    {
      for i := 0 to |messages|
        invariant hooks.trace == old(hooks.trace) + SeenMessages(messages[..i])
      {
        assert messages[..i + 1][..i] == messages[..i];
        hooks.Note(MessageSeen(messages[i]));
      }
      assert messages[..|messages|] == messages;
    }

    /** The script with the hook calls around it. */
    method RunScriptWithHooks(c: ServerContext, hooks: Hooks, path: string, php: PhpRun)
      requires sapi.Valid() && sapi.serverContext == c
      modifies sapi`fetches, sapi`g, c, sapi.Sink(), hooks
      ensures sapi.Valid()
      ensures sapi.State() == ScriptPhase(old(sapi.State()), c.iniOverrides, php)
      ensures hooks.trace == ScriptCalls(old(hooks.trace), path, php.scriptOk)
    {
      ApplyIniOverrides(c.iniOverrides, php.interns);
      hooks.Note(RequestStarted);
      hooks.Note(ScriptExecuting(path));
      var _ := sapi.FireAll(php.script);
      hooks.Note(ScriptExecuted(php.scriptOk));
      hooks.Note(RequestFinishing);
    }

    /** The body of `ExecuteWithHooks` behind its early checks. */
    method ServeWithHooks(ctx: Web.ExecutionContext, hooks: Hooks, php: PhpRun, ghost c0: Context)
        returns (r: Result<ExecutionResult, ExecutionError>)
      requires sapi.Valid() && sapi.serverContext == null && sapi.boxed !in sapi.live
      requires ctx.serverVars.Valid()
      requires c0 == FromExecution(sapi.policy, ctx.input, ctx.serverVars.vars, ctx.envVars, ctx.iniOverrides,
                                   ctx.logToStderr, false)
      modifies sapi, hooks
      ensures sapi.Valid() && sapi.serverContext == null
      ensures (sapi.State(), hooks.trace, r)
           == HookedServe(old(sapi.State()), c0, php, ctx.scriptPath, hooks.behaviour, old(hooks.trace))
    {
      hide ScriptPhase, ShutdownPhase, ReleasePhase, AbandonPhase, ScriptCalls, Conclude;
      hide Run, Activate, SetupGlobals, Install, FromExecution;
      ghost var m := sapi.State();
      hooks.Note(ContextCreated);
      var c := Start(ctx, null);
      hooks.Note(RequestStarting);
      PhpStartup(php);
      assert sapi.State() == StartPhase(m, c0, php);
      hide StartPhase;
      if !php.startupOk {
        Abandon(c, php);
        return Err(StartupFailed);
      }
      RunScriptWithHooks(c, hooks, ctx.scriptPath, php);
      ShutDown(c, php);
      Release(c);
      var result := Finish(c, hooks);
      return Ok(result);
    }

    method ExecuteWithHooks(initialized: bool, scriptExists: bool, ctx: Web.ExecutionContext,
        hooks: Hooks, php: PhpRun)
        returns (r: Result<ExecutionResult, ExecutionError>)
      requires sapi.Valid() && sapi.serverContext == null && sapi.boxed !in sapi.live
      requires ctx.serverVars.Valid()
      modifies sapi, hooks
      ensures sapi.Valid() && sapi.serverContext == null
      ensures (sapi.State(), hooks.trace, r)
           == Hooked(old(sapi.State()), old(JobOf(initialized, scriptExists, ctx, php)), hooks.behaviour, old(hooks.trace))
    {
      hide HookedServe, FromExecution;
      if !initialized {
        return Err(NotInitialized);
      }
      if !scriptExists {
        return Err(ScriptNotFound(ctx.scriptPath));
      }
      if !NulFree(ctx.scriptPath) {
        return Err(InvalidPath);
      }
      ghost var job := JobOf(initialized, scriptExists, ctx, php);
      r := ServeWithHooks(ctx, hooks, php, InitialContext(sapi.policy, job, false));
    }
  }
}
