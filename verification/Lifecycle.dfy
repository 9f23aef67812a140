/** What holds over every request and every sequence of requests. */
module Lifecycle {
  import opened Bytes
  import opened Callbacks
  import opened Executors
  import opened OutputBuffers
  import opened OutputModes
  import opened RequestRuns
  import opened ResponseHeaders
  import opened ServerContexts
  import opened ServerVariables

  /** Between requests: no pointer, no live box, and every box reclaimed once, in order. */
  ghost predicate Clean(m: Machine) {
    && Usable(m.policy)
    && m.ptr == None && m.context == None
    && m.live == {}
    && |m.reclaimed| == m.boxed
    && (forall i :: 0 <= i < m.boxed ==> m.reclaimed[i] == i)
  }

  /** During a request: the pointer leads to its box, the only live one. */
  ghost predicate Current(m: Machine, id: nat) {
    Serving(m) && m.ptr == Some(id) && m.live == {id}
  }

  // ---------------------------------------------------------------- the phases

  /** From a clean state until PHP has started up, the context is published. */
  lemma StartFacts(m: Machine, c: Context, php: PhpRun)
    requires Clean(m) && WellFormed(c)
    ensures var r := StartPhase(m, c, php);
            && Current(r, m.boxed)
            && r == m.(boxed := m.boxed + 1, live := {m.boxed}, ptr := Some(m.boxed),
                       context := r.context, fetches := r.fetches, g := r.g)
            && Only(m.fetches, r.fetches, m.boxed, true)
            && r.g.info == InfoFor(m.g.info, c, m.boxed)
            && r.g.ini == m.g.ini && r.g.postRead == m.g.postRead
            && SameRequest(c, r.context.value)
  {
    var start := Activate(SetupGlobals(Install(m, c), c, m.boxed));
    assert m.live + {m.boxed} == {m.boxed};
    RunKeepsBox(start, php.startup);
    hide Run, SameRequest, InfoFor, Only;
  }

  lemma ScriptFacts(m: Machine, id: nat, ini: seq<Pair>, php: PhpRun)
    requires Current(m, id)
    ensures var r := ScriptPhase(m, ini, php);
            && Current(r, id)
            && r == m.(context := r.context, fetches := r.fetches, g := r.g)
            && Only(m.fetches, r.fetches, id, true)
            && r.g.info == m.g.info
            && r.g.ini == m.g.ini + Applied(ini, php.interns) && r.g.postRead == m.g.postRead
            && SameRequest(m.context.value, r.context.value)
  {
    RunKeepsBox(ApplyIni(m, ini, php.interns), php.script);
    hide Run, SameRequest, Applied, Only;
  }

  lemma ShutdownFacts(m: Machine, id: nat, php: PhpRun)
    requires Current(m, id)
    ensures var r := ShutdownPhase(m, php);
            && Current(r, id)
            && r == m.(context := r.context, fetches := r.fetches, g := r.g)
            && Only(m.fetches, r.fetches, id, true)
            && r.g.info == m.g.info
            && r.g.ini == m.g.ini && r.g.postRead
            && SameRequest(m.context.value, r.context.value)
  {
    RunKeepsBox(m.(g := m.g.(postRead := true)), php.shutdown);
    hide Run, SameRequest, Only;
  }

  /**
   * A successful startup: in all three phases every fetch of a context by a callback gives the
   * live one of this request, and afterwards everything is clean again.
   */
  lemma Success(m: Machine, c: Context, php: PhpRun)
    requires Clean(m) && WellFormed(c) && php.startupOk
    ensures var (r, last) := Serve(m, c, php);
            && Clean(r)
            && r.boxed == m.boxed + 1
            && last.Some? && SameRequest(c, last.value)
            && Only(m.fetches, r.fetches, m.boxed, true)
            && r.g.info == InfoFor(m.g.info, c, m.boxed).(contentType := Null, queryString := Null, cookieData := Null)
            && r.g.ini == m.g.ini + Applied(c.ini, php.interns) && r.g.postRead
  {
    var id := m.boxed;
    var started := StartPhase(m, c, php);
    StartFacts(m, c, php);
    var scripted := ScriptPhase(started, c.ini, php);
    ScriptFacts(started, id, c.ini, php);
    var ended := ShutdownPhase(scripted, php);
    ShutdownFacts(scripted, id, php);
    hide StartPhase, ScriptPhase, ShutdownPhase, Only, InfoFor, Applied;
    OnlyChain(m.fetches, started.fetches, scripted.fetches, id, true);
    OnlyChain(m.fetches, scripted.fetches, ended.fetches, id, true);
    assert {id} - {id} == {};
  }

  // ---------------------------------------------------------------- failed startup

  /** Whether an event makes its callback ask for the context. */
  predicate FetchesContext(e: Event) {
    match e
    case UbWrite(text) => text.Some? && text.value != []
    case Flush => true
    case ChangeHeaders(_) => false
    case SendHeaders(struct) => struct.Some?
    case SendHeader(header) => header.Some?
    case ReadPostBody(size) => size.Some? && size.value > 0
    case ReadCookies => true
    case RegisterVariables(hasArray) => hasArray
    case LogMessage(message, _) => message.Some?
    case GetEnvironment(name) => name.Some? && name.value != ""
  }

  predicate SomeFetch(events: seq<Event>) {
    exists i :: 0 <= i < |events| && FetchesContext(events[i])
  }

  /** The pointer leads to a reclaimed box. */
  ghost predicate Stale(m: Machine, id: nat) {
    Sound(m) && m.ptr == Some(id) && id !in m.live && m.context == None
  }

  lemma StepStale(m: Machine, e: Event, id: nat)
    requires Stale(m, id)
    ensures var r := Step(m, e).0;
            && Stale(r, id)
            && r == m.(fetches := r.fetches, g := r.g)
            && r.g == m.g.(headers := r.g.headers)
            && Only(m.fetches, r.fetches, id, false)
            && (|r.fetches| > |m.fetches| <==> FetchesContext(e))
  {
    hide Capture, WithHeader, AfterWrite, AfterRead, FetchTimes;
  }

  lemma SomeFetchCons(events: seq<Event>)
    requires events != []
    ensures SomeFetch(events) <==> FetchesContext(events[0]) || SomeFetch(events[1..])
  {
    hide FetchesContext;
    assert forall i :: 1 <= i < |events| ==> events[i] == events[1..][i - 1];
    if SomeFetch(events[1..]) {
      var i :| 0 <= i < |events[1..]| && FetchesContext(events[1..][i]);
      assert FetchesContext(events[i + 1]);
    }
  }

  lemma {:induction false} RunStale(m: Machine, events: seq<Event>, id: nat)
    requires Stale(m, id)
    ensures var r := Run(m, events);
            && Stale(r, id)
            && r == m.(fetches := r.fetches, g := r.g)
            && r.g == m.g.(headers := r.g.headers)
            && Only(m.fetches, r.fetches, id, false)
            && (|r.fetches| > |m.fetches| <==> SomeFetch(events))
    decreases events
  {
    if events != [] {
      StepStale(m, events[0], id);
      SomeFetchCons(events);
      hide Step, FetchesContext, SomeFetch;
      var next := Step(m, events[0]).0;
      RunStale(next, events[1..], id);
      OnlyChain(m.fetches, next.fetches, Run(m, events).fetches, id, false);
    }
  }

  /**
   * A failed startup ends clean as well. Callbacks of the startup get the live context; those of
   * PHP's shutdown get it after its reclamation, and there are such fetches exactly when the
   * shutdown makes a callback that asks for a context.
   */
  lemma Failure(m: Machine, c: Context, php: PhpRun)
    requires Clean(m) && WellFormed(c) && !php.startupOk
    ensures var (r, last) := Serve(m, c, php);
            var started := StartPhase(m, c, php);
            && Clean(r)
            && r.boxed == m.boxed + 1
            && last == None
            && Only(m.fetches, started.fetches, m.boxed, true)
            && Only(started.fetches, r.fetches, m.boxed, false)
            && (|r.fetches| > |started.fetches| <==> SomeFetch(php.shutdown))
            && r.g.info == InfoFor(m.g.info, c, m.boxed)
            && r.g.ini == m.g.ini && r.g.postRead == m.g.postRead
  {
    var id := m.boxed;
    var started := StartPhase(m, c, php);
    StartFacts(m, c, php);
    hide StartPhase, SameRequest, SomeFetch, Only, InfoFor;
    assert started.live - {id} == {};
    RunStale(Reclaim(started, id), php.shutdown, id);
  }

  // ---------------------------------------------------------------- sequences of requests

  datatype Call =
    | StreamingCall(job: Job)
    | HookedCall(job: Job, behaviour: Behaviour, trace: Trace)

  function Execute(m: Machine, call: Call): Machine
    requires Ready(m)
  {
    match call
    case StreamingCall(job) => Streaming(m, job).0
    case HookedCall(job, behaviour, trace) => Hooked(m, job, behaviour, trace).0
  }

  lemma CleanIsReady(m: Machine)
    requires Clean(m)
    ensures Ready(m)
  {
  }

  /** Whether a call makes PHP ask for a context that is already reclaimed. */
  predicate AsksTooLate(call: Call) {
    EarlyError(call.job).None? && !call.job.php.startupOk && SomeFetch(call.job.php.shutdown)
  }

  function Boxes(call: Call): nat {
    if EarlyError(call.job).None? then 1 else 0
  }

  /** Whether a history went on with a fetch of a context that was already reclaimed. */
  ghost predicate LateSince(before: seq<Fetched>, after: seq<Fetched>) {
    exists i :: |before| <= i < |after| && !after[i].live
  }

  /** The history went on, with fetches of boxes numbered from `low` to below `high`. */
  ghost predicate Within(before: seq<Fetched>, after: seq<Fetched>, low: nat, high: nat) {
    before <= after && forall i :: |before| <= i < |after| ==> low <= after[i].box < high
  }

  /** A history of live fetches and then late ones. */
  lemma LiveThenLate(a: seq<Fetched>, b: seq<Fetched>, c: seq<Fetched>, box: nat)
    requires Only(a, b, box, true) && Only(b, c, box, false)
    ensures Within(a, c, box, box + 1)
    ensures LateSince(a, c) <==> |c| > |b|
  {
    assert forall i :: |a| <= i < |b| ==> c[i] == b[i];
    if |c| > |b| {
      assert !c[|b|].live;
    }
  }

  lemma HistoryChain(a: seq<Fetched>, b: seq<Fetched>, c: seq<Fetched>, low: nat, mid: nat, high: nat)
    requires low <= mid <= high && Within(a, b, low, mid) && Within(b, c, mid, high)
    ensures Within(a, c, low, high)
    ensures LateSince(a, c) <==> LateSince(a, b) || LateSince(b, c)
  {
    assert forall i :: |a| <= i < |b| ==> c[i] == b[i];
    if LateSince(a, b) {
      var i :| |a| <= i < |b| && !b[i].live;
      assert !c[i].live;
    }
    if LateSince(b, c) {
      var i :| |b| <= i < |c| && !c[i].live;
      assert !c[i].live;
    }
  }

  /**
   * One call, whatever its arguments and outcome: every fetch it causes is of its own box, and
   * one of them comes too late exactly when the call has a failing startup and a shutdown that
   * asks for the context.
   */
  lemma OneCall(m: Machine, call: Call)
    requires Clean(m)
    ensures Ready(m)
    ensures var r := Execute(m, call);
            && Clean(r)
            && r.boxed == m.boxed + Boxes(call)
            && (EarlyError(call.job).Some? ==> r == m)
            && Within(m.fetches, r.fetches, m.boxed, r.boxed)
            && (LateSince(m.fetches, r.fetches) <==> AsksTooLate(call))
  {
    CleanIsReady(m);
    hide Serve, SameRequest, SomeFetch, Conclude, FromExecution, Within, LateSince, Only, InfoFor, Clean;
    if EarlyError(call.job).None? {
      var c := InitialContext(m.policy, call.job, call.StreamingCall?);
      var php := call.job.php;
      var end := Serve(m, c, php).0.fetches;
      if php.startupOk {
        Success(m, c, php);
        OnlyNothing(end, m.boxed);
        LiveThenLate(m.fetches, end, end, m.boxed);
      } else {
        Failure(m, c, php);
        LiveThenLate(m.fetches, StartPhase(m, c, php).fetches, end, m.boxed);
      }
    } else {
      NoHistory(m.fetches, m.boxed);
    }
  }

  lemma OnlyNothing(history: seq<Fetched>, box: nat)
    ensures Only(history, history, box, false)
  {
  }

  lemma NoHistory(history: seq<Fetched>, box: nat)
    ensures Within(history, history, box, box) && !LateSince(history, history)
  {
  }

  // ---------------------------------------------------------------- borrowed strings

  ghost predicate LeadsTo(s: CString, box: nat) {
    s.Borrowed? && s.box == box
  }

  /** What the executor has lent from a list of variables: the last value, unless it holds a NUL. */
  predicate Present(vars: seq<Pair>, key: string) {
    CStringOf(LastOf(vars, key)).Some?
  }

  /**
   * Which strings of PHP's request information lead into the box after it is reclaimed. After a
   * successful startup it is the request method alone, which the cleanup leaves out; after a
   * failed one all three that were lent. Each does so exactly when its variable was present.
   */
  lemma StrayStrings(m: Machine, call: Call)
    requires Clean(m) && EarlyError(call.job).None?
    ensures Ready(m)
    ensures var (r, job) := (Execute(m, call), call.job);
            && m.boxed !in r.live
            && (LeadsTo(r.g.info.requestMethod, m.boxed) <==> Present(job.vars, REQUEST_METHOD))
            && (LeadsTo(r.g.info.contentType, m.boxed) <==> !job.php.startupOk && Present(job.vars, CONTENT_TYPE))
            && (LeadsTo(r.g.info.queryString, m.boxed) <==> !job.php.startupOk && Present(job.vars, QUERY_STRING))
            && r.g.info.cookieData == (if job.php.startupOk then Null else m.g.info.cookieData)
  {
    CleanIsReady(m);
    var c := InitialContext(m.policy, call.job, call.StreamingCall?);
    hide Serve, SameRequest, SomeFetch, Conclude, Only, LastOf, Kept;
    if call.job.php.startupOk {
      Success(m, c, call.job.php);
    } else {
      Failure(m, c, call.job.php);
    }
  }

  // ---------------------------------------------------------------- any number of calls

  ghost function ExecuteAll(m: Machine, calls: seq<Call>): (r: Machine)
    requires Clean(m)
    ensures Clean(r)
    decreases calls
  {
    if calls == [] then m
    else
      OneCall(m, calls[0]);
      ExecuteAll(Execute(m, calls[0]), calls[1..])
  }

  function TotalBoxes(calls: seq<Call>): nat {
    if calls == [] then 0 else Boxes(calls[0]) + TotalBoxes(calls[1..])
  }

  predicate SomeTooLate(calls: seq<Call>) {
    exists i :: 0 <= i < |calls| && AsksTooLate(calls[i])
  }

  lemma SomeTooLateCons(calls: seq<Call>)
    requires calls != []
    ensures SomeTooLate(calls) <==> AsksTooLate(calls[0]) || SomeTooLate(calls[1..])
  {
    hide AsksTooLate;
    assert forall i :: 1 <= i < |calls| ==> calls[i] == calls[1..][i - 1];
    if SomeTooLate(calls[1..]) {
      var i :| 0 <= i < |calls[1..]| && AsksTooLate(calls[1..][i]);
      assert AsksTooLate(calls[i + 1]);
    }
  }

  /**
   * Any sequence of requests, with any callbacks and outcomes: every box is reclaimed exactly
   * once, in order; the pointer is null in between; one box is made per call that passes the
   * early checks; callbacks get only boxes of these calls; and none of them is obtained after
   * its reclamation exactly when no call has a failing startup followed by a shutdown that asks
   * for the context.
   */
  lemma {:induction false} EveryRun(m: Machine, calls: seq<Call>)
    requires Clean(m)
    ensures var r := ExecuteAll(m, calls);
            && Clean(r)
            && r.boxed == m.boxed + TotalBoxes(calls)
            && Within(m.fetches, r.fetches, m.boxed, r.boxed)
            && (LateSince(m.fetches, r.fetches) <==> SomeTooLate(calls))
    decreases calls
  {
    if calls == [] {
      NoHistory(m.fetches, m.boxed);
    } else {
      OneCall(m, calls[0]);
      SomeTooLateCons(calls);
      hide Clean, Execute, AsksTooLate, Ready, SomeTooLate, Boxes, Within, LateSince;
      var next := Execute(m, calls[0]);
      var r := ExecuteAll(m, calls);
      EveryRun(next, calls[1..]);
      HistoryChain(m.fetches, next.fetches, r.fetches, m.boxed, next.boxed, r.boxed);
    }
  }

  // ---------------------------------------------------------------- an access that comes too late

  /** A request whose startup fails and whose shutdown logs one message. */
  const FAILING: Job :=
    Job(true, true, "a.php", [], [], [], [], false,
        PhpRun([], false, [], false, [LogMessage(Some([33]), 3)], _ => false))

  /** From any clean state, the callback of that message obtains the context after its reclamation. */
  lemma LateAccess(m: Machine)
    requires Clean(m)
    ensures Ready(m)
    ensures var r := Execute(m, StreamingCall(FAILING));
            && r.reclaimed == m.reclaimed + [m.boxed]
            && r.fetches == m.fetches + [Fetched(m.boxed, false), Fetched(m.boxed, false)]
  {
    CleanIsReady(m);
    hide FromExecution;
    var c := InitialContext(m.policy, FAILING, true);
    var started := StartPhase(m, c, FAILING.php);
    assert started == Activate(SetupGlobals(Install(m, c), c, m.boxed));
    assert NulFree("a.php");
    var stale := Reclaim(started, m.boxed);
    assert Run(stale, FAILING.php.shutdown) == Step(stale, FAILING.php.shutdown[0]).0;
  }
}
