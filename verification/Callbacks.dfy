/**
 * The callbacks that PHP makes during a request. PHP itself is an arbitrary sequence of events;
 * contexts live in boxes that are numbered in the order of their creation.
 */
module Callbacks {
  import opened Bytes
  import opened OutputBuffers
  import opened ResponseHeaders
  import opened ServerContexts
  import opened ServerVariables

  const HTTP_STATUS_MIN := 100
  const HTTP_STATUS_MAX := 599
  const HTTP_STATUS_FALLBACK: nat := 500
  const SENT_SUCCESSFULLY := 1
  const SEND_FAILED := 0

  /** The variable that is registered first, and even without a context. */
  const SERVER_SOFTWARE: Pair := ("SERVER_SOFTWARE", "Ripht/0.1.0-rc.7")

  /** One entry of PHP's header list; `None` for a null text pointer. */
  type RawHeader = Option<seq<byte>>

  datatype HeaderStruct = HeaderStruct(code: int, list: seq<RawHeader>)

  /** A C string that PHP was given: none, a constant, or one that a box owns. */
  datatype CString = Null | Static(text: string) | Borrowed(box: nat, text: string)

  datatype RequestInfo = RequestInfo(
    requestMethod: CString,
    contentType: CString,
    contentLength: nat,
    queryString: CString,
    cookieData: CString)

  /** The fields of `sapi_globals` that matter here, other than the context pointer. */
  datatype Globals = Globals(
    info: RequestInfo,
    headers: HeaderStruct,
    headersSent: bool,
    postRead: bool,
    ini: seq<Pair>)

  /** A box that a callback obtained through the pointer, and whether it was live then. */
  datatype Fetched = Fetched(box: nat, live: bool)

  /**
   * `boxed` boxes have been created so far; `live` are not reclaimed, `reclaimed` lists the
   * reclaimed ones in order. `ptr` is the context pointer, `context` the value behind it if that
   * box is live. `fetches` is the history of what callbacks obtained through the pointer.
   */
  datatype Machine = Machine(
    policy: BufferPolicy,
    boxed: nat,
    live: set<nat>,
    reclaimed: seq<nat>,
    ptr: Option<nat>,
    context: Option<Context>,
    fetches: seq<Fetched>,
    g: Globals)

  /** What PHP may do. The arguments are `None` where PHP may pass a null pointer. */
  datatype Event =
    | UbWrite(text: Option<seq<byte>>)
    | Flush
    | ChangeHeaders(headers: HeaderStruct)
    | SendHeaders(struct: Option<HeaderStruct>)
    | SendHeader(header: Option<RawHeader>)
    | ReadPostBody(size: Option<nat>)
    | ReadCookies
    | RegisterVariables(hasArray: bool)
    | LogMessage(message: Option<seq<byte>>, level: int)
    | GetEnvironment(name: Option<string>)

  datatype Reply =
    | Nothing
    | Count(n: nat)
    | Sent(code: int)
    | Post(data: seq<byte>)
    | Value(text: Option<string>)
    | Variables(vars: seq<Pair>)

  // ---------------------------------------------------------------- callbacks on values

  function Fetch(m: Machine): Machine {
    match m.ptr
    case None => m
    case Some(id) => m.(fetches := m.fetches + [Fetched(id, id in m.live)])
  }

  function FetchTimes(m: Machine, n: nat): (r: Machine)
    ensures r == m.(fetches := r.fetches)
  {
    if n == 0 then m else Fetch(FetchTimes(m, n - 1))
  }

  lemma {:induction false} FetchTimesOf(m: Machine, context: Option<Context>, n: nat)
    ensures FetchTimes(m.(context := context), n) == FetchTimes(m, n).(context := context)
  {
    if n > 0 {
      FetchTimesOf(m, context, n - 1);
    }
  }

  function ClampStatus(code: int): nat {
    if HTTP_STATUS_MIN <= code <= HTTP_STATUS_MAX then code else HTTP_STATUS_FALLBACK
  }

  function WithHeader(c: Context, raw: RawHeader): Context {
    match raw
    case None => c
    case Some(bytes) =>
      if bytes == [] then c
      else
        match ParseLine(bytes)
        case None => c
        case Some(h) => c.(headers := c.headers + [h])
  }

  function WithHeaders(c: Context, list: seq<RawHeader>): Context
    decreases list
  {
    if list == [] then c else WithHeaders(WithHeader(c, list[0]), list[1..])
  }

  /** What a successful `send_headers` does to the context. */
  function Capture(c: Context, hs: HeaderStruct): Context {
    WithHeaders(c.(status := ClampStatus(hs.code), headers := [], captured := true), hs.list)
  }

  function OnSendHeader(m: Machine, header: Option<RawHeader>): Machine {
    match header
    case None => m
    case Some(raw) =>
      var f := Fetch(m);
      match f.context
      case None => f
      case Some(c) => f.(context := Some(WithHeader(c, raw)))
  }

  /** One fetch for the call and one for each line of the list. */
  function OnSendHeaders(m: Machine, struct: Option<HeaderStruct>): (Machine, int) {
    match struct
    case None => (m, SEND_FAILED)
    case Some(hs) =>
      var f := Fetch(m);
      match f.context
      case None => (f, SEND_FAILED)
      case Some(c) => (FetchTimes(f, |hs.list|).(context := Some(Capture(c, hs))), SENT_SUCCESSFULLY)
  }

  /** PHP's own `sapi_send_headers`: nothing once headers are sent, else one `send_headers`. */
  function SapiSendHeaders(m: Machine): Machine {
    if m.g.headersSent then m
    else
      var (f, code) := OnSendHeaders(m, Some(m.g.headers));
      if code == SENT_SUCCESSFULLY then f.(g := f.g.(headersSent := true)) else f
  }

  predicate Sound(m: Machine) {
    && Usable(m.policy)
    && (m.context.Some? ==> WellFormed(m.context.value) && m.ptr.Some? && m.ptr.value in m.live)
  }

  function OnUbWrite(m: Machine, text: Option<seq<byte>>): (Machine, nat)
    requires Sound(m)
  {
    if text.None? || text.value == [] then (m, 0)
    else
      var f := Fetch(SapiSendHeaders(m));
      match f.context
      case None => (f, 0)
      case Some(c) =>
        var (after, n) := AfterWrite(f.policy, c, text.value);
        (f.(context := Some(after)), n)
  }

  function OnReadPost(m: Machine, size: Option<nat>): (Machine, seq<byte>)
    requires Sound(m)
  {
    if size.None? || size.value == 0 then (m, [])
    else
      var f := Fetch(m);
      match f.context
      case None => (f, [])
      case Some(c) =>
        var (after, data) := AfterRead(c, size.value);
        (f.(context := Some(after)), data)
  }

  /** The context is fetched for its flag and again for its messages. */
  function OnLogMessage(m: Machine, message: Option<seq<byte>>, level: int): Machine {
    match message
    case None => m
    case Some(bytes) =>
      var f := Fetch(Fetch(m));
      match f.context
      case None => f
      case Some(c) => f.(context := Some(c.(messages := c.messages + [Message(LevelFromRaw(level), Text(bytes))])))
  }

  /** One event and its reply. */
  function Step(m: Machine, e: Event): (Machine, Reply)
    requires Sound(m)
  {
    match e
    case UbWrite(text) => var (f, n) := OnUbWrite(m, text); (f, Count(n))
    case Flush => (Fetch(SapiSendHeaders(m)), Nothing)
    case ChangeHeaders(headers) => (m.(g := m.g.(headers := headers)), Nothing)
    case SendHeaders(struct) => var (f, code) := OnSendHeaders(m, struct); (f, Sent(code))
    case SendHeader(header) => (OnSendHeader(m, header), Nothing)
    case ReadPostBody(size) => var (f, data) := OnReadPost(m, size); (f, Post(data))
    case ReadCookies =>
      var f := Fetch(m);
      (f, Value(if f.context.None? then None else f.context.value.vars.cookie))
    case RegisterVariables(hasArray) =>
      if !hasArray then (m, Variables([]))
      else
        var f := Fetch(m);
        (f, Variables([SERVER_SOFTWARE] + if f.context.None? then [] else f.context.value.vars.vars))
    case LogMessage(message, level) => (OnLogMessage(m, message, level), Nothing)
    case GetEnvironment(name) =>
      if name.None? || name.value == "" then (m, Value(None))
      else
        var f := Fetch(m);
        (f, Value(if f.context.None? then None else GetEnv(f.context.value.env, name.value)))
  }

  lemma {:induction false} WithHeadersFacts(c: Context, list: seq<RawHeader>)
    ensures WithHeaders(c, list) == c.(headers := WithHeaders(c, list).headers)
    decreases list
  {
    hide ParseLine;
    if list != [] {
      WithHeadersFacts(WithHeader(c, list[0]), list[1..]);
    }
  }

  lemma StepSound(m: Machine, e: Event)
    requires Sound(m)
    ensures Sound(Step(m, e).0)
  {
    hide ParseLine, WithHeaders, Append;
    if m.context.Some? {
      var c := m.context.value;
      WithHeadersFacts(c.(status := ClampStatus(m.g.headers.code), headers := [], captured := true), m.g.headers.list);
      if e.SendHeaders? && e.struct.Some? {
        WithHeadersFacts(c.(status := ClampStatus(e.struct.value.code), headers := [], captured := true), e.struct.value.list);
      }
    }
  }

  function Run(m: Machine, events: seq<Event>): (r: Machine)
    requires Sound(m)
    ensures Sound(r)
    decreases events
  {
    if events == [] then m
    else
      StepSound(m, events[0]);
      Run(Step(m, events[0]).0, events[1..])
  }

  /** The replies that PHP gets along a run. */
  function RunReplies(m: Machine, events: seq<Event>): (replies: seq<Reply>)
    requires Sound(m)
    ensures |replies| == |events|
    decreases events
  {
    if events == [] then []
    else
      StepSound(m, events[0]);
      [Step(m, events[0]).1] + RunReplies(Step(m, events[0]).0, events[1..])
  }

  // ---------------------------------------------------------------- the callbacks themselves

  /** `sapi_globals` with the boxes of the process. */
  class Sapi {
    const policy: BufferPolicy

    var boxed: nat
    var live: set<nat>
    var reclaimed: seq<nat>
    var serverContext: ServerContext?
    var fetches: seq<Fetched>
    var g: Globals

    ghost predicate Valid()
      reads this, serverContext
    {
      && Usable(policy)
      && (Alive() ==> serverContext.Valid() && serverContext.policy == policy)
    }

    /** The pointer is not null and its box has not been reclaimed. */
    predicate Alive()
      reads this
    {
      serverContext != null && serverContext.id in live
    }

    ghost function Sink(): OutputCallback?
      reads this
    {
      if serverContext == null then null else serverContext.outputCallback
    }

    ghost function State(): (m: Machine)
      reads this, serverContext, Sink()
      ensures Valid() ==> Sound(m)
    {
      Machine(policy, boxed, live, reclaimed,
              if serverContext == null then None else Some(serverContext.id),
              if Alive() then Some(serverContext.View()) else None,
              fetches, g)
    }

    constructor (policy: BufferPolicy, g: Globals)
      requires Usable(policy)
      ensures Valid() && State() == Machine(policy, 0, {}, [], None, None, [], g)
    {
      this.policy, this.g := policy, g;
      boxed, live, reclaimed, serverContext := 0, {}, [], null;
      fetches := [];
    }

    /**
     * The context behind the pointer. A null pointer gives null, as in the source. Nothing can
     * be done with a reclaimed box either; obtaining one is recorded.
     */
    method GetContext() returns (c: ServerContext?)
      requires Valid()
      modifies this`fetches
      ensures Valid() && State() == Fetch(old(State()))
      ensures c == if Alive() then serverContext else null
    {
      if serverContext == null {
        return null;
      }
      fetches := fetches + [Fetched(serverContext.id, serverContext.id in live)];
      c := if serverContext.id in live then serverContext else null;
    }

    method RiphtSendHeader(header: Option<RawHeader>)
      requires Valid()
      modifies this`fetches, serverContext
      ensures Valid() && State() == OnSendHeader(old(State()), header)
    {
      if header.None? {
        return;
      }
      var c := GetContext();
      if c == null {
        return;
      }
      if header.value.None? || header.value.value == [] {
        return;
      }
      var h := Parse(header.value.value);
      if h.Some? {
        c.AddHeader(h.value);
      }
    }

    method RiphtSendHeaders(struct: Option<HeaderStruct>) returns (code: int)
      requires Valid()
      modifies this`fetches, serverContext
      ensures Valid() && (State(), code) == OnSendHeaders(old(State()), struct)
    {
      hide ParseLine, WithHeader;
      if struct.None? {
        return SEND_FAILED;
      }
      var c := GetContext();
      if c == null {
        return SEND_FAILED;
      }
      ghost var found := State();
      var status := struct.value.code;
      c.statusCode := if !(HTTP_STATUS_MIN <= status <= HTTP_STATUS_MAX) then HTTP_STATUS_FALLBACK else status;
      c.responseHeaders := [];
      c.captured := true;
      var list := struct.value.list;
      ghost var start := State();
      for i := 0 to |list|
        invariant Valid() && Alive()
        invariant State() == FetchTimes(start, i).(context := State().context)
        invariant WithHeaders(State().context.value, list[i..]) == WithHeaders(start.context.value, list)
      {
        assert list[i..][1..] == list[i + 1..];
        RiphtSendHeader(Some(list[i]));
      }
      FetchTimesOf(found, start.context, |list|);
      assert list[|list|..] == [];
      code := SENT_SUCCESSFULLY;
    }

    /** PHP's `sapi_send_headers`; it marks the headers as sent when the callback succeeds. */
    method PhpSendHeaders()
      requires Valid()
      modifies this`fetches, this`g, serverContext
      ensures Valid() && State() == SapiSendHeaders(old(State()))
    {
      if g.headersSent {
        return;
      }
      var code := RiphtSendHeaders(Some(g.headers));
      if code == SENT_SUCCESSFULLY {
        g := g.(headersSent := true);
      }
    }

    method RiphtUbWrite(text: Option<seq<byte>>) returns (n: nat)
      requires Valid()
      modifies this`fetches, this`g, serverContext, Sink()
      ensures Valid() && (State(), n) == OnUbWrite(old(State()), text)
    {
      hide ParseLine, Append;
      if text.None? || |text.value| == 0 {
        return 0;
      }
      if !g.headersSent {
        PhpSendHeaders();
      }
      var c := GetContext();
      if c == null {
        return 0;
      }
      var written := c.WriteOutput(text.value);
      n := if written.Some? then written.value else 0;
    }

    method RiphtFlush()
      requires Valid()
      modifies this`fetches, this`g, serverContext
      ensures Valid() && State() == Fetch(SapiSendHeaders(old(State())))
    {
      if !g.headersSent {
        PhpSendHeaders();
      }
      var _ := GetContext();
    }

    method RiphtReadPost(buffer: array?<byte>) returns (n: nat)
      requires Valid()
      modifies this`fetches, serverContext, buffer
      ensures Valid()
      ensures var (after, data) := OnReadPost(old(State()), if buffer == null then None else Some(buffer.Length));
              && State() == after
              && n == |data|
              && (buffer == null ==> n == 0)
              && (buffer != null ==> n <= buffer.Length && buffer[..n] == data && buffer[n..] == old(buffer[n..]))
    {
      if buffer == null || buffer.Length == 0 {
        return 0;
      }
      var c := GetContext();
      if c == null {
        return 0;
      }
      n := c.ReadPost(buffer);
    }

    method RiphtLogMessage(message: Option<seq<byte>>, level: int)
      requires Valid()
      modifies this`fetches, serverContext
      ensures Valid() && State() == OnLogMessage(old(State()), message, level)
    {
      if message.None? {
        return;
      }
      var _ := GetContext();
      var c := GetContext();
      if c != null {
        c.AddMessage(Message(LevelFromRaw(level), Text(message.value)));
      }
    }

    /** One thing that PHP does. */
    method Fire(e: Event) returns (reply: Reply)
      requires Valid()
      modifies this`fetches, this`g, serverContext, Sink()
      ensures Valid() && (State(), reply) == Step(old(State()), e)
    {
      hide OnUbWrite, OnSendHeaders, OnSendHeader, OnReadPost, OnLogMessage, SapiSendHeaders;
      match e {
        case UbWrite(text) =>
          var n := RiphtUbWrite(text);
          reply := Count(n);
        case Flush =>
          RiphtFlush();
          reply := Nothing;
        case ChangeHeaders(headers) =>
          g := g.(headers := headers);
          reply := Nothing;
        case SendHeaders(struct) =>
          var code := RiphtSendHeaders(struct);
          reply := Sent(code);
        case SendHeader(header) =>
          RiphtSendHeader(header);
          reply := Nothing;
        case ReadPostBody(size) =>
          var buffer: array?<byte> := null;
          if size.Some? {
            buffer := new byte[size.value];
          }
          var n := RiphtReadPost(buffer);
          reply := Post(if buffer == null then [] else buffer[..n]);
        case ReadCookies =>
          var c := GetContext();
          reply := Value(if c == null then None else c.vars.cookie);
        case RegisterVariables(hasArray) =>
          if hasArray {
            var c := GetContext();
            reply := Variables([SERVER_SOFTWARE] + if c == null then [] else c.vars.vars);
          } else {
            reply := Variables([]);
          }
        case LogMessage(message, level) =>
          RiphtLogMessage(message, level);
          reply := Nothing;
        case GetEnvironment(name) =>
          if name.None? || |name.value| == 0 {
            reply := Value(None);
          } else {
            var c := GetContext();
            reply := Value(if c == null then None else GetEnv(c.envVars, name.value));
          }
      }
    }

    /** A stretch of PHP's execution. */
    method FireAll(events: seq<Event>) returns (replies: seq<Reply>)
      requires Valid()
      modifies this`fetches, this`g, serverContext, Sink()
      ensures Valid()
      ensures State() == Run(old(State()), events)
      ensures replies == RunReplies(old(State()), events)
    {
      hide Step;
      replies := [];
      for i := 0 to |events|
        invariant Valid()
        invariant Run(State(), events[i..]) == Run(old(State()), events)
        invariant replies + RunReplies(State(), events[i..]) == RunReplies(old(State()), events)
      {
        assert events[i..][1..] == events[i + 1..];
        StepSound(State(), events[i]);
        ghost var before := State();
        var reply := Fire(events[i]);
        ConcatAssoc(replies, [reply], RunReplies(State(), events[i + 1..]));
        replies := replies + [reply];
      }
    }
  }
}
