/** What holds over every sequence of callbacks while a context is live. */
module RequestRuns {
  import opened Bytes
  import opened Callbacks
  import opened Division
  import opened OutputBuffers
  import opened ResponseHeaders
  import opened ServerContexts
  import Utf8

  /** The pointer leads to a live context. */
  predicate Serving(m: Machine) {
    Sound(m) && m.context.Some?
  }

  // ---------------------------------------------------------------- the box

  /** A history that went on with fetches of one box only, all while it was live or all later. */
  ghost predicate Only(before: seq<Fetched>, after: seq<Fetched>, box: nat, live: bool) {
    before <= after && forall i :: |before| <= i < |after| ==> after[i] == Fetched(box, live)
  }

  lemma OnlyChain(a: seq<Fetched>, b: seq<Fetched>, c: seq<Fetched>, box: nat, live: bool)
    requires Only(a, b, box, live) && Only(b, c, box, live)
    ensures Only(a, c, box, live)
  {
  }

  /** No box is created or reclaimed; every fetch is of the current box, which is live. */
  ghost predicate SameBox(m: Machine, r: Machine)
    requires m.ptr.Some?
  {
    && r == m.(context := r.context, fetches := r.fetches, g := r.g)
    && r.g == m.g.(headers := r.g.headers, headersSent := r.g.headersSent)
    && Only(m.fetches, r.fetches, m.ptr.value, true)
  }

  /** What no callback changes in the context itself. */
  ghost predicate SameRequest(c: Context, d: Context) {
    && d == c.(status := d.status, pos := d.pos, buffer := d.buffer, messages := d.messages,
               headers := d.headers, streamed := d.streamed, captured := d.captured)
    && (d.streamed.Some? <==> c.streamed.Some?)
    && c.messages <= d.messages
    && (c.captured ==> d.captured)
  }

  lemma CaptureFields(c: Context, hs: HeaderStruct)
    ensures Capture(c, hs) == c.(status := ClampStatus(hs.code), headers := ParseAll(hs.list), captured := true)
  {
    hide ParseLine;
    var start := c.(status := ClampStatus(hs.code), headers := [], captured := true);
    WithHeadersParse(start, hs.list);
    assert [] + ParseAll(hs.list) == ParseAll(hs.list);
  }

  function Repeated(f: Fetched, n: nat): (r: seq<Fetched>)
    ensures |r| == n && forall i :: 0 <= i < n ==> r[i] == f
  {
    if n == 0 then [] else Repeated(f, n - 1) + [f]
  }

  lemma FetchLive(m: Machine)
    requires Serving(m)
    ensures Fetch(m) == m.(fetches := m.fetches + [Fetched(m.ptr.value, true)])
  {
  }

  lemma {:induction false} FetchTimesLive(m: Machine, n: nat)
    requires Serving(m)
    ensures FetchTimes(m, n) == m.(fetches := m.fetches + Repeated(Fetched(m.ptr.value, true), n))
  {
    if n == 0 {
      assert m.fetches + [] == m.fetches;
    } else {
      FetchTimesLive(m, n - 1);
      var f := Fetched(m.ptr.value, true);
      assert m.fetches + (Repeated(f, n - 1) + [f]) == m.fetches + Repeated(f, n - 1) + [f];
    }
  }

  /** The history once PHP has made sure that headers are sent and has fetched the context again. */
  function SentFetches(m: Machine): (after: seq<Fetched>)
    requires Serving(m)
    ensures Only(m.fetches, after, m.ptr.value, true) && |after| > |m.fetches|
  {
    var f := Fetched(m.ptr.value, true);
    if m.g.headersSent then m.fetches + [f]
    else m.fetches + [f] + Repeated(f, |m.g.headers.list|) + [f]
  }

  /** PHP's sending of headers, with a live context: at most one capture. */
  lemma SendResult(m: Machine)
    requires Serving(m)
    ensures Fetch(SapiSendHeaders(m)) == m.(
              fetches := SentFetches(m),
              g := m.g.(headersSent := true),
              context := Some(SentContext(m)))
  {
    CaptureFields(m.context.value, m.g.headers);
    FetchLive(m);
    FetchTimesLive(Fetch(m), |m.g.headers.list|);
    hide Capture, ParseAll, FetchTimes, Repeated;
  }

  /** The context once PHP has made sure that headers are sent. */
  function SentContext(m: Machine): Context
    requires Serving(m)
  {
    var (hs, c) := (m.g.headers, m.context.value);
    if m.g.headersSent then c
    else c.(status := ClampStatus(hs.code), headers := ParseAll(hs.list), captured := true)
  }

  /** What an event does to the live context. */
  function NextContext(m: Machine, e: Event): Context
    requires Serving(m)
  {
    var c := m.context.value;
    match e
    case UbWrite(Some(text)) => if text == [] then c else AfterWrite(m.policy, SentContext(m), text).0
    case Flush => SentContext(m)
    case SendHeaders(Some(hs)) =>
      c.(status := ClampStatus(hs.code), headers := ParseAll(hs.list), captured := true)
    case SendHeader(Some(raw)) => WithHeader(c, raw)
    case ReadPostBody(Some(size)) => AfterRead(c, size).0
    case LogMessage(Some(text), level) => c.(messages := c.messages + [Message(LevelFromRaw(level), Text(text))])
    case _ => c
  }

  /** One event with a live context: its effect, and the replies that carry bytes. */
  ghost predicate Effect(m: Machine, e: Event, r: Machine, reply: Reply)
    requires Serving(m)
  {
    && r == m.(context := Some(NextContext(m, e)), fetches := r.fetches, g := r.g)
    && r.g == m.g.(headers := r.g.headers, headersSent := r.g.headersSent)
    && Only(m.fetches, r.fetches, m.ptr.value, true)
    && (r.g.headersSent ==> m.g.headersSent || Triggers(m, e))
    && (reply.Count? <==> e.UbWrite?)
    && (e.UbWrite? ==> reply.n == if e.text.None? || e.text.value == [] then 0
                                  else AfterWrite(m.policy, SentContext(m), e.text.value).1)
    && (reply.Post? <==> e.ReadPostBody?)
    && (e.ReadPostBody? ==> reply.data == if e.size.None? then [] else AfterRead(m.context.value, e.size.value).1)
  }

  /** Events that may make PHP send the headers it holds. */
  lemma SendingEffect(m: Machine, e: Event)
    requires Serving(m) && (e.UbWrite? || e.Flush?)
    ensures var (r, reply) := Step(m, e); Effect(m, e, r, reply)
  {
    SendResult(m);
    hide SapiSendHeaders, Fetch, Append, SentFetches, SentContext;
  }

  lemma CaptureEffect(m: Machine, e: Event)
    requires Serving(m) && e.SendHeaders?
    ensures var (r, reply) := Step(m, e); Effect(m, e, r, reply)
  {
    FetchLive(m);
    if e.struct.Some? {
      CaptureFields(m.context.value, e.struct.value);
      FetchTimesLive(Fetch(m), |e.struct.value.list|);
    }
    hide ParseAll, ClampStatus, Capture, FetchTimes, Repeated, SentContext;
  }

  lemma PlainEffect(m: Machine, e: Event)
    requires Serving(m) && !e.UbWrite? && !e.Flush? && !e.SendHeaders?
    ensures var (r, reply) := Step(m, e); Effect(m, e, r, reply)
  {
    FetchLive(m);
    FetchLive(Fetch(m));
    hide Fetch, WithHeader, SentContext;
  }

  lemma StepEffect(m: Machine, e: Event)
    requires Serving(m)
    ensures var (r, reply) := Step(m, e); Effect(m, e, r, reply)
  {
    hide Effect, Step;
    if e.UbWrite? || e.Flush? {
      SendingEffect(m, e);
    } else if e.SendHeaders? {
      CaptureEffect(m, e);
    } else {
      PlainEffect(m, e);
    }
  }

  /** A write changes nothing but the two places that output can go to. */
  lemma WriteKeeps(p: BufferPolicy, c: Context, data: seq<byte>)
    requires Usable(p)
    ensures var d := AfterWrite(p, c, data).0; d == c.(buffer := d.buffer, streamed := d.streamed)
  {
    hide Append;
  }

  lemma WithHeaderOnly(c: Context, raw: RawHeader)
    ensures WithHeader(c, raw) == c.(headers := WithHeader(c, raw).headers)
  {
    hide ParseLine;
  }

  lemma StepKeepsBox(m: Machine, e: Event)
    requires Serving(m)
    ensures var r := Step(m, e).0;
            Serving(r) && SameBox(m, r) && SameRequest(m.context.value, r.context.value)
  {
    StepSound(m, e);
    StepEffect(m, e);
    hide Step, Append, ParseAll, WithHeader;
    if e.SendHeader? && e.header.Some? {
      WithHeaderOnly(m.context.value, e.header.value);
    }
  }

  lemma {:induction false} RunKeepsBox(m: Machine, events: seq<Event>)
    requires Serving(m)
    ensures var r := Run(m, events);
            Serving(r) && SameBox(m, r) && SameRequest(m.context.value, r.context.value)
    decreases events
  {
    if events != [] {
      StepKeepsBox(m, events[0]);
      hide Step, Only;
      var next := Step(m, events[0]).0;
      RunKeepsBox(next, events[1..]);
      OnlyChain(m.fetches, next.fetches, Run(m, events).fetches, m.ptr.value, true);
    }
  }

  // ---------------------------------------------------------------- headers

  /** The headers that a list of lines denotes: malformed lines are dropped, order is kept. */
  function ParseAll(list: seq<RawHeader>): seq<Header> {
    if list == [] then []
    else
      var last := list[|list| - 1];
      ParseAll(list[..|list| - 1])
      + match last
        case None => []
        case Some(bytes) => if ParseLine(bytes).Some? then [ParseLine(bytes).value] else []
  }

  /** What each line of a list denotes by itself. */
  function LineValues(list: seq<RawHeader>): (values: seq<Option<Header>>)
    ensures |values| == |list|
    ensures forall i :: 0 <= i < |list| ==> values[i] == if list[i].Some? then ParseLine(list[i].value) else None
  {
    if list == [] then []
    else
      var last := list[|list| - 1];
      LineValues(list[..|list| - 1]) + [if last.Some? then ParseLine(last.value) else None]
  }

  lemma {:induction false} ParseAllCollects(list: seq<RawHeader>)
    ensures Collects(LineValues(list), ParseAll(list))
  {
    hide ParseLine;
    if list != [] {
      var (before, last) := (list[..|list| - 1], list[|list| - 1]);
      ParseAllCollects(before);
      var value := if last.Some? then ParseLine(last.value) else None;
      CollectsSnoc(LineValues(before), ParseAll(before), value);
      hide Collects;
      assert ParseAll(before) + [] == ParseAll(before);
    }
  }

  lemma EmptyLine()
    ensures ParseLine([]) == None
  {
  }

  lemma WithHeaderParse(c: Context, list: seq<RawHeader>, raw: RawHeader)
    requires c.headers == ParseAll(list)
    ensures WithHeader(c, raw) == c.(headers := ParseAll(list + [raw]))
  {
    EmptyLine();
    hide ParseLine;
    assert (list + [raw])[..|list|] == list;
    assert ParseAll(list) + [] == ParseAll(list);
  }

  lemma {:induction false} WithHeadersFrom(c: Context, done: seq<RawHeader>, list: seq<RawHeader>)
    requires c.headers == ParseAll(done)
    ensures WithHeaders(c, list) == c.(headers := ParseAll(done + list))
    decreases list
  {
    hide ParseLine, WithHeader, ParseAll;
    if list == [] {
      assert done + list == done;
    } else {
      WithHeaderParse(c, done, list[0]);
      WithHeadersFrom(WithHeader(c, list[0]), done + [list[0]], list[1..]);
      assert done + [list[0]] + list[1..] == done + list;
    }
  }

  lemma WithHeadersParse(c: Context, list: seq<RawHeader>)
    requires c.headers == []
    ensures WithHeaders(c, list) == c.(headers := ParseAll(list))
  {
    WithHeadersFrom(c, [], list);
    assert [] + list == list;
  }

  /**
   * A capture, by a direct call or by the first output or flush: the status is the code if that
   * is an HTTP status and 500 otherwise; the headers are those that the lines of the list denote,
   * in order. After output or flush PHP counts the headers as sent.
   */
  lemma CaptureLaw(m: Machine, e: Event, code: int, list: seq<RawHeader>)
    requires Serving(m)
    requires e == SendHeaders(Some(HeaderStruct(code, list)))
             || (m.g.headers == HeaderStruct(code, list) && !m.g.headersSent
                 && (e.Flush? || (e.UbWrite? && e.text.Some? && e.text.value != [])))
    ensures var r := Step(m, e).0;
            && r.context.Some?
            && r.context.value.status == (if 100 <= code <= 599 then code else 500)
            && Collects(LineValues(list), r.context.value.headers)
            && r.context.value.captured
            && (!e.SendHeaders? ==> r.g.headersSent)
  {
    ParseAllCollects(list);
    StepEffect(m, e);
    if !e.SendHeaders? {
      SentAfter(m, e);
    }
    if e.UbWrite? && e.text.Some? {
      WriteKeeps(m.policy, SentContext(m), e.text.value);
    }
    hide Step, ParseAll, LineValues, Collects, AfterWrite, Only;
  }

  lemma SentAfter(m: Machine, e: Event)
    requires Serving(m) && (e.Flush? || (e.UbWrite? && e.text.Some? && e.text.value != []))
    ensures Step(m, e).0.g.headersSent
  {
    SendResult(m);
    hide SapiSendHeaders, Fetch, Append, SentFetches, SentContext;
  }

  /** A direct `send_headers` succeeds and leaves PHP's own globals alone. */
  lemma SentIsSent(m: Machine, hs: HeaderStruct)
    requires Serving(m)
    ensures var (r, reply) := Step(m, SendHeaders(Some(hs))); reply == Sent(SENT_SUCCESSFULLY) && r.g == m.g
  {
    hide Capture;
  }

  /** Sending the same list again changes nothing but the history of fetches. */
  lemma ResendChangesNothing(m: Machine, hs: HeaderStruct)
    requires Serving(m)
    ensures var (r, reply) := Step(m, SendHeaders(Some(hs)));
            && reply == Sent(SENT_SUCCESSFULLY)
            && r.context.value.headers == ParseAll(hs.list)
            && r.context.value.status == ClampStatus(hs.code)
            && Sound(r)
            && var (again, reply') := Step(r, SendHeaders(Some(hs)));
               again == r.(fetches := again.fetches) && reply' == reply
  {
    var e := SendHeaders(Some(hs));
    var (r, reply) := Step(m, e);
    StepSound(m, e);
    StepEffect(m, e);
    StepEffect(r, e);
    SentIsSent(m, hs);
    SentIsSent(r, hs);
    hide Step, ParseAll, Only, SentContext;
  }

  /** What went out last: a status and the lines walked since the last `send_headers`. */
  datatype Wire = Wire(status: nat, lines: seq<RawHeader>)

  /** Whether an event makes PHP send the headers it holds. */
  predicate Triggers(m: Machine, e: Event) {
    !m.g.headersSent && (e.Flush? || (e.UbWrite? && e.text.Some? && e.text.value != []))
  }

  /** The status that a code stands for on the wire. */
  function StatusOf(code: int): (status: nat)
    ensures 100 <= code <= 599 ==> status == code
    ensures !(100 <= code <= 599) ==> status == 500
  {
    if 100 <= code <= 599 then code else 500
  }

  function WireStep(m: Machine, e: Event, w: Wire): Wire {
    if Triggers(m, e) then Wire(StatusOf(m.g.headers.code), m.g.headers.list)
    else
      match e
      case SendHeaders(Some(hs)) => Wire(StatusOf(hs.code), hs.list)
      case SendHeader(Some(raw)) => w.(lines := w.lines + [raw])
      case _ => w
  }

  function WireRun(m: Machine, events: seq<Event>, w: Wire): Wire
    requires Sound(m)
    decreases events
  {
    if events == [] then w
    else
      StepSound(m, events[0]);
      WireRun(Step(m, events[0]).0, events[1..], WireStep(m, events[0], w))
  }

  ghost predicate OnWire(c: Context, w: Wire) {
    c.status == w.status && c.headers == ParseAll(w.lines)
  }

  lemma StepWire(m: Machine, e: Event, w: Wire)
    requires Serving(m) && OnWire(m.context.value, w)
    ensures var r := Step(m, e).0; r.context.Some? && OnWire(r.context.value, WireStep(m, e, w))
  {
    StepEffect(m, e);
    hide Step, AfterWrite, WithHeader, ParseAll, Only;
    if e.UbWrite? && e.text.Some? {
      WriteKeeps(m.policy, SentContext(m), e.text.value);
    }
    if e.SendHeader? && e.header.Some? {
      WithHeaderParse(m.context.value, w.lines, e.header.value);
    }
  }

  /**
   * Over every callback sequence, status and response headers are exactly the parse of the
   * lines walked since the last capture, in order.
   */
  lemma {:induction false} RunWire(m: Machine, events: seq<Event>, w: Wire)
    requires Serving(m) && OnWire(m.context.value, w)
    ensures var r := Run(m, events); r.context.Some? && OnWire(r.context.value, WireRun(m, events, w))
    decreases events
  {
    if events != [] {
      StepKeepsBox(m, events[0]);
      StepWire(m, events[0], w);
      hide Step, WireStep, OnWire;
      RunWire(Step(m, events[0]).0, events[1..], WireStep(m, events[0], w));
    }
  }

  // ---------------------------------------------------------------- messages

  /** The messages that PHP logs, in order. */
  function Logged(events: seq<Event>): seq<Message> {
    if events == [] then []
    else
      (match events[0]
       case LogMessage(Some(text), level) => [Message(LevelFromRaw(level), Utf8.Lossy(text))]
       case _ => [])
      + Logged(events[1..])
  }

  lemma StepMessages(m: Machine, e: Event)
    requires Serving(m)
    ensures var r := Step(m, e).0;
            r.context.Some? && r.context.value.messages == m.context.value.messages + Logged([e])
  {
    var c := m.context.value;
    StepEffect(m, e);
    hide Step, ParseAll, AfterWrite, WithHeader, Only;
    assert [e][1..] == [] && Logged([]) == [];
    assert c.messages + [] == c.messages;
    if e.UbWrite? && e.text.Some? {
      WriteKeeps(m.policy, SentContext(m), e.text.value);
    }
    if e.LogMessage? && e.message.Some? {
      TextIsLossy(e.message.value);
    }
    if e.SendHeader? && e.header.Some? {
      WithHeaderOnly(c, e.header.value);
    }
    hide LevelFromRaw, Text;
  }

  lemma LoggedCons(events: seq<Event>)
    requires events != []
    ensures Logged(events) == Logged([events[0]]) + Logged(events[1..])
  {
    assert [events[0]][1..] == [] && Logged([]) == [];
  }

  /** Over every callback sequence each logged message is kept once, in order, with its level and text. */
  lemma {:induction false} RunMessages(m: Machine, events: seq<Event>)
    requires Serving(m)
    ensures var r := Run(m, events);
            r.context.Some? && r.context.value.messages == m.context.value.messages + Logged(events)
    decreases events
  {
    if events == [] {
      assert m.context.value.messages + [] == m.context.value.messages;
    } else {
      StepKeepsBox(m, events[0]);
      StepMessages(m, events[0]);
      LoggedCons(events);
      hide Step, Logged, SameRequest;
      RunMessages(Step(m, events[0]).0, events[1..]);
      ConcatAssoc(m.context.value.messages, Logged([events[0]]), Logged(events[1..]));
    }
  }

  // ---------------------------------------------------------------- headers first

  ghost predicate HttpStatus(status: nat) {
    HTTP_STATUS_MIN <= status <= HTTP_STATUS_MAX
  }

  /** Headers are captured before output is accepted, and whenever PHP considers them sent. */
  ghost predicate HeadersFirst(m: Machine)
    requires m.context.Some?
  {
    var c := m.context.value;
    && HttpStatus(c.status)
    && (m.g.headersSent ==> c.captured)
    && (Body(c) != [] ==> c.captured)
  }

  lemma StepHeadersFirst(m: Machine, e: Event)
    requires Serving(m) && HeadersFirst(m)
    ensures var r := Step(m, e).0; r.context.Some? && HeadersFirst(r)
  {
    StepEffect(m, e);
    StepOutput(m, e);
    hide Step, Append, ParseAll, WithHeader, Body;
    if e.SendHeader? && e.header.Some? {
      WithHeaderOnly(m.context.value, e.header.value);
    }
  }

  /** Over every callback sequence: the status is an HTTP status and headers come first. */
  lemma {:induction false} RunHeadersFirst(m: Machine, events: seq<Event>)
    requires Serving(m) && HeadersFirst(m)
    ensures var r := Run(m, events); r.context.Some? && HeadersFirst(r)
    decreases events
  {
    if events != [] {
      StepKeepsBox(m, events[0]);
      StepHeadersFirst(m, events[0]);
      hide Step, HeadersFirst;
      RunHeadersFirst(Step(m, events[0]).0, events[1..]);
    }
  }

  // ---------------------------------------------------------------- output

  /** The output so far: what the callback received, or what the buffer holds. */
  function Body(c: Context): seq<byte> {
    match c.streamed
    case Some(chunks) => Concat(chunks)
    case None => c.buffer.data
  }

  /** The bytes that a write with this reply has put out. */
  function Taken(e: Event, reply: Reply): seq<byte> {
    if e.UbWrite? && e.text.Some? && reply.Count? && reply.n > 0 then e.text.value else []
  }

  function AllTaken(events: seq<Event>, replies: seq<Reply>): seq<byte>
    requires |replies| == |events|
  {
    if events == [] then [] else Taken(events[0], replies[0]) + AllTaken(events[1..], replies[1..])
  }

  /** The sum of the counts that PHP gets back. */
  function TotalCount(replies: seq<Reply>): nat {
    if replies == [] then 0
    else (if replies[0].Count? then replies[0].n else 0) + TotalCount(replies[1..])
  }

  /** A write puts out all of its bytes, or none. */
  lemma WriteBody(p: BufferPolicy, c: Context, data: seq<byte>)
    requires Usable(p)
    ensures var (d, n) := AfterWrite(p, c, data);
            && (n == 0 || n == |data|)
            && Body(d) == Body(c) + if n > 0 then data else []
  {
    hide NewCap;
    assert Body(c) + [] == Body(c);
    if c.streamed.Some? {
      ConcatSnoc(c.streamed.value, data);
      if data == [] {
        assert Body(c) + data == Body(c);
      }
    }
  }

  lemma StepOutput(m: Machine, e: Event)
    requires Serving(m)
    ensures var (r, reply) := Step(m, e);
            && r.context.Some?
            && Body(r.context.value) == Body(m.context.value) + Taken(e, reply)
            && (if reply.Count? then reply.n else 0) == |Taken(e, reply)|
  {
    var c := m.context.value;
    StepEffect(m, e);
    hide Step, ParseAll, AfterWrite, WithHeader, Only, ClampStatus;
    assert Body(c) + [] == Body(c);
    if e.UbWrite? && e.text.Some? {
      WriteBody(m.policy, SentContext(m), e.text.value);
    }
    if e.SendHeader? && e.header.Some? {
      WithHeaderOnly(c, e.header.value);
    }
    hide Concat;
  }

  /** The output is the concatenation of the writes that PHP was told were taken. */
  lemma {:induction false} RunOutput(m: Machine, events: seq<Event>)
    requires Serving(m)
    ensures var (r, replies) := (Run(m, events), RunReplies(m, events));
            && r.context.Some?
            && Body(r.context.value) == Body(m.context.value) + AllTaken(events, replies)
            && TotalCount(replies) == |AllTaken(events, replies)|
    decreases events
  {
    hide Body, Taken;
    if events == [] {
      assert Body(m.context.value) + [] == Body(m.context.value);
    } else {
      StepKeepsBox(m, events[0]);
      StepOutput(m, events[0]);
      var (next, reply) := Step(m, events[0]);
      hide Step;
      RunOutput(next, events[1..]);
      var more := RunReplies(next, events[1..]);
      assert ([reply] + more)[1..] == more;
      ConcatAssoc(Body(m.context.value), Taken(events[0], reply), AllTaken(events[1..], more));
    }
  }

  /** Everything that PHP tries to write. */
  function Writes(events: seq<Event>): seq<byte> {
    if events == [] then []
    else (if events[0].UbWrite? && events[0].text.Some? then events[0].text.value else []) + Writes(events[1..])
  }

  lemma StepEconomical(m: Machine, e: Event)
    requires Serving(m) && Economical(m.policy, m.context.value.buffer)
    ensures var r := Step(m, e).0; r.context.Some? && Economical(r.policy, r.context.value.buffer)
  {
    var c := m.context.value;
    StepEffect(m, e);
    hide Step, ParseAll, Economical, WithHeader, Append;
    if e.UbWrite? && e.text.Some? && Append(m.policy, c.buffer, e.text.value).Some? {
      AppendIsEconomical(m.policy, c.buffer, e.text.value);
    }
    if e.SendHeader? && e.header.Some? {
      WithHeaderOnly(c, e.header.value);
    }
  }

  /** The capacity and cost bounds of the buffer hold after every callback sequence. */
  lemma {:induction false} RunEconomical(m: Machine, events: seq<Event>)
    requires Serving(m) && Economical(m.policy, m.context.value.buffer)
    ensures var r := Run(m, events); r.context.Some? && Economical(r.policy, r.context.value.buffer)
    decreases events
  {
    hide Economical;
    if events != [] {
      StepKeepsBox(m, events[0]);
      StepEconomical(m, events[0]);
      hide Step;
      RunEconomical(Step(m, events[0]).0, events[1..]);
    }
  }
}
