/** The streaming mode and the buffered mode put out the same bytes. */
module OutputModes {
  import opened Bytes
  import opened Callbacks
  import opened OutputBuffers
  import opened RequestRuns
  import opened ResponseHeaders
  import opened ServerContexts

  /** A context without the two places that output can go to. */
  function Neutral(c: Context): Context {
    c.(buffer := Buffer([], 0, 0, 0), streamed := None)
  }

  /** Two requests that differ only in where output goes. */
  ghost predicate Twins(a: Machine, b: Machine) {
    && Serving(a) && Serving(b)
    && a.context.value.streamed.None?
    && b.context.value.streamed.Some?
    && a.(context := Some(Neutral(a.context.value))) == b.(context := Some(Neutral(b.context.value)))
  }

  function Payload(e: Event): seq<byte> {
    if e.UbWrite? && e.text.Some? then e.text.value else []
  }

  lemma TwinsSend(a: Machine, b: Machine)
    requires Twins(a, b)
    ensures var (f, g) := (Fetch(SapiSendHeaders(a)), Fetch(SapiSendHeaders(b)));
            && f.context.Some? && g.context.Some?
            && f.policy == a.policy
            && f.context.value.streamed == None && g.context.value.streamed == b.context.value.streamed
            && f.context.value.buffer == a.context.value.buffer
            && f.(context := Some(Neutral(f.context.value))) == g.(context := Some(Neutral(g.context.value)))
  {
    SendResult(a);
    SendResult(b);
    hide SapiSendHeaders, ParseAll, Fetch, Repeated;
  }

  lemma TwinsCapture(a: Context, b: Context, hs: HeaderStruct)
    requires Neutral(a) == Neutral(b)
    ensures Neutral(Capture(a, hs)) == Neutral(Capture(b, hs))
    ensures Capture(a, hs).streamed == a.streamed && Capture(b, hs).streamed == b.streamed
  {
    CaptureFields(a, hs);
    CaptureFields(b, hs);
    hide Capture, ParseAll;
  }

  lemma TwinsHeader(a: Context, b: Context, raw: RawHeader)
    requires Neutral(a) == Neutral(b)
    ensures Neutral(WithHeader(a, raw)) == Neutral(WithHeader(b, raw))
    ensures WithHeader(a, raw).streamed == a.streamed && WithHeader(b, raw).streamed == b.streamed
  {
    hide ParseLine;
  }

  lemma FetchTwins(a: Machine, b: Machine)
    requires Twins(a, b)
    ensures Fetch(a) == a.(fetches := Fetch(a).fetches)
    ensures Fetch(b) == b.(fetches := Fetch(a).fetches)
  {
  }

  lemma {:induction false} FetchTimesTwins(a: Machine, b: Machine, n: nat)
    requires Twins(a, b)
    ensures FetchTimes(a, n) == a.(fetches := FetchTimes(a, n).fetches)
    ensures FetchTimes(b, n) == b.(fetches := FetchTimes(a, n).fetches)
  {
    if n > 0 {
      FetchTimesTwins(a, b, n - 1);
      FetchTwins(FetchTimes(a, n - 1), FetchTimes(b, n - 1));
    }
  }

  /** What twins keep over an event, unless the buffered one has to refuse a write. */
  ghost predicate TwinStep(a: Machine, b: Machine, e: Event)
    requires Sound(a) && Sound(b)
  {
    var ((r, reply), (s, reply')) := (Step(a, e), Step(b, e));
    && r.context.Some? && s.context.Some?
    && r.context.value.streamed.None? && s.context.value.streamed.Some?
    && r.(context := Some(Neutral(r.context.value))) == s.(context := Some(Neutral(s.context.value)))
    && reply == reply'
    && Taken(e, reply) == Payload(e)
  }

  lemma SendingTwins(a: Machine, b: Machine, e: Event)
    requires Twins(a, b) && (e.UbWrite? || e.Flush?)
    requires Payload(e) == [] || Append(a.policy, a.context.value.buffer, Payload(e)).Some?
    ensures TwinStep(a, b, e)
  {
    TwinsSend(a, b);
    hide SapiSendHeaders, Fetch, Append;
  }

  lemma CaptureTwins(a: Machine, b: Machine, e: Event)
    requires Twins(a, b) && e.SendHeaders?
    ensures TwinStep(a, b, e)
  {
    FetchTwins(a, b);
    if e.struct.Some? {
      FetchTimesTwins(Fetch(a), Fetch(b), |e.struct.value.list|);
      TwinsCapture(a.context.value, b.context.value, e.struct.value);
    }
    hide Fetch, FetchTimes, Capture;
  }

  /** Events that read the body, log, or add a header. */
  lemma ChangingTwins(a: Machine, b: Machine, e: Event)
    requires Twins(a, b) && (e.ReadPostBody? || e.LogMessage? || e.SendHeader?)
    ensures TwinStep(a, b, e)
  {
    FetchTwins(a, b);
    FetchTwins(Fetch(a), Fetch(b));
    hide Fetch, WithHeader, Text, LevelFromRaw;
    if e.SendHeader? && e.header.Some? {
      TwinsHeader(a.context.value, b.context.value, e.header.value);
    }
  }

  /** Events that leave the context alone. */
  lemma AskingTwins(a: Machine, b: Machine, e: Event)
    requires Twins(a, b) && (e.ChangeHeaders? || e.ReadCookies? || e.RegisterVariables? || e.GetEnvironment?)
    ensures TwinStep(a, b, e)
  {
    FetchTwins(a, b);
    hide Fetch, GetEnv;
  }

  /** Twins stay twins; they answer alike, unless the buffered one has to refuse a write. */
  lemma StepTwins(a: Machine, b: Machine, e: Event)
    requires Twins(a, b)
    requires Payload(e) == [] || Append(a.policy, a.context.value.buffer, Payload(e)).Some?
    ensures Twins(Step(a, e).0, Step(b, e).0)
    ensures Step(a, e).1 == Step(b, e).1
    ensures Taken(e, Step(a, e).1) == Payload(e)
  {
    StepSound(a, e);
    StepSound(b, e);
    hide Step, Append, Neutral, Payload, Taken;
    if e.UbWrite? || e.Flush? {
      SendingTwins(a, b, e);
    } else if e.SendHeaders? {
      CaptureTwins(a, b, e);
    } else if e.ReadPostBody? || e.LogMessage? || e.SendHeader? {
      ChangingTwins(a, b, e);
    } else {
      AskingTwins(a, b, e);
    }
  }

  lemma AffordableLess(p: BufferPolicy, total: nat, part: nat)
    requires Affordable(p, total) && part <= total
    ensures Affordable(p, part)
  {
  }

  /**
   * The modes agree: on any callback sequence whose total output is affordable, the buffered
   * body grows by exactly what PHP writes, so does the concatenation of the streamed chunks,
   * and PHP cannot tell the modes apart.
   */
  lemma {:induction false} RunTwins(a: Machine, b: Machine, events: seq<Event>)
    requires Twins(a, b)
    requires Economical(a.policy, a.context.value.buffer)
    requires Affordable(a.policy, |Body(a.context.value)| + |Writes(events)|)
    ensures var (r, s) := (Run(a, events), Run(b, events));
            && Twins(r, s)
            && RunReplies(a, events) == RunReplies(b, events)
            && Body(r.context.value) == Body(a.context.value) + Writes(events)
            && Body(s.context.value) == Body(b.context.value) + Writes(events)
    decreases events
  {
    hide Step, Economical, Affordable, Append;
    var (c, d) := (a.context.value, b.context.value);
    if events == [] {
      assert Body(c) + [] == Body(c) && Body(d) + [] == Body(d);
    } else {
      var (e, rest) := (events[0], events[1..]);
      var text := Payload(e);
      assert Writes(events) == text + Writes(rest);
      AffordableLess(a.policy, |Body(c)| + |Writes(events)|, |c.buffer.data| + |text|);
      AffordableWrite(a.policy, c.buffer, text);
      StepTwins(a, b, e);
      StepOutput(a, e);
      StepOutput(b, e);
      StepEconomical(a, e);
      StepKeepsBox(a, e);
      StepKeepsBox(b, e);
      hide Twins, Body, Taken;
      RunTwins(Step(a, e).0, Step(b, e).0, rest);
      ConcatAssoc(Body(c), text, Writes(rest));
      ConcatAssoc(Body(d), text, Writes(rest));
    }
  }

  lemma {:induction false} TakenOfWrites(m: Machine, events: seq<Event>)
    requires Serving(m)
    ensures var taken := AllTaken(events, RunReplies(m, events));
            |taken| <= |Writes(events)| && (|taken| == |Writes(events)| ==> taken == Writes(events))
    decreases events
  {
    if events != [] {
      var (next, reply) := Step(m, events[0]);
      StepKeepsBox(m, events[0]);
      hide Step, Serving;
      TakenOfWrites(next, events[1..]);
      var more := RunReplies(next, events[1..]);
      assert ([reply] + more)[1..] == more;
    }
  }

  /**
   * In either mode and for any sizes: the output grew by everything that PHP wrote exactly when
   * the counts returned to PHP add up to what it wrote.
   */
  lemma CountsTell(m: Machine, events: seq<Event>)
    requires Serving(m)
    ensures var (r, replies) := (Run(m, events), RunReplies(m, events));
            r.context.Some?
            && (Body(r.context.value) == Body(m.context.value) + Writes(events)
                <==> TotalCount(replies) == |Writes(events)|)
  {
    RunOutput(m, events);
    TakenOfWrites(m, events);
    hide Body, AllTaken, Writes, TotalCount;
    var (r, replies) := (Run(m, events), RunReplies(m, events));
    var (before, after) := (Body(m.context.value), Body(r.context.value));
    if after == before + Writes(events) {
      assert |after| == |before| + |Writes(events)|;
    }
  }
}
