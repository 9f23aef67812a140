/** Reading the request body: nothing is lost, repeated or reordered. */
module PostBody {
  import opened Bytes
  import opened Callbacks
  import opened Division
  import opened OutputBuffers
  import opened RequestRuns
  import opened ServerContexts

  function Asked(e: Event): nat {
    if e.ReadPostBody? && e.size.Some? then e.size.value else 0
  }

  function Given(reply: Reply): seq<byte> {
    if reply.Post? then reply.data else []
  }

  /** The sum of the buffer sizes that PHP reads with. */
  function Requested(events: seq<Event>): nat {
    if events == [] then 0 else Asked(events[0]) + Requested(events[1..])
  }

  /** What the reads delivered, in order. */
  function Delivered(replies: seq<Reply>): seq<byte> {
    if replies == [] then [] else Given(replies[0]) + Delivered(replies[1..])
  }

  /** The cursor has moved by what was asked for or to the end, and `data` lies in between. */
  ghost predicate Moved(c: Context, d: Context, asked: nat, data: seq<byte>) {
    && d.post == c.post
    && c.pos <= d.pos == Min(|c.post|, c.pos + asked)
    && data == c.post[c.pos..d.pos]
  }

  lemma MovedTwice(c: Context, d: Context, e: Context, a: nat, b: nat, x: seq<byte>, y: seq<byte>)
    requires Moved(c, d, a, x) && Moved(d, e, b, y)
    ensures Moved(c, e, a + b, x + y)
  {
  }

  lemma StepPost(m: Machine, e: Event)
    requires Serving(m)
    ensures var (r, reply) := Step(m, e);
            r.context.Some? && Moved(m.context.value, r.context.value, Asked(e), Given(reply))
  {
    StepEffect(m, e);
    hide Step, ParseAll, WithHeader, AfterWrite;
    var c := m.context.value;
    if e.UbWrite? && e.text.Some? {
      WriteKeepsPost(m.policy, SentContext(m), e.text.value);
    }
    if e.SendHeader? && e.header.Some? {
      WithHeaderOnly(c, e.header.value);
    }
  }

  lemma WriteKeepsPost(p: BufferPolicy, c: Context, data: seq<byte>)
    requires Usable(p)
    ensures AfterWrite(p, c, data).0.post == c.post && AfterWrite(p, c, data).0.pos == c.pos
  {
    hide Append;
  }

  lemma NothingMoved(c: Context)
    requires WellFormed(c)
    ensures Moved(c, c, 0, [])
  {
  }

  /** Over any callback sequence the reads deliver, joined in order, what the cursor passes. */
  lemma {:induction false} RunPost(m: Machine, events: seq<Event>)
    requires Serving(m)
    ensures var r := Run(m, events);
            && r.context.Some?
            && Moved(m.context.value, r.context.value, Requested(events), Delivered(RunReplies(m, events)))
    decreases events
  {
    hide Moved, Given, Asked, SameBox, SameRequest;
    var c := m.context.value;
    if events == [] {
      NothingMoved(c);
    } else {
      var e, rest := events[0], events[1..];
      StepPost(m, e);
      StepKeepsBox(m, e);
      var (next, reply) := Step(m, e);
      hide Step;
      RunPost(next, rest);
      var more := RunReplies(next, rest);
      assert ([reply] + more)[1..] == more;
      MovedTwice(c, next.context.value, Run(next, rest).context.value, Asked(e), Requested(rest), Given(reply), Delivered(more));
    }
  }

  /** From the start of a request: the first bytes of the body, as many as were asked for. */
  lemma Conservation(m: Machine, events: seq<Event>)
    requires Serving(m) && m.context.value.pos == 0
    ensures Delivered(RunReplies(m, events)) == m.context.value.post[..Min(|m.context.value.post|, Requested(events))]
  {
    RunPost(m, events);
  }

  /** A read into a buffer of positive size delivers nothing exactly when all is consumed. */
  lemma EmptyReadMeansEnd(m: Machine, size: nat)
    requires Serving(m) && size > 0
    ensures var reply := Step(m, ReadPostBody(Some(size))).1;
            reply.Post? && (reply.data == [] <==> m.context.value.pos == |m.context.value.post|)
  {
  }

  // ---------------------------------------------------------------- draining

  function Drain(size: nat, rounds: nat): seq<Event> {
    seq(rounds, _ => ReadPostBody(Some(size)))
  }

  lemma {:induction false} DrainRequests(size: nat, rounds: nat)
    ensures Requested(Drain(size, rounds)) == rounds * size
  {
    if rounds > 0 {
      DrainRequests(size, rounds - 1);
      assert Drain(size, rounds)[1..] == Drain(size, rounds - 1);
      Distribute(size, rounds - 1, 1);
    }
  }

  function CeilDiv(n: nat, b: nat): nat
    requires b > 0
  {
    (n + b - 1) / b
  }

  /** `rounds * b` falls short of `n` exactly while `rounds` is below the rounded-up quotient. */
  lemma CeilDivBound(n: nat, b: nat, rounds: nat)
    requires b > 0
    ensures rounds * b < n <==> rounds < CeilDiv(n, b)
  {
    var q := CeilDiv(n, b);
    Fundamental(n + b - 1, b);
    if rounds < q {
      Distribute(b, q, rounds - q);
      AtLeast(b, q - rounds);
    } else if rounds > q {
      Distribute(b, q, rounds - q);
      AtLeast(b, rounds - q);
    }
  }

  /**
   * A loop that drains a fresh body with a fixed buffer makes ceil(n/b) productive reads: the
   * read after `rounds` others delivers something exactly when `rounds` is below that number.
   */
  lemma ProductiveReads(m: Machine, size: nat, rounds: nat)
    requires Serving(m) && m.context.value.pos == 0 && size > 0
    ensures var r := Run(m, Drain(size, rounds));
            && r.context.Some?
            && r.context.value.pos == Min(|m.context.value.post|, rounds * size)
            && Step(r, ReadPostBody(Some(size))).1.Post?
            && (Step(r, ReadPostBody(Some(size))).1.data != [] <==> rounds < CeilDiv(|m.context.value.post|, size))
  {
    var r := Run(m, Drain(size, rounds));
    RunPost(m, Drain(size, rounds));
    DrainRequests(size, rounds);
    EmptyReadMeansEnd(r, size);
    CeilDivBound(|m.context.value.post|, size, rounds);
    hide Step, Run, CeilDiv, Drain;
  }
}
