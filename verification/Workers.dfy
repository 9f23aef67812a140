/** The loop of a worker process: read a request, answer it, write the answer. */
module Workers {
  import opened Bytes
  import opened Protocol

  datatype Request =
    | Exec(script: string, details: seq<byte>)
    | Echo(size: nat)
    | Shutdown

  datatype Response =
    | Executed(status: nat, body: seq<byte>)
    | Echoed(size: nat)
    | Failed(message: string)

  /**
   * What the worker takes from outside: the deserialiser, the serialiser, and the execution of
   * a script, which may depend on and change a state of its own.
   */
  datatype Env<!S> = Env(
    decode: Decoder<Request>,
    encode: Response -> Option<seq<byte>>,
    execute: (S, Request) -> (S, Response))

  /** How one payload is answered. A failed write of the answer to a good request is fatal. */
  datatype Turn<S> = Exit | Answer(next: S, message: Option<seq<byte>>, fatal: bool)

  function ReadFailure(reason: string): Response {
    Failed("Failed to read request: " + reason)
  }

  function TakeTurn<S>(env: Env<S>, s: S, payload: seq<byte>): Turn<S> {
    match env.decode(payload)
    case Err(reason) => Answer(s, env.encode(ReadFailure(reason)), false)
    case Ok(Shutdown) => Exit
    case Ok(Echo(size)) => Answer(s, env.encode(Echoed(size)), true)
    case Ok(Exec(script, details)) =>
      var (next, response) := env.execute(s, Exec(script, details));
      Answer(next, env.encode(response), true)
  }

  /** The run of the loop on a whole input stream: what is written, and what is left unread. */
  function Loop<S>(env: Env<S>, s: S, input: seq<byte>, out: seq<byte>, room: nat): (seq<byte>, seq<byte>)
    decreases |input|
  {
    match ReadFrame(input)
    case None => (out, [])
    case Some((payload, rest)) =>
      match TakeTurn(env, s, payload)
      case Exit => (out, rest)
      case Answer(next, message, fatal) =>
        var w := Write(out, room, message);
        if !w.ok && fatal then (w.bytes, rest) else Loop(env, next, rest, w.bytes, w.room)
  }

  /** `None` stands for the process exit on a shutdown request. */
  method HandleRequest<S>(env: Env<S>, s: S, req: Request) returns (next: S, response: Option<Response>)
    ensures req.Shutdown? <==> response.None?
    ensures req.Echo? ==> next == s && response == Some(Echoed(req.size))
    ensures req.Exec? ==> (next, response) == (env.execute(s, req).0, Some(env.execute(s, req).1))
  {
    match req {
      case Exec(_, _) =>
        var (after, answer) := env.execute(s, req);
        next, response := after, Some(answer);
      case Echo(size) =>
        next, response := s, Some(Echoed(size));
      case Shutdown =>
        next, response := s, None;
    }
  }

  method RunWorkerLoop<S>(env: Env<S>, start: S, reader: Pipe, writer: ByteSink)
    modifies reader, writer
    ensures (writer.bytes, reader.bytes)
         == Loop(env, start, old(reader.bytes), old(writer.bytes), old(writer.room))
  {
    hide ReadFrame, Write;
    var s := start;
    while true
      invariant Loop(env, s, reader.bytes, writer.bytes, writer.room)
             == Loop(env, start, old(reader.bytes), old(writer.bytes), old(writer.room))
      decreases |reader.bytes|
    {
      ghost var input, out, room := reader.bytes, writer.bytes, writer.room;
      assert ReadFrame(input).Some? ==> |ReadFrame(input).value.1| < |input|;
      var read := ReadMessage(reader, env.decode);
      match read {
        case Err(UnexpectedEof) =>
          return;
        case Err(InvalidData(reason)) =>
          var _ := WriteMessage(writer, env.encode(ReadFailure(reason)));
        case Ok(req) =>
          var next, response := HandleRequest(env, s, req);
          if response.None? {
            return;
          }
          s := next;
          var ok := WriteMessage(writer, env.encode(response.value));
          if !ok {
            return;
          }
      }
    }
  }

  // ---------------------------------------------------------------- one answer per frame

  predicate IsShutdown<S>(env: Env<S>, payload: seq<byte>) {
    env.decode(payload) == Ok(Shutdown)
  }

  /** How many payloads precede the first shutdown request. */
  function BeforeShutdown<S>(env: Env<S>, payloads: seq<seq<byte>>): (n: nat)
    ensures n <= |payloads|
    ensures forall i :: 0 <= i < n ==> !IsShutdown(env, payloads[i])
    ensures n < |payloads| ==> IsShutdown(env, payloads[n])
  {
    if payloads == [] || IsShutdown(env, payloads[0]) then 0
    else 1 + BeforeShutdown(env, payloads[1..])
  }

  /** Every answer that the worker gives to some payload serialises, and fits a frame. */
  ghost predicate Encodes<S(!new)>(env: Env<S>) {
    forall s: S, payload: seq<byte> ::
      var turn := TakeTurn(env, s, payload);
      turn.Answer? ==> turn.message.Some? && |turn.message.value| < MAX_PAYLOAD
  }

  lemma TurnAnswers<S(!new)>(env: Env<S>, s: S, payload: seq<byte>)
    requires Encodes(env) && !IsShutdown(env, payload)
    ensures var turn := TakeTurn(env, s, payload);
            turn.Answer? && turn.message.Some? && |turn.message.value| < MAX_PAYLOAD
  {
  }

  ghost predicate NoShutdown<S>(env: Env<S>, payloads: seq<seq<byte>>) {
    forall i :: 0 <= i < |payloads| ==> !IsShutdown(env, payloads[i])
  }

  /** The state of the worker after some payloads. */
  ghost function StateAfter<S(!new)>(env: Env<S>, s: S, payloads: seq<seq<byte>>): S
    requires NoShutdown(env, payloads)
  {
    if payloads == [] then s
    else StateAfter(env, TakeTurn(env, s, payloads[0]).next, payloads[1..])
  }

  /** The serialised answers to some payloads, in order. */
  ghost function Replies<S(!new)>(env: Env<S>, s: S, payloads: seq<seq<byte>>): (replies: seq<seq<byte>>)
    requires Encodes(env) && NoShutdown(env, payloads)
    ensures |replies| == |payloads| && Fits(replies)
  {
    if payloads == [] then []
    else
      var turn := TakeTurn(env, s, payloads[0]);
      TurnAnswers(env, s, payloads[0]);
      [turn.message.value] + Replies(env, turn.next, payloads[1..])
  }

  /** The i-th reply answers the i-th payload, in the state the earlier payloads left. */
  lemma {:induction false} ReplyAt<S(!new)>(env: Env<S>, s: S, payloads: seq<seq<byte>>, i: nat)
    requires Encodes(env) && NoShutdown(env, payloads) && i < |payloads|
    ensures TakeTurn(env, StateAfter(env, s, payloads[..i]), payloads[i]).message
         == Some(Replies(env, s, payloads)[i])
  {
    if i == 0 {
      TurnAnswers(env, s, payloads[0]);
    } else {
      assert payloads[..i][1..] == payloads[1..][..i - 1];
      ReplyAt(env, TakeTurn(env, s, payloads[0]).next, payloads[1..], i - 1);
    }
  }

  lemma {:induction false} StateAfterSnoc<S(!new)>(env: Env<S>, s: S, payloads: seq<seq<byte>>, payload: seq<byte>)
    requires NoShutdown(env, payloads) && !IsShutdown(env, payload)
    ensures NoShutdown(env, payloads + [payload])
    ensures StateAfter(env, s, payloads + [payload]) == TakeTurn(env, StateAfter(env, s, payloads), payload).next
  {
    var all := payloads + [payload];
    if payloads == [] {
      assert all[0] == payload && all[1..] == [];
    } else {
      assert all[0] == payloads[0] && all[1..] == payloads[1..] + [payload];
      assert !IsShutdown(env, payloads[0]) && NoShutdown(env, payloads[1..]);
      var next := TakeTurn(env, s, payloads[0]).next;
      hide TakeTurn, IsShutdown;
      StateAfterSnoc(env, next, payloads[1..], payload);
    }
  }

  /**
   * What each reply is: an error with the reason for a payload that does not decode, the same
   * size for an echo, the response of the execution otherwise, which alone moves the state.
   */
  lemma AnswerTo<S(!new)>(env: Env<S>, s: S, payloads: seq<seq<byte>>, i: nat)
    requires Encodes(env) && NoShutdown(env, payloads) && i < |payloads|
    ensures var (before, after) := (StateAfter(env, s, payloads[..i]), StateAfter(env, s, payloads[..i + 1]));
            var reply := Some(Replies(env, s, payloads)[i]);
            match env.decode(payloads[i])
            case Err(reason) => reply == env.encode(Failed("Failed to read request: " + reason)) && after == before
            case Ok(Echo(size)) => reply == env.encode(Echoed(size)) && after == before
            case Ok(Exec(script, details)) =>
              var (next, response) := env.execute(before, Exec(script, details));
              reply == env.encode(response) && after == next
            case Ok(Shutdown) => false
  {
    ReplyAt(env, s, payloads, i);
    assert payloads[..i + 1] == payloads[..i] + [payloads[i]];
    StateAfterSnoc(env, s, payloads[..i], payloads[i]);
    assert !IsShutdown(env, payloads[i]);
    hide Replies, StateAfter;
  }

  /**
   * When the output pipe takes only part of an answer: after a request that decoded the worker
   * stops and leaves the rest unread, after one that did not it goes on reading.
   */
  lemma BrokenPipe<S(!new)>(env: Env<S>, s: S, input: seq<byte>, out: seq<byte>, room: nat)
    requires Encodes(env) && ReadFrame(input).Some? && !IsShutdown(env, ReadFrame(input).value.0)
    requires var turn := TakeTurn(env, s, ReadFrame(input).value.0);
             turn.message.Some? && |EncodeFrame(turn.message.value)| > room
    ensures var (payload, rest) := ReadFrame(input).value;
            var sent := out + EncodeFrame(TakeTurn(env, s, payload).message.value)[..room];
            Loop(env, s, input, out, room) == if env.decode(payload).Ok? then (sent, rest) else Loop(env, s, rest, sent, 0)
  {
    hide ReadFrame, EncodeFrame;
  }

  /** The frames of the answers to everything before the first shutdown request. */
  ghost function Answers<S(!new)>(env: Env<S>, s: S, payloads: seq<seq<byte>>): seq<byte>
    requires Encodes(env)
  {
    EncodeFrames(Replies(env, s, payloads[..BeforeShutdown(env, payloads)]))
  }

  lemma AnswersFirst<S(!new)>(env: Env<S>, s: S, payloads: seq<seq<byte>>)
    requires Encodes(env) && payloads != []
    ensures IsShutdown(env, payloads[0]) ==> Answers(env, s, payloads) == []
    ensures !IsShutdown(env, payloads[0]) ==>
              var turn := TakeTurn(env, s, payloads[0]);
              && turn.Answer? && turn.message.Some?
              && Answers(env, s, payloads) == EncodeFrame(turn.message.value) + Answers(env, turn.next, payloads[1..])
  {
    hide EncodeFrame;
    if !IsShutdown(env, payloads[0]) {
      TurnAnswers(env, s, payloads[0]);
      var n := BeforeShutdown(env, payloads);
      assert payloads[..n][1..] == payloads[1..][..n - 1];
      var turn := TakeTurn(env, s, payloads[0]);
      var more := Replies(env, turn.next, payloads[1..][..n - 1]);
      assert ([turn.message.value] + more)[1..] == more;
    }
  }

  lemma NoAnswers<S(!new)>(env: Env<S>, s: S)
    requires Encodes(env)
    ensures Answers(env, s, []) == []
  {
  }

  /**
   * On any input stream at all, and however much the output pipe accepts: the worker writes the
   * answers to the whole frames before the first shutdown, in order and one each, as far as
   * they fit; a payload that does not decode costs one error answer and no alignment.
   */
  lemma {:induction false} LoopAnswers<S(!new)>(env: Env<S>, s: S, input: seq<byte>, out: seq<byte>, room: nat)
    requires Encodes(env)
    ensures var all := Answers(env, s, Frames(input).0);
            Loop(env, s, input, out, room).0 == out + all[..Min(room, |all|)]
    decreases |input|
  {
    hide ReadFrame, EncodeFrame, Answers;
    var payloads := Frames(input).0;
    var all := Answers(env, s, payloads);
    var k := Min(room, |all|);
    var frame := ReadFrame(input);
    if frame.None? {
      NoAnswers(env, s);
    } else {
      var (payload, rest) := frame.value;
      assert payloads[0] == payload && payloads[1..] == Frames(rest).0;
      AnswersFirst(env, s, payloads);
      if !IsShutdown(env, payload) {
        var turn := TakeTurn(env, s, payload);
        var first, more := EncodeFrame(turn.message.value), Answers(env, turn.next, Frames(rest).0);
        TakeOfConcat(first, more, k);
        if |first| <= room {
          LoopAnswers(env, turn.next, rest, out + first, room - |first|);
          ConcatAssoc(out, first, more[..k - |first|]);
        } else if !turn.fatal {
          LoopAnswers(env, turn.next, rest, out + first[..room], 0);
        }
      }
    }
  }

  /** The pool parses the output of an unobstructed worker into exactly one reply per frame. */
  lemma OneReplyPerFrame<S(!new)>(env: Env<S>, s: S, payloads: seq<seq<byte>>, tail: seq<byte>, room: nat)
    requires Encodes(env) && NoShutdown(env, payloads) && Fits(payloads)
    requires ReadFrame(tail) == None
    requires |EncodeFrames(Replies(env, s, payloads))| <= room
    ensures Frames(Loop(env, s, EncodeFrames(payloads) + tail, [], room).0) == (Replies(env, s, payloads), [])
  {
    FramesOfEncoded(payloads, tail);
    assert payloads[..BeforeShutdown(env, payloads)] == payloads;
    var replies := Replies(env, s, payloads);
    var all := EncodeFrames(replies);
    LoopAnswers(env, s, EncodeFrames(payloads) + tail, [], room);
    assert [] + all[..Min(room, |all|)] == all == all + [];
    FramesOfEncoded(replies, []);
  }

  function Unread(payloads: seq<seq<byte>>, n: nat, tail: seq<byte>): seq<byte> {
    if n < |payloads| then EncodeFrames(payloads[n + 1..]) + tail else []
  }

  /** What follows a shutdown request is left unread; otherwise the input is used up. */
  lemma {:induction false} LoopStops<S(!new)>(env: Env<S>, s: S, input: seq<byte>, out: seq<byte>, room: nat)
    requires Encodes(env)
    requires var (payloads, tail) := Frames(input); |Answers(env, s, payloads)| <= room
    ensures var (payloads, tail) := Frames(input);
            Loop(env, s, input, out, room).1 == Unread(payloads, BeforeShutdown(env, payloads), tail)
    decreases |input|
  {
    hide EncodeFrame, Answers;
    var (payloads, tail) := Frames(input);
    var frame := ReadFrame(input);
    if frame.Some? {
      var (payload, rest) := frame.value;
      assert payloads[0] == payload && payloads[1..] == Frames(rest).0;
      hide ReadFrame;
      AnswersFirst(env, s, payloads);
      if IsShutdown(env, payload) {
        EncodedFrames(rest);
      } else {
        var turn := TakeTurn(env, s, payload);
        var first := EncodeFrame(turn.message.value);
        LoopStops(env, turn.next, rest, out + first, room - |first|);
        var n := BeforeShutdown(env, payloads);
        assert n < |payloads| ==> payloads[n + 1..] == payloads[1..][n..];
      }
    }
  }
}
