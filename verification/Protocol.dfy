/** Length-prefixed messages between the pool and its worker processes. */
module Protocol {
  import opened Bytes
  import opened Division

  const MAX_PAYLOAD := 0x1_0000_0000

  /** `(n as u32).to_le_bytes()`: only the low 32 bits of the length are written. */
  function Le32(n: nat): (s: seq<byte>)
    ensures |s| == 4
  {
    [n % 0x100, n / 0x100 % 0x100, n / 0x1_0000 % 0x100, n / 0x100_0000 % 0x100]
  }

  function FromLe32(s: seq<byte>): nat
    requires |s| == 4
  {
    s[0] as int + s[1] as int * 0x100 + s[2] as int * 0x1_0000 + s[3] as int * 0x100_0000
  }

  /** A number with its least significant byte first. */
  function LittleEndian(s: seq<byte>): nat {
    if s == [] then 0 else s[0] + 256 * LittleEndian(s[1..])
  }

  lemma LengthIsLittleEndian(s: seq<byte>)
    requires |s| == 4
    ensures FromLe32(s) == LittleEndian(s)
  {
    assert s[1..][0] == s[1] && s[1..][1..][0] == s[2] && s[1..][1..][1..][0] == s[3] && s[1..][1..][1..][1..] == [];
    assert LittleEndian(s[1..][1..][1..]) == s[3];
    assert LittleEndian(s[1..][1..]) == s[2] + 256 * LittleEndian(s[1..][1..][1..]);
    assert LittleEndian(s[1..]) == s[1] + 256 * LittleEndian(s[1..][1..]);
  }

  function EncodeFrame(payload: seq<byte>): (s: seq<byte>)
    ensures |s| == 4 + |payload|
  {
    Le32(|payload|) + payload
  }

  function EncodeFrames(payloads: seq<seq<byte>>): seq<byte> {
    if payloads == [] then [] else EncodeFrame(payloads[0]) + EncodeFrames(payloads[1..])
  }

  /** The first payload of a stream and what follows it; `None` when the stream ends inside it. */
  function ReadFrame(s: seq<byte>): (r: Option<(seq<byte>, seq<byte>)>)
    ensures r.Some? ==> |r.value.1| < |s|
  {
    if |s| < 4 || |s| < 4 + FromLe32(s[..4]) then None
    else Some((s[4..4 + FromLe32(s[..4])], s[4 + FromLe32(s[..4])..]))
  }

  /** Whole payloads at the front of a stream, and the unfinished rest. */
  function Frames(s: seq<byte>): (r: (seq<seq<byte>>, seq<byte>))
    ensures ReadFrame(r.1).None?
  {
    match ReadFrame(s)
    case None => ([], s)
    case Some((payload, rest)) => ([payload] + Frames(rest).0, Frames(rest).1)
  }

  // ---------------------------------------------------------------- reading and writing

  /** The reading end of a pipe; `bytes` is everything that will ever arrive. */
  class Pipe {
    var bytes: seq<byte>

    constructor (bytes: seq<byte>)
      ensures this.bytes == bytes
    {
      this.bytes := bytes;
    }

    method ReadExact(n: nat) returns (data: Option<seq<byte>>)
      modifies this
      ensures n <= |old(bytes)| ==> data == Some(old(bytes)[..n]) && bytes == old(bytes)[n..]
      ensures n > |old(bytes)| ==> data == None && bytes == []
    {
      if n <= |bytes| {
        data, bytes := Some(bytes[..n]), bytes[n..];
      } else {
        data, bytes := None, [];
      }
    }
  }

  datatype ReadError = UnexpectedEof | InvalidData(reason: string)

  /** What a deserialiser reports for a payload: a value, or why there is none. */
  type Decoder<T> = seq<byte> -> Result<T, string>

  function Decoded<T>(value: Result<T, string>): Result<T, ReadError> {
    match value
    case Ok(t) => Ok(t)
    case Err(reason) => Err(InvalidData(reason))
  }

  method ReadMessage<T>(r: Pipe, decode: Decoder<T>) returns (m: Result<T, ReadError>)
    modifies r
    ensures var frame := ReadFrame(old(r.bytes));
            && (frame.None? ==> m == Err(UnexpectedEof) && r.bytes == [])
            && (frame.Some? ==> r.bytes == frame.value.1 && m == Decoded(decode(frame.value.0)))
  {
    ghost var s := r.bytes;
    var lenBuf := r.ReadExact(4);
    if lenBuf.None? {
      return Err(UnexpectedEof);
    }
    var len := FromLe32(lenBuf.value);
    var payload := r.ReadExact(len);
    if payload.None? {
      return Err(UnexpectedEof);
    }
    assert s[4..][..len] == s[4..4 + len] && s[4..][len..] == s[4 + len..];
    return Decoded(decode(payload.value));
  }

  /** What a sink holds after a message, the room left, and whether the message was written. */
  datatype Written = Written(bytes: seq<byte>, room: nat, ok: bool)

  function Write(bytes: seq<byte>, room: nat, message: Option<seq<byte>>): Written {
    match message
    case None => Written(bytes, room, false)
    case Some(payload) =>
      var frame := EncodeFrame(payload);
      if |frame| <= room then Written(bytes + frame, room - |frame|, true)
      else Written(bytes + frame[..room], 0, false)
  }

  /** `message` is the serialised message, or `None` if serialisation fails. */
  method WriteMessage(w: ByteSink, message: Option<seq<byte>>) returns (ok: bool)
    modifies w
    ensures Written(w.bytes, w.room, ok) == Write(old(w.bytes), old(w.room), message)
  {
    if message.None? {
      return false;
    }
    var payload := message.value;
    var len := Le32(|payload|);
    assert EncodeFrame(payload) == len + payload;
    hide Le32, EncodeFrame;
    TakeOfConcat(len, payload, w.room);
    ok := w.WriteAll(len);
    if ok {
      ok := w.WriteAll(payload);
    }
  }

  // ---------------------------------------------------------------- round trips

  lemma ModUnique(n: nat, q: nat, r: nat)
    requires n == q * MAX_PAYLOAD + r && r < MAX_PAYLOAD
    ensures n % 0x1_0000_0000 == r
  {
  }

  lemma Le32ReadsBack(n: nat)
    ensures FromLe32(Le32(n)) == n % 0x1_0000_0000
  {
    Shifts(n);
    var q1 := n / 0x100;
    var q2 := q1 / 0x100;
    var q3 := q2 / 0x100;
    DivMod256(n);
    DivMod256(q1);
    DivMod256(q2);
    DivMod256(q3);
    ModUnique(n, q3 / 0x100, n % 0x100 + q1 % 0x100 * 0x100 + q2 % 0x100 * 0x1_0000 + q3 % 0x100 * 0x100_0000);
  }

  lemma LengthReadsBack(n: nat)
    ensures n < MAX_PAYLOAD ==> FromLe32(Le32(n)) == n
    ensures n >= MAX_PAYLOAD ==> FromLe32(Le32(n)) < n
  {
    Le32ReadsBack(n);
    hide Le32, FromLe32;
  }

  /** A frame is read back, whatever follows, exactly when its length fits 32 bits. */
  lemma FrameRoundTrip(payload: seq<byte>, rest: seq<byte>)
    ensures ReadFrame(EncodeFrame(payload) + rest) == Some((payload, rest)) <==> |payload| < MAX_PAYLOAD
  {
    var len := Le32(|payload|);
    var s := EncodeFrame(payload) + rest;
    assert s[..4] == len;
    LengthReadsBack(|payload|);
    hide Le32, FromLe32;
    if |payload| < MAX_PAYLOAD {
      assert s[4..4 + |payload|] == payload && s[4 + |payload|..] == rest;
    }
  }

  lemma FrameIncomplete(payload: seq<byte>, k: nat)
    requires |payload| < MAX_PAYLOAD
    requires k < |EncodeFrame(payload)|
    ensures ReadFrame(EncodeFrame(payload)[..k]) == None
  {
    var len := Le32(|payload|);
    LengthReadsBack(|payload|);
    hide Le32, FromLe32;
    if k >= 4 {
      assert EncodeFrame(payload)[..k][..4] == len;
    }
  }

  predicate Fits(payloads: seq<seq<byte>>) {
    forall i :: 0 <= i < |payloads| ==> |payloads[i]| < MAX_PAYLOAD
  }

  lemma {:induction false} FramesOfEncoded(payloads: seq<seq<byte>>, tail: seq<byte>)
    requires Fits(payloads)
    requires ReadFrame(tail) == None
    ensures Frames(EncodeFrames(payloads) + tail) == (payloads, tail)
  {
    hide ReadFrame, EncodeFrame;
    if payloads == [] {
      assert EncodeFrames(payloads) + tail == tail;
    } else {
      var rest := EncodeFrames(payloads[1..]) + tail;
      ConcatAssoc(EncodeFrame(payloads[0]), EncodeFrames(payloads[1..]), tail);
      FrameRoundTrip(payloads[0], rest);
      FramesOfEncoded(payloads[1..], tail);
      assert payloads == [payloads[0]] + payloads[1..];
    }
  }

  lemma FourBytesBack(s: seq<byte>)
    requires |s| == 4
    ensures FromLe32(s) < MAX_PAYLOAD && Le32(FromLe32(s)) == s
  {
    var (a, b, c, d) := (s[0] as nat, s[1] as nat, s[2] as nat, s[3] as nat);
    var n := FromLe32(s);
    Shifts(n);
    Quotient(n, b + c * 0x100 + d * 0x1_0000, a);
    Quotient(n / 0x100, c + d * 0x100, b);
    Quotient(n / 0x100 / 0x100, d, c);
  }

  lemma Quotient(n: nat, q: nat, r: nat)
    requires n == 0x100 * q + r && r < 0x100
    ensures n / 0x100 == q && n % 0x100 == r
  {
  }

  lemma Reencoded(s: seq<byte>)
    requires ReadFrame(s).Some?
    ensures var (payload, rest) := ReadFrame(s).value;
            |payload| < MAX_PAYLOAD && s == EncodeFrame(payload) + rest && |rest| < |s|
  {
    var n := FromLe32(s[..4]);
    FourBytesBack(s[..4]);
    hide Le32, FromLe32;
    assert |s[4..4 + n]| == n;
    assert s == s[..4] + s[4..4 + n] + s[4 + n..];
  }

  /** Every byte stream is a list of frames followed by an unfinished one. */
  lemma {:induction false} EncodedFrames(s: seq<byte>)
    ensures EncodeFrames(Frames(s).0) + Frames(s).1 == s
    ensures Fits(Frames(s).0)
    decreases |s|
  {
    hide ReadFrame, EncodeFrame;
    var r := ReadFrame(s);
    if r.None? {
      assert [] + s == s;
    } else {
      var (payload, rest) := r.value;
      Reencoded(s);
      EncodedFrames(rest);
      var more := Frames(rest).0;
      assert ([payload] + more)[1..] == more;
      ConcatAssoc(EncodeFrame(payload), EncodeFrames(more), Frames(rest).1);
    }
  }

  /** A frame is four bytes of length, the least significant first, and the payload. */
  lemma FrameLayout(payload: seq<byte>)
    requires |payload| < MAX_PAYLOAD
    ensures var s := EncodeFrame(payload);
            |s| == 4 + |payload| && LittleEndian(s[..4]) == |payload| && s[4..] == payload
  {
    LengthReadsBack(|payload|);
    LengthIsLittleEndian(Le32(|payload|));
    assert EncodeFrame(payload)[..4] == Le32(|payload|);
  }
}
