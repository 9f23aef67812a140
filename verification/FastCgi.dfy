/**
 * The FastCGI client of the benchmark suite: name-value pairs (FastCGI Specification 1.0,
 * section 3.4), records with padding (section 3.3), and the demultiplexer that recovers the
 * standard output of the responder.
 */
module FastCgi {
  import opened Bytes
  import opened Division

  type u16 = n: int | 0 <= n < 0x1_0000

  const STDOUT: byte := 6
  const HEADER_LEN := 8
  const MAX_CONTENT := 0xFFFF
  const MAX_NAME_VALUE := 0x8000_0000

  // ---------------------------------------------------------------- name-value pairs

  type Pair = (seq<byte>, seq<byte>)

  /** `b | 0x80` on a byte. */
  function WithHighBit(b: byte): byte {
    if b < 0x80 then b + 0x80 else b
  }

  function EncodeLength(n: nat): seq<byte> {
    if n < 128 then [n]
    else [WithHighBit(n / 0x100_0000 % 256), n / 0x1_0000 % 256, n / 0x100 % 256, n % 256]
  }

  function EncodePair(p: Pair): seq<byte> {
    EncodeLength(|p.0|) + EncodeLength(|p.1|) + p.0 + p.1
  }

  function EncodeParams(params: seq<Pair>): seq<byte> {
    if params == [] then [] else EncodePair(params[0]) + EncodeParams(params[1..])
  }

  lemma {:induction false} EncodeParamsSnoc(params: seq<Pair>, p: Pair)
    ensures EncodeParams(params + [p]) == EncodeParams(params) + EncodePair(p)
  {
    if params == [] {
      assert EncodeParams([p]) == EncodePair(p) + EncodeParams([]);
    } else {
      assert (params + [p])[1..] == params[1..] + [p];
      EncodeParamsSnoc(params[1..], p);
    }
  }

  method PushLength(data: seq<byte>, n: nat) returns (r: seq<byte>)
    ensures r == data + EncodeLength(n)
  {
    r := data;
    if n < 128 {
      r := r + [n];
    } else {
      r := r + [WithHighBit(n / 0x100_0000 % 256)];
      r := r + [n / 0x1_0000 % 256];
      r := r + [n / 0x100 % 256];
      r := r + [n % 256];
    }
  }

  lemma JoinPair(before: seq<byte>, a: seq<byte>, b: seq<byte>, name: seq<byte>, value: seq<byte>)
    ensures before + a + b + name + value == before + (a + b + name + value)
  {
  }

  /** The encoder pushes the two lengths and the two texts, pair by pair. */
  method BuildParams(params: seq<Pair>) returns (data: seq<byte>)
    ensures data == EncodeParams(params)
  {
    hide EncodeLength;
    data := [];
    for i := 0 to |params|
      invariant data == EncodeParams(params[..i])
    {
      var (name, value) := params[i];
      ghost var before := data;
      data := PushLength(data, |name|);
      data := PushLength(data, |value|);
      data := data + name;
      data := data + value;
      JoinPair(before, EncodeLength(|name|), EncodeLength(|value|), name, value);
      EncodeParamsSnoc(params[..i], params[i]);
      assert params[..i + 1] == params[..i] + [params[i]];
    }
    assert params[..|params|] == params;
  }

  function FourBytes(b3: int, b2: int, b1: int, b0: int): int {
    b3 * 0x100_0000 + b2 * 0x1_0000 + b1 * 0x100 + b0
  }

  /** A number with its most significant byte first. */
  function BigEndian(s: seq<byte>): nat {
    if s == [] then 0 else 256 * BigEndian(s[..|s| - 1]) + s[|s| - 1]
  }

  lemma OneMore(s: seq<byte>, b: byte)
    ensures BigEndian(s + [b]) == 256 * BigEndian(s) + b
  {
    assert (s + [b])[..|s|] == s;
  }

  lemma NoBytes()
    ensures BigEndian([]) == 0
  {
  }

  lemma FourBytesAreBigEndian(b3: byte, b2: byte, b1: byte, b0: byte)
    ensures FourBytes(b3, b2, b1, b0) == BigEndian([b3, b2, b1, b0])
  {
    OneMore([], b3);
    OneMore([b3], b2);
    OneMore([b3, b2], b1);
    OneMore([b3, b2, b1], b0);
    hide BigEndian;
    assert [] + [b3] == [b3] && [b3] + [b2] == [b3, b2];
    assert [b3, b2] + [b1] == [b3, b2, b1] && [b3, b2, b1] + [b0] == [b3, b2, b1, b0];
    assert BigEndian([]) == 0 by { NoBytes(); }
  }

  /**
   * The form of a length that section 3.4 prescribes: one byte below 128, otherwise four bytes,
   * the most significant first and marked by its high bit.
   */
  lemma LengthForm(n: nat)
    requires n < MAX_NAME_VALUE
    ensures n < 128 ==> EncodeLength(n) == [n]
    ensures n >= 128 ==>
              var s := EncodeLength(n);
              |s| == 4 && s[0] >= 0x80 && BigEndian([s[0] - 0x80] + s[1..]) == n
  {
    if n >= 128 {
      var s := EncodeLength(n);
      LowBytes(n);
      SmallMod(n);
      HighByte(n / 0x100_0000);
      FourBytesAreBigEndian(s[0] - 0x80, s[1], s[2], s[3]);
      assert [s[0] - 0x80] + s[1..] == [s[0] - 0x80, s[1], s[2], s[3]];
    }
  }

  /** A length as section 3.4 reads it, with the number of bytes it takes. */
  function DecodeLength(data: seq<byte>): (r: Option<(nat, nat)>)
    ensures r.Some? ==> 1 <= r.value.1 <= |data|
  {
    if data == [] then None
    else if data[0] < 0x80 then Some((data[0], 1))
    else if |data| < 4 then None
    else Some((FourBytes(data[0] - 0x80, data[1], data[2], data[3]), 4))
  }

  /** The two lengths in front of a pair, and what follows them. */
  function DecodeLengths(data: seq<byte>): (r: Option<(nat, nat, seq<byte>)>)
    ensures r.Some? ==> |r.value.2| < |data|
  {
    match DecodeLength(data)
    case None => None
    case Some((nameLen, used)) =>
      match DecodeLength(data[used..])
      case None => None
      case Some((valueLen, used')) => Some((nameLen, valueLen, data[used..][used'..]))
  }

  function CutPair(nameLen: nat, valueLen: nat, text: seq<byte>): (r: Option<(Pair, seq<byte>)>)
    ensures r.Some? ==> |r.value.1| <= |text|
  {
    if |text| < nameLen + valueLen then None
    else Some(((text[..nameLen], text[nameLen..nameLen + valueLen]), text[nameLen + valueLen..]))
  }

  function DecodePair(data: seq<byte>): (r: Option<(Pair, seq<byte>)>)
    ensures r.Some? ==> |r.value.1| < |data|
  {
    match DecodeLengths(data)
    case None => None
    case Some((nameLen, valueLen, text)) => CutPair(nameLen, valueLen, text)
  }

  /** The decoder of section 3.4; it has no counterpart in the repository. */
  function DecodeParams(data: seq<byte>): Option<seq<Pair>>
    decreases |data|
  {
    if data == [] then Some([])
    else
      match DecodePair(data)
      case None => None
      case Some((p, rest)) =>
        match DecodeParams(rest)
        case None => None
        case Some(ps) => Some([p] + ps)
  }

  predicate Representable(p: Pair) {
    |p.0| < MAX_NAME_VALUE && |p.1| < MAX_NAME_VALUE
  }

  lemma LowBytes(n: nat)
    ensures FourBytes(n / 0x100_0000 % 128, n / 0x1_0000 % 256, n / 0x100 % 256, n % 256) == n % 0x8000_0000
  {
    Shifts(n);
    var q1 := n / 0x100;
    var q2 := q1 / 0x100;
    var q3 := q2 / 0x100;
    DivMod256(n);
    DivMod256(q1);
    DivMod256(q2);
    ModUnique(n, q3 / 128, FourBytes(q3 % 128, q2 % 256, q1 % 256, n % 256));
  }

  lemma ModUnique(n: nat, q: nat, r: nat)
    requires n == q * 0x8000_0000 + r && r < 0x8000_0000
    ensures n % 0x8000_0000 == r
  {
  }

  lemma HighByte(q: nat)
    ensures 0x80 <= WithHighBit(q % 256) && WithHighBit(q % 256) - 0x80 == q % 128
  {
  }

  lemma DecodeFourBytes(a: byte, b: byte, c: byte, d: byte, rest: seq<byte>)
    requires a >= 0x80
    ensures DecodeLength([a, b, c, d] + rest) == Some((FourBytes(a - 0x80, b, c, d), 4))
  {
    var data := [a, b, c, d] + rest;
    assert data[0] == a && data[1] == b && data[2] == c && data[3] == d;
  }

  lemma LengthReadsBack(n: nat, rest: seq<byte>)
    ensures DecodeLength(EncodeLength(n) + rest) == Some((n % 0x8000_0000, |EncodeLength(n)|))
  {
    if n < 128 {
      assert (EncodeLength(n) + rest)[0] == n;
    } else {
      LowBytes(n);
      HighByte(n / 0x100_0000);
      DecodeFourBytes(WithHighBit(n / 0x100_0000 % 256), n / 0x1_0000 % 256, n / 0x100 % 256, n % 256, rest);
    }
  }

  /** Both lengths of an encoded pair read back modulo 2^31, and the text follows them. */
  lemma LengthsReadBack(p: Pair, rest: seq<byte>)
    ensures DecodeLengths(EncodePair(p) + rest)
         == Some((|p.0| % 0x8000_0000, |p.1| % 0x8000_0000, p.0 + p.1 + rest))
  {
    var a, b := EncodeLength(|p.0|), EncodeLength(|p.1|);
    var text := p.0 + p.1 + rest;
    var d := a + (b + text);
    assert EncodePair(p) + rest == d;
    LengthReadsBack(|p.0|, b + text);
    assert d[|a|..] == b + text;
    LengthReadsBack(|p.1|, text);
    assert (b + text)[|b|..] == text;
  }

  lemma SmallMod(n: nat)
    requires n < MAX_NAME_VALUE
    ensures n % 0x8000_0000 == n
  {
  }

  lemma LongMod(n: nat)
    ensures n >= MAX_NAME_VALUE ==> n % 0x8000_0000 < n
  {
  }

  lemma CutText(p: Pair, rest: seq<byte>)
    ensures CutPair(|p.0|, |p.1|, p.0 + p.1 + rest) == Some((p, rest))
  {
    var text := p.0 + p.1 + rest;
    assert text[..|p.0|] == p.0;
    assert text[|p.0|..|p.0| + |p.1|] == p.1;
    assert text[|p.0| + |p.1|..] == rest;
  }

  lemma PairReadsBack(p: Pair, rest: seq<byte>)
    requires Representable(p)
    ensures DecodePair(EncodePair(p) + rest) == Some((p, rest))
  {
    LengthsReadBack(p, rest);
    SmallMod(|p.0|);
    SmallMod(|p.1|);
    CutText(p, rest);
    assert DecodeLengths(EncodePair(p) + rest) == Some((|p.0|, |p.1|, p.0 + p.1 + rest));
  }

  /** A longer text is cut at its length modulo 2^31, so the pair cannot come back. */
  lemma LongPairIsLost(p: Pair, rest: seq<byte>)
    requires !Representable(p)
    ensures var r := DecodePair(EncodePair(p) + rest); r.Some? ==> r.value.0 != p
  {
    LengthsReadBack(p, rest);
    LongMod(|p.0|);
    LongMod(|p.1|);
    var r := DecodePair(EncodePair(p) + rest);
    if r.Some? {
      assert |r.value.0.0| == |p.0| % 0x8000_0000 && |r.value.0.1| == |p.1| % 0x8000_0000;
    }
  }

  predicate AllRepresentable(params: seq<Pair>) {
    forall i :: 0 <= i < |params| ==> Representable(params[i])
  }

  /** The round trip of section 3.4 holds exactly for lists whose lengths fit in 31 bits. */
  lemma {:induction false} ParamsRoundTrip(params: seq<Pair>)
    ensures DecodeParams(EncodeParams(params)) == Some(params) <==> AllRepresentable(params)
  {
    hide EncodePair, DecodePair;
    if params != [] {
      var p, rest := params[0], EncodeParams(params[1..]);
      assert params == [p] + params[1..];
      ParamsRoundTrip(params[1..]);
      if Representable(p) {
        PairReadsBack(p, rest);
        assert AllRepresentable(params) <==> AllRepresentable(params[1..]);
        var r := DecodeParams(rest);
        if r.Some? && [p] + r.value == params {
          assert r.value == params[1..];
        }
      } else {
        LongPairIsLost(p, rest);
      }
    }
  }

  lemma ParamsInjective(a: seq<Pair>, b: seq<Pair>)
    requires AllRepresentable(a) && AllRepresentable(b)
    requires EncodeParams(a) == EncodeParams(b)
    ensures a == b
  {
    ParamsRoundTrip(a);
    ParamsRoundTrip(b);
  }

  // ---------------------------------------------------------------- records

  /** A record as any sender may form it: section 3.3 leaves the padding to the sender. */
  datatype Record = Record(version: byte, kind: byte, id: u16, content: seq<byte>, padding: seq<byte>, reserved: byte)

  function Padding(n: nat): (p: nat)
    ensures p < 8 && (n + p) % 8 == 0
  {
    (8 - n % 8) % 8
  }

  function RecordHeader(r: Record): seq<byte> {
    [r.version, r.kind, r.id / 256, r.id % 256, |r.content| / 256 % 256, |r.content| % 256, |r.padding| % 256, r.reserved]
  }

  function EncodeRecord(r: Record): (s: seq<byte>)
    ensures |s| == HEADER_LEN + |r.content| + |r.padding|
  {
    RecordHeader(r) + r.content + r.padding
  }

  /** The record that the client writes for some content: padded with zeros to eight bytes. */
  function Padded(kind: byte, id: u16, content: seq<byte>): Record {
    Record(1, kind, id, content, Zeros(Padding(|content|)), 0)
  }

  function EncodeStream(records: seq<Record>): seq<byte> {
    if records == [] then [] else EncodeRecord(records[0]) + EncodeStream(records[1..])
  }

  function Zeros(n: nat): (z: seq<byte>)
    ensures |z| == n && forall i :: 0 <= i < n ==> z[i] == 0
  {
    seq(n, _ => 0)
  }

  /** The bytes of a record that got out when its three writes stop after `room` bytes. */
  lemma RecordPrefix(header: seq<byte>, content: seq<byte>, zeros: seq<byte>, room: nat)
    ensures var whole := header + content + zeros;
            && (room < |header| ==> whole[..room] == header[..room])
            && (|header| <= room < |header| + |content| ==> whole[..room] == header + content[..room - |header|])
            && (|header| + |content| <= room < |whole| ==>
                  whole[..room] == header + content + zeros[..room - |header| - |content|])
  {
  }

  /** A failed write leaves a byte prefix of the record behind. */
  method WriteRecord(w: ByteSink, kind: byte, id: u16, content: seq<byte>) returns (ok: bool)
    modifies w
    ensures var whole := EncodeRecord(Padded(kind, id, content));
            && ok == (|whole| <= old(w.room))
            && w.bytes == old(w.bytes) + (if ok then whole else whole[..old(w.room)])
            && w.room == (if ok then old(w.room) - |whole| else 0)
  {
    var contentLen := |content|;
    var paddingLen := (8 - contentLen % 8) % 8;
    var header := [1, kind, id / 256, id % 256, contentLen / 256 % 256, contentLen % 256, paddingLen, 0];
    var zeros := Zeros(paddingLen);
    assert EncodeRecord(Padded(kind, id, content)) == header + content + zeros;
    hide EncodeRecord, Padding;
    RecordPrefix(header, content, zeros, w.room);
    ok := w.WriteAll(header);
    if ok {
      ok := w.WriteAll(content);
      if ok && paddingLen > 0 {
        ok := w.WriteAll(zeros);
      }
    }
  }

  // ---------------------------------------------------------------- demultiplexing

  function ContentLength(data: seq<byte>): nat
    requires |data| >= HEADER_LEN
  {
    data[4] as int * 256 + data[5]
  }

  /** What follows the first record, or nothing when its padding is cut off. */
  function AfterRecord(data: seq<byte>): seq<byte>
    requires |data| >= HEADER_LEN
  {
    var next := HEADER_LEN + ContentLength(data) + data[6];
    if next <= |data| then data[next..] else []
  }

  /** The standard output carried by a received byte string, before header stripping. */
  function Collect(data: seq<byte>): (out: seq<byte>)
    ensures out != [] ==> |out| + HEADER_LEN <= |data|
    decreases |data|
  {
    if |data| < HEADER_LEN || HEADER_LEN + ContentLength(data) > |data| then []
    else
      Piece(data) + Collect(AfterRecord(data))
  }

  const CRLF_CRLF: seq<byte> := [13, 10, 13, 10]

  predicate BlankLineAt(s: seq<byte>, j: nat) {
    j + 4 <= |s| && s[j] == 13 && s[j + 1] == 10 && s[j + 2] == 13 && s[j + 3] == 10
  }

  /** The first position at which CR LF CR LF occurs. */
  function FindBlankLine(s: seq<byte>): (at: Option<nat>)
    ensures at.Some? ==> BlankLineAt(s, at.value) && forall j: nat :: j < at.value ==> !BlankLineAt(s, j)
    ensures at.None? ==> forall j: nat :: !BlankLineAt(s, j)
  {
    if |s| < 4 then None
    else if BlankLineAt(s, 0) then Some(0)
    else
      var r := FindBlankLine(s[1..]);
      assert forall j: nat :: j > 0 ==> BlankLineAt(s, j) == BlankLineAt(s[1..], j - 1);
      if r.Some? then assert BlankLineAt(s, r.value + 1); Some(r.value + 1) else None
  }

  function StripHeaders(out: seq<byte>): seq<byte> {
    match FindBlankLine(out)
    case Some(at) => out[at + 4..]
    case None => out
  }

  /** What the first record contributes to the standard output. */
  function Piece(data: seq<byte>): seq<byte>
    requires |data| >= HEADER_LEN && HEADER_LEN + ContentLength(data) <= |data|
  {
    if data[1] == STDOUT then data[HEADER_LEN..HEADER_LEN + ContentLength(data)] else []
  }

  function LengthAt(data: seq<byte>, pos: nat): nat
    requires pos + HEADER_LEN <= |data|
  {
    data[pos + 4] as int * 256 + data[pos + 5]
  }

  function NextAt(data: seq<byte>, pos: nat): nat
    requires pos + HEADER_LEN <= |data|
  {
    pos + 8 + LengthAt(data, pos) + data[pos + 6]
  }

  function PieceOf(data: seq<byte>, pos: nat): seq<byte>
    requires pos + HEADER_LEN <= |data| && pos + HEADER_LEN + LengthAt(data, pos) <= |data|
  {
    if data[pos + 1] == STDOUT then data[pos + 8..pos + 8 + LengthAt(data, pos)] else []
  }

  /** What is still to be collected once the loop stands at `pos`, which may be past the end. */
  function CollectFrom(data: seq<byte>, pos: nat): seq<byte> {
    if pos <= |data| then Collect(data[pos..]) else []
  }

  lemma PieceAt(data: seq<byte>, pos: nat)
    requires pos + HEADER_LEN <= |data|
    ensures ContentLength(data[pos..]) == LengthAt(data, pos)
    ensures pos + 8 + LengthAt(data, pos) <= |data| ==> Piece(data[pos..]) == PieceOf(data, pos)
  {
    if pos + 8 + LengthAt(data, pos) <= |data| {
      SliceOfDrop(data, pos, 8, 8 + LengthAt(data, pos));
    }
  }

  lemma AfterRecordAt(data: seq<byte>, pos: nat)
    requires pos + HEADER_LEN <= |data|
    ensures var next := NextAt(data, pos);
            AfterRecord(data[pos..]) == if next <= |data| then data[next..] else []
  {
    var next := NextAt(data, pos);
    if next <= |data| {
      DropOfDrop(data, pos, next - pos);
    }
  }

  lemma CollectUnfold(d: seq<byte>)
    requires |d| >= HEADER_LEN
    ensures Collect(d) == if HEADER_LEN + ContentLength(d) > |d| then [] else Piece(d) + Collect(AfterRecord(d))
  {
  }

  lemma CollectFromStep(data: seq<byte>, pos: nat)
    requires pos + HEADER_LEN <= |data|
    ensures pos + 8 + LengthAt(data, pos) > |data| ==> CollectFrom(data, pos) == []
    ensures pos + 8 + LengthAt(data, pos) <= |data| ==>
              CollectFrom(data, pos) == PieceOf(data, pos) + CollectFrom(data, NextAt(data, pos))
  {
    hide Collect, AfterRecord, Piece, PieceOf, ContentLength;
    CollectUnfold(data[pos..]);
    PieceAt(data, pos);
    AfterRecordAt(data, pos);
    CollectEnd([], 0);
  }

  lemma CollectEnd(data: seq<byte>, pos: nat)
    requires pos + HEADER_LEN > |data|
    ensures CollectFrom(data, pos) == []
  {
  }

  /** The demultiplexing loop. */
  method CollectStdout(data: seq<byte>) returns (result: seq<byte>)
    ensures result == Collect(data)
  {
    hide Collect;
    result := [];
    var pos: nat := 0;
    ghost var todo := CollectFrom(data, 0);
    assert todo == Collect(data) by { assert data[0..] == data; }
    while pos + 8 <= |data|
      invariant result + todo == Collect(data)
      invariant todo == CollectFrom(data, pos)
    {
      var recordType := data[pos + 1];
      var contentLen := data[pos + 4] as int * 256 + data[pos + 5];
      var paddingLen := data[pos + 6] as int;
      CollectFromStep(data, pos);
      assert contentLen == LengthAt(data, pos);
      ghost var start := pos;
      pos := pos + 8;
      if pos + contentLen > |data| {
        todo := [];
        break;
      }
      ghost var before, piece, rest := result, PieceOf(data, start), CollectFrom(data, NextAt(data, start));
      if recordType == 6 && contentLen > 0 {
        result := result + data[pos..pos + contentLen];
      } else {
        assert piece == [] && before + [] == before;
      }
      assert result == before + piece;
      ConcatAssoc(before, piece, rest);
      pos := pos + contentLen + paddingLen;
      assert pos == NextAt(data, start);
      todo := rest;
    }
    if todo != [] {
      CollectEnd(data, pos);
    }
    assert result + [] == result;
  }

  method ExtractStdout(data: seq<byte>) returns (r: Option<seq<byte>>)
    ensures r == Some(StripHeaders(Collect(data)))
  {
    var result := CollectStdout(data);
    var headerEnd := FindBlankLine(result);
    if headerEnd.Some? {
      r := Some(result[headerEnd.value + 4..]);
    } else {
      r := Some(result);
    }
  }

  /** Without a blank line nothing is stripped; otherwise everything through the first one is. */
  lemma StripExactly(out: seq<byte>)
    ensures (forall j: nat :: !BlankLineAt(out, j)) ==> StripHeaders(out) == out
    ensures forall at: nat :: BlankLineAt(out, at) && (forall j: nat :: j < at ==> !BlankLineAt(out, j)) ==>
              StripHeaders(out) == out[at + 4..]
  {
    var found := FindBlankLine(out);
    forall at: nat | BlankLineAt(out, at) && forall j: nat :: j < at ==> !BlankLineAt(out, j)
      ensures StripHeaders(out) == out[at + 4..]
    {
      assert found.Some? && !(found.value < at) && !(at < found.value);
    }
  }

  // ---------------------------------------------------------------- stream theorems

  /** A record whose two lengths fit their fields. */
  predicate Frameable(r: Record) {
    |r.content| <= MAX_CONTENT && |r.padding| <= 255
  }

  predicate Framable(records: seq<Record>) {
    forall i :: 0 <= i < |records| ==> Frameable(records[i])
  }

  function StdoutOf(records: seq<Record>): seq<byte> {
    if records == [] then []
    else (if records[0].kind == STDOUT then records[0].content else []) + StdoutOf(records[1..])
  }

  /**
   * How many leading records have header and content wholly inside the first `k` bytes of the
   * stream. Padding does not count: a cut inside the padding of a record keeps the record.
   */
  function WholeRecords(records: seq<Record>, k: nat): (m: nat)
    ensures m <= |records|
  {
    if records == [] || HEADER_LEN + |records[0].content| > k then 0
    else
      var size := |EncodeRecord(records[0])|;
      1 + if size <= k then WholeRecords(records[1..], k - size) else 0
  }

  /** A record is counted exactly when the stream up to the end of its content fits the cut. */
  lemma {:induction false} CountedIsWhole(records: seq<Record>, k: nat, i: nat)
    requires i < |records|
    ensures i < WholeRecords(records, k)
       <==> |EncodeStream(records[..i])| + HEADER_LEN + |records[i].content| <= k
  {
    hide Padding, RecordHeader;
    if i > 0 {
      var size := |EncodeRecord(records[0])|;
      assert records[..i][0] == records[0] && records[..i][1..] == records[1..][..i - 1];
      assert |EncodeStream(records[..i])| == size + |EncodeStream(records[1..][..i - 1])|;
      if size <= k {
        CountedIsWhole(records[1..], k - size, i - 1);
      }
    }
  }

  /** The header of a record announces its content when the length fits 16 bits. */
  lemma HeaderBytes(r: Record, k: nat, rest: seq<byte>)
    requires Frameable(r)
    requires HEADER_LEN <= k <= |EncodeRecord(r) + rest|
    ensures var d := (EncodeRecord(r) + rest)[..k];
            && d[1] == r.kind
            && ContentLength(d) == |r.content|
            && d[6] == |r.padding|
  {
    var d := (EncodeRecord(r) + rest)[..k];
    var header := RecordHeader(r);
    assert forall i :: 0 <= i < 8 ==> d[i] == header[i];
    assert d[4] == header[4] && d[5] == header[5] && d[6] == header[6];
  }

  lemma HeaderOfRecord(r: Record, k: nat, rest: seq<byte>)
    requires Frameable(r)
    requires HEADER_LEN + |r.content| <= k <= |EncodeRecord(r) + rest|
    ensures var d := (EncodeRecord(r) + rest)[..k];
            && d[1] == r.kind
            && ContentLength(d) == |r.content|
            && d[HEADER_LEN..HEADER_LEN + |r.content|] == r.content
            && AfterRecord(d) == if |EncodeRecord(r)| <= k then rest[..k - |EncodeRecord(r)|] else []
  {
    HeaderBytes(r, k, rest);
  }

  /** A cut before the end of the first record's content yields nothing. */
  lemma CutFirstRecord(r: Record, k: nat, rest: seq<byte>)
    requires Frameable(r)
    requires k < HEADER_LEN + |r.content| <= |EncodeRecord(r) + rest|
    ensures Collect((EncodeRecord(r) + rest)[..k]) == []
  {
    if k >= HEADER_LEN {
      HeaderBytes(r, k, rest);
    }
  }

  /** Extraction takes the first record when it is whole and goes on behind its padding. */
  lemma CollectFirst(r: Record, k: nat, rest: seq<byte>)
    requires Frameable(r)
    requires HEADER_LEN + |r.content| <= k <= |EncodeRecord(r) + rest|
    ensures Collect((EncodeRecord(r) + rest)[..k])
         == (if r.kind == STDOUT then r.content else [])
          + Collect(if |EncodeRecord(r)| <= k then rest[..k - |EncodeRecord(r)|] else [])
  {
    HeaderOfRecord(r, k, rest);
  }

  /**
   * Cutting the stream anywhere, even inside padding, yields exactly the standard output of
   * the records that are whole at the cut.
   */
  lemma {:induction false} TruncatedStream(records: seq<Record>, k: nat)
    requires Framable(records)
    requires k <= |EncodeStream(records)|
    ensures Collect(EncodeStream(records)[..k]) == StdoutOf(records[..WholeRecords(records, k)])
  {
    hide EncodeRecord, Collect;
    if records == [] {
      assert Collect([]) == [] by { CollectEnd([], 0); }
    } else {
      var r, rest := records[0], EncodeStream(records[1..]);
      var m := WholeRecords(records, k);
      if HEADER_LEN + |r.content| > k {
        CutFirstRecord(r, k, rest);
        assert m == 0;
      } else {
        CollectFirst(r, k, rest);
        assert records[..m][0] == r && records[..m][1..] == records[1..][..m - 1];
        if |EncodeRecord(r)| <= k {
          TruncatedStream(records[1..], k - |EncodeRecord(r)|);
        } else {
          assert m == 1;
        }
      }
    }
  }

  lemma {:induction false} AllRecordsWhole(records: seq<Record>)
    ensures WholeRecords(records, |EncodeStream(records)|) == |records|
  {
    if records != [] {
      AllRecordsWhole(records[1..]);
    }
  }

  /** Writing records and extracting gives their standard output, without the response headers. */
  lemma StreamRoundTrip(records: seq<Record>)
    requires Framable(records)
    ensures Collect(EncodeStream(records)) == StdoutOf(records)
  {
    var s := EncodeStream(records);
    AllRecordsWhole(records);
    TruncatedStream(records, |s|);
    assert s[..|s|] == s && records[..|records|] == records;
  }

  lemma {:induction false} StdoutPrefix(records: seq<Record>, m: nat)
    requires m <= |records|
    ensures StdoutOf(records[..m]) <= StdoutOf(records)
  {
    if m > 0 {
      assert records[..m][1..] == records[1..][..m - 1];
      StdoutPrefix(records[1..], m - 1);
    }
  }

  /** A connection that breaks early delivers a prefix of the full output. */
  lemma TruncationIsPrefix(records: seq<Record>, k: nat)
    requires Framable(records)
    requires k <= |EncodeStream(records)|
    ensures Collect(EncodeStream(records)[..k]) <= Collect(EncodeStream(records))
  {
    TruncatedStream(records, k);
    StreamRoundTrip(records);
    StdoutPrefix(records, WholeRecords(records, k));
  }

  /** One stdout record of the client survives exactly when its content fits the 16-bit length field. */
  lemma OversizedRecord(id: u16, content: seq<byte>)
    ensures Collect(EncodeRecord(Padded(STDOUT, id, content))) == content <==> |content| <= MAX_CONTENT
  {
    var r := Padded(STDOUT, id, content);
    var d := EncodeRecord(r);
    hide Padded, Zeros, Padding;
    PaddedFacts(STDOUT, id, content);
    if |content| <= MAX_CONTENT {
      HeaderOfRecord(r, |d|, []);
      assert (d + [])[..|d|] == d;
      assert Collect([]) == [];
    } else {
      var header := RecordHeader(r);
      assert d[..HEADER_LEN] == header;
      assert d[4] == header[4] && d[5] == header[5] && d[6] == header[6];
      var n := |content| % 0x1_0000;
      assert ContentLength(d) == n;
      assert |AfterRecord(d)| == |content| - n;
    }
  }

  lemma PaddedFacts(kind: byte, id: u16, content: seq<byte>)
    ensures var r := Padded(kind, id, content);
            r.kind == kind && r.content == content && |r.padding| == Padding(|content|) < 8
  {
  }

  /**
   * The layout of section 3.3 in the bytes that the client writes: version 1, type, request
   * number and content length with the high byte first, the padding length, a zero, the content,
   * and zeros up to a multiple of eight bytes.
   */
  lemma RecordLayout(kind: byte, id: u16, content: seq<byte>)
    requires |content| <= MAX_CONTENT
    ensures var s := EncodeRecord(Padded(kind, id, content));
            && |s| >= HEADER_LEN + |content|
            && s[0] == 1 && s[1] == kind && s[7] == 0
            && BigEndian(s[2..4]) == id
            && BigEndian(s[4..6]) == |content|
            && s[HEADER_LEN..HEADER_LEN + |content|] == content
            && |s| == HEADER_LEN + |content| + s[6] && s[6] < 8 && |s| % 8 == 0
            && forall i :: HEADER_LEN + |content| <= i < |s| ==> s[i] == 0
  {
    var r := Padded(kind, id, content);
    var s := EncodeRecord(r);
    var header := RecordHeader(r);
    assert s[..HEADER_LEN] == header;
    TwoBytes(s[2], s[3]);
    TwoBytes(s[4], s[5]);
    assert s[2..4] == [s[2], s[3]] && s[4..6] == [s[4], s[5]];
    assert s[2] == header[2] && s[3] == header[3] && s[4] == header[4] && s[5] == header[5];
    assert s[0] == header[0] && s[1] == header[1] && s[6] == header[6] && s[7] == header[7];
    var n := |content|;
    MultipleOfEight(n, |r.padding|);
    hide Padding;
  }

  lemma MultipleOfEight(n: nat, p: nat)
    requires (n + p) % 8 == 0
    ensures (HEADER_LEN + n + p) % 8 == 0
  {
  }

  lemma TwoBytes(high: byte, low: byte)
    ensures BigEndian([high, low]) == high as int * 256 + low
  {
    OneMore([], high);
    OneMore([high], low);
  }

  /**
   * However the responder cuts its output into records, the client returns the body that
   * follows the first blank line of a CGI response.
   */
  lemma ResponseBody(records: seq<Record>, head: seq<byte>, body: seq<byte>)
    requires Framable(records)
    requires StdoutOf(records) == head + CRLF_CRLF + body
    requires FindBlankLine(head + CRLF_CRLF) == Some(|head|)
    ensures StripHeaders(Collect(EncodeStream(records))) == body
  {
    StreamRoundTrip(records);
    var out := head + CRLF_CRLF + body;
    forall j: nat | j <= |head|
      ensures BlankLineAt(out, j) == BlankLineAt(head + CRLF_CRLF, j)
    {
    }
    assert FindBlankLine(out) == Some(|head|);
    assert out[|head| + 4..] == body;
  }
}
