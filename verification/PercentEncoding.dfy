/** Percent-encoding of query data (RFC 3986, section 2.1) and splitting of request URIs. */
module PercentEncoding {
  import opened Bytes

  predicate IsAlphanumeric(b: byte) {
    0x30 <= b <= 0x39 || 0x41 <= b <= 0x5A || 0x61 <= b <= 0x7A
  }

  /** The unreserved characters of section 2.3. */
  predicate IsUnreserved(b: byte) {
    IsAlphanumeric(b) || b == 0x2D || b == 0x5F || b == 0x2E || b == 0x7E
  }

  predicate IsUpperHex(c: char) {
    '0' <= c <= '9' || 'A' <= c <= 'F'
  }

  function HexDigit(n: nat): (c: char)
    requires n < 16
    ensures IsUpperHex(c)
  {
    if n < 10 then '0' + n as char else 'A' + (n - 10) as char
  }

  function EncodeByte(b: byte): string {
    if IsUnreserved(b) then [b as char] else ['%', HexDigit(b / 16), HexDigit(b % 16)]
  }

  function Encoded(s: seq<byte>): string {
    if s == [] then "" else EncodeByte(s[0]) + Encoded(s[1..])
  }

  lemma {:induction false} EncodedSnoc(s: seq<byte>, b: byte)
    ensures Encoded(s + [b]) == Encoded(s) + EncodeByte(b)
  {
    hide EncodeByte;
    if s == [] {
      assert Encoded([b]) == EncodeByte(b) + Encoded([]);
    } else {
      assert (s + [b])[1..] == s[1..] + [b];
      EncodedSnoc(s[1..], b);
    }
  }

  method PercentEncode(s: seq<byte>) returns (result: string)
    ensures result == Encoded(s)
  {
    result := "";
    for i := 0 to |s|
      invariant result == Encoded(s[..i])
    {
      var b := s[i];
      if IsAlphanumeric(b) || b == 0x2D || b == 0x5F || b == 0x2E || b == 0x7E {
        result := result + [b as char];
      } else {
        result := result + ['%', HexDigit(b / 16), HexDigit(b % 16)];
      }
      EncodedSnoc(s[..i], b);
      assert s[..i + 1] == s[..i] + [b];
    }
    assert s[..|s|] == s;
  }

  // ---------------------------------------------------------------- decoding

  function HexValue(c: char): Option<nat> {
    if '0' <= c <= '9' then Some((c - '0') as nat)
    else if 'A' <= c <= 'F' then Some((c - 'A') as nat + 10)
    else if 'a' <= c <= 'f' then Some((c - 'a') as nat + 10)
    else None
  }

  /** The decoder of section 2.1; it has no counterpart in the repository. */
  function Decode(text: string): Option<seq<byte>> {
    if text == "" then Some([])
    else if text[0] == '%' then
      if |text| < 3 then None
      else
        match (HexValue(text[1]), HexValue(text[2]), Decode(text[3..]))
        case (Some(high), Some(low), Some(rest)) =>
          if high < 16 && low < 16 then Some([high * 16 + low] + rest) else None
        case _ => None
    else if text[0] as int >= 0x80 then None
    else
      match Decode(text[1..])
      case Some(rest) => Some([text[0] as int] + rest)
      case None => None
  }

  lemma DigitsReadBack(b: byte)
    ensures HexValue(HexDigit(b / 16)) == Some(b / 16)
    ensures HexValue(HexDigit(b % 16)) == Some(b % 16)
    ensures b / 16 * 16 + b % 16 == b
  {
  }

  lemma DecodeFirst(b: byte, rest: string)
    requires Decode(rest).Some?
    ensures Decode(EncodeByte(b) + rest) == Some([b] + Decode(rest).value)
  {
    var text := EncodeByte(b) + rest;
    if IsUnreserved(b) {
      assert text[0] == b as char && text[1..] == rest;
    } else {
      DigitsReadBack(b);
      assert text[1] == HexDigit(b / 16) && text[2] == HexDigit(b % 16) && text[3..] == rest;
      hide HexDigit, HexValue;
    }
  }

  /** Decoding inverts encoding on every byte string. */
  lemma {:induction false} RoundTrip(s: seq<byte>)
    ensures Decode(Encoded(s)) == Some(s)
  {
    hide EncodeByte;
    if s != [] {
      RoundTrip(s[1..]);
      DecodeFirst(s[0], Encoded(s[1..]));
      assert s == [s[0]] + s[1..];
    }
  }

  /** A percent sign and two upper-case hexadecimal digits at a position. */
  predicate TripletAt(text: string, i: nat) {
    i + 2 < |text| && text[i] == '%' && IsUpperHex(text[i + 1]) && IsUpperHex(text[i + 2])
  }

  /** Every character is unreserved or belongs to a triplet that a percent sign starts. */
  ghost predicate Encoding(text: string) {
    forall i :: 0 <= i < |text| ==>
      if text[i] == '%' then TripletAt(text, i) else text[i] as int < 0x80 && IsUnreserved(text[i] as int)
  }

  lemma EncodingFirst(b: byte, rest: string)
    requires Encoding(rest)
    ensures Encoding(EncodeByte(b) + rest)
  {
    var text := EncodeByte(b) + rest;
    var n := |EncodeByte(b)|;
    forall i | n <= i < |text|
      ensures text[i] == rest[i - n]
      ensures TripletAt(rest, i - n) ==> TripletAt(text, i)
    {
    }
    if !IsUnreserved(b) {
      HexIsUnreserved(HexDigit(b / 16));
      HexIsUnreserved(HexDigit(b % 16));
      assert text[1] == HexDigit(b / 16) && text[2] == HexDigit(b % 16);
      hide HexDigit;
      assert TripletAt(text, 0);
    }
  }

  lemma HexIsUnreserved(c: char)
    requires IsUpperHex(c)
    ensures c as int < 0x80 && IsUnreserved(c as int) && c != '%'
  {
  }

  /**
   * The encoded text has no character with a meaning in a URI or a query, apart from `%`, and
   * each of these is followed by two upper-case hexadecimal digits.
   */
  lemma {:induction false} Alphabet(s: seq<byte>)
    ensures Encoding(Encoded(s))
  {
    if s != [] {
      Alphabet(s[1..]);
      EncodingFirst(s[0], Encoded(s[1..]));
    }
  }

  /** The unreserved characters are letters, digits, hyphen, full stop, underscore and tilde. */
  lemma UnreservedCharacters(b: byte)
    ensures IsUnreserved(b)
       <==> var c := b as char;
            'A' <= c <= 'Z' || 'a' <= c <= 'z' || '0' <= c <= '9' || c == '-' || c == '.' || c == '_' || c == '~'
  {
  }

  /** Encoding leaves unreserved text as it is and goes byte by byte. */
  lemma {:induction false} UnreservedStays(a: seq<byte>, s: seq<byte>)
    requires forall i :: 0 <= i < |a| ==> IsUnreserved(a[i])
    ensures Encoded(a + s) == seq(|a|, i requires 0 <= i < |a| => a[i] as char) + Encoded(s)
  {
    var text := seq(|a|, i requires 0 <= i < |a| => a[i] as char);
    if a == [] {
      assert a + s == s && text + Encoded(s) == Encoded(s);
    } else {
      UnreservedStays(a[1..], s);
      assert (a + s)[1..] == a[1..] + s;
      hide Encoded, IsUnreserved;
      var rest := seq(|a[1..]|, i requires 0 <= i < |a[1..]| => a[1..][i] as char);
      assert text == [a[0] as char] + rest;
    }
  }

  /** Three characters for each other byte, so the length is known. */
  lemma {:induction false} EncodedLength(s: seq<byte>)
    ensures |Encoded(s)| == |s| + 2 * Reserved(s)
  {
    if s != [] {
      EncodedLength(s[1..]);
    }
  }

  function Reserved(s: seq<byte>): nat {
    if s == [] then 0 else (if IsUnreserved(s[0]) then 0 else 1) + Reserved(s[1..])
  }

  // ---------------------------------------------------------------- request URIs

  function FindChar(c: char, s: string): (at: Option<nat>)
    ensures at.None? ==> c !in s
    ensures at.Some? ==> at.value < |s| && s[at.value] == c && c !in s[..at.value]
  {
    if s == "" then None
    else if s[0] == c then Some(0)
    else
      match FindChar(c, s[1..])
      case None => None
      case Some(i) =>
        assert s[..i + 1] == [s[0]] + s[1..][..i];
        Some(i + 1)
  }

  function ParseUri(uri: string): (string, Option<string>) {
    match FindChar('?', uri)
    case Some(at) => (uri[..at], Some(uri[at + 1..]))
    case None => (uri, None)
  }

  function JoinUri(path: string, query: Option<string>): string {
    match query
    case Some(q) => path + "?" + q
    case None => path
  }

  /** Splitting loses nothing, and the path never contains a question mark. */
  lemma ParsedUriJoins(uri: string)
    ensures var (path, query) := ParseUri(uri);
            JoinUri(path, query) == uri && '?' !in path
  {
  }

  lemma {:induction false} FirstQuestionMark(path: string, rest: string)
    requires '?' !in path
    ensures FindChar('?', path + "?" + rest) == Some(|path|)
  {
    if path != "" {
      FirstQuestionMark(path[1..], rest);
      assert (path + "?" + rest)[1..] == path[1..] + "?" + rest;
    }
  }

  /** Joining and splitting recovers a target exactly when its path has no question mark. */
  lemma JoinedUriParses(path: string, query: Option<string>)
    ensures ParseUri(JoinUri(path, query)) == (path, query) <==> '?' !in path
  {
    ParsedUriJoins(JoinUri(path, query));
    if '?' !in path && query.Some? {
      FirstQuestionMark(path, query.value);
      var uri := path + "?" + query.value;
      assert uri[..|path|] == path && uri[|path| + 1..] == query.value;
    }
  }

  /** Encoded data placed in a query comes out of the split untouched and decodable. */
  lemma QueryData(s: seq<byte>)
    ensures ParseUri("/?data=" + Encoded(s)) == ("/", Some("data=" + Encoded(s)))
    ensures var query := ParseUri("/?data=" + Encoded(s)).1.value; Decode(query[5..]) == Some(s)
  {
    JoinedUriParses("/", Some("data=" + Encoded(s)));
    assert JoinUri("/", Some("data=" + Encoded(s))) == "/?data=" + Encoded(s);
    RoundTrip(s);
    assert ("data=" + Encoded(s))[5..] == Encoded(s);
  }
}
