/** Parsing of the header lines that PHP emits. Names and values are UTF-8 bytes. */
module ResponseHeaders {
  import opened Bytes
  import Utf8

  const COLON: byte := 58
  const SPACE: byte := 32

  datatype Header = Header(name: seq<byte>, value: seq<byte>)

  predicate IsAsciiWhitespace(b: byte) {
    b == 9 || b == 10 || b == 12 || b == 13 || b == 32
  }

  function SkipWhitespace(s: seq<byte>, start: nat): (at: nat)
    requires start <= |s|
    ensures start <= at <= |s|
    ensures at < |s| ==> !IsAsciiWhitespace(s[at])
    ensures forall i :: start <= i < at ==> IsAsciiWhitespace(s[i])
    decreases |s| - start
  {
    if start < |s| && IsAsciiWhitespace(s[start]) then SkipWhitespace(s, start + 1) else start
  }

  function Text(bytes: seq<byte>): seq<byte> {
    if Utf8.Valid(bytes) then bytes else Utf8.Lossy(bytes)
  }

  lemma TextIsLossy(bytes: seq<byte>)
    ensures Text(bytes) == Utf8.Lossy(bytes)
  {
    if Utf8.Valid(bytes) {
      Utf8.LossyOfValid(bytes);
    }
  }

  /** The header that a line denotes; `None` for a line that is dropped. */
  function ParseLine(bytes: seq<byte>): (h: Option<Header>) {
    match FindByte(COLON, bytes)
    case None => None
    case Some(colon) =>
      var name := bytes[..colon];
      if colon == 0 || !Utf8.Valid(name) || Utf8.Trim(name) == [] then None
      else Some(Header(Utf8.Trim(name), Text(bytes[SkipWhitespace(bytes, colon + 1)..])))
  }

  method Parse(bytes: seq<byte>) returns (h: Option<Header>)
    ensures h == ParseLine(bytes)
  {
    var colon := FindByte(COLON, bytes);
    if colon.None? || colon.value == 0 {
      return None;
    }
    var nameBytes := bytes[..colon.value];
    var valueStart := colon.value + 1;
    while valueStart < |bytes| && IsAsciiWhitespace(bytes[valueStart])
      invariant colon.value < valueStart <= |bytes|
      invariant SkipWhitespace(bytes, valueStart) == SkipWhitespace(bytes, colon.value + 1)
    {
      valueStart := valueStart + 1;
    }
    var valueBytes := bytes[valueStart..];
    if !Utf8.Valid(nameBytes) {
      return None;
    }
    var name := Utf8.Trim(nameBytes);
    if name == [] {
      return None;
    }
    var value := if Utf8.Valid(valueBytes) then valueBytes else Utf8.Lossy(valueBytes);
    return Some(Header(name, value));
  }

  // ---------------------------------------------------------------- normal form

  function Render(h: Header): seq<byte> {
    h.name + [COLON, SPACE] + h.value
  }

  /** The headers that survive printing and parsing. */
  predicate Normal(h: Header) {
    && h.name != []
    && COLON !in h.name
    && Utf8.Valid(h.name)
    && Utf8.Trim(h.name) == h.name
    && Utf8.Valid(h.value)
    && (h.value != [] ==> !IsAsciiWhitespace(h.value[0]))
  }

  /** Replacing ill-formed bytes never brings white space to the front. */
  lemma LossyKeepsFront(s: seq<byte>)
    requires s != [] && !IsAsciiWhitespace(s[0])
    ensures Utf8.Lossy(s) != [] && !IsAsciiWhitespace(Utf8.Lossy(s)[0])
  {
    if Utf8.CharLen(s) > 0 {
      assert s[..Utf8.CharLen(s)][0] == s[0];
    }
  }

  lemma TextFacts(s: seq<byte>)
    requires s != [] ==> !IsAsciiWhitespace(s[0])
    ensures Utf8.Valid(Text(s))
    ensures Text(s) != [] ==> !IsAsciiWhitespace(Text(s)[0])
  {
    Utf8.LossyIsValid(s);
    if s != [] {
      LossyKeepsFront(s);
    }
  }

  lemma ParsedIsNormal(bytes: seq<byte>)
    ensures var h := ParseLine(bytes); h.Some? ==> Normal(h.value)
  {
    var h := ParseLine(bytes);
    if h.Some? {
      var colon := FindByte(COLON, bytes).value;
      Utf8.TrimFacts(bytes[..colon]);
      TextFacts(bytes[SkipWhitespace(bytes, colon + 1)..]);
    }
  }

  lemma {:induction false} FirstColon(name: seq<byte>, rest: seq<byte>)
    requires COLON !in name
    ensures FindByte(COLON, name + [COLON] + rest) == Some(|name|)
  {
    if name != [] {
      FirstColon(name[1..], rest);
      assert (name + [COLON] + rest)[1..] == name[1..] + [COLON] + rest;
    }
  }

  lemma {:induction false} SkipsExactly(s: seq<byte>, start: nat, stop: nat)
    requires start <= stop <= |s|
    requires forall i :: start <= i < stop ==> IsAsciiWhitespace(s[i])
    requires stop < |s| ==> !IsAsciiWhitespace(s[stop])
    ensures SkipWhitespace(s, start) == stop
    decreases stop - start
  {
    if start < stop {
      SkipsExactly(s, start + 1, stop);
    }
  }

  /**
   * What every line with a colon means: a name is what stands before the first colon, trimmed;
   * the line is dropped when that is ill-formed or nothing is left; the value is what follows
   * the ASCII white space after the colon, made well-formed.
   */
  lemma LineParses(name: seq<byte>, spacing: seq<byte>, value: seq<byte>)
    requires COLON !in name
    requires forall i :: 0 <= i < |spacing| ==> IsAsciiWhitespace(spacing[i])
    requires value != [] ==> !IsAsciiWhitespace(value[0])
    ensures ParseLine(name + [COLON] + (spacing + value))
         == if Utf8.Valid(name) && Utf8.Trim(name) != [] then Some(Header(Utf8.Trim(name), Utf8.Lossy(value))) else None
  {
    hide Utf8.Valid, Utf8.Trim, SkipWhitespace, FindByte, Utf8.Lossy;
    var s := name + [COLON] + (spacing + value);
    FirstColon(name, spacing + value);
    assert s[..|name|] == name;
    var start, stop := |name| + 1, |name| + 1 + |spacing|;
    forall i | start <= i < stop
      ensures IsAsciiWhitespace(s[i])
    {
      assert s[i] == spacing[i - start];
    }
    assert stop < |s| ==> s[stop] == value[0];
    SkipsExactly(s, start, stop);
    assert s[stop..] == value;
    if Utf8.Valid(value) {
      Utf8.LossyOfValid(value);
    }
    assert name == [] ==> Utf8.Trim(name) == [] by { EmptyName(); }
  }

  lemma EmptyName()
    ensures Utf8.Trim([]) == []
  {
  }

  /** Every other line is dropped. */
  lemma NoColonIsDropped(bytes: seq<byte>)
    requires COLON !in bytes
    ensures ParseLine(bytes) == None
  {
  }

  /** White space around a name is not part of it; a name of white space alone drops the line. */
  lemma PaddedName(padded: seq<byte>, before: seq<byte>, name: seq<byte>, after: seq<byte>, value: seq<byte>)
    requires padded == before + name + after && COLON !in padded && Utf8.Valid(padded)
    requires Utf8.WhiteSpace(before) && Utf8.WhiteSpace(after)
    requires Utf8.SpaceLen(name) == 0 && Utf8.SpaceEndLen(name) == 0
    requires value != [] ==> !IsAsciiWhitespace(value[0])
    ensures ParseLine(padded + [COLON] + ([SPACE] + value))
         == if name == [] then None else Some(Header(name, Utf8.Lossy(value)))
  {
    hide Utf8.Valid, Utf8.Trim, Utf8.Lossy, Utf8.WhiteSpace, Utf8.SpaceLen, Utf8.SpaceEndLen, ParseLine;
    Utf8.TrimPadded(before, name, after);
    LineParses(padded, [SPACE], value);
  }

  /** Any ASCII white space after the colon, and none at all, gives the same header. */
  lemma AnySpacingParses(h: Header, spacing: seq<byte>)
    requires Normal(h)
    requires forall i :: 0 <= i < |spacing| ==> IsAsciiWhitespace(spacing[i])
    ensures ParseLine(h.name + [COLON] + (spacing + h.value)) == Some(h)
  {
    hide Utf8.Valid, Utf8.Trim, Utf8.Lossy, ParseLine;
    LineParses(h.name, spacing, h.value);
    Utf8.LossyOfValid(h.value);
  }

  /** Printing and parsing recovers a header exactly when it is in normal form. */
  lemma RoundTrip(h: Header)
    ensures ParseLine(Render(h)) == Some(h) <==> Normal(h)
  {
    hide ParseLine, Normal;
    if Normal(h) {
      AnySpacingParses(h, [SPACE]);
      assert Render(h) == h.name + [COLON] + ([SPACE] + h.value);
    }
    ParsedIsNormal(Render(h));
  }

  /** Parsing is idempotent: an accepted line has a canonical form with the same meaning. */
  lemma CanonicalLine(bytes: seq<byte>)
    ensures var h := ParseLine(bytes); h.Some? ==> ParseLine(Render(h.value)) == h
  {
    ParsedIsNormal(bytes);
    var h := ParseLine(bytes);
    if h.Some? {
      RoundTrip(h.value);
    }
  }
}
