/**
 * UTF-8 text as its bytes: well-formedness (Table 3-7 of the Unicode Standard), the lossy
 * conversion that replaces each maximal ill-formed subpart by U+FFFD, and trimming of the
 * characters with the White_Space property.
 */
module Utf8 {
  import opened Bytes

  predicate Continuation(b: byte) {
    0x80 <= b <= 0xBF
  }

  /** Which second bytes may follow a lead byte of a three- or four-byte character. */
  predicate SecondByte(lead: byte, b: byte) {
    if lead == 0xE0 then 0xA0 <= b <= 0xBF
    else if lead == 0xED then 0x80 <= b <= 0x9F
    else if lead == 0xF0 then 0x90 <= b <= 0xBF
    else if lead == 0xF4 then 0x80 <= b <= 0x8F
    else Continuation(b)
  }

  /** The length of the well-formed character at the front, 0 if there is none. */
  function CharLen(s: seq<byte>): (n: nat)
    ensures n <= |s| && n <= 4
    ensures n > 0 ==> s[0] < 0x80 || 0xC2 <= s[0] <= 0xF4
    ensures forall i :: 0 < i < n ==> Continuation(s[i])
  {
    if s == [] then 0
    else if s[0] < 0x80 then 1
    else if 0xC2 <= s[0] <= 0xDF then
      if |s| >= 2 && Continuation(s[1]) then 2 else 0
    else if 0xE0 <= s[0] <= 0xEF then
      if |s| >= 3 && SecondByte(s[0], s[1]) && Continuation(s[2]) then 3 else 0
    else if 0xF0 <= s[0] <= 0xF4 then
      if |s| >= 4 && SecondByte(s[0], s[1]) && Continuation(s[2]) && Continuation(s[3]) then 4 else 0
    else 0
  }

  predicate Valid(s: seq<byte>) {
    s == [] || (CharLen(s) > 0 && Valid(s[CharLen(s)..]))
  }

  /** The length of the maximal ill-formed subpart at the front. */
  function BadLen(s: seq<byte>): (n: nat)
    requires s != [] && CharLen(s) == 0
    ensures 1 <= n <= |s|
  {
    if 0xE0 <= s[0] <= 0xF4 && |s| >= 2 && SecondByte(s[0], s[1]) then
      if s[0] >= 0xF0 && |s| >= 3 && Continuation(s[2]) then 3 else 2
    else 1
  }

  const REPLACEMENT: seq<byte> := [0xEF, 0xBF, 0xBD]

  function Lossy(s: seq<byte>): seq<byte> {
    if s == [] then []
    else if CharLen(s) > 0 then s[..CharLen(s)] + Lossy(s[CharLen(s)..])
    else REPLACEMENT + Lossy(s[BadLen(s)..])
  }

  /** A character is recognised by its own bytes, whatever follows. */
  lemma CharLenOfConcat(c: seq<byte>, rest: seq<byte>)
    ensures CharLen(c) > 0 ==> CharLen(c + rest) == CharLen(c)
    ensures 0 < CharLen(c + rest) <= |c| ==> CharLen(c) == CharLen(c + rest)
  {
  }

  lemma CharLenOfTake(s: seq<byte>)
    ensures CharLen(s[..CharLen(s)]) == CharLen(s)
  {
    assert s == s[..CharLen(s)] + s[CharLen(s)..];
    CharLenOfConcat(s[..CharLen(s)], s[CharLen(s)..]);
  }

  lemma {:induction false} LossyIsValid(s: seq<byte>)
    ensures Valid(Lossy(s))
  {
    if s != [] {
      var n := CharLen(s);
      var (c, rest) := if n > 0 then (s[..n], s[n..]) else (REPLACEMENT, s[BadLen(s)..]);
      LossyIsValid(rest);
      CharLenOfTake(s);
      CharLenOfConcat(c, Lossy(rest));
      assert (c + Lossy(rest))[|c|..] == Lossy(rest);
    }
  }

  lemma {:induction false} LossyOfValid(s: seq<byte>)
    requires Valid(s)
    ensures Lossy(s) == s
  {
    if s != [] {
      LossyOfValid(s[CharLen(s)..]);
    }
  }

  // ---------------------------------------------------------------- white space

  /** The length of the White_Space character at the front, 0 if there is none. */
  function SpaceLen(s: seq<byte>): (n: nat)
    ensures n <= |s|
    ensures n > 0 ==> s[0] < 0x80 || s[0] >= 0xC2
  {
    if s == [] then 0
    else if 9 <= s[0] <= 13 || s[0] == 32 then 1
    else if |s| >= 2 && s[0] == 0xC2 && (s[1] == 0x85 || s[1] == 0xA0) then 2
    else if |s| >= 3 && s[0] == 0xE1 && s[1] == 0x9A && s[2] == 0x80 then 3
    else if |s| >= 3 && s[0] == 0xE2 && s[1] == 0x80
         && (0x80 <= s[2] <= 0x8A || s[2] == 0xA8 || s[2] == 0xA9 || s[2] == 0xAF) then 3
    else if |s| >= 3 && s[0] == 0xE2 && s[1] == 0x81 && s[2] == 0x9F then 3
    else if |s| >= 3 && s[0] == 0xE3 && s[1] == 0x80 && s[2] == 0x80 then 3
    else 0
  }

  /** The length of the White_Space character at the end. */
  function SpaceEndLen(s: seq<byte>): (n: nat)
    ensures n <= |s|
    ensures n > 0 ==> SpaceLen(s[|s| - n..]) == n
  {
    if |s| >= 1 && SpaceLen(s[|s| - 1..]) == 1 then 1
    else if |s| >= 2 && SpaceLen(s[|s| - 2..]) == 2 then 2
    else if |s| >= 3 && SpaceLen(s[|s| - 3..]) == 3 then 3
    else 0
  }

  function TrimStart(s: seq<byte>): seq<byte> {
    if SpaceLen(s) == 0 then s else TrimStart(s[SpaceLen(s)..])
  }

  function TrimEnd(s: seq<byte>): seq<byte> {
    if SpaceEndLen(s) == 0 then s else TrimEnd(s[..|s| - SpaceEndLen(s)])
  }

  function Trim(s: seq<byte>): seq<byte> {
    TrimEnd(TrimStart(s))
  }

  lemma {:induction false} TrimStartFacts(s: seq<byte>)
    ensures SpaceLen(TrimStart(s)) == 0
    ensures Valid(s) ==> Valid(TrimStart(s))
    ensures forall b :: b in TrimStart(s) ==> b in s
  {
    var n := SpaceLen(s);
    if n > 0 {
      TrimStartFacts(s[n..]);
      assert Valid(s) ==> CharLen(s) == n;
    }
  }

  /** Removing a White_Space character at the end leaves whole characters. */
  lemma {:induction false} DropSpaceEnd(p: seq<byte>, w: seq<byte>)
    requires SpaceLen(w) == |w| > 0
    requires Valid(p + w)
    ensures Valid(p)
  {
    if p != [] {
      var n := CharLen(p + w);
      assert (p + w)[|p|] == w[0] && !Continuation(w[0]);
      assert n <= |p|;
      CharLenOfConcat(p, w);
      assert (p + w)[n..] == p[n..] + w;
      DropSpaceEnd(p[n..], w);
    }
  }

  lemma SpaceLenOfTake(p: seq<byte>, w: seq<byte>)
    ensures SpaceLen(p + w) == 0 ==> SpaceLen(p) == 0
  {
  }

  lemma {:induction false} TrimEndFacts(s: seq<byte>)
    ensures SpaceEndLen(TrimEnd(s)) == 0
    ensures SpaceLen(s) == 0 ==> SpaceLen(TrimEnd(s)) == 0
    ensures Valid(s) ==> Valid(TrimEnd(s))
    ensures forall b :: b in TrimEnd(s) ==> b in s
  {
    hide SpaceLen, SpaceEndLen, Valid;
    var n := SpaceEndLen(s);
    if n > 0 {
      var p, w := s[..|s| - n], s[|s| - n..];
      assert s == p + w;
      SpaceLenOfTake(p, w);
      if Valid(s) {
        DropSpaceEnd(p, w);
      }
      TrimEndFacts(p);
    }
  }

  /** Nothing but White_Space characters. */
  predicate WhiteSpace(s: seq<byte>) {
    s == [] || (SpaceLen(s) > 0 && WhiteSpace(s[SpaceLen(s)..]))
  }

  lemma SpaceLenOfConcat(w: seq<byte>, rest: seq<byte>)
    ensures SpaceLen(w) > 0 ==> SpaceLen(w + rest) == SpaceLen(w)
    ensures SpaceLen(w) == 0 && (rest == [] || rest[0] < 0x80 || rest[0] >= 0xC2) && w != [] ==> SpaceLen(w + rest) == 0
  {
    assert rest == [] ==> w + rest == w;
  }

  /** A White_Space character at the end is found, whatever stands before it. */
  lemma SpaceAtEnd(p: seq<byte>, w: seq<byte>)
    requires SpaceLen(w) == |w| > 0
    ensures SpaceEndLen(p + w) == |w|
  {
    var s := p + w;
    assert s[|s| - |w|..] == w;
    if |w| >= 2 {
      assert s[|s| - 1..] == [w[|w| - 1]];
    }
    if |w| >= 3 {
      assert s[|s| - 2..] == [w[|w| - 2], w[|w| - 1]];
    }
  }

  lemma {:induction false} WhiteSpaceConcat(a: seq<byte>, b: seq<byte>)
    requires WhiteSpace(a) && WhiteSpace(b)
    ensures WhiteSpace(a + b)
  {
    if a == [] {
      assert a + b == b;
    } else {
      var n := SpaceLen(a);
      SpaceLenOfConcat(a, b);
      WhiteSpaceConcat(a[n..], b);
      assert (a + b)[n..] == a[n..] + b;
    }
  }

  lemma {:induction false} TrimStartSkips(u: seq<byte>, s: seq<byte>)
    requires WhiteSpace(u)
    ensures TrimStart(u + s) == TrimStart(s)
  {
    if u == [] {
      assert u + s == s;
    } else {
      var n := SpaceLen(u);
      SpaceLenOfConcat(u, s);
      assert (u + s)[n..] == u[n..] + s;
      TrimStartSkips(u[n..], s);
    }
  }

  lemma {:induction false} TrimEndSkips(s: seq<byte>, v: seq<byte>)
    requires WhiteSpace(v)
    ensures TrimEnd(s + v) == TrimEnd(s)
    decreases v
  {
    hide SpaceEndLen;
    if v == [] {
      assert s + v == s;
    } else {
      var n := SpaceLen(v);
      var (w, rest) := (v[..n], v[n..]);
      SpaceOfTake(v);
      SpaceAtEnd(s, w);
      assert s + v == s + w + rest;
      TrimEndSkips(s + w, rest);
      assert (s + w)[..|s|] == s;
    }
  }

  lemma SpaceOfTake(v: seq<byte>)
    ensures SpaceLen(v[..SpaceLen(v)]) == SpaceLen(v)
  {
  }

  /** What trimming leaves has no White_Space at either end, and what it removes is White_Space. */
  lemma TrimFacts(s: seq<byte>)
    ensures SpaceLen(Trim(s)) == 0 && SpaceEndLen(Trim(s)) == 0
    ensures exists u, v :: WhiteSpace(u) && WhiteSpace(v) && s == u + Trim(s) + v
    ensures Trim(Trim(s)) == Trim(s)
    ensures Valid(s) ==> Valid(Trim(s))
    ensures forall b :: b in Trim(s) ==> b in s
  {
    TrimStartFacts(s);
    TrimEndFacts(TrimStart(s));
    var u := Skipped(s);
    var v := SkippedEnd(TrimStart(s));
    ConcatAssoc(u, Trim(s), v);
  }

  lemma OneWhiteSpace(w: seq<byte>)
    requires SpaceLen(w) == |w| > 0
    ensures WhiteSpace(w)
  {
    assert w[|w|..] == [];
  }

  lemma NoWhiteSpace()
    ensures WhiteSpace([])
  {
  }

  lemma {:induction false} Skipped(s: seq<byte>) returns (u: seq<byte>)
    ensures WhiteSpace(u) && s == u + TrimStart(s)
  {
    var n := SpaceLen(s);
    if n == 0 {
      u := [];
    } else {
      var rest := Skipped(s[n..]);
      SpaceOfTake(s);
      OneWhiteSpace(s[..n]);
      WhiteSpaceConcat(s[..n], rest);
      hide SpaceLen, WhiteSpace;
      assert TrimStart(s) == TrimStart(s[n..]);
      hide TrimStart;
      u := s[..n] + rest;
      SplitAt(s, n);
      ConcatAssoc(s[..n], rest, TrimStart(s));
    }
  }

  lemma {:induction false} SkippedEnd(s: seq<byte>) returns (v: seq<byte>)
    ensures WhiteSpace(v) && s == TrimEnd(s) + v
  {
    var n := SpaceEndLen(s);
    hide SpaceLen, SpaceEndLen, WhiteSpace;
    if n == 0 {
      v := [];
      NoWhiteSpace();
      assert s + [] == s;
    } else {
      var (p, w) := (s[..|s| - n], s[|s| - n..]);
      var before := SkippedEnd(p);
      OneWhiteSpace(w);
      WhiteSpaceConcat(before, w);
      v := before + w;
      assert TrimEnd(s) == TrimEnd(p);
      ConcatAssoc(TrimEnd(p), before, w);
    }
  }

  /** Trimming finds a text inside any White_Space around it. */
  lemma TrimPadded(u: seq<byte>, s: seq<byte>, v: seq<byte>)
    requires WhiteSpace(u) && WhiteSpace(v)
    requires SpaceLen(s) == 0 && SpaceEndLen(s) == 0
    ensures Trim(u + s + v) == s
  {
    ConcatAssoc(u, s, v);
    TrimStartSkips(u, s + v);
    if s == [] {
      assert s + v == v == v + [];
      TrimStartSkips(v, []);
    } else {
      SpaceLenOfConcat(s, v);
      TrimEndSkips(s, v);
    }
  }

  // ---------------------------------------------------------------- code points

  /** A Unicode scalar value. */
  predicate IsScalar(cp: nat) {
    cp < 0xD800 || 0xE000 <= cp < 0x11_0000
  }

  /** The bytes of a scalar value (Table 3-6 of the Unicode Standard). */
  function Encode(cp: nat): (s: seq<byte>)
    requires IsScalar(cp)
    ensures |s| > 0
  {
    if cp < 0x80 then [cp]
    else if cp < 0x800 then [0xC0 + cp / 64, 0x80 + cp % 64]
    else if cp < 0x1_0000 then [0xE0 + cp / 64 / 64, 0x80 + cp / 64 % 64, 0x80 + cp % 64]
    else [0xF0 + cp / 64 / 64 / 64, 0x80 + cp / 64 / 64 % 64, 0x80 + cp / 64 % 64, 0x80 + cp % 64]
  }

  predicate AllScalars(cps: seq<nat>) {
    forall i :: 0 <= i < |cps| ==> IsScalar(cps[i])
  }

  function EncodeAll(cps: seq<nat>): seq<byte>
    requires AllScalars(cps)
  {
    if cps == [] then [] else Encode(cps[0]) + EncodeAll(cps[1..])
  }

  lemma CharOfScalar(cp: nat, rest: seq<byte>)
    requires IsScalar(cp)
    ensures CharLen(Encode(cp) + rest) == |Encode(cp)|
  {
    var (c, s) := (Encode(cp), Encode(cp) + rest);
    assert forall i :: 0 <= i < |c| ==> s[i] == c[i];
    if 0x800 <= cp < 0x1_0000 {
      assert s[0] == c[0] && s[1] == c[1] && s[2] == c[2];
    } else if cp >= 0x1_0000 {
      assert s[0] == c[0] && s[1] == c[1] && s[2] == c[2] && s[3] == c[3];
    }
  }

  function Append(q: int, r: int): int {
    q * 64 + r
  }

  /** The scalar value of the character at the front. */
  function Scalar(s: seq<byte>): nat
    requires CharLen(s) > 0
  {
    match CharLen(s)
    case 1 => s[0]
    case 2 => Append(s[0] - 0xC0, s[1] - 0x80)
    case 3 => Append(Append(s[0] - 0xE0, s[1] - 0x80), s[2] - 0x80)
    case 4 => Append(Append(Append(s[0] - 0xF0, s[1] - 0x80), s[2] - 0x80), s[3] - 0x80)
  }

  lemma Digits(q: nat, r: nat)
    requires r < 64
    ensures Append(q, r) / 64 == q && Append(q, r) % 64 == r
  {
  }

  lemma ScalarOfChar(s: seq<byte>)
    requires CharLen(s) > 0
    ensures IsScalar(Scalar(s)) && Encode(Scalar(s)) == s[..CharLen(s)]
  {
    var n := CharLen(s);
    if n == 2 {
      Digits(s[0] - 0xC0, s[1] - 0x80);
    } else if n == 3 {
      Digits(s[0] - 0xE0, s[1] - 0x80);
      Digits(Append(s[0] - 0xE0, s[1] - 0x80), s[2] - 0x80);
    } else if n == 4 {
      var q := Append(s[0] - 0xF0, s[1] - 0x80);
      Digits(s[0] - 0xF0, s[1] - 0x80);
      Digits(q, s[2] - 0x80);
      Digits(Append(q, s[2] - 0x80), s[3] - 0x80);
    }
  }

  lemma {:induction false} EncodedIsValid(cps: seq<nat>)
    requires AllScalars(cps)
    ensures Valid(EncodeAll(cps))
  {
    if cps != [] {
      EncodedIsValid(cps[1..]);
      CharOfScalar(cps[0], EncodeAll(cps[1..]));
      assert EncodeAll(cps)[|Encode(cps[0])|..] == EncodeAll(cps[1..]);
    }
  }

  lemma {:induction false} Scalars(s: seq<byte>) returns (cps: seq<nat>)
    requires Valid(s)
    ensures AllScalars(cps) && EncodeAll(cps) == s
  {
    if s == [] {
      cps := [];
    } else {
      var n := CharLen(s);
      var rest := Scalars(s[n..]);
      ScalarOfChar(s);
      hide CharLen, Encode, Scalar, Valid;
      cps := [Scalar(s)] + rest;
      assert cps[1..] == rest;
      SplitAt(s, n);
    }
  }

  /** Well-formed text is exactly what encoding scalar values yields. */
  lemma ValidIsEncoded(s: seq<byte>)
    ensures Valid(s) <==> exists cps :: AllScalars(cps) && EncodeAll(cps) == s
  {
    if Valid(s) {
      var cps := Scalars(s);
    }
    if cps :| AllScalars(cps) && EncodeAll(cps) == s {
      EncodedIsValid(cps);
    }
  }

  /** The code points with the White_Space property. */
  predicate IsSpaceScalar(cp: nat) {
    9 <= cp <= 13 || cp == 0x20 || cp == 0x85 || cp == 0xA0 || cp == 0x1680 || 0x2000 <= cp <= 0x200A
    || cp == 0x2028 || cp == 0x2029 || cp == 0x202F || cp == 0x205F || cp == 0x3000
  }

  lemma SpaceOfScalar(cp: nat, rest: seq<byte>)
    requires IsScalar(cp)
    ensures SpaceLen(Encode(cp) + rest) == if IsSpaceScalar(cp) then |Encode(cp)| else 0
  {
    var (c, s) := (Encode(cp), Encode(cp) + rest);
    assert forall i :: 0 <= i < |c| ==> s[i] == c[i];
    if 0x800 <= cp < 0x1_0000 {
      assert s[0] == c[0] && s[1] == c[1] && s[2] == c[2];
    } else if 0x80 <= cp < 0x800 {
      assert s[0] == c[0] && s[1] == c[1];
    } else {
      assert s[0] == c[0];
    }
  }

  // ---------------------------------------------------------------- replacement

  /** Whether a character can go on from some bytes. */
  ghost predicate StartsCharacter(part: seq<byte>) {
    exists rest :: CharLen(part + rest) > |part|
  }

  lemma CanGoOn(part: seq<byte>, rest: seq<byte>)
    requires CharLen(part + rest) > |part|
    ensures StartsCharacter(part)
  {
  }

  /**
   * An ill-formed subpart is maximal: it is a single byte or the start of a character, and no
   * longer piece of the text is the start of one.
   */
  lemma BadLenIsMaximal(s: seq<byte>)
    requires s != [] && CharLen(s) == 0
    ensures BadLen(s) == 1 || StartsCharacter(s[..BadLen(s)])
    ensures forall k :: BadLen(s) < k <= |s| ==> !StartsCharacter(s[..k])
  {
    var n := BadLen(s);
    if n == 2 {
      var t := s[..2] + if s[0] >= 0xF0 then [0x80, 0x80] else [0x80];
      assert t[0] == s[0] && t[1] == s[1];
      CanGoOn(s[..2], if s[0] >= 0xF0 then [0x80, 0x80] else [0x80]);
    } else if n == 3 {
      var t := s[..3] + [0x80];
      assert t[0] == s[0] && t[1] == s[1] && t[2] == s[2];
      CanGoOn(s[..3], [0x80]);
    }
    forall k | n < k <= |s|
      ensures !StartsCharacter(s[..k])
    {
      forall rest: seq<byte>
        ensures CharLen(s[..k] + rest) <= k
      {
        var t := s[..k] + rest;
        assert forall i :: 0 <= i < k ==> t[i] == s[i];
      }
    }
  }

  /** Well-formed text in front stays as it is. */
  lemma {:induction false} LossyAfter(v: seq<byte>, s: seq<byte>)
    requires Valid(v)
    ensures Lossy(v + s) == v + Lossy(s)
  {
    if v == [] {
      assert v + s == s && v + Lossy(s) == Lossy(s);
    } else {
      var n := CharLen(v);
      CharLenOfConcat(v, s);
      assert (v + s)[n..] == v[n..] + s && (v + s)[..n] == v[..n];
      LossyAfter(v[n..], s);
      assert v == v[..n] + v[n..];
      ConcatAssoc(v[..n], v[n..], Lossy(s));
    }
  }

  /** Each maximal ill-formed subpart gives one U+FFFD. */
  lemma LossyOfBad(s: seq<byte>)
    requires s != [] && CharLen(s) == 0
    ensures Lossy(s) == Encode(0xFFFD) + Lossy(s[BadLen(s)..])
  {
    assert Encode(0xFFFD) == [0xEF, 0xBF, 0xBD];
  }
}
