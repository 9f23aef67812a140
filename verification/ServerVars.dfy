/** The CGI variables of a request: an association list and four cached entries. */
module ServerVariables {
  import opened Bytes

  type Pair = (string, string)

  const CONTENT_TYPE := "CONTENT_TYPE"
  const CONTENT_LENGTH := "CONTENT_LENGTH"
  const HTTP_COOKIE := "HTTP_COOKIE"
  const QUERY_STRING := "QUERY_STRING"
  const REQUEST_METHOD := "REQUEST_METHOD"

  /** The value that a reader of the list sees for a key: the last one stored. */
  function LastOf(vars: seq<Pair>, key: string): (value: Option<string>)
    ensures value.Some? ==> (key, value.value) in vars
    ensures value.None? <==> forall p :: p in vars ==> p.0 != key
  {
    if vars == [] then None
    else
      var last := |vars| - 1;
      assert vars == vars[..last] + [vars[last]];
      if vars[last].0 == key then Some(vars[last].1) else LastOf(vars[..last], key)
  }

  lemma LastOfSnoc(vars: seq<Pair>, p: Pair, key: string)
    ensures LastOf(vars + [p], key) == if p.0 == key then Some(p.1) else LastOf(vars, key)
  {
    assert (vars + [p])[..|vars|] == vars;
  }

  /** The value stands under the key in the list, and no later entry has that key. */
  ghost predicate IsLast(vars: seq<Pair>, key: string, value: string) {
    exists i :: 0 <= i < |vars| && vars[i] == (key, value) && forall j :: i < j < |vars| ==> vars[j].0 != key
  }

  lemma IsLastSnoc(before: seq<Pair>, last: Pair, key: string, value: string)
    ensures IsLast(before + [last], last.0, last.1)
    ensures last.0 != key && IsLast(before, key, value) ==> IsLast(before + [last], key, value)
  {
    var all := before + [last];
    assert all[|before|] == (last.0, last.1);
    if last.0 != key && IsLast(before, key, value) {
      var i :| 0 <= i < |before| && before[i] == (key, value) && forall j :: i < j < |before| ==> before[j].0 != key;
      assert all[i] == (key, value);
    }
  }

  lemma {:induction false} LastOfIsLast(vars: seq<Pair>, key: string)
    ensures LastOf(vars, key).Some? ==> IsLast(vars, key, LastOf(vars, key).value)
    ensures LastOf(vars, key).None? ==> forall i :: 0 <= i < |vars| ==> vars[i].0 != key
  {
    hide IsLast;
    if vars != [] {
      var (before, last) := (vars[..|vars| - 1], vars[|vars| - 1]);
      assert vars == before + [last];
      LastOfIsLast(before, key);
      if LastOf(before, key).Some? {
        IsLastSnoc(before, last, key, LastOf(before, key).value);
      } else {
        IsLastSnoc(before, last, key, "");
      }
    }
  }

  function Or(a: Option<string>, b: Option<string>): Option<string> {
    if a.Some? then a else b
  }

  lemma {:induction false} LastOfConcat(a: seq<Pair>, b: seq<Pair>, key: string)
    ensures LastOf(a + b, key) == Or(LastOf(b, key), LastOf(a, key))
  {
    if b == [] {
      assert a + b == a;
    } else {
      var last := |b| - 1;
      LastOfConcat(a, b[..last], key);
      assert b == b[..last] + [b[last]];
      assert a + b == a + b[..last] + [b[last]];
      LastOfSnoc(a + b[..last], b[last], key);
      LastOfSnoc(b[..last], b[last], key);
    }
  }

  // ---------------------------------------------------------------- header names

  /** How `to_uppercase` maps one character; only its behaviour on ASCII is known here. */
  type CaseMap = char -> string

  function AsciiUpper(c: char): char {
    if 'a' <= c <= 'z' then c - 'a' + 'A' else c
  }

  ghost predicate IsUppercase(up: CaseMap) {
    forall c: char :: c as int < 0x80 ==> up(c) == [AsciiUpper(c)]
  }

  function ReplaceDashes(s: string): string {
    if s == "" then "" else [if s[0] == '-' then '_' else s[0]] + ReplaceDashes(s[1..])
  }

  function Uppercase(up: CaseMap, s: string): string {
    if s == "" then "" else up(s[0]) + Uppercase(up, s[1..])
  }

  /** A header name in upper case with underscores for dashes. */
  function Normalise(up: CaseMap, name: string): string {
    ReplaceDashes(Uppercase(up, name))
  }

  /** The variable under which a normalised header name is stored (RFC 3875, section 4.1.18). */
  function HeaderKey(upper: string): string {
    if upper == CONTENT_TYPE || upper == CONTENT_LENGTH then upper else "HTTP_" + upper
  }

  function HeaderVar(up: CaseMap, name: string, value: string): Pair {
    (HeaderKey(Normalise(up, name)), value)
  }

  // ---------------------------------------------------------------- strings without NUL

  predicate NulFree(s: string) {
    '\0' !in s
  }

  function ToCString(s: string): Option<string> {
    if NulFree(s) then Some(s) else None
  }

  function CStringOf(o: Option<string>): Option<string> {
    match o
    case None => None
    case Some(s) => ToCString(s)
  }

  /** The pairs that can be handed to C: neither string holds a NUL. */
  function Kept(vars: seq<Pair>): seq<Pair> {
    if vars == [] then []
    else
      var last := |vars| - 1;
      Kept(vars[..last]) + if NulFree(vars[last].0) && NulFree(vars[last].1) then [vars[last]] else []
  }

  /** The kept pairs are those without NUL, all of them and in their order. */
  lemma {:induction false} KeptCollects(vars: seq<Pair>, options: seq<Option<Pair>>)
    requires |options| == |vars|
    requires forall i :: 0 <= i < |vars| ==>
               options[i] == if '\0' in vars[i].0 || '\0' in vars[i].1 then None else Some(vars[i])
    ensures Collects(options, Kept(vars))
  {
    if vars != [] {
      var last := |vars| - 1;
      KeptCollects(vars[..last], options[..last]);
      CollectsSnoc(options[..last], Kept(vars[..last]), options[last]);
      assert options == options[..last] + [options[last]];
      assert Kept(vars[..last]) + [] == Kept(vars[..last]);
    }
  }

  datatype CStringVars = CStringVars(
    vars: seq<Pair>,
    contentType: Option<string>,
    queryString: Option<string>,
    cookie: Option<string>,
    requestMethod: Option<string>)

  /** What the conversion yields for a list whose caches are exact. */
  function CStrings(vars: seq<Pair>): CStringVars {
    CStringVars(
      Kept(vars),
      CStringOf(LastOf(vars, CONTENT_TYPE)),
      CStringOf(LastOf(vars, QUERY_STRING)),
      CStringOf(LastOf(vars, HTTP_COOKIE)),
      CStringOf(LastOf(vars, REQUEST_METHOD)))
  }

  // ---------------------------------------------------------------- the mutable object

  class ServerVars {
    var vars: seq<Pair>
    var cookie: Option<string>
    var contentType: Option<string>
    var queryString: Option<string>
    var requestMethod: Option<string>

    /** Every cached field holds the last value stored under its key. */
    ghost predicate Valid()
      reads this
    {
      && cookie == LastOf(vars, HTTP_COOKIE)
      && contentType == LastOf(vars, CONTENT_TYPE)
      && queryString == LastOf(vars, QUERY_STRING)
      && requestMethod == LastOf(vars, REQUEST_METHOD)
    }

    constructor ()
      ensures Valid() && vars == []
    {
      vars := [];
      cookie, contentType, queryString, requestMethod := None, None, None, None;
    }

    method TrackSpecial(key: string, value: string)
      modifies this`cookie, this`contentType, this`queryString, this`requestMethod
      ensures cookie == if key == HTTP_COOKIE then Some(value) else old(cookie)
      ensures contentType == if key == CONTENT_TYPE then Some(value) else old(contentType)
      ensures queryString == if key == QUERY_STRING then Some(value) else old(queryString)
      ensures requestMethod == if key == REQUEST_METHOD then Some(value) else old(requestMethod)
    {
      if key == HTTP_COOKIE {
        cookie := Some(value);
      } else if key == CONTENT_TYPE {
        contentType := Some(value);
      } else if key == QUERY_STRING {
        queryString := Some(value);
      } else if key == REQUEST_METHOD {
        requestMethod := Some(value);
      }
    }

    method Set(key: string, value: string)
      requires Valid()
      modifies this
      ensures Valid()
      ensures vars == old(vars) + [(key, value)]
    {
      TrackSpecial(key, value);
      LastOfSnoc(vars, (key, value), HTTP_COOKIE);
      LastOfSnoc(vars, (key, value), CONTENT_TYPE);
      LastOfSnoc(vars, (key, value), QUERY_STRING);
      LastOfSnoc(vars, (key, value), REQUEST_METHOD);
      vars := vars + [(key, value)];
    }

    method Extend(pairs: seq<Pair>)
      requires Valid()
      modifies this
      ensures Valid()
      ensures vars == old(vars) + pairs
    {
      hide LastOf;
      for i := 0 to |pairs|
        invariant Valid()
        invariant vars == old(vars) + pairs[..i]
      {
        assert pairs[..i + 1] == pairs[..i] + [pairs[i]];
        Set(pairs[i].0, pairs[i].1);
      }
    }

    method HttpHeader(up: CaseMap, name: string, value: string)
      requires Valid()
      modifies this
      ensures Valid()
      ensures vars == old(vars) + [HeaderVar(up, name, value)]
    {
      var upper := Normalise(up, name);
      if upper == CONTENT_TYPE {
        Set(CONTENT_TYPE, value);
      } else if upper == CONTENT_LENGTH {
        Set(CONTENT_LENGTH, value);
      } else {
        Set("HTTP_" + upper, value);
      }
    }

    method IntoCStringPairs() returns (r: CStringVars)
      requires Valid()
      ensures r == CStrings(vars)
    {
      var kept: seq<Pair> := [];
      for i := 0 to |vars|
        invariant kept == Kept(vars[..i])
      {
        var (k, v) := vars[i];
        if NulFree(k) && NulFree(v) {
          kept := kept + [(k, v)];
        }
        assert vars[..i + 1][..i] == vars[..i];
      }
      assert vars[..|vars|] == vars;
      r := CStringVars(kept, CStringOf(contentType), CStringOf(queryString), CStringOf(cookie), CStringOf(requestMethod));
    }
  }

  // ---------------------------------------------------------------- conversion theorems

  /** The last value stored under a key among those without NUL. */
  function LastNulFree(vars: seq<Pair>, key: string): Option<string> {
    if vars == [] then None
    else
      var (k, v) := vars[|vars| - 1];
      if k == key && NulFree(v) then Some(v) else LastNulFree(vars[..|vars| - 1], key)
  }

  lemma {:induction false} KeptLast(vars: seq<Pair>, key: string)
    requires NulFree(key)
    ensures LastOf(Kept(vars), key) == LastNulFree(vars, key)
  {
    if vars != [] {
      var last := |vars| - 1;
      KeptLast(vars[..last], key);
      LastOfSnoc(Kept(vars[..last]), vars[last], key);
      assert Kept(vars[..last]) + [] == Kept(vars[..last]);
    }
  }

  /** Every value stored under the key holds a NUL; in particular, no value may be stored. */
  predicate OnlyNulValues(vars: seq<Pair>, key: string) {
    forall p :: p in vars && p.0 == key ==> !NulFree(p.1)
  }

  lemma {:induction false} LastNulFreeFacts(vars: seq<Pair>, key: string)
    ensures LastNulFree(vars, key).None? <==> OnlyNulValues(vars, key)
    ensures CStringOf(LastOf(vars, key)).Some? ==> LastNulFree(vars, key) == LastOf(vars, key)
  {
    if vars != [] {
      var before, p := vars[..|vars| - 1], vars[|vars| - 1];
      LastNulFreeFacts(before, key);
      assert vars == before + [p];
      assert forall q :: q in vars <==> q in before || q == p;
    }
  }

  /**
   * A cached field after the conversion: present exactly when the last value under the key has no
   * NUL, and then equal to it and to the last kept pair for the key; absent when the key was
   * never set or its last value held a NUL.
   */
  ghost predicate Converted(field: Option<string>, vars: seq<Pair>, key: string) {
    && (field.Some? ==> IsLast(vars, key, field.value) && '\0' !in field.value && LastOf(Kept(vars), key) == field)
    && (field.None? ==> (forall i :: 0 <= i < |vars| ==> vars[i].0 != key)
                        || exists value :: IsLast(vars, key, value) && '\0' in value)
  }

  lemma FieldConverted(vars: seq<Pair>, key: string)
    requires NulFree(key)
    ensures Converted(CStringOf(LastOf(vars, key)), vars, key)
  {
    KeptLast(vars, key);
    LastNulFreeFacts(vars, key);
    LastOfIsLast(vars, key);
    hide LastOf, LastNulFree, Kept, IsLast;
  }

  /** All four fields, each under its own key. */
  lemma CacheAfterConversion(vars: seq<Pair>)
    ensures var c := CStrings(vars);
            && Converted(c.contentType, vars, "CONTENT_TYPE")
            && Converted(c.queryString, vars, "QUERY_STRING")
            && Converted(c.cookie, vars, "HTTP_COOKIE")
            && Converted(c.requestMethod, vars, "REQUEST_METHOD")
  {
    FieldConverted(vars, CONTENT_TYPE);
    FieldConverted(vars, QUERY_STRING);
    FieldConverted(vars, HTTP_COOKIE);
    FieldConverted(vars, REQUEST_METHOD);
    hide LastOf, Kept, Converted;
  }

  /**
   * Cache and kept list agree on a key exactly when the last value stored under it is free of
   * NUL, or no value under it is.
   */
  lemma ConversionAgrees(vars: seq<Pair>, key: string)
    requires NulFree(key)
    ensures CStringOf(LastOf(vars, key)) == LastOf(Kept(vars), key)
       <==> CStringOf(LastOf(vars, key)).Some? || OnlyNulValues(vars, key)
  {
    KeptLast(vars, key);
    LastNulFreeFacts(vars, key);
    hide LastOf, LastNulFree, Kept, OnlyNulValues;
  }

  /** A later value with a NUL hides an earlier one from the cache but not from the list. */
  lemma StaleListEntry()
    ensures var vars := [(QUERY_STRING, "a=1"), (QUERY_STRING, "\0")];
            LastOf(Kept(vars), QUERY_STRING) == Some("a=1") && CStringOf(LastOf(vars, QUERY_STRING)) == None
  {
    var vars := [(QUERY_STRING, "a=1"), (QUERY_STRING, "\0")];
    KeptLast(vars, QUERY_STRING);
    assert vars[..1] == [(QUERY_STRING, "a=1")];
    assert "\0"[0] == '\0';
  }
}
