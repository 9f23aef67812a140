/** Building an execution context from an HTTP-style request (RFC 3875, section 4.1). */
module Web {
  import opened Bytes
  import opened PercentEncoding
  import opened ServerVariables

  datatype HttpMethod = Get | Post | Put | Delete | Patch | Head | Options {
    function Name(): string {
      match this
      case Get => "GET"
      case Post => "POST"
      case Put => "PUT"
      case Delete => "DELETE"
      case Patch => "PATCH"
      case Head => "HEAD"
      case Options => "OPTIONS"
    }
  }

  datatype WebRequest = WebRequest(
    httpMethod: Option<HttpMethod>,
    uri: Option<string>,
    headers: seq<Pair>,
    cookies: seq<Pair>,
    body: seq<byte>,
    serverName: string,
    serverPort: nat,
    serverAddr: string,
    remoteAddr: string,
    remotePort: nat,
    serverProtocol: string,
    https: bool,
    pathInfo: Option<string>,
    documentRoot: Option<string>,
    envVars: seq<Pair>,
    iniOverrides: seq<Pair>)
  {
    function WithHeader(name: string, value: string): WebRequest {
      this.(headers := headers + [(name, value)])
    }
  }

  /**
   * What `build` takes from the file system, the clock and the Unicode tables: whether the
   * script exists, its path, its canonical name with last component and parent, the time, and
   * upper-casing.
   */
  datatype Surroundings = Surroundings(
    scriptExists: bool,
    scriptPath: string,
    scriptFilename: string,
    fileName: string,
    parent: string,
    time: string,
    timeFloat: string,
    up: CaseMap)

  datatype WebRequestError = MissingMethod | ScriptNotFound(path: string)

  /** Parameters for one script execution. */
  datatype ExecutionContext = ExecutionContext(
    scriptPath: string,
    serverVars: ServerVars,
    input: seq<byte>,
    envVars: seq<Pair>,
    iniOverrides: seq<Pair>,
    logToStderr: bool)

  // ---------------------------------------------------------------- the variables of a request

  function Decimal(n: nat): string {
    if n < 10 then ['0' + n as char] else Decimal(n / 10) + ['0' + (n % 10) as char]
  }

  function DecimalValue(s: string): nat {
    if s == "" then 0
    else
      var c := s[|s| - 1];
      10 * DecimalValue(s[..|s| - 1]) + if '0' <= c <= '9' then (c - '0') as nat else 0
  }

  lemma {:induction false} DecimalReadsBack(n: nat)
    ensures DecimalValue(Decimal(n)) == n
    ensures forall c :: c in Decimal(n) ==> '0' <= c <= '9'
    ensures n > 0 ==> Decimal(n)[0] != '0'
  {
    if n < 10 {
      assert Decimal(n)[..0] == "";
    } else {
      DecimalReadsBack(n / 10);
      assert Decimal(n)[..|Decimal(n)| - 1] == Decimal(n / 10);
    }
  }

  function CookiePairs(cookies: seq<Pair>): string {
    if cookies == [] then ""
    else
      var pair := cookies[0].0 + "=" + cookies[0].1;
      if |cookies| == 1 then pair else pair + "; " + CookiePairs(cookies[1..])
  }

  /** Each cookie gives its name, an equals sign and its value; a semicolon and a space stand between two. */
  lemma {:induction false} CookiesJoin(cookies: seq<Pair>, last: Pair)
    ensures CookiePairs(cookies + [last])
         == if cookies == [] then last.0 + "=" + last.1 else CookiePairs(cookies) + "; " + (last.0 + "=" + last.1)
  {
    var all := cookies + [last];
    if cookies == [] {
      assert all == [last];
    } else {
      assert all[0] == cookies[0] && all[1..] == cookies[1..] + [last];
      CookiesJoin(cookies[1..], last);
      if |cookies| > 1 {
        var first := cookies[0].0 + "=" + cookies[0].1;
        var (rest, end) := (CookiePairs(cookies[1..]), "; " + (last.0 + "=" + last.1));
        assert first + "; " + (rest + end) == first + "; " + rest + end;
      } else {
        assert cookies[1..] == [];
      }
    }
  }

  function EffectiveUri(req: WebRequest, env: Surroundings): string {
    match req.uri
    case Some(uri) => uri
    case None => "/" + env.fileName
  }

  function EffectiveRoot(req: WebRequest, env: Surroundings): string {
    match req.documentRoot
    case Some(root) => root
    case None => env.parent
  }

  function OrEmpty(s: Option<string>): string {
    match s
    case Some(v) => v
    case None => ""
  }

  function Scheme(https: bool): seq<Pair> {
    if https then [("HTTPS", "on"), ("REQUEST_SCHEME", "https")] else [("REQUEST_SCHEME", "http")]
  }

  function PathVars(req: WebRequest, root: string): seq<Pair> {
    match req.pathInfo
    case Some(info) => [("PATH_INFO", info), ("PATH_TRANSLATED", root + info)]
    case None => []
  }

  function DefaultVars(env: Surroundings): seq<Pair> {
    [("GATEWAY_INTERFACE", "CGI/1.1"),
     ("REQUEST_TIME", env.time),
     ("REQUEST_TIME_FLOAT", env.timeFloat)]
  }

  function TargetVars(name: string, uri: string): seq<Pair> {
    [(REQUEST_METHOD, name),
     ("REQUEST_URI", uri),
     (QUERY_STRING, OrEmpty(ParseUri(uri).1))]
  }

  function ScriptVars(env: Surroundings, uri: string, root: string): seq<Pair> {
    [("SCRIPT_FILENAME", env.scriptFilename),
     ("SCRIPT_NAME", ParseUri(uri).0),
     ("PHP_SELF", ParseUri(uri).0),
     ("DOCUMENT_ROOT", root)]
  }

  function ConnectionVars(req: WebRequest): seq<Pair> {
    [("SERVER_NAME", req.serverName),
     ("SERVER_PORT", Decimal(req.serverPort)),
     ("SERVER_ADDR", req.serverAddr),
     ("REMOTE_ADDR", req.remoteAddr),
     ("REMOTE_PORT", Decimal(req.remotePort)),
     ("SERVER_PROTOCOL", req.serverProtocol)]
  }

  /** The variables that do not depend on headers, cookies or body. */
  function OwnVars(req: WebRequest, env: Surroundings, name: string): seq<Pair> {
    var uri := EffectiveUri(req, env);
    var root := EffectiveRoot(req, env);
    DefaultVars(env) + TargetVars(name, uri) + ScriptVars(env, uri, root) + ConnectionVars(req)
    + Scheme(req.https) + PathVars(req, root)
  }

  function CookieVars(cookies: seq<Pair>): seq<Pair> {
    if cookies == [] then [] else [(HTTP_COOKIE, CookiePairs(cookies))]
  }

  function HeaderVars(up: CaseMap, headers: seq<Pair>): seq<Pair> {
    if headers == [] then []
    else
      var last := headers[|headers| - 1];
      HeaderVars(up, headers[..|headers| - 1]) + [HeaderVar(up, last.0, last.1)]
  }

  function AsciiLower(c: char): char {
    if 'A' <= c <= 'Z' then c - 'A' + 'a' else c
  }

  predicate EqIgnoreAsciiCase(a: string, b: string) {
    |a| == |b| && forall i :: 0 <= i < |a| ==> AsciiLower(a[i]) == AsciiLower(b[i])
  }

  predicate HasHeader(headers: seq<Pair>, name: string) {
    exists i :: 0 <= i < |headers| && EqIgnoreAsciiCase(headers[i].0, name)
  }

  const OCTET_STREAM := "application/octet-stream"

  function BodyVars(req: WebRequest): seq<Pair> {
    (if !HasHeader(req.headers, "Content-Type") && req.body != [] then [(CONTENT_TYPE, OCTET_STREAM)] else [])
    + if !HasHeader(req.headers, "Content-Length") && req.body != [] then [(CONTENT_LENGTH, Decimal(|req.body|))] else []
  }

  /** The whole list in the order of the insertions. */
  function BuildVars(req: WebRequest, env: Surroundings, name: string): seq<Pair> {
    OwnVars(req, env, name) + CookieVars(req.cookies) + HeaderVars(env.up, req.headers) + BodyVars(req)
  }

  method SetOwnVars(req: WebRequest, env: Surroundings, name: string) returns (vars: ServerVars)
    ensures fresh(vars) && vars.Valid()
    ensures vars.vars == OwnVars(req, env, name)
  {
    hide ServerVars.Valid, DefaultVars, TargetVars, ScriptVars, ConnectionVars, Scheme, PathVars;
    var uri := EffectiveUri(req, env);
    var root := EffectiveRoot(req, env);
    vars := new ServerVars();
    vars.Extend(DefaultVars(env));
    vars.Extend(TargetVars(name, uri));
    vars.Extend(ScriptVars(env, uri, root));
    vars.Extend(ConnectionVars(req));
    vars.Extend(Scheme(req.https));
    vars.Extend(PathVars(req, root));
  }

  /** The loop over the headers, with the two flags that decide about the defaults. */
  method SetHeaders(vars: ServerVars, up: CaseMap, headers: seq<Pair>)
      returns (hasContentType: bool, hasContentLength: bool)
    requires vars.Valid()
    modifies vars
    ensures vars.Valid()
    ensures vars.vars == old(vars.vars) + HeaderVars(up, headers)
    ensures hasContentType == HasHeader(headers, "Content-Type")
    ensures hasContentLength == HasHeader(headers, "Content-Length")
  {
    hide ServerVars.Valid, EqIgnoreAsciiCase, HeaderVar, HasHeader;
    hasContentType, hasContentLength := false, false;
    NoHeaders("Content-Type");
    NoHeaders("Content-Length");
    for i := 0 to |headers|
      invariant vars.Valid()
      invariant hasContentType == HasHeader(headers[..i], "Content-Type")
      invariant hasContentLength == HasHeader(headers[..i], "Content-Length")
      invariant vars.vars == old(vars.vars) + HeaderVars(up, headers[..i])
    {
      var (key, value) := headers[i];
      assert headers[..i + 1] == headers[..i] + [(key, value)] && headers[..i + 1][..i] == headers[..i];
      HasHeaderSnoc(headers[..i], (key, value), "Content-Type");
      HasHeaderSnoc(headers[..i], (key, value), "Content-Length");
      NotBoth(key);
      if EqIgnoreAsciiCase(key, "Content-Type") {
        hasContentType := true;
      } else if EqIgnoreAsciiCase(key, "Content-Length") {
        hasContentLength := true;
      }
      vars.HttpHeader(up, key, value);
    }
    assert headers[..|headers|] == headers;
  }

  method SetCookies(vars: ServerVars, cookies: seq<Pair>)
    requires vars.Valid()
    modifies vars
    ensures vars.Valid()
    ensures vars.vars == old(vars.vars) + CookieVars(cookies)
  {
    hide ServerVars.Valid, CookiePairs;
    if cookies != [] {
      vars.Set(HTTP_COOKIE, CookiePairs(cookies));
    }
  }

  method SetBodyDefaults(vars: ServerVars, req: WebRequest, hasContentType: bool, hasContentLength: bool)
    requires vars.Valid()
    requires hasContentType == HasHeader(req.headers, "Content-Type")
    requires hasContentLength == HasHeader(req.headers, "Content-Length")
    modifies vars
    ensures vars.Valid()
    ensures vars.vars == old(vars.vars) + BodyVars(req)
  {
    hide ServerVars.Valid, HasHeader, Decimal;
    if !hasContentType && req.body != [] {
      vars.Set(CONTENT_TYPE, OCTET_STREAM);
    }
    if !hasContentLength && req.body != [] {
      vars.Set(CONTENT_LENGTH, Decimal(|req.body|));
    }
  }

  method Build(req: WebRequest, env: Surroundings) returns (r: Result<ExecutionContext, WebRequestError>)
    ensures req.httpMethod.None? ==> r == Err(MissingMethod)
    ensures req.httpMethod.Some? && !env.scriptExists ==> r == Err(ScriptNotFound(env.scriptPath))
    ensures req.httpMethod.Some? && env.scriptExists ==>
              && r.Ok?
              && fresh(r.value.serverVars) && r.value.serverVars.Valid()
              && r.value.serverVars.vars == BuildVars(req, env, req.httpMethod.value.Name())
              && r.value == ExecutionContext(
                   env.scriptPath, r.value.serverVars, req.body, req.envVars, req.iniOverrides, false)
  {
    if req.httpMethod.None? {
      return Err(MissingMethod);
    }
    if !env.scriptExists {
      return Err(ScriptNotFound(env.scriptPath));
    }
    var name := req.httpMethod.value.Name();
    hide ServerVars.Valid, OwnVars, HeaderVars, CookieVars, BodyVars;
    var vars := SetOwnVars(req, env, name);
    SetCookies(vars, req.cookies);
    var hasContentType, hasContentLength := SetHeaders(vars, env.up, req.headers);
    SetBodyDefaults(vars, req, hasContentType, hasContentLength);
    return Ok(ExecutionContext(env.scriptPath, vars, req.body, req.envVars, req.iniOverrides, false));
  }

  lemma NoHeaders(name: string)
    ensures !HasHeader([], name)
  {
  }

  lemma HasHeaderSnoc(headers: seq<Pair>, h: Pair, name: string)
    ensures HasHeader(headers + [h], name) == (HasHeader(headers, name) || EqIgnoreAsciiCase(h.0, name))
  {
    hide EqIgnoreAsciiCase;
    var all := headers + [h];
    assert all[|headers|] == h;
    assert forall i :: 0 <= i < |headers| ==> all[i] == headers[i];
  }

  /** No name matches both, so the order of the two tests does not matter. */
  lemma NotBoth(name: string)
    ensures !(EqIgnoreAsciiCase(name, "Content-Type") && EqIgnoreAsciiCase(name, "Content-Length"))
  {
  }

  // ---------------------------------------------------------------- lookups after build

  /** Splitting a lookup along the four groups of insertions. */
  lemma LookupSplit(req: WebRequest, env: Surroundings, name: string, key: string)
    ensures LastOf(BuildVars(req, env, name), key)
         == Or(LastOf(BodyVars(req), key),
               Or(LastOf(HeaderVars(env.up, req.headers), key),
                  Or(LastOf(CookieVars(req.cookies), key), LastOf(OwnVars(req, env, name), key))))
  {
    hide OwnVars, CookieVars, HeaderVars, BodyVars, LastOf;
    var own, cookie := OwnVars(req, env, name), CookieVars(req.cookies);
    var header, body := HeaderVars(env.up, req.headers), BodyVars(req);
    LastOfConcat(own + cookie + header, body, key);
    LastOfConcat(own + cookie, header, key);
    LastOfConcat(own, cookie, key);
  }

  /** The value of the last header that normalises to a name. */
  function LastHeader(up: CaseMap, headers: seq<Pair>, upper: string): Option<string> {
    if headers == [] then None
    else
      var (name, value) := headers[|headers| - 1];
      if Normalise(up, name) == upper then Some(value) else LastHeader(up, headers[..|headers| - 1], upper)
  }

  /** The value belongs to a header that normalises to the name, and no later one does. */
  ghost predicate IsLastHeader(up: CaseMap, headers: seq<Pair>, upper: string, value: string) {
    exists i :: 0 <= i < |headers| && headers[i].1 == value && Normalise(up, headers[i].0) == upper
                && forall j :: i < j < |headers| ==> Normalise(up, headers[j].0) != upper
  }

  lemma IsLastHeaderSnoc(up: CaseMap, before: seq<Pair>, last: Pair, upper: string, value: string)
    ensures IsLastHeader(up, before + [last], Normalise(up, last.0), last.1)
    ensures Normalise(up, last.0) != upper && IsLastHeader(up, before, upper, value) ==>
              IsLastHeader(up, before + [last], upper, value)
  {
    hide Normalise;
    var all := before + [last];
    assert all[|before|].1 == last.1;
    if Normalise(up, last.0) != upper && IsLastHeader(up, before, upper, value) {
      var i :| 0 <= i < |before| && before[i].1 == value && Normalise(up, before[i].0) == upper
               && forall j :: i < j < |before| ==> Normalise(up, before[j].0) != upper;
      assert all[i].1 == value;
    }
  }

  lemma {:induction false} LastHeaderIsLast(up: CaseMap, headers: seq<Pair>, upper: string)
    ensures match LastHeader(up, headers, upper)
            case None => forall i :: 0 <= i < |headers| ==> Normalise(up, headers[i].0) != upper
            case Some(value) => IsLastHeader(up, headers, upper, value)
  {
    hide Normalise, IsLastHeader;
    if headers != [] {
      var (before, last) := (headers[..|headers| - 1], headers[|headers| - 1]);
      assert headers == before + [last];
      LastHeaderIsLast(up, before, upper);
      IsLastHeaderSnoc(up, before, last, upper, OrEmpty(LastHeader(up, before, upper)));
    }
  }

  /** The key of a header variable determines the normalised name. */
  lemma HeaderKeyInjective(a: string, b: string)
    ensures HeaderKey(a) == HeaderKey(b) <==> a == b
  {
    assert CONTENT_TYPE[0] == CONTENT_LENGTH[0] == 'C';
    assert ("HTTP_" + a)[0] == ("HTTP_" + b)[0] == 'H';
    assert ("HTTP_" + a)[5..] == a && ("HTTP_" + b)[5..] == b;
  }

  lemma {:induction false} HeaderLookup(up: CaseMap, headers: seq<Pair>, upper: string)
    ensures LastOf(HeaderVars(up, headers), HeaderKey(upper)) == LastHeader(up, headers, upper)
  {
    hide HeaderKey, Normalise;
    if headers != [] {
      var before, h := headers[..|headers| - 1], headers[|headers| - 1];
      HeaderLookup(up, before, upper);
      LastOfSnoc(HeaderVars(up, before), HeaderVar(up, h.0, h.1), HeaderKey(upper));
      HeaderKeyInjective(Normalise(up, h.0), upper);
    }
  }

  /** The keys that headers, cookies and body never touch. */
  predicate OwnKey(key: string) {
    key != CONTENT_TYPE && key != CONTENT_LENGTH && !("HTTP_" <= key)
  }

  lemma NotOwnKeys(upper: string)
    ensures !OwnKey(HeaderKey(upper))
    ensures !OwnKey(HTTP_COOKIE)
  {
    assert HTTP_COOKIE[..5] == "HTTP_";
    assert ("HTTP_" + upper)[..5] == "HTTP_";
  }

  lemma {:induction false} HeadersMissOwnKeys(up: CaseMap, headers: seq<Pair>, key: string)
    requires OwnKey(key)
    ensures LastOf(HeaderVars(up, headers), key) == None
  {
    hide OwnKey, HeaderKey, Normalise;
    if headers != [] {
      var before, h := headers[..|headers| - 1], headers[|headers| - 1];
      HeadersMissOwnKeys(up, before, key);
      LastOfSnoc(HeaderVars(up, before), HeaderVar(up, h.0, h.1), key);
      NotOwnKeys(Normalise(up, h.0));
    }
  }

  /** A variable that headers, cookies and body never touch has the builder's own value. */
  lemma OwnLookup(req: WebRequest, env: Surroundings, name: string, key: string)
    requires OwnKey(key)
    ensures LastOf(BuildVars(req, env, name), key) == LastOf(OwnVars(req, env, name), key)
  {
    hide OwnVars, HeaderVars, BodyVars, BuildVars, LastOf, CookiePairs, HeaderKey;
    LookupSplit(req, env, name, key);
    HeadersMissOwnKeys(env.up, req.headers, key);
    NotOwnKeys("");
    OnlyContentKeys(req, key);
    CookieMissesOwnKeys(req.cookies, key);
  }

  lemma CookieMissesOwnKeys(cookies: seq<Pair>, key: string)
    requires OwnKey(key)
    ensures LastOf(CookieVars(cookies), key) == None
  {
    NotOwnKeys("");
    hide OwnKey, CookiePairs;
  }

  lemma OwnVarsOfBare(req: WebRequest, env: Surroundings, name: string)
    ensures OwnVars(req, env, name) == OwnVars(req.(headers := [], cookies := [], body := []), env, name)
  {
    hide ParseUri, Decimal;
  }

  /**
   * Noninterference: whatever headers, cookies and body a request carries, every other variable
   * is what the builder set without them.
   */
  lemma Noninterference(req: WebRequest, env: Surroundings, name: string, key: string)
    requires OwnKey(key)
    ensures LastOf(BuildVars(req, env, name), key) == LastOf(OwnVars(req, env, name), key)
    ensures LastOf(BuildVars(req, env, name), key)
         == LastOf(BuildVars(req.(headers := [], cookies := [], body := []), env, name), key)
  {
    hide OwnVars, BuildVars, LastOf, OwnKey;
    OwnLookup(req, env, name, key);
    OwnLookup(req.(headers := [], cookies := [], body := []), env, name, key);
    OwnVarsOfBare(req, env, name);
  }

  lemma OnlyContentKeys(req: WebRequest, key: string)
    requires key != CONTENT_TYPE && key != CONTENT_LENGTH
    ensures LastOf(BodyVars(req), key) == None
  {
    hide HasHeader, Decimal;
  }

  // ---------------------------------------------------------------- CGI meta-variables

  function DefaultKeys(): seq<string> { ["GATEWAY_INTERFACE", "REQUEST_TIME", "REQUEST_TIME_FLOAT"] }

  function TargetKeys(): seq<string> { ["REQUEST_METHOD", "REQUEST_URI", "QUERY_STRING"] }

  function ScriptKeys(): seq<string> { ["SCRIPT_FILENAME", "SCRIPT_NAME", "PHP_SELF", "DOCUMENT_ROOT"] }

  function ConnectionKeys(): seq<string> {
    ["SERVER_NAME", "SERVER_PORT", "SERVER_ADDR", "REMOTE_ADDR", "REMOTE_PORT", "SERVER_PROTOCOL"]
  }

  function SchemeKeys(https: bool): seq<string> {
    if https then ["HTTPS", "REQUEST_SCHEME"] else ["REQUEST_SCHEME"]
  }

  function PathKeys(hasPath: bool): seq<string> {
    if hasPath then ["PATH_INFO", "PATH_TRANSLATED"] else []
  }

  function OwnKeys(https: bool, hasPath: bool): seq<string> {
    DefaultKeys() + TargetKeys() + ScriptKeys() + ConnectionKeys() + SchemeKeys(https) + PathKeys(hasPath)
  }

  ghost predicate Distinct(keys: seq<string>) {
    forall i, j :: 0 <= i < j < |keys| ==> keys[i] != keys[j]
  }

  function AllKeys(): (keys: seq<string>)
    ensures |keys| == 20
  {
    ["GATEWAY_INTERFACE", "REQUEST_TIME", "REQUEST_TIME_FLOAT",
     "REQUEST_METHOD", "REQUEST_URI", "QUERY_STRING",
     "SCRIPT_FILENAME", "SCRIPT_NAME", "PHP_SELF", "DOCUMENT_ROOT",
     "SERVER_NAME", "SERVER_PORT", "SERVER_ADDR", "REMOTE_ADDR", "REMOTE_PORT", "SERVER_PROTOCOL",
     "HTTPS", "REQUEST_SCHEME",
     "PATH_INFO", "PATH_TRANSLATED"]
  }

  lemma AllKeysDistinct()
    ensures Distinct(AllKeys())
  {
  }

  /** Every list of own keys is a sublist of all of them; only HTTPS and the path may be missing. */
  lemma OwnKeysAmongAll(https: bool, hasPath: bool, i: nat)
    requires i < |OwnKeys(https, hasPath)|
    ensures i < 16 || https ==> i < 20 && OwnKeys(https, hasPath)[i] == AllKeys()[i]
    ensures i >= 16 && !https ==> i < 19 && OwnKeys(https, hasPath)[i] == AllKeys()[i + 1]
    ensures !hasPath ==> i < 18 && (!https ==> i < 17)
  {
  }

  lemma OwnKeysDistinct(https: bool, hasPath: bool)
    ensures Distinct(OwnKeys(https, hasPath))
  {
    AllKeysDistinct();
    hide OwnKeys, AllKeys;
    forall i, j | 0 <= i < j < |OwnKeys(https, hasPath)|
      ensures OwnKeys(https, hasPath)[i] != OwnKeys(https, hasPath)[j]
    {
      OwnKeysAmongAll(https, hasPath, i);
      OwnKeysAmongAll(https, hasPath, j);
    }
  }

  lemma OtherInitial(key: string)
    requires key != "" && key[0] != 'H' && key[0] != 'C'
    ensures OwnKey(key)
  {
    assert "HTTP_"[0] == 'H' && CONTENT_TYPE[0] == CONTENT_LENGTH[0] == 'C';
  }

  lemma Initials(i: nat)
    requires i < 20
    ensures AllKeys()[i] == "HTTPS" || (AllKeys()[i] != "" && AllKeys()[i][0] != 'H' && AllKeys()[i][0] != 'C')
  {
  }

  lemma OwnKeysAreOwn(https: bool, hasPath: bool, i: nat)
    requires i < |OwnKeys(https, hasPath)|
    ensures OwnKey(OwnKeys(https, hasPath)[i])
  {
    hide OwnKey, OwnKeys, AllKeys;
    var key := OwnKeys(https, hasPath)[i];
    OwnKeysAmongAll(https, hasPath, i);
    Initials(if i < 16 || https then i else i + 1);
    if key == "HTTPS" {
      HttpsIsOwn();
    } else {
      OtherInitial(key);
    }
  }

  lemma HttpsIsOwn()
    ensures OwnKey("HTTPS")
  {
    assert "HTTP_"[4] != "HTTPS"[4];
  }

  ghost predicate DistinctKeys(vars: seq<Pair>) {
    forall i, j :: 0 <= i < j < |vars| ==> vars[i].0 != vars[j].0
  }

  predicate HasKeys(vars: seq<Pair>, keys: seq<string>) {
    |vars| == |keys| && forall i :: 0 <= i < |vars| ==> vars[i].0 == keys[i]
  }

  lemma HasKeysConcat(a: seq<Pair>, b: seq<Pair>, ka: seq<string>, kb: seq<string>)
    requires HasKeys(a, ka) && HasKeys(b, kb)
    ensures HasKeys(a + b, ka + kb)
  {
  }

  lemma GroupKeys(req: WebRequest, env: Surroundings, name: string, uri: string, root: string)
    ensures HasKeys(DefaultVars(env), DefaultKeys())
    ensures HasKeys(TargetVars(name, uri), TargetKeys())
    ensures HasKeys(ScriptVars(env, uri, root), ScriptKeys())
    ensures HasKeys(ConnectionVars(req), ConnectionKeys())
    ensures HasKeys(Scheme(req.https), SchemeKeys(req.https))
    ensures HasKeys(PathVars(req, root), PathKeys(req.pathInfo.Some?))
  {
    hide Decimal, ParseUri;
  }

  lemma KeysOfOwnVars(req: WebRequest, env: Surroundings, name: string)
    ensures HasKeys(OwnVars(req, env, name), OwnKeys(req.https, req.pathInfo.Some?))
  {
    hide HasKeys, DefaultVars, TargetVars, ScriptVars, ConnectionVars, Scheme, PathVars;
    hide DefaultKeys, TargetKeys, ScriptKeys, ConnectionKeys, SchemeKeys, PathKeys;
    var uri := EffectiveUri(req, env);
    var root := EffectiveRoot(req, env);
    GroupKeys(req, env, name, uri, root);
    var a, ka := DefaultVars(env), DefaultKeys();
    HasKeysConcat(a, TargetVars(name, uri), ka, TargetKeys());
    a, ka := a + TargetVars(name, uri), ka + TargetKeys();
    HasKeysConcat(a, ScriptVars(env, uri, root), ka, ScriptKeys());
    a, ka := a + ScriptVars(env, uri, root), ka + ScriptKeys();
    HasKeysConcat(a, ConnectionVars(req), ka, ConnectionKeys());
    a, ka := a + ConnectionVars(req), ka + ConnectionKeys();
    HasKeysConcat(a, Scheme(req.https), ka, SchemeKeys(req.https));
    a, ka := a + Scheme(req.https), ka + SchemeKeys(req.https);
    HasKeysConcat(a, PathVars(req, root), ka, PathKeys(req.pathInfo.Some?));
  }

  lemma {:induction false} LookupDistinct(vars: seq<Pair>, i: nat)
    requires i < |vars| && DistinctKeys(vars)
    ensures LastOf(vars, vars[i].0) == Some(vars[i].1)
  {
    var last := |vars| - 1;
    if i < last {
      LookupDistinct(vars[..last], i);
    }
  }

  /**
   * Each meta-variable that the builder sets itself reaches the script with that value,
   * whatever headers, cookies and body the request carries.
   */
  lemma MetaVariables(req: WebRequest, env: Surroundings, name: string, i: nat)
    requires i < |OwnVars(req, env, name)|
    ensures var (key, value) := OwnVars(req, env, name)[i];
            LastOf(BuildVars(req, env, name), key) == Some(value)
  {
    var vars := OwnVars(req, env, name);
    KeysOfOwnVars(req, env, name);
    OwnKeysDistinct(req.https, req.pathInfo.Some?);
    OwnKeysAreOwn(req.https, req.pathInfo.Some?, i);
    hide OwnVars, OwnKeys, OwnKey;
    LookupDistinct(vars, i);
    Noninterference(req, env, name, vars[i].0);
  }

  /** The query string of section 4.1.7 is what follows the first question mark of the target. */
  lemma QueryVariable(req: WebRequest, env: Surroundings, name: string)
    ensures LastOf(BuildVars(req, env, name), QUERY_STRING) == Some(OrEmpty(ParseUri(EffectiveUri(req, env)).1))
  {
    assert OwnVars(req, env, name)[5] == (QUERY_STRING, OrEmpty(ParseUri(EffectiveUri(req, env)).1));
    MetaVariables(req, env, name, 5);
  }

  /** A variable that the builder has no reason to set is not set, whatever else the request carries. */
  lemma AbsentVariables(req: WebRequest, env: Surroundings, name: string)
    ensures !req.https ==> LastOf(BuildVars(req, env, name), "HTTPS") == None
    ensures req.pathInfo.None? ==>
              LastOf(BuildVars(req, env, name), "PATH_INFO") == None && LastOf(BuildVars(req, env, name), "PATH_TRANSLATED") == None
  {
    var vars := OwnVars(req, env, name);
    KeysOfOwnVars(req, env, name);
    OptionalKeys();
    HttpsIsOwn();
    OtherInitial("PATH_INFO");
    OtherInitial("PATH_TRANSLATED");
    hide OwnVars, OwnKeys, AllKeys, BuildVars, LastOf, OwnKey;
    forall i | 0 <= i < |vars|
      ensures !req.https ==> vars[i].0 != "HTTPS"
      ensures req.pathInfo.None? ==> vars[i].0 != "PATH_INFO" && vars[i].0 != "PATH_TRANSLATED"
    {
      OwnKeysAmongAll(req.https, req.pathInfo.Some?, i);
    }
    OwnLookup(req, env, name, "HTTPS");
    OwnLookup(req, env, name, "PATH_INFO");
    OwnLookup(req, env, name, "PATH_TRANSLATED");
    LastOfNone(vars, "HTTPS");
    LastOfNone(vars, "PATH_INFO");
    LastOfNone(vars, "PATH_TRANSLATED");
  }

  lemma OptionalKeys()
    ensures forall i :: 0 <= i < 20 && i != 16 ==> AllKeys()[i] != "HTTPS"
    ensures forall i :: 0 <= i < 18 ==> AllKeys()[i] != "PATH_INFO" && AllKeys()[i] != "PATH_TRANSLATED"
  {
    AllKeysDistinct();
    assert AllKeys()[16] == "HTTPS" && AllKeys()[18] == "PATH_INFO" && AllKeys()[19] == "PATH_TRANSLATED";
    hide AllKeys;
  }

  lemma LastOfNone(vars: seq<Pair>, key: string)
    ensures (forall i :: 0 <= i < |vars| ==> vars[i].0 != key) ==> LastOf(vars, key) == None
  {
  }

  /** What a script reads as a variable: the last value of the list under its name. */
  function Seen(req: WebRequest, env: Surroundings, httpMethod: HttpMethod, key: string): Option<string> {
    LastOf(BuildVars(req, env, httpMethod.Name()), key)
  }

  lemma MethodNames()
    ensures Get.Name() == "GET" && Post.Name() == "POST" && Put.Name() == "PUT" && Delete.Name() == "DELETE"
    ensures Patch.Name() == "PATCH" && Head.Name() == "HEAD" && Options.Name() == "OPTIONS"
  {
  }

  lemma SeenAt(req: WebRequest, env: Surroundings, httpMethod: HttpMethod, group: seq<Pair>, from: nat, j: nat)
    requires j < |group| && from + |group| <= |OwnVars(req, env, httpMethod.Name())|
    requires OwnVars(req, env, httpMethod.Name())[from..from + |group|] == group
    ensures Seen(req, env, httpMethod, group[j].0) == Some(group[j].1)
  {
    hide OwnVars, BuildVars, LastOf;
    var vars := OwnVars(req, env, httpMethod.Name());
    assert vars[from + j] == vars[from..from + |group|][j];
    MetaVariables(req, env, httpMethod.Name(), from + j);
  }

  lemma GroupLengths(req: WebRequest, env: Surroundings, name: string, uri: string, root: string)
    ensures |DefaultVars(env)| == 3 && |TargetVars(name, uri)| == 3 && |ScriptVars(env, uri, root)| == 4
    ensures |ConnectionVars(req)| == 6 && |Scheme(req.https)| == (if req.https then 2 else 1)
  {
    hide Decimal, ParseUri;
  }

  lemma GroupPlaces(req: WebRequest, env: Surroundings, name: string)
    ensures var (vars, uri, root) := (OwnVars(req, env, name), EffectiveUri(req, env), EffectiveRoot(req, env));
            var end := if req.https then 18 else 17;
            && |vars| == end + |PathVars(req, root)|
            && vars[0..3] == DefaultVars(env)
            && vars[3..6] == TargetVars(name, uri)
            && vars[6..10] == ScriptVars(env, uri, root)
            && vars[10..16] == ConnectionVars(req)
            && vars[16..end] == Scheme(req.https)
            && vars[end..|vars|] == PathVars(req, root)
  {
    GroupLengths(req, env, name, EffectiveUri(req, env), EffectiveRoot(req, env));
    hide DefaultVars, TargetVars, ScriptVars, ConnectionVars, Scheme, PathVars, EffectiveUri, EffectiveRoot;
  }

  lemma TimesSeen(req: WebRequest, env: Surroundings, m: HttpMethod)
    ensures Seen(req, env, m, "GATEWAY_INTERFACE") == Some("CGI/1.1")
    ensures Seen(req, env, m, "REQUEST_TIME") == Some(env.time)
    ensures Seen(req, env, m, "REQUEST_TIME_FLOAT") == Some(env.timeFloat)
  {
    GroupPlaces(req, env, m.Name());
    hide Seen, OwnVars, TargetVars, ScriptVars, ConnectionVars, Scheme, PathVars;
    SeenAt(req, env, m, DefaultVars(env), 0, 0);
    SeenAt(req, env, m, DefaultVars(env), 0, 1);
    SeenAt(req, env, m, DefaultVars(env), 0, 2);
  }

  lemma TargetSeen(req: WebRequest, env: Surroundings, m: HttpMethod)
    ensures Seen(req, env, m, "REQUEST_METHOD") == Some(m.Name())
    ensures Seen(req, env, m, "REQUEST_URI") == Some(EffectiveUri(req, env))
    ensures Seen(req, env, m, "QUERY_STRING") == Some(OrEmpty(ParseUri(EffectiveUri(req, env)).1))
  {
    GroupPlaces(req, env, m.Name());
    hide Seen, OwnVars, DefaultVars, ScriptVars, ConnectionVars, Scheme, PathVars, ParseUri, EffectiveUri, HttpMethod.Name;
    var target := TargetVars(m.Name(), EffectiveUri(req, env));
    SeenAt(req, env, m, target, 3, 0);
    SeenAt(req, env, m, target, 3, 1);
    SeenAt(req, env, m, target, 3, 2);
  }

  lemma ScriptSeen(req: WebRequest, env: Surroundings, m: HttpMethod)
    ensures Seen(req, env, m, "SCRIPT_FILENAME") == Some(env.scriptFilename)
    ensures Seen(req, env, m, "SCRIPT_NAME") == Some(ParseUri(EffectiveUri(req, env)).0)
    ensures Seen(req, env, m, "PHP_SELF") == Some(ParseUri(EffectiveUri(req, env)).0)
    ensures Seen(req, env, m, "DOCUMENT_ROOT") == Some(EffectiveRoot(req, env))
  {
    GroupPlaces(req, env, m.Name());
    hide Seen, OwnVars, DefaultVars, TargetVars, ConnectionVars, Scheme, PathVars, ParseUri, EffectiveUri, EffectiveRoot;
    var script := ScriptVars(env, EffectiveUri(req, env), EffectiveRoot(req, env));
    SeenAt(req, env, m, script, 6, 0);
    SeenAt(req, env, m, script, 6, 1);
    SeenAt(req, env, m, script, 6, 2);
    SeenAt(req, env, m, script, 6, 3);
  }

  lemma SchemeSet(req: WebRequest, env: Surroundings, m: HttpMethod)
    ensures req.https ==> Seen(req, env, m, "HTTPS") == Some("on")
    ensures Seen(req, env, m, "REQUEST_SCHEME") == Some(if req.https then "https" else "http")
  {
    GroupPlaces(req, env, m.Name());
    hide Seen, OwnVars, DefaultVars, TargetVars, ScriptVars, ConnectionVars, PathVars;
    SeenAt(req, env, m, Scheme(req.https), 16, 0);
    if req.https {
      SeenAt(req, env, m, Scheme(req.https), 16, 1);
    }
  }

  lemma PathSet(req: WebRequest, env: Surroundings, m: HttpMethod)
    requires req.pathInfo.Some?
    ensures Seen(req, env, m, "PATH_INFO") == req.pathInfo
    ensures Seen(req, env, m, "PATH_TRANSLATED") == Some(EffectiveRoot(req, env) + req.pathInfo.value)
  {
    GroupPlaces(req, env, m.Name());
    hide Seen, OwnVars, DefaultVars, TargetVars, ScriptVars, ConnectionVars, Scheme, EffectiveRoot;
    var (path, end) := (PathVars(req, EffectiveRoot(req, env)), if req.https then 18 else 17);
    SeenAt(req, env, m, path, end, 0);
    SeenAt(req, env, m, path, end, 1);
  }

  lemma ConnectionSeen(req: WebRequest, env: Surroundings, m: HttpMethod)
    ensures Seen(req, env, m, "SERVER_NAME") == Some(req.serverName)
    ensures Seen(req, env, m, "SERVER_PORT") == Some(Decimal(req.serverPort))
    ensures Seen(req, env, m, "SERVER_ADDR") == Some(req.serverAddr)
    ensures Seen(req, env, m, "REMOTE_ADDR") == Some(req.remoteAddr)
    ensures Seen(req, env, m, "REMOTE_PORT") == Some(Decimal(req.remotePort))
    ensures Seen(req, env, m, "SERVER_PROTOCOL") == Some(req.serverProtocol)
  {
    GroupPlaces(req, env, m.Name());
    hide Seen, OwnVars, DefaultVars, TargetVars, ScriptVars, Scheme, PathVars, Decimal;
    var connection := ConnectionVars(req);
    SeenAt(req, env, m, connection, 10, 0);
    SeenAt(req, env, m, connection, 10, 1);
    SeenAt(req, env, m, connection, 10, 2);
    SeenAt(req, env, m, connection, 10, 3);
    SeenAt(req, env, m, connection, 10, 4);
    SeenAt(req, env, m, connection, 10, 5);
  }

  /**
   * Method and target (RFC 3875, sections 4.1.7, 4.1.12 and 4.1.13): the target is the given one
   * or the file name behind a slash, and it is split at its first question mark.
   */
  lemma TargetVariables(req: WebRequest, env: Surroundings, m: HttpMethod, path: string, query: Option<string>)
    requires '?' !in path
    requires (match req.uri case Some(uri) => uri case None => "/" + env.fileName)
          == (match query case Some(q) => path + "?" + q case None => path)
    ensures Seen(req, env, m, "REQUEST_METHOD") == Some(m.Name())
    ensures Seen(req, env, m, "REQUEST_URI") == Some(match query case Some(q) => path + "?" + q case None => path)
    ensures Seen(req, env, m, "QUERY_STRING") == Some(match query case Some(q) => q case None => "")
    ensures Seen(req, env, m, "SCRIPT_NAME") == Some(path)
    ensures Seen(req, env, m, "PHP_SELF") == Some(path)
  {
    assert EffectiveUri(req, env) == JoinUri(path, query);
    JoinedUriParses(path, query);
    TargetSeen(req, env, m);
    ScriptSeen(req, env, m);
    hide Seen, ParseUri, HttpMethod.Name, EffectiveUri, EffectiveRoot;
  }

  /** Places in the file system, the time, and the path behind the script (sections 4.1.4 to 4.1.6). */
  lemma PlaceVariables(req: WebRequest, env: Surroundings, m: HttpMethod)
    ensures Seen(req, env, m, "GATEWAY_INTERFACE") == Some("CGI/1.1")
    ensures Seen(req, env, m, "REQUEST_TIME") == Some(env.time)
    ensures Seen(req, env, m, "REQUEST_TIME_FLOAT") == Some(env.timeFloat)
    ensures Seen(req, env, m, "SCRIPT_FILENAME") == Some(env.scriptFilename)
    ensures var root := match req.documentRoot case Some(r) => r case None => env.parent;
            && Seen(req, env, m, "DOCUMENT_ROOT") == Some(root)
            && Seen(req, env, m, "PATH_INFO") == req.pathInfo
            && Seen(req, env, m, "PATH_TRANSLATED") == (match req.pathInfo case Some(info) => Some(root + info) case None => None)
  {
    TimesSeen(req, env, m);
    ScriptSeen(req, env, m);
    if req.pathInfo.Some? {
      PathSet(req, env, m);
    } else {
      AbsentVariables(req, env, m.Name());
    }
    hide BuildVars, LastOf, ParseUri, EffectiveUri, HttpMethod.Name;
  }

  /** A decimal number without leading zeros. */
  ghost predicate IsDecimal(s: Option<string>, n: nat) {
    && s.Some? && s.value != "" && DecimalValue(s.value) == n
    && (forall c :: c in s.value ==> '0' <= c <= '9')
    && (n > 0 ==> s.value[0] != '0')
  }

  lemma DecimalIsDecimal(n: nat)
    ensures IsDecimal(Some(Decimal(n)), n)
  {
    DecimalReadsBack(n);
  }

  /** Both ends of the connection (sections 4.1.8 and 4.1.14 to 4.1.16). */
  lemma ConnectionVariables(req: WebRequest, env: Surroundings, m: HttpMethod)
    ensures Seen(req, env, m, "SERVER_NAME") == Some(req.serverName)
    ensures IsDecimal(Seen(req, env, m, "SERVER_PORT"), req.serverPort)
    ensures Seen(req, env, m, "SERVER_ADDR") == Some(req.serverAddr)
    ensures Seen(req, env, m, "REMOTE_ADDR") == Some(req.remoteAddr)
    ensures IsDecimal(Seen(req, env, m, "REMOTE_PORT"), req.remotePort)
    ensures Seen(req, env, m, "SERVER_PROTOCOL") == Some(req.serverProtocol)
    ensures Seen(req, env, m, "HTTPS") == if req.https then Some("on") else None
    ensures Seen(req, env, m, "REQUEST_SCHEME") == Some(if req.https then "https" else "http")
  {
    ConnectionSeen(req, env, m);
    SchemeSet(req, env, m);
    AbsentVariables(req, env, m.Name());
    DecimalIsDecimal(req.serverPort);
    DecimalIsDecimal(req.remotePort);
    hide BuildVars, LastOf, Decimal, IsDecimal, HttpMethod.Name;
  }

  /** Percent-encoded data travels through the target into the query string and decodes there. */
  lemma DataReachesScript(req: WebRequest, env: Surroundings, name: string, data: seq<byte>)
    requires req.uri == Some("/?data=" + Encoded(data))
    ensures var query := LastOf(BuildVars(req, env, name), QUERY_STRING);
            && query == Some("data=" + Encoded(data))
            && PercentEncoding.Decode(query.value[5..]) == Some(data)
  {
    QueryVariable(req, env, name);
    QueryData(data);
    hide BuildVars;
  }

  /** An `HTTP_` variable is the last header with its name, or the joined cookies for the cookie. */
  lemma HttpVariables(req: WebRequest, env: Surroundings, name: string, upper: string)
    requires upper != CONTENT_TYPE && upper != CONTENT_LENGTH
    ensures LastOf(BuildVars(req, env, name), "HTTP_" + upper)
         == Or(LastHeader(env.up, req.headers, upper),
               if upper == "COOKIE" && req.cookies != [] then Some(CookiePairs(req.cookies)) else None)
  {
    var key := "HTTP_" + upper;
    LookupSplit(req, env, name, key);
    HeaderLookup(env.up, req.headers, upper);
    NotOwnKeys(upper);
    assert key[0] == 'H' && CONTENT_TYPE[0] == CONTENT_LENGTH[0] == 'C';
    OnlyContentKeys(req, key);
    OwnVarsMiss(req, env, name, key);
    CookieLookup(req.cookies, upper);
    hide OwnVars, HeaderVars, BodyVars, BuildVars, CookieVars, LastHeader, LastOf;
  }

  /** A header added last decides its `HTTP_` variable, whatever the request carried before. */
  lemma AddedHeaderWins(req: WebRequest, env: Surroundings, name: string, header: string, value: string)
    requires Normalise(env.up, header) != CONTENT_TYPE && Normalise(env.up, header) != CONTENT_LENGTH
    ensures LastOf(BuildVars(req.WithHeader(header, value), env, name), "HTTP_" + Normalise(env.up, header)) == Some(value)
  {
    var more := req.WithHeader(header, value);
    HttpVariables(more, env, name, Normalise(env.up, header));
    hide Normalise, BuildVars, LastOf;
    assert more.headers[|more.headers| - 1] == (header, value);
  }

  lemma OwnVarsMiss(req: WebRequest, env: Surroundings, name: string, key: string)
    requires !OwnKey(key)
    ensures LastOf(OwnVars(req, env, name), key) == None
  {
    var vars := OwnVars(req, env, name);
    KeysOfOwnVars(req, env, name);
    hide OwnVars, OwnKeys, OwnKey;
    forall i | 0 <= i < |vars|
      ensures vars[i].0 != key
    {
      OwnKeysAreOwn(req.https, req.pathInfo.Some?, i);
    }
  }

  lemma CookieLookup(cookies: seq<Pair>, upper: string)
    ensures LastOf(CookieVars(cookies), "HTTP_" + upper)
         == if upper == "COOKIE" && cookies != [] then Some(CookiePairs(cookies)) else None
  {
    hide CookiePairs;
    assert HTTP_COOKIE == "HTTP_" + "COOKIE";
    assert HTTP_COOKIE[5..] == "COOKIE" && ("HTTP_" + upper)[5..] == upper;
  }

  // ---------------------------------------------------------------- content type and length

  /**
   * The content type that the script sees: the default when the body is not empty and no header
   * is spelled `Content-Type`, otherwise the last header that normalises to CONTENT_TYPE.
   */
  lemma ContentType(req: WebRequest, env: Surroundings, name: string)
    ensures LastOf(BuildVars(req, env, name), CONTENT_TYPE)
         == if req.body != [] && !HasHeader(req.headers, "Content-Type") then Some(OCTET_STREAM)
            else LastHeader(env.up, req.headers, CONTENT_TYPE)
  {
    LookupSplit(req, env, name, CONTENT_TYPE);
    HeaderLookup(env.up, req.headers, CONTENT_TYPE);
    OwnVarsMiss(req, env, name, CONTENT_TYPE);
    BodyLookup(req);
    CookiesAreNotContent(req.cookies);
    hide OwnVars, HeaderVars, BodyVars, BuildVars, CookieVars, LastHeader, LastOf;
  }

  lemma ContentLength(req: WebRequest, env: Surroundings, name: string)
    ensures LastOf(BuildVars(req, env, name), CONTENT_LENGTH)
         == if req.body != [] && !HasHeader(req.headers, "Content-Length") then Some(Decimal(|req.body|))
            else LastHeader(env.up, req.headers, CONTENT_LENGTH)
  {
    LookupSplit(req, env, name, CONTENT_LENGTH);
    HeaderLookup(env.up, req.headers, CONTENT_LENGTH);
    OwnVarsMiss(req, env, name, CONTENT_LENGTH);
    BodyLookup(req);
    CookiesAreNotContent(req.cookies);
    hide OwnVars, HeaderVars, BodyVars, BuildVars, CookieVars, LastHeader, LastOf;
  }

  lemma BodyLookup(req: WebRequest)
    ensures LastOf(BodyVars(req), CONTENT_TYPE)
         == if req.body != [] && !HasHeader(req.headers, "Content-Type") then Some(OCTET_STREAM) else None
    ensures LastOf(BodyVars(req), CONTENT_LENGTH)
         == if req.body != [] && !HasHeader(req.headers, "Content-Length") then Some(Decimal(|req.body|)) else None
  {
    hide HasHeader, Decimal;
    var hasType, hasLength := HasHeader(req.headers, "Content-Type"), HasHeader(req.headers, "Content-Length");
    var a := if !hasType && req.body != [] then [(CONTENT_TYPE, OCTET_STREAM)] else [];
    var b := if !hasLength && req.body != [] then [(CONTENT_LENGTH, Decimal(|req.body|))] else [];
    LastOfConcat(a, b, CONTENT_TYPE);
    LastOfConcat(a, b, CONTENT_LENGTH);
  }

  lemma CookiesAreNotContent(cookies: seq<Pair>)
    ensures LastOf(CookieVars(cookies), CONTENT_TYPE) == None
    ensures LastOf(CookieVars(cookies), CONTENT_LENGTH) == None
  {
    hide CookiePairs;
    assert HTTP_COOKIE[0] == 'H' && CONTENT_TYPE[0] == CONTENT_LENGTH[0] == 'C';
  }

  // ---------------------------------------------------------------- spellings of header names

  predicate IsAscii(s: string) {
    forall i :: 0 <= i < |s| ==> s[i] as int < 0x80
  }

  /** ASCII names as HTTP servers accept them: dashes, no underscores. */
  predicate IsDashName(s: string) {
    IsAscii(s) && '_' !in s
  }

  function NormalChar(c: char): char {
    if c == '-' then '_' else AsciiUpper(c)
  }

  lemma {:induction false} NormaliseAscii(up: CaseMap, name: string)
    requires IsUppercase(up) && IsAscii(name)
    ensures |Normalise(up, name)| == |name|
    ensures forall i :: 0 <= i < |name| ==>
              Normalise(up, name)[i] == (var c := name[i]; if c == '-' then '_' else if 'a' <= c <= 'z' then c - ' ' else c)
  {
    if name != "" {
      NormaliseAscii(up, name[1..]);
      assert up(name[0]) == [AsciiUpper(name[0])];
      var upper := Uppercase(up, name);
      assert upper[0] == AsciiUpper(name[0]) && upper[1..] == Uppercase(up, name[1..]);
    }
  }

  lemma SameChar(a: char, b: char)
    requires a != '_' && b != '_'
    ensures NormalChar(a) == NormalChar(b) <==> AsciiLower(a) == AsciiLower(b)
  {
  }

  /** On dash names, normalising identifies exactly the spellings that differ in case. */
  lemma SameHeader(up: CaseMap, a: string, b: string)
    requires IsUppercase(up) && IsDashName(a) && IsDashName(b)
    ensures Normalise(up, a) == Normalise(up, b) <==> EqIgnoreAsciiCase(a, b)
  {
    NormaliseAscii(up, a);
    NormaliseAscii(up, b);
    hide Normalise, NormalChar, AsciiLower, IsUppercase;
    forall i | 0 <= i < |a| && i < |b|
      ensures NormalChar(a[i]) == NormalChar(b[i]) <==> AsciiLower(a[i]) == AsciiLower(b[i])
    {
      SameChar(a[i], b[i]);
    }
  }

  lemma NormaliseIs(up: CaseMap, name: string, upper: string)
    requires IsUppercase(up) && IsAscii(name) && |name| == |upper|
    requires forall i :: 0 <= i < |name| ==> NormalChar(name[i]) == upper[i]
    ensures Normalise(up, name) == upper
  {
    NormaliseAscii(up, name);
    hide Normalise, NormalChar;
  }

  lemma ContentTypeName(up: CaseMap)
    requires IsUppercase(up)
    ensures IsDashName("Content-Type") && Normalise(up, "Content-Type") == CONTENT_TYPE
  {
    hide Normalise, IsUppercase;
    NormaliseIs(up, "Content-Type", CONTENT_TYPE);
  }

  lemma ContentLengthName(up: CaseMap)
    requires IsUppercase(up)
    ensures IsDashName("Content-Length") && Normalise(up, "Content-Length") == CONTENT_LENGTH
  {
    hide Normalise, IsUppercase;
    NormaliseIs(up, "Content-Length", CONTENT_LENGTH);
  }

  /** Whatever matches a dash name up to case is a dash name itself. */
  lemma MatchIsDashName(name: string, dash: string)
    requires IsDashName(dash) && EqIgnoreAsciiCase(name, dash)
    ensures IsDashName(name)
  {
    forall i | 0 <= i < |name|
      ensures name[i] as int < 0x80 && name[i] != '_'
    {
      assert AsciiLower(name[i]) == AsciiLower(dash[i]);
    }
  }

  lemma {:induction false} LastHeaderExists(up: CaseMap, headers: seq<Pair>, upper: string)
    ensures LastHeader(up, headers, upper).Some? <==>
            exists i :: 0 <= i < |headers| && Normalise(up, headers[i].0) == upper
  {
    hide Normalise;
    if headers != [] {
      var before, last := headers[..|headers| - 1], |headers| - 1;
      LastHeaderExists(up, before, upper);
      assert forall i :: 0 <= i < last ==> before[i] == headers[i];
    }
  }

  /** A header that raises the flag of a default also provides the variable. */
  lemma FlagImpliesHeader(up: CaseMap, headers: seq<Pair>, dash: string)
    requires IsUppercase(up) && IsDashName(dash)
    ensures HasHeader(headers, dash) ==> LastHeader(up, headers, Normalise(up, dash)).Some?
    ensures (forall h :: h in headers ==> IsDashName(h.0)) ==>
              (HasHeader(headers, dash) <==> LastHeader(up, headers, Normalise(up, dash)).Some?)
  {
    LastHeaderExists(up, headers, Normalise(up, dash));
    hide Normalise, EqIgnoreAsciiCase, IsDashName, IsUppercase, LastHeader;
    forall i | 0 <= i < |headers|
      ensures EqIgnoreAsciiCase(headers[i].0, dash) ==> Normalise(up, headers[i].0) == Normalise(up, dash)
      ensures IsDashName(headers[i].0) ==>
                (EqIgnoreAsciiCase(headers[i].0, dash) <==> Normalise(up, headers[i].0) == Normalise(up, dash))
    {
      if EqIgnoreAsciiCase(headers[i].0, dash) {
        MatchIsDashName(headers[i].0, dash);
      }
      if IsDashName(headers[i].0) {
        SameHeader(up, headers[i].0, dash);
      }
    }
    assert forall i :: 0 <= i < |headers| ==> headers[i] in headers;
  }

  /** The default for a content variable: only for a request with a body. */
  function BodyDefault(req: WebRequest, value: string): Option<string> {
    if req.body != [] then Some(value) else None
  }

  /** With dash names only: the last matching header, else the default of a body, else nothing. */
  lemma BodyDefaults(req: WebRequest, env: Surroundings, name: string)
    requires IsUppercase(env.up)
    requires forall h :: h in req.headers ==> IsDashName(h.0)
    ensures LastOf(BuildVars(req, env, name), CONTENT_TYPE)
         == Or(LastHeader(env.up, req.headers, CONTENT_TYPE), BodyDefault(req, "application/octet-stream"))
    ensures LastOf(BuildVars(req, env, name), CONTENT_LENGTH)
         == Or(LastHeader(env.up, req.headers, CONTENT_LENGTH), BodyDefault(req, Decimal(|req.body|)))
  {
    ContentType(req, env, name);
    ContentLength(req, env, name);
    ContentTypeName(env.up);
    ContentLengthName(env.up);
    FlagImpliesHeader(env.up, req.headers, "Content-Type");
    FlagImpliesHeader(env.up, req.headers, "Content-Length");
    hide BuildVars, LastHeader, LastOf, HasHeader, IsDashName, Decimal, Normalise, IsUppercase;
  }

  /**
   * For names of any spelling: a header that normalises to CONTENT_TYPE takes precedence over
   * the default exactly when the request has no body, or some header is spelled with a dash, or
   * there is no such header, or it carries the default anyway.
   */
  lemma HeaderBeatsDefault(req: WebRequest, env: Surroundings, name: string)
    requires IsUppercase(env.up)
    ensures LastOf(BuildVars(req, env, name), CONTENT_TYPE)
         == Or(LastHeader(env.up, req.headers, CONTENT_TYPE), BodyDefault(req, "application/octet-stream"))
       <==> || req.body == []
            || HasHeader(req.headers, "Content-Type")
            || LastHeader(env.up, req.headers, CONTENT_TYPE).None?
            || LastHeader(env.up, req.headers, CONTENT_TYPE) == Some(OCTET_STREAM)
  {
    ContentType(req, env, name);
    ContentTypeName(env.up);
    FlagImpliesHeader(env.up, req.headers, "Content-Type");
    hide BuildVars, LastHeader, LastOf, HasHeader, IsDashName, Normalise, IsUppercase;
  }

  /** The same for the length: the default is the size of the body. */
  lemma LengthBeatsDefault(req: WebRequest, env: Surroundings, name: string)
    requires IsUppercase(env.up)
    ensures LastOf(BuildVars(req, env, name), CONTENT_LENGTH)
         == Or(LastHeader(env.up, req.headers, CONTENT_LENGTH), BodyDefault(req, Decimal(|req.body|)))
       <==> || req.body == []
            || HasHeader(req.headers, "Content-Length")
            || LastHeader(env.up, req.headers, CONTENT_LENGTH).None?
            || LastHeader(env.up, req.headers, CONTENT_LENGTH) == Some(Decimal(|req.body|))
  {
    ContentLength(req, env, name);
    ContentLengthName(env.up);
    FlagImpliesHeader(env.up, req.headers, "Content-Length");
    hide BuildVars, LastHeader, LastOf, HasHeader, IsDashName, Decimal, Normalise, IsUppercase;
  }

  /** The spelling with an underscore is overridden by the default of a body. */
  lemma UnderscoreSpelling(req: WebRequest, env: Surroundings, name: string)
    requires IsUppercase(env.up)
    requires req.headers == [("Content_Type", "text/plain")] && req.body != []
    ensures LastHeader(env.up, req.headers, CONTENT_TYPE) == Some("text/plain")
    ensures LastOf(BuildVars(req, env, name), CONTENT_TYPE) == Some(OCTET_STREAM)
  {
    hide BuildVars, LastOf, Normalise, EqIgnoreAsciiCase, IsUppercase;
    UnderscoreIsContentType(env.up);
    ContentType(req, env, name);
    NoHeaders("Content-Type");
    HasHeaderSnoc([], ("Content_Type", "text/plain"), "Content-Type");
    assert [] + [("Content_Type", "text/plain")] == req.headers;
    hide HasHeader;
  }

  lemma UnderscoreIsContentType(up: CaseMap)
    requires IsUppercase(up)
    ensures Normalise(up, "Content_Type") == CONTENT_TYPE
    ensures !EqIgnoreAsciiCase("Content_Type", "Content-Type")
  {
    hide Normalise, IsUppercase;
    assert AsciiLower("Content_Type"[7]) == '_' && AsciiLower("Content-Type"[7]) == '-';
    NormaliseIs(up, "Content_Type", CONTENT_TYPE);
  }
}
