/**
 * The browser side of a request (frontend/lib/api.ts).
 * - The session token is kept in the `auth_token` cookie; an older client
 *   kept it in localStorage, and getAuthToken moves it from there.
 * - fetchApi sends the token as a Bearer header.
 * - fetchApi folds every outcome (network failure, unreadable body, error
 *   status, success) into one ApiResponse and drops the token after a 401.
 *
 * Cookies are modelled as the list of (name, value) pairs the browser holds
 * for the page. `document.cookie` reads that list as "n1=v1; n2=v2".
 */
module ClientApi {
  import opened Wrappers
  import opened Strings
  import opened Seqs
  import opened JsonValues
  import Numbers
  import Http
  import AuthMiddleware

  // ---------------------------------------------------------------------
  // The cookie jar
  // ---------------------------------------------------------------------

  datatype Cookie = Cookie(name: string, value: string)

  /** The cookie that holds the session token. */
  const AuthCookie: string := "auth_token"
  /** The localStorage key older clients kept the token under. */
  const StorageKey: string := "auth_token"

  /** A cookie name the browser keeps as written: no whitespace, ';' or '='. */
  predicate GoodName(n: string)
  {
    n != "" && ';' !in n && '=' !in n && forall i :: 0 <= i < |n| ==> !IsSpace(n[i])
  }

  /** A stored cookie value: no ';', no whitespace at either end. */
  predicate GoodValue(v: string)
  {
    ';' !in v && (v == "" || (!IsSpace(v[0]) && !IsSpace(v[|v| - 1])))
  }

  predicate GoodJar(cs: seq<Cookie>)
  {
    forall k :: 0 <= k < |cs| ==> GoodName(cs[k].name) && GoodValue(cs[k].value)
  }

  function Pair(c: Cookie): string
  {
    c.name + "=" + c.value
  }

  /** The pieces of `document.cookie` between the ';' separators. */
  function Segments(cs: seq<Cookie>): (segs: seq<string>)
    ensures |segs| == |cs|
  {
    seq(|cs|, k requires 0 <= k < |cs| => (if k == 0 then "" else " ") + Pair(cs[k]))
  }

  /** What `document.cookie` reads for the jar `cs`. */
  function JarOf(cs: seq<Cookie>): string
  {
    Join(Segments(cs), ';')
  }

  /** The cookie value a browser stores for `document.cookie = name + "=" + text + ";..."`. */
  function CookieText(text: string): (v: string)
    ensures GoodValue(v)
  {
    var v := Trim(Split(text, ';')[0]);
    assert forall i :: 0 <= i < |v| ==> v[i] != ';' by {
      TrimIsPiece(Split(text, ';')[0]);
    }
    v
  }

  /** A token with no ';' and no surrounding whitespace is stored unchanged. */
  lemma CookieTextOfPlain(text: string)
    requires GoodValue(text)
    ensures CookieText(text) == text
  {
    assert IndexOf(text, ';').None?;
    assert Split(text, ';') == [text];
    TrimOfTrimmed(text);
  }

  lemma AuthCookieGood()
    ensures GoodName(AuthCookie)
  {
  }

  /** The value of the first cookie named `name`. */
  function Lookup(cs: seq<Cookie>, name: string): (r: Option<string>)
    ensures r.None? <==> forall k :: 0 <= k < |cs| ==> cs[k].name != name
    ensures r.Some? ==> exists k :: 0 <= k < |cs| && cs[k] == Cookie(name, r.value)
  {
    match FirstIndex(cs, HasName(name))
    case None => None
    case Some(i) => Some(cs[i].value)
  }

  function HasName(name: string): Cookie -> bool
  {
    (c: Cookie) => c.name == name
  }

  /** The jar after setting `c`: an existing cookie of that name is replaced, else `c` is added. */
  function Stored(cs: seq<Cookie>, c: Cookie): (r: seq<Cookie>)
    ensures multiset(r) <= multiset(cs) + multiset{c}
  {
    match FirstIndex(cs, HasName(c.name))
    case None => cs + [c]
    case Some(i) =>
      assert cs == cs[..i] + [cs[i]] + cs[i + 1..];
      assert cs[i := c] == cs[..i] + [c] + cs[i + 1..];
      cs[i := c]
  }

  /** The jar after deleting every cookie called `name`. */
  function Without(cs: seq<Cookie>, name: string): (r: seq<Cookie>)
  {
    Filter(cs, (c: Cookie) => c.name != name)
  }

  lemma StoredKeepsGood(cs: seq<Cookie>, c: Cookie)
    requires GoodJar(cs) && GoodName(c.name) && GoodValue(c.value)
    ensures GoodJar(Stored(cs, c))
  {
    var r := Stored(cs, c);
    forall k | 0 <= k < |r|
      ensures GoodName(r[k].name) && GoodValue(r[k].value)
    {
      assert r[k] in multiset(r);
    }
  }

  /** After setting a cookie, reading its name gives its value. */
  lemma StoredThenLookup(cs: seq<Cookie>, c: Cookie)
    ensures Lookup(Stored(cs, c), c.name) == Some(c.value)
  {
    var r := Stored(cs, c);
    match FirstIndex(cs, HasName(c.name))
    case None =>
      assert forall k :: 0 <= k < |cs| ==> r[k] == cs[k] && !HasName(c.name)(r[k]);
      assert HasName(c.name)(r[|cs|]);
    case Some(i) =>
      assert forall k :: 0 <= k < i ==> r[k] == cs[k] && !HasName(c.name)(r[k]);
      assert HasName(c.name)(r[i]);
  }

  /** Setting a cookie leaves every other name's value as it was. */
  lemma StoredKeepsOthers(cs: seq<Cookie>, c: Cookie, name: string)
    requires name != c.name
    ensures Lookup(Stored(cs, c), name) == Lookup(cs, name)
  {
    match FirstIndex(cs, HasName(c.name))
    case None =>
      AppendedKeepsOthers(cs, c, name);
    case Some(i) =>
      FirstIndexAgrees(cs, Stored(cs, c), HasName(name));
  }

  /** Appending a cookie leaves the lookup of every other name as it was. */
  lemma AppendedKeepsOthers(cs: seq<Cookie>, c: Cookie, name: string)
    requires name != c.name
    ensures Lookup(cs + [c], name) == Lookup(cs, name)
  {
    var r := cs + [c];
    assert forall k :: 0 <= k < |cs| ==> r[k] == cs[k];
    assert !HasName(name)(r[|cs|]);
    match FirstIndex(cs, HasName(name)) {
      case None =>
        assert forall k :: 0 <= k < |r| ==> !HasName(name)(r[k]);
      case Some(j) =>
        assert HasName(name)(r[j]);
        assert forall k :: 0 <= k < j ==> !HasName(name)(r[k]);
    }
  }

  /** After deleting a cookie, reading its name gives nothing. */
  lemma WithoutThenLookup(cs: seq<Cookie>, name: string)
    ensures Lookup(Without(cs, name), name).None?
  {
  }

  lemma WithoutKeepsGood(cs: seq<Cookie>, name: string)
    requires GoodJar(cs)
    ensures GoodJar(Without(cs, name))
  {
    var r := Without(cs, name);
    forall k | 0 <= k < |r|
      ensures GoodName(r[k].name) && GoodValue(r[k].value)
    {
      var j :| 0 <= j < |cs| && cs[j] == r[k];
    }
  }

  // ---------------------------------------------------------------------
  // Reading a cookie back from document.cookie (getCookie)
  // ---------------------------------------------------------------------

  /** A segment of the jar text that, trimmed, starts with "name=". */
  predicate Names(seg: string, name: string)
  {
    StartsWith(Trim(seg), name + "=")
  }

  function SegmentMatches(name: string): string -> bool
  {
    seg => Names(seg, name)
  }

  /**
   * getCookie's answer on the segments of the jar text: the text after
   * "name=" in the first trimmed segment that starts with "name=", or nothing.
   */
  function FirstCookie(segs: seq<string>, name: string): (r: Option<string>)
    ensures r.None? <==> forall k :: 0 <= k < |segs| ==> !Names(segs[k], name)
    ensures r.Some? ==> exists k :: (0 <= k < |segs| && Trim(segs[k]) == name + "=" + r.value &&
      forall j :: 0 <= j < k ==> !Names(segs[j], name))
  {
    match FirstIndex(segs, SegmentMatches(name))
    case None =>
      assert forall k :: 0 <= k < |segs| ==> !SegmentMatches(name)(segs[k]);
      None
    case Some(i) =>
      Some(ValueAfter(segs[i], name))
  }

  /** The text after "name=" in a segment that names the cookie. */
  function ValueAfter(seg: string, name: string): (v: string)
    requires Names(seg, name)
    ensures Trim(seg) == name + "=" + v
  {
    var t := Trim(seg);
    assert t == name + "=" + t[|name| + 1..];
    t[|name| + 1..]
  }

  /** getCookie's answer for the text `document.cookie` reads. */
  function CookieValue(jar: string, name: string): (r: Option<string>)
  {
    FirstCookie(Split(jar, ';'), name)
  }

  /** The first segment that names the cookie decides getCookie's answer. */
  lemma FirstCookieAt(segs: seq<string>, name: string, i: nat)
    requires i < |segs| && Names(segs[i], name)
    requires forall k :: 0 <= k < i ==> !Names(segs[k], name)
    ensures FirstCookie(segs, name) == Some(Trim(segs[i])[|name| + 1..])
  {
    assert forall k :: 0 <= k <= i ==> SegmentMatches(name)(segs[k]) == Names(segs[k], name);
    FirstIndexAt(segs, SegmentMatches(name), i);
  }

  /** getCookie: the jar text split at ';', then the loop over the segments. */
  method GetCookie(jar: string, name: string) returns (r: Option<string>)
    ensures r == CookieValue(jar, name)
  {
    var cookies := Split(jar, ';');
    r := FindCookie(cookies, name);
  }

  /** getCookie's loop: the first trimmed segment that starts with "name=" gives the text after it. */
  method FindCookie(cookies: seq<string>, name: string) returns (r: Option<string>)
    ensures r == FirstCookie(cookies, name)
  {
    var cookieName := name + "=";
    var i := 0;
    while i < |cookies|
      invariant 0 <= i <= |cookies|
      invariant forall k {:trigger Names(cookies[k], name)} :: 0 <= k < i ==> !Names(cookies[k], name)
    {
      var cookie := Trim(cookies[i]);
      assert Names(cookies[i], name) <==> StartsWith(cookie, cookieName);
      if StartsWith(cookie, cookieName) {
        FirstCookieAt(cookies, name, i);
        return Some(cookie[|cookieName|..]);
      }
      i := i + 1;
    }
    return None;
  }

  lemma TrimPadded(x: string)
    requires x != "" && !IsSpace(x[0]) && !IsSpace(x[|x| - 1])
    ensures Trim(x) == x && Trim(" " + x) == x
  {
    var s := " " + x;
    assert s[1..] == x;
    assert TrimStart(s) == TrimStart(x) == x;
  }

  /** A well-formed cookie's text starts with "name=" exactly when the cookie has that name. */
  lemma PrefixMatch(c: Cookie, name: string)
    requires GoodName(c.name) && GoodName(name)
    ensures StartsWith(Pair(c), name + "=") <==> c.name == name
  {
    var p := Pair(c);
    if StartsWith(p, name + "=") {
      var n := |name|;
      var m := |c.name|;
      assert p[m] == '=';
      assert p[n] == (name + "=")[n] == '=';
      assert m == n;
      assert c.name == p[..m] == name;
    }
    if c.name == name {
      assert p[..|name| + 1] == name + "=";
    }
  }

  /** A segment of a well-formed jar's text, "name=value" maybe after one space, holds no ';'. */
  lemma SegmentUnbroken(c: Cookie, pad: string)
    requires GoodName(c.name) && GoodValue(c.value)
    requires pad == "" || pad == " "
    ensures ';' !in pad + Pair(c)
  {
  }

  /** A well-formed cookie's "name=value" starts and ends with a non-space. */
  lemma PairEdged(c: Cookie)
    requires GoodName(c.name) && GoodValue(c.value)
    ensures Pair(c) != "" && !IsSpace(Pair(c)[0]) && !IsSpace(Pair(c)[|Pair(c)| - 1])
  {
    var p := Pair(c);
    assert p[0] == c.name[0];
    assert c.value == "" ==> p[|p| - 1] == '=';
    assert c.value != "" ==> p[|p| - 1] == c.value[|c.value| - 1];
  }

  /** Trimming a segment of a well-formed jar's text, with or without its leading space, leaves "name=value". */
  lemma SegmentTrim(c: Cookie)
    requires GoodName(c.name) && GoodValue(c.value)
    ensures Trim(Pair(c)) == Pair(c) && Trim(" " + Pair(c)) == Pair(c)
  {
    PairEdged(c);
    TrimPadded(Pair(c));
  }

  /** A segment that trims to a well-formed cookie's "name=value" names that cookie only. */
  lemma SegmentNames(c: Cookie, seg: string, name: string)
    requires GoodName(c.name) && GoodName(name) && Trim(seg) == Pair(c)
    ensures Names(seg, name) <==> c.name == name
  {
    PrefixMatch(c, name);
  }

  /** A segment of a well-formed jar's text: no ';', trims to its cookie, names only that cookie. */
  lemma SegmentAt(c: Cookie, seg: string, name: string)
    requires GoodName(c.name) && GoodValue(c.value) && GoodName(name)
    requires seg == Pair(c) || seg == " " + Pair(c)
    ensures ';' !in seg
    ensures Trim(seg) == Pair(c)
    ensures SegmentMatches(name)(seg) == HasName(name)(c)
  {
    SegmentUnbroken(c, if seg == Pair(c) then "" else " ");
    SegmentTrim(c);
    SegmentNames(c, seg, name);
  }

  /** The text after "name=" in a cookie's "name=value" is its value. */
  lemma PairValue(c: Cookie, v: string)
    requires Pair(c) == c.name + "=" + v
    ensures v == c.value
  {
    assert Pair(c)[|c.name| + 1..] == v;
  }

  /**
   * Reading a well-formed jar through document.cookie finds the value of the
   * first cookie with that name: getCookie inverts the browser's jar text.
   */
  lemma {:induction false} CookieLookup(cs: seq<Cookie>, name: string)
    requires GoodJar(cs) && GoodName(name)
    ensures CookieValue(JarOf(cs), name) == Lookup(cs, name)
  {
    var segs := Segments(cs);
    if cs == [] {
      assert JarOf(cs) == "";
      assert IndexOf("", ';').None?;
      assert Split("", ';') == [""];
      assert !Names("", name);
    } else {
      forall k | 0 <= k < |segs|
        ensures ';' !in segs[k]
        ensures SegmentMatches(name)(segs[k]) == HasName(name)(cs[k])
      {
        assert k == 0 ==> segs[k] == Pair(cs[k]);
        assert k != 0 ==> segs[k] == " " + Pair(cs[k]);
        SegmentAt(cs[k], segs[k], name);
      }
      SplitJoin(segs, ';');
      FirstIndexAgreesAcross(segs, cs, SegmentMatches(name), HasName(name));
      match FirstIndex(cs, HasName(name))
      case None =>
      case Some(i) =>
        assert i == 0 ==> segs[i] == Pair(cs[i]);
        assert i != 0 ==> segs[i] == " " + Pair(cs[i]);
        SegmentAt(cs[i], segs[i], name);
        PairValue(cs[i], ValueAfter(segs[i], name));
    }
  }

  // ---------------------------------------------------------------------
  // Token storage (getAuthToken, saveAuthToken, removeAuthToken)
  // ---------------------------------------------------------------------

  /** The page's cookies and localStorage. */
  datatype Page = Page(cookies: seq<Cookie>, local: map<string, string>)

  datatype TokenRead = TokenRead(token: Option<string>, page: Page)

  /** saveAuthToken: the session cookie is set to the token's stored text. */
  function SaveToken(p: Page, token: string): (q: Page)
    ensures Lookup(q.cookies, AuthCookie) == Some(CookieText(token)) && q.local == p.local
  {
    StoredThenLookup(p.cookies, Cookie(AuthCookie, CookieText(token)));
    Page(Stored(p.cookies, Cookie(AuthCookie, CookieText(token))), p.local)
  }

  /** removeAuthToken: the session cookie and the localStorage copy are both gone. */
  function RemoveToken(p: Page): (q: Page)
    ensures Lookup(q.cookies, AuthCookie).None? && StorageKey !in q.local
  {
    WithoutThenLookup(p.cookies, AuthCookie);
    Page(Without(p.cookies, AuthCookie), p.local - {StorageKey})
  }

  /**
   * getAuthToken: the cookie's token when it is non-empty; otherwise a
   * non-empty localStorage token, which is moved into the cookie; otherwise
   * nothing.
   */
  function ReadToken(p: Page): (r: TokenRead)
    ensures r.token.Some? ==> r.token.value != ""
    ensures r.token.None? <==>
      (Lookup(p.cookies, AuthCookie).None? || Lookup(p.cookies, AuthCookie).value == "") &&
      (StorageKey !in p.local || p.local[StorageKey] == "")
    ensures Lookup(p.cookies, AuthCookie).Some? && Lookup(p.cookies, AuthCookie).value != "" ==>
      r == TokenRead(Lookup(p.cookies, AuthCookie), p)
    ensures r.page != p ==>
      StorageKey in p.local && r.token == Some(p.local[StorageKey]) && StorageKey !in r.page.local &&
      Lookup(r.page.cookies, AuthCookie) == Some(CookieText(p.local[StorageKey]))
  {
    var fromCookie := Lookup(p.cookies, AuthCookie);
    if fromCookie.Some? && fromCookie.value != "" then TokenRead(fromCookie, p)
    else if StorageKey in p.local && p.local[StorageKey] != "" then
      var token := p.local[StorageKey];
      var saved := SaveToken(p, token);
      TokenRead(Some(token), Page(saved.cookies, saved.local - {StorageKey}))
    else TokenRead(None, p)
  }

  /** A cookie token wins over a localStorage token, and nothing is moved. */
  lemma CookieTokenWins(p: Page, token: string, stale: string)
    requires Lookup(p.cookies, AuthCookie) == Some(token) && token != ""
    requires StorageKey in p.local && p.local[StorageKey] == stale
    ensures ReadToken(p) == TokenRead(Some(token), p)
  {
  }

  /**
   * Once a localStorage token has been moved, the next read finds it in the
   * cookie, as stored by the browser, and changes nothing more.
   */
  lemma MigrationSticks(p: Page)
    requires Lookup(p.cookies, AuthCookie).None? || Lookup(p.cookies, AuthCookie).value == ""
    requires StorageKey in p.local && p.local[StorageKey] != ""
    ensures var first := ReadToken(p);
      var second := ReadToken(first.page);
      first.token == Some(p.local[StorageKey]) &&
      (CookieText(p.local[StorageKey]) != "" ==> second == TokenRead(Some(CookieText(p.local[StorageKey])), first.page)) &&
      (CookieText(p.local[StorageKey]) == "" ==> second == TokenRead(None, first.page))
  {
  }

  /** A token as the server issues it (no ';', no surrounding whitespace) moves unchanged. */
  lemma MigratedTokenUnchanged(p: Page)
    requires Lookup(p.cookies, AuthCookie).None?
    requires StorageKey in p.local && p.local[StorageKey] != "" && GoodValue(p.local[StorageKey])
    ensures ReadToken(ReadToken(p).page).token == Some(p.local[StorageKey])
  {
    CookieTextOfPlain(p.local[StorageKey]);
    MigrationSticks(p);
  }

  /** With no token anywhere, there is nothing to send and nothing changes. */
  lemma NoTokenAnywhere(p: Page)
    requires Lookup(p.cookies, AuthCookie).None?
    requires StorageKey !in p.local
    ensures ReadToken(p) == TokenRead(None, p)
  {
  }

  // ---------------------------------------------------------------------
  // Request headers
  // ---------------------------------------------------------------------

  const DefaultHeaders: map<string, string> := map["Content-Type" := "application/json"]

  /**
   * The headers fetchApi sends: the caller's headers, which replace the
   * default JSON content type, plus "Authorization: Bearer <token>" when
   * there is a token.
   */
  function RequestHeaders(caller: Option<map<string, string>>, token: Option<string>): (h: map<string, string>)
    ensures token.Some? && token.value != "" ==> "Authorization" in h && h["Authorization"] == "Bearer " + token.value
    ensures token.None? ==> h == (if caller.Some? then caller.value else DefaultHeaders)
    ensures forall k :: k != "Authorization" ==>
      (k in h <==> k in (if caller.Some? then caller.value else DefaultHeaders))
    ensures forall k :: k in h && k != "Authorization" ==> h[k] == (if caller.Some? then caller.value else DefaultHeaders)[k]
  {
    var base := if caller.Some? then caller.value else DefaultHeaders;
    if token.Some? && token.value != "" then base["Authorization" := "Bearer " + token.value] else base
  }

  /** The header fetchApi builds carries the token the server's middleware reads back. */
  lemma HeaderReachesMiddleware(caller: Option<map<string, string>>, token: string, verb: string, cookie: Option<string>)
    requires token != "" && ' ' !in token
    ensures var h := RequestHeaders(caller, Some(token));
      AuthMiddleware.BearerToken(h["Authorization"]) == Some(token) &&
      AuthMiddleware.TokenOf(AuthMiddleware.Request(verb, h["Authorization"], cookie)) == token
  {
    AuthMiddleware.BearerRoundTrip(token);
    assert "Bearer " == "Bearer" + [' '];
  }

  // ---------------------------------------------------------------------
  // Responses
  // ---------------------------------------------------------------------

  /**
   * The JavaScript engine's parts the client depends on: JSON.parse (None
   * when it throws), String() of a value, and the messages of the errors it
   * throws for bad JSON and for reading a field of null.
   */
  datatype Engine = Engine(parse: string -> Option<Json>, show: Json -> string, syntaxError: string, nullAccess: string)

  /** What came back from fetch: nothing (it rejected), or a status, content type and body text. */
  datatype Transport = NetworkDown | Delivered(status: nat, contentType: Option<string>, text: string)

  datatype ApiResponse = Success(data: Json, message: Option<Json>) | Failure(error: string, status: Option<nat>)

  /** The response, and whether the client drops its stored token. */
  datatype Reply = Reply(response: ApiResponse, dropToken: bool)

  const NetworkMessage: string := "网络连接失败，请检查您的网络连接"

  /** Response.ok. */
  predicate IsOk(status: nat)
  {
    200 <= status <= 299
  }

  /**
   * The body as fetchApi reads it: response.json() for a JSON content type
   * (throwing on bad JSON), else the text parsed if it parses, else an
   * object carrying the text as its message.
   */
  function ReadBody(status: nat, contentType: Option<string>, text: string, engine: Engine): (r: Result<Json, string>)
    ensures r.Err? ==> r.error == engine.syntaxError
    ensures engine.parse(text).Some? ==> r == Ok(engine.parse(text).value)
  {
    if contentType.Some? && Contains(contentType.value, "application/json") then
      match engine.parse(text)
      case None => Err(engine.syntaxError)
      case Some(j) => Ok(j)
    else
      match engine.parse(text)
      case None => Ok(JObj(map["success" := JBool(IsOk(status)), "message" := JStr(text)]))
      case Some(j) => Ok(j)
  }

  /** The message of a refusal: the body's error field when truthy, else "Error: <status>". */
  function RefusalMessage(data: Json, status: nat, engine: Engine): string
  {
    match Field(data, "error")
    case Some(e) =>
      if Truthy(e) then (if e.JStr? then e.s else engine.show(e)) else "Error: " + Numbers.NatToDigits(status)
    case None => "Error: " + Numbers.NatToDigits(status)
  }

  /**
   * fetchApi after the request is sent: a rejected fetch is a network
   * failure; a thrown error becomes a failure without status; a non-2xx
   * status is a failure carrying that status; a 2xx status is a success
   * whatever the body says.
   */
  function Respond(t: Transport, engine: Engine, tokenSent: bool): (r: Reply)
    ensures t.NetworkDown? ==> r == Reply(Failure(NetworkMessage, None), false)
    ensures r.response.Success? <==>
      t.Delivered? && IsOk(t.status) && ReadBody(t.status, t.contentType, t.text, engine).Ok? &&
      ReadBody(t.status, t.contentType, t.text, engine).value != JNull
    ensures r.dropToken <==>
      t.Delivered? && t.status == 401 && tokenSent && ReadBody(t.status, t.contentType, t.text, engine).Ok? &&
      ReadBody(t.status, t.contentType, t.text, engine).value != JNull
    ensures r.response.Failure? && r.response.status.Some? ==>
      t.Delivered? && !IsOk(t.status) && r.response.status.value == t.status
  {
    match t
    case NetworkDown => Reply(Failure(NetworkMessage, None), false)
    case Delivered(status, contentType, text) =>
      match ReadBody(status, contentType, text, engine)
      case Err(message) => Reply(Failure(message, None), false)
      case Ok(data) =>
        if data == JNull then Reply(Failure(engine.nullAccess, None), false)
        else if !IsOk(status) then
          Reply(Failure(RefusalMessage(data, status, engine), if status != 0 then Some(status) else None),
                status == 401 && tokenSent)
        else
          var payload := match Field(data, "data") case Some(d) => if Truthy(d) then d else data case None => data;
          Reply(Success(payload, Field(data, "message")), false)
  }

  /** On success the payload is the body's data field when truthy, else the whole body. */
  lemma SuccessPayload(status: nat, contentType: Option<string>, text: string, engine: Engine, tokenSent: bool, body: Json)
    requires IsOk(status) && engine.parse(text) == Some(body) && body != JNull
    ensures var r := Respond(Delivered(status, contentType, text), engine, tokenSent).response;
      r.Success? && r.message == Field(body, "message") &&
      (Field(body, "data").Some? && Truthy(Field(body, "data").value) ==> r.data == Field(body, "data").value) &&
      (Field(body, "data").None? || !Truthy(Field(body, "data").value) ==> r.data == body)
  {
  }

  /** A 2xx answer is a success even when its body reports failure. */
  lemma OkStatusIgnoresBodyFlag(status: nat, text: string, engine: Engine, message: string)
    requires IsOk(status)
    requires engine.parse(text) == Some(JObj(map["success" := JBool(false), "error" := JStr(message)]))
    ensures Respond(Delivered(status, Some(GinJson), text), engine, true).response ==
      Success(JObj(map["success" := JBool(false), "error" := JStr(message)]), None)
  {
    GinJsonIsJson();
  }

  /** A body that is not JSON, under a non-JSON content type, is wrapped rather than thrown. */
  lemma PlainTextFallback(status: nat, text: string, engine: Engine)
    requires engine.parse(text).None? && status != 0
    ensures var r := Respond(Delivered(status, None, text), engine, false).response;
      (IsOk(status) ==> r == Success(JObj(map["success" := JBool(true), "message" := JStr(text)]), Some(JStr(text)))) &&
      (!IsOk(status) ==> r == Failure("Error: " + Numbers.NatToDigits(status), Some(status)))
  {
    var body := JObj(map["success" := JBool(IsOk(status)), "message" := JStr(text)]);
    assert ReadBody(status, None, text, engine) == Ok(body);
    assert Field(body, "data").None? && Field(body, "error").None?;
  }

  /** The content type gin sends with a JSON body. */
  const GinJson: string := "application/json; charset=utf-8"

  lemma GinJsonIsJson()
    ensures Contains(GinJson, "application/json")
  {
    assert GinJson[..|"application/json"|] == "application/json";
  }

  /**
   * A refusal from the backend ({"error": message} with the reason's status)
   * reaches the caller as that message and status, and the client logs out
   * exactly when it sent a token and the reason is one the backend answers
   * with 401.
   */
  lemma BackendRefusal(reason: Http.Reason, message: string, text: string, engine: Engine, tokenSent: bool)
    requires engine.parse(text) == Some(JObj(map["error" := JStr(message)])) && message != ""
    ensures var r := Respond(Delivered(Http.Status(reason), Some(GinJson), text), engine, tokenSent);
      r.response == Failure(message, Some(Http.Status(reason))) &&
      (r.dropToken <==> tokenSent && reason in {Http.NotLoggedIn, Http.UnknownUser, Http.AccountDeactivated, Http.BadCredentials})
  {
    GinJsonIsJson();
  }

  // ---------------------------------------------------------------------
  // fetchApi as a whole
  // ---------------------------------------------------------------------

  /** A request body: none, text (JSON.stringify output), or a FormData object. */
  datatype Body = NoBody | Text(text: string) | Form

  datatype ClientRequest = ClientRequest(body: Body, headers: Option<map<string, string>>)

  /** What the server answers for the headers it receives. */
  type Server = map<string, string> -> Transport

  datatype Exchange = Exchange(response: ApiResponse, page: Page)

  /** fetchApi: read the token, send the request, shape the answer, log out on a 401. */
  function Fetch(p: Page, req: ClientRequest, engine: Engine, server: Server): (r: Exchange)
    ensures var read := ReadToken(p);
      var reply := Respond(server(RequestHeaders(req.headers, read.token)), engine, read.token.Some?);
      r.response == reply.response &&
      r.page == (if reply.dropToken then RemoveToken(read.page) else read.page)
  {
    var read := ReadToken(p);
    var reply := Respond(server(RequestHeaders(req.headers, read.token)), engine, read.token.Some?);
    Exchange(reply.response, if reply.dropToken then RemoveToken(read.page) else read.page)
  }

  /** String() of a FormData object, the text the debug log hands to JSON.parse. */
  const FormDataText: string := "[object FormData]"

  /** The debug log before the request parses a truthy body as JSON; it throws when that fails. */
  predicate LogThrows(body: Body, engine: Engine)
  {
    match body
    case NoBody => false
    case Text(s) => s != "" && engine.parse(s).None?
    case Form => engine.parse(FormDataText).None?
  }

  /** fetchApi as written: the debug log runs after reading the token and before fetch. */
  function FetchAsWritten(p: Page, req: ClientRequest, engine: Engine, server: Server): (r: Exchange)
    ensures !LogThrows(req.body, engine) ==> r == Fetch(p, req, engine, server)
    ensures LogThrows(req.body, engine) ==> r == Exchange(Failure(engine.syntaxError, None), ReadToken(p).page)
  {
    if LogThrows(req.body, engine) then Exchange(Failure(engine.syntaxError, None), ReadToken(p).page)
    else Fetch(p, req, engine, server)
  }

  /**
   * As written, an avatar upload (a FormData body) never reaches the server:
   * the outcome is the same failure whatever the server would answer.
   */
  lemma FormUploadNeverSent(p: Page, headers: Option<map<string, string>>, engine: Engine, s1: Server, s2: Server)
    requires engine.parse(FormDataText).None?
    ensures FetchAsWritten(p, ClientRequest(Form, headers), engine, s1) ==
      FetchAsWritten(p, ClientRequest(Form, headers), engine, s2)
    ensures FetchAsWritten(p, ClientRequest(Form, headers), engine, s1).response == Failure(engine.syntaxError, None)
  {
  }

  /** Every JSON body the client sends parses, so on those the debug log changes nothing. */
  lemma JsonBodiesUnaffected(p: Page, text: string, headers: Option<map<string, string>>, engine: Engine, server: Server)
    requires engine.parse(text).Some?
    ensures FetchAsWritten(p, ClientRequest(Text(text), headers), engine, server) ==
      Fetch(p, ClientRequest(Text(text), headers), engine, server)
  {
  }

  /** Without the throwing log, an upload the server accepts comes back as a success. */
  lemma UploadReachesServer(p: Page, headers: Option<map<string, string>>, engine: Engine, server: Server, text: string, avatar: Json)
    requires Truthy(avatar)
    requires forall h :: server(h) == Delivered(200, Some(GinJson), text)
    requires engine.parse(text) == Some(JObj(map["data" := avatar]))
    ensures Fetch(p, ClientRequest(Form, headers), engine, server).response == Success(avatar, None)
  {
    GinJsonIsJson();
    var read := ReadToken(p);
    assert server(RequestHeaders(headers, read.token)) == Delivered(200, Some(GinJson), text);
    var body := JObj(map["data" := avatar]);
    assert Field(body, "data") == Some(avatar) && Field(body, "message").None?;
    SuccessPayload(200, Some(GinJson), text, engine, read.token.Some?, body);
  }

  // ---------------------------------------------------------------------
  // The browser
  // ---------------------------------------------------------------------

  /** The page's `document.cookie` jar and `localStorage`, which the client changes in place. */
  class Browser {
    var cookies: seq<Cookie>
    var local: map<string, string>

    ghost predicate Valid()
      reads this
    {
      GoodJar(cookies)
    }

    function State(): Page
      reads this
    {
      Page(cookies, local)
    }

    constructor (cookies: seq<Cookie>, local: map<string, string>)
      requires GoodJar(cookies)
      ensures Valid() && this.cookies == cookies && this.local == local
    {
      this.cookies := cookies;
      this.local := local;
    }

    /** What reading `document.cookie` gives. */
    function DocumentCookie(): string
      reads this
    {
      JarOf(cookies)
    }

    /** setCookie: `document.cookie = name + "=" + text + ";expires=...;path=/"`. */
    method SetCookie(name: string, text: string)
      requires Valid() && GoodName(name)
      modifies this
      ensures Valid()
      ensures cookies == Stored(old(cookies), Cookie(name, CookieText(text))) && local == old(local)
    {
      var c := Cookie(name, CookieText(text));
      StoredKeepsGood(cookies, c);
      cookies := Stored(cookies, c);
    }

    /** deleteCookie: setting an expired cookie of that name removes it. */
    method DeleteCookie(name: string)
      requires Valid()
      modifies this
      ensures Valid()
      ensures cookies == Without(old(cookies), name) && local == old(local)
    {
      WithoutKeepsGood(cookies, name);
      cookies := Without(cookies, name);
    }

    method SaveAuthToken(token: string)
      requires Valid()
      modifies this
      ensures Valid() && State() == SaveToken(old(State()), token)
    {
      SetCookie(AuthCookie, token);
    }

    method RemoveAuthToken()
      requires Valid()
      modifies this
      ensures Valid() && State() == RemoveToken(old(State()))
    {
      DeleteCookie(AuthCookie);
      local := local - {StorageKey};
    }

    /** getCookie on `document.cookie`: the value of the first cookie with that name. */
    method ReadCookie(name: string) returns (r: Option<string>)
      requires Valid() && GoodName(name)
      ensures r == Lookup(cookies, name)
    {
      r := GetCookie(DocumentCookie(), name);
      CookieLookup(cookies, name);
    }

    /** getAuthToken, reading the cookie through `document.cookie`. */
    method GetAuthToken() returns (token: Option<string>)
      requires Valid()
      modifies this
      ensures Valid() && TokenRead(token, State()) == ReadToken(old(State()))
    {
      ghost var before := State();
      AuthCookieGood();
      var cookieToken := ReadCookie(AuthCookie);
      if cookieToken.Some? && cookieToken.value != "" {
        assert ReadToken(before) == TokenRead(cookieToken, before);
        return cookieToken;
      }
      if StorageKey in local && local[StorageKey] != "" {
        var localToken := local[StorageKey];
        SaveAuthToken(localToken);
        local := local - {StorageKey};
        assert ReadToken(before) == TokenRead(Some(localToken), State());
        return Some(localToken);
      }
      assert ReadToken(before) == TokenRead(None, before);
      return None;
    }

    /** fetchApi, with the debug log's body parse left out. */
    method FetchApi(req: ClientRequest, engine: Engine, server: Server) returns (r: ApiResponse)
      requires Valid()
      modifies this
      ensures Valid() && Exchange(r, State()) == Fetch(old(State()), req, engine, server)
    {
      var token := GetAuthToken();
      var headers := RequestHeaders(req.headers, token);
      var reply := Respond(server(headers), engine, token.Some? && token.value != "");
      if reply.dropToken {
        RemoveAuthToken();
      }
      r := reply.response;
    }
  }
}
