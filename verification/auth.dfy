/**
 The shared authentication helpers (`load-tests/lib/auth.js`) and the inline
 token getter the chaos and circuit-breaker scenarios carry instead. The
 login response is a record: its status, the values of the `access_token`
 cookie in k6's parsed cookie jar, and the raw `Set-Cookie` header.
 */
module Auth {
  import opened Http
  import opened Identity
  import opened TokenPattern

  /** The library's request timeout (`CONFIG.TIMEOUT`). */
  const LibraryTimeout: string := "30s"

  /** `res.headers['Set-Cookie']`: absent, one string, or a list of strings. */
  datatype SetCookie = NoHeader | OneString(line: string) | StringList(lines: seq<string>)

  /**
   A login response. `jar` is `res.cookies.access_token`: `None` when the jar
   has no such cookie, otherwise the list of its values in jar order.
   */
  datatype LoginResponse = LoginResponse(status: Status, jar: Option<seq<string>>, setCookie: SetCookie)

  /** The jar holds at least one `access_token` value. */
  predicate JarHasToken(res: LoginResponse) {
    res.jar.Some? && |res.jar.value| > 0
  }

  /** The cookie strings the `Set-Cookie` fallback scans; a lone string counts as a one-element list. */
  function FallbackLines(h: SetCookie): (lines: seq<string>)
    ensures h.NoHeader? ==> lines == []
    ensures h.OneString? ==> (lines == [] <==> h.line == "") && (lines != [] ==> lines == [h.line])
    ensures h.StringList? ==> lines == h.lines
  {
    match h
    case NoHeader => []
    case OneString(line) => if line == "" then [] else [line]
    case StringList(lines) => lines
  }

  /** The `Set-Cookie` fallback shared by every token getter. */
  function FromSetCookie(h: SetCookie): (t: Option<string>)
    ensures t.None? <==> forall j :: 0 <= j < |FallbackLines(h)| ==> MatchToken(FallbackLines(h)[j]).None?
    ensures t.Some? ==> t.value != "" && ';' !in t.value
  {
    FirstToken(FallbackLines(h))
  }

  /** `getAuthToken` of the library, after the login POST. */
  function GetAuthToken(res: LoginResponse): (t: Option<string>)
    ensures res.status != 200 ==> t.None?
    ensures res.status == 200 && JarHasToken(res) ==> t == Some(res.jar.value[0])
    ensures res.status == 200 && !JarHasToken(res) ==> t == FromSetCookie(res.setCookie)
    ensures t.None? <==> res.status != 200 || (!JarHasToken(res) && FromSetCookie(res.setCookie).None?)
  {
    if res.status != 200 then None
    else if JarHasToken(res) then Some(res.jar.value[0])
    else FromSetCookie(res.setCookie)
  }

  /** A single `Set-Cookie` string behaves exactly as the one-element list holding it. */
  lemma SingleStringAsList(line: string)
    ensures FromSetCookie(OneString(line)) == FromSetCookie(StringList([line]))
  {
    if line == "" {
      assert !MatchesAt(line, 0);
      assert MatchToken(line).None?;
    }
  }

  /**
   In the fallback, the first cookie string the pattern matches decides the
   token; cookie strings after it are never consulted.
   */
  lemma FallbackUsesFirstMatchingCookie(res: LoginResponse, lines: seq<string>, j: nat, later: seq<string>)
    requires res.status == 200 && !JarHasToken(res)
    requires res.setCookie == StringList(lines + later)
    requires j < |lines| && MatchToken(lines[j]).Some?
    requires forall m :: 0 <= m < j ==> MatchToken(lines[m]).None?
    ensures GetAuthToken(res) == MatchToken(lines[j])
  {
    FirstTokenIsFirstMatch(lines, j, later);
  }

  /** `authHeaders(token, vuId)`; `vuId` is `None` when the argument is omitted. */
  function AuthHeaders(token: string, vuId: Option<nat>): (p: Params)
    ensures p.timeout == LibraryTimeout
    ensures "Content-Type" in p.headers && p.headers["Content-Type"] == JsonContentType
    ensures "Authorization" in p.headers && p.headers["Authorization"] == "Bearer " + token
    ensures "X-Forwarded-For" in p.headers <==> vuId.Some?
    ensures vuId.Some? ==> p.headers["X-Forwarded-For"] == Address(AuthBlock, vuId.value)
    ensures p.headers.Keys <= {"Content-Type", "Authorization", "X-Forwarded-For"}
  {
    var base := map["Content-Type" := JsonContentType, "Authorization" := BearerValue(token)];
    var headers := if vuId.Some? then base["X-Forwarded-For" := Address(AuthBlock, vuId.value)] else base;
    Params(headers, LibraryTimeout)
  }

  /** Two virtual users never share a forwarded identity through `authHeaders`. */
  lemma AuthHeadersSeparateVus(token: string, vu1: nat, vu2: nat)
    requires vu1 != vu2
    ensures AuthHeaders(token, Some(vu1)).headers["X-Forwarded-For"]
            != AuthHeaders(token, Some(vu2)).headers["X-Forwarded-For"]
  {
    if Address(AuthBlock, vu1) == Address(AuthBlock, vu2) {
      AddressInjective(AuthBlock, vu1, AuthBlock, vu2);
    }
  }

  /** Result of the inline `getToken`: a token, `null`, or a TypeError from indexing an empty jar list. */
  datatype Acquired = Got(token: string) | Missing | TypeError

  /**
   The inline `getToken` of the chaos and circuit-breaker scenarios. The jar is
   only read for status 200, and its list is indexed without a length check;
   the `Set-Cookie` fallback is tried whatever the status.
   */
  function InlineGetToken(res: LoginResponse): (a: Acquired)
    ensures a.TypeError? <==> res.status == 200 && res.jar == Some([])
    ensures res.status != 200 ==> (a.Got? <==> FromSetCookie(res.setCookie).Some?)
    ensures res.status != 200 && a.Got? ==> Some(a.token) == FromSetCookie(res.setCookie)
  {
    if res.status == 200 && res.jar.Some? then
      if |res.jar.value| > 0 then Got(res.jar.value[0]) else TypeError
    else match FromSetCookie(res.setCookie)
      case Some(t) => Got(t)
      case None => Missing
  }

  /** On a 200 response whose jar is not an empty list, both getters agree. */
  lemma InlineAgreesOnSuccess(res: LoginResponse)
    requires res.status == 200 && res.jar != Some([])
    ensures InlineGetToken(res).Got? <==> GetAuthToken(res).Some?
    ensures GetAuthToken(res).Some? ==> InlineGetToken(res).token == GetAuthToken(res).value
  {
  }

  /** A rejected login with a token in `Set-Cookie`: the library gives up, the inline getter takes it. */
  lemma InlineDiffersOnFailure(res: LoginResponse)
    requires res.status != 200 && FromSetCookie(res.setCookie).Some?
    ensures GetAuthToken(res).None?
    ensures InlineGetToken(res).Got?
  {
  }
}
