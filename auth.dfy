/**
 * cmd/server/auth.go: the bearer token and the access_token cookie read from
 * a request, the middleware gate built on them, the session stored in a
 * request context, and the API error values with their text.
 */
module Auth {
  import opened Wrappers
  import opened GoText
  import Jwt

  const MethodOptions: string := "OPTIONS"

  const AuthSessionContextKey: string := "user_session"
  const AuthTokenCookieName: string := "access_token"
  const TokenTypePrefix: string := "Bearer "

  /** apiError: an HTTP status with a message. */
  datatype ApiError = ApiError(statusCode: int, message: string)

  const ErrUnauthorizedAccess: ApiError := ApiError(401, "unauthorized access")
  const ErrExpiredToken: ApiError := ApiError(403, "invalid or expired token")
  const ErrPasswordMismatch: ApiError := ApiError(403, "password and password confirmation mismatch")
  const ErrInvalidEmail: ApiError := ApiError(404, "user does not exists")

  /** (*apiError).Error(): "<status> -> <message>". */
  function ErrorText(e: ApiError): (r: string)
    ensures HasPrefix(r, IntToDecimal(e.statusCode) + " -> ")
    ensures r[|IntToDecimal(e.statusCode)| + 4..] == e.message
  {
    IntToDecimal(e.statusCode) + " -> " + e.message
  }

  /** The longest prefix of `s` that holds no space. */
  function UpToSpace(s: string): (r: string)
    ensures HasPrefix(s, r)
  {
    if |s| == 0 || s[0] == ' ' then [] else [s[0]] + UpToSpace(s[1..])
  }

  /** A space-free head followed by a space is cut off exactly. */
  lemma {:induction false} UpToSpaceOfHead(d: string, rest: string)
    requires forall k :: 0 <= k < |d| ==> d[k] != ' '
    ensures UpToSpace(d + " " + rest) == d
  {
    var s := d + " " + rest;
    if |d| > 0 {
      assert s[0] == d[0];
      assert s[1..] == d[1..] + " " + rest;
      UpToSpaceOfHead(d[1..], rest);
      assert [d[0]] + d[1..] == d;
    }
  }

  /** The text of an apiError determines both its status and its message. */
  lemma ErrorTextInjective(a: ApiError, b: ApiError)
    requires ErrorText(a) == ErrorText(b)
    ensures a == b
  {
    var d1, d2 := IntToDecimal(a.statusCode), IntToDecimal(b.statusCode);
    var t := ErrorText(a);
    assert t == d1 + " " + ("-> " + a.message);
    assert t == d2 + " " + ("-> " + b.message);
    UpToSpaceOfHead(d1, "-> " + a.message);
    UpToSpaceOfHead(d2, "-> " + b.message);
    assert d1 == d2;
    assert a.message == t[|d1| + 4..] == b.message;
    ParseIntToDecimal(a.statusCode);
    ParseIntToDecimal(b.statusCode);
  }

  /** What a request context can hold under a key. */
  datatype ContextValue =
    | SessionRef(session: Option<Jwt.Session>)   // a *Session, possibly nil
    | OtherValue(text: string)

  /** A context.Context: the background context or a chain of WithValue. */
  datatype RequestContext =
    | Background
    | WithValue(parent: RequestContext, key: string, value: ContextValue)

  /** ctx.Value(key): the innermost value stored under key. */
  function Value(c: RequestContext, key: string): Option<ContextValue> {
    match c
    case Background => None
    case WithValue(parent, k, v) => if k == key then Some(v) else Value(parent, key)
  }

  predicate HasKey(c: RequestContext, key: string) {
    match c
    case Background => false
    case WithValue(parent, k, _) => k == key || HasKey(parent, key)
  }

  /** SessionFromContext: the session stored under "user_session", or nil. */
  function SessionFromContext(c: RequestContext): Option<Jwt.Session> {
    match Value(c, AuthSessionContextKey)
    case Some(SessionRef(s)) => s
    case _ => None
  }

  /** SessionToContext: a child context from which SessionFromContext reads `us` back. */
  function SessionToContext(c: RequestContext, us: Option<Jwt.Session>): (r: RequestContext)
    ensures SessionFromContext(r) == us
    ensures forall key :: key != AuthSessionContextKey ==> Value(r, key) == Value(c, key)
  {
    WithValue(c, AuthSessionContextKey, SessionRef(us))
  }

  /** A context that never had a session stored yields nil. */
  lemma {:induction false} SessionFromContextAbsent(c: RequestContext)
    requires !HasKey(c, AuthSessionContextKey)
    ensures SessionFromContext(c) == None
  {
    match c
    case Background =>
    case WithValue(parent, _, _) =>
      SessionFromContextAbsent(parent);
  }

  /** An HTTP cookie (name and value). */
  datatype Cookie = Cookie(name: string, value: string)

  /**
   * The parts of an *http.Request the middleware reads: the method (`verb`), the
   * Authorization header as Header.Get returns it ("" when absent), the
   * cookies in order and the context.
   */
  datatype Request = Request(verb: string, authorization: string, cookies: seq<Cookie>, context: RequestContext)

  /** r.Cookie(name): the value of the first cookie with that name. */
  function CookieValue(cookies: seq<Cookie>, name: string): (r: Option<string>)
    ensures r.None? <==> forall i :: 0 <= i < |cookies| ==> cookies[i].name != name
    ensures r.Some? ==>
      exists i :: 0 <= i < |cookies| && cookies[i] == Cookie(name, r.value) &&
        (forall j :: 0 <= j < i ==> cookies[j].name != name)
  {
    if |cookies| == 0 then None
    else if cookies[0].name == name then Some(cookies[0].value)
    else
      var rest := CookieValue(cookies[1..], name);
      assert forall i :: 1 <= i < |cookies| ==> cookies[i] == cookies[1..][i - 1];
      rest
  }

  /** parseAuthToken: the Authorization header with its leading "Bearer " cut off. */
  function ParseAuthToken(r: Request): (res: Result<string, string>)
    ensures res.Success? <==> HasPrefix(r.authorization, TokenTypePrefix)
    ensures res.Success? ==> TokenTypePrefix + res.value == r.authorization
    ensures res.Failure? ==> res.error == "auth: no token authorization header present"
  {
    if !HasPrefix(r.authorization, TokenTypePrefix) then
      Failure("auth: no token authorization header present")
    else
      var token := r.authorization[|TokenTypePrefix|..];
      assert TokenTypePrefix + token == r.authorization;
      Success(token)
  }

  /** parseValidationToken: the value of the access_token cookie. */
  function ParseValidationToken(r: Request): (res: Result<string, string>)
    ensures res.Success? <==> CookieValue(r.cookies, AuthTokenCookieName).Some?
    ensures res.Success? ==> res.value == CookieValue(r.cookies, AuthTokenCookieName).value
    ensures res.Failure? ==> res.error == "http: named cookie not present"
  {
    match CookieValue(r.cookies, AuthTokenCookieName)
    case None => Failure("http: named cookie not present")
    case Some(v) => Success(v)
  }

  /** sigiriya.SessionCredentials: the bearer token and the cookie token. */
  datatype Credentials = Credentials(authToken: string, validationToken: string)

  /**
   * parseAuthCredentials: both the bearer header and the access_token cookie
   * are required, and the credentials carry exactly their values.
   */
  function ParseAuthCredentials(r: Request): (res: Result<Credentials, string>)
    ensures res.Success? <==>
      HasPrefix(r.authorization, TokenTypePrefix) && CookieValue(r.cookies, AuthTokenCookieName).Some?
    ensures res.Success? ==>
      && TokenTypePrefix + res.value.authToken == r.authorization
      && res.value.validationToken == CookieValue(r.cookies, AuthTokenCookieName).value
    ensures !HasPrefix(r.authorization, TokenTypePrefix) ==> res == Failure("auth: no token authorization header present")
    ensures HasPrefix(r.authorization, TokenTypePrefix) && CookieValue(r.cookies, AuthTokenCookieName).None? ==>
      res == Failure("http: named cookie not present")
  {
    match ParseAuthToken(r)
    case Failure(e) => Failure(e)
    case Success(authToken) =>
      match ParseValidationToken(r)
      case Failure(e) => Failure(e)
      case Success(validationToken) => Success(Credentials(authToken, validationToken))
  }

  /** What AuthMiddleware.Handle does with a request. */
  datatype Gate =
    | PassedOn(request: Request)   // next.ServeHTTP is called with this request
    | Refused(error: ApiError)     // errUnauthorizedAccess is written, next is not called

  /**
   * AuthMiddleware.Handle: OPTIONS goes straight through; any other request
   * goes through, with its context unchanged, exactly when both credentials
   * are present, and is refused with 401 "unauthorized access" otherwise.
   */
  function Handle(r: Request): (g: Gate)
    ensures r.verb == MethodOptions ==> g == PassedOn(r)
    ensures r.verb != MethodOptions ==> (g.PassedOn? <==> ParseAuthCredentials(r).Success?)
    ensures g.PassedOn? ==> g.request == r
    ensures g.Refused? ==> g.error == ErrUnauthorizedAccess && g.error.statusCode == 401
  {
    if r.verb == MethodOptions then PassedOn(r)
    else if ParseAuthCredentials(r).Failure? then Refused(ErrUnauthorizedAccess)
    else PassedOn(r.(context := r.context))
  }

  /** The gate only looks for the credentials: any token text and any cookie value get through. */
  lemma HandleNeverValidates(verb: string, token: string, cookie: string, ctx: RequestContext)
    ensures Handle(Request(verb, TokenTypePrefix + token, [Cookie(AuthTokenCookieName, cookie)], ctx)).PassedOn?
  {
    var r := Request(verb, TokenTypePrefix + token, [Cookie(AuthTokenCookieName, cookie)], ctx);
    assert r.authorization[..|TokenTypePrefix|] == TokenTypePrefix;
  }
}
