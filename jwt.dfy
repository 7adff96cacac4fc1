/**
 * repository/jwt: a stateless session service. A Session is turned into JWT
 * claims (RFC 7519: jti, iss, sub, iat, exp plus custom fields) that are
 * signed with HS256, and a Session is read back out of the claims of a token
 * the library accepts.
 *
 * The jwt-go library is not modelled: `sign` stands for
 * NewWithClaims(SigningMethodHS256, claims).SignedString(key) and `parse` for
 * ParseWithClaims(token, &sessionClaims{}, verifySigningMethod), given as
 * function parameters. `parse` either accepts the token with its claims or
 * rejects it with an error (a ValidationError carries jwt-go's bitmask) and,
 * when the token could be decoded, the claims it decoded.
 */
module Jwt {
  import opened Wrappers
  import opened GoText

  /** A wall-clock instant: nanoseconds since the Unix epoch. */
  type Time = int

  /** A time.Duration: nanoseconds. */
  type Duration = int

  const Second: Duration := 1_000_000_000

  /** Number of random bytes behind a token id (jti). */
  const TokenIdNumBytes: nat := 32

  /** t.Unix(): whole seconds since the epoch, rounded toward negative infinity. */
  function Unix(t: Time): int {
    t / Second
  }

  /** time.Unix(sec, 0) */
  function FromUnix(sec: int): Time {
    sec * Second
  }

  /** Going through Unix seconds truncates an instant down to its whole second. */
  lemma UnixTruncates(t: Time)
    ensures FromUnix(Unix(t)) <= t < FromUnix(Unix(t)) + Second
    ensures FromUnix(Unix(t)) % Second == 0
    ensures Unix(FromUnix(Unix(t))) == Unix(t)
  {
  }

  /** Session: an authenticated user. */
  datatype Session = Session(
    id: string,
    userID: string,
    email: string,
    origin: string,
    createdAt: Time,
    updatedAt: Time)

  /** SessionCredentials: the signed token handed to the client. */
  datatype SessionCredentials = SessionCredentials(authToken: string)

  /** The jwt.StandardClaims fields this code sets. */
  datatype StandardClaims = StandardClaims(
    id: string,         // jti
    issuer: string,     // iss
    subject: string,    // sub
    issuedAt: int,      // iat, Unix seconds
    expiresAt: int)     // exp, Unix seconds

  /** sessionClaims: the standard claims plus the session's own fields. */
  datatype SessionClaims = SessionClaims(
    standard: StandardClaims,
    id: string,
    userID: string,
    origin: string,
    email: string,
    createdAt: int,
    updatedAt: int)

  /** SessionService: the HMAC secret and the lifetime of a token. */
  datatype SessionService = SessionService(secretKey: seq<bv8>, maxAge: Duration)

  // The bits of jwt-go's ValidationError.Errors.
  const ValidationErrorMalformed: bv32 := 1
  const ValidationErrorUnverifiable: bv32 := 2
  const ValidationErrorSignatureInvalid: bv32 := 4
  const ValidationErrorAudience: bv32 := 8
  const ValidationErrorExpired: bv32 := 16
  const ValidationErrorIssuedAt: bv32 := 32
  const ValidationErrorIssuer: bv32 := 64
  const ValidationErrorNotValidYet: bv32 := 128
  const ValidationErrorId: bv32 := 256
  const ValidationErrorClaimsInvalid: bv32 := 512

  /** A Go error: jwt-go's *ValidationError, or any other error value. */
  datatype Error =
    | ValidationError(errors: bv32, text: string)
    | OtherError(text: string)
  {
    /** err.Error() */
    function Message(): string {
      match this
      case ValidationError(_, t) => t
      case OtherError(t) => t
    }
  }

  /** What ParseWithClaims reports about a token string. */
  datatype ParseResult =
    | Accepted(claims: SessionClaims)
    | Rejected(decoded: Option<SessionClaims>, err: Error)

  /** HS256 signing with a key (jwt-go, not modelled). */
  type Signer = (seq<bv8>, SessionClaims) -> Result<string, Error>

  /** Parsing and verifying with a key (jwt-go, not modelled). */
  type Parser = (seq<bv8>, string) -> ParseResult

  /**
   * NewSession(username, uuid, origin). `randomID` is the outcome of reading
   * 32 random bytes and base64-encoding them; `now` is time.Now().
   */
  function NewSession(username: string, uuid: string, origin: string, randomID: Result<string, Error>, now: Time)
    : (r: Result<Session, Error>)
    ensures randomID.Failure? ==> r == Failure(randomID.error)
    ensures randomID.Success? ==> r.Success? && r.value.id == randomID.value
    ensures r.Success? ==>
      && r.value.userID == uuid && r.value.email == username && r.value.origin == origin
      && r.value.createdAt == now && r.value.updatedAt == r.value.createdAt
  {
    match randomID
    case Failure(e) => Failure(e)
    case Success(id) => Success(Session(id, uuid, username, origin, now, now))
  }

  /**
   * Standard and custom claims tell the same story: the custom id is the jti,
   * the issuer is the origin and the subject is the e-mail.
   */
  predicate ClaimsConsistent(c: SessionClaims) {
    && c.standard.id == c.id
    && c.standard.issuer == c.origin
    && c.standard.subject == c.email
  }

  /**
   * The claims sessionCredentials signs for `us`: `id` is the fresh random
   * token id, `now` is time.Now() and exp is now + MaxAge. When MaxAge is a
   * whole number of seconds, exp - iat is exactly that number.
   */
  function ClaimsFor(svc: SessionService, us: Session, id: string, now: Time): (c: SessionClaims)
    ensures ClaimsConsistent(c)
    ensures c.id == id
    ensures c.userID == us.userID && c.origin == us.origin && c.email == us.email
    ensures c.standard.issuedAt == Unix(now) && c.standard.expiresAt == Unix(now + svc.maxAge)
    ensures svc.maxAge % Second == 0 ==> c.standard.expiresAt - c.standard.issuedAt == svc.maxAge / Second
  {
    var std := StandardClaims(id, us.origin, us.email, Unix(now), Unix(now + svc.maxAge));
    var c := SessionClaims(std, id, us.userID, us.origin, us.email, Unix(us.createdAt), Unix(us.updatedAt));
    assert svc.maxAge % Second == 0 ==> now + svc.maxAge == (now / Second + svc.maxAge / Second) * Second + now % Second;
    c
  }

  /** (*sessionClaims).Session: seconds become instants again. */
  function SessionOfClaims(sc: SessionClaims): Session {
    Session(sc.id, sc.userID, sc.email, sc.origin, FromUnix(sc.createdAt), FromUnix(sc.updatedAt))
  }

  /** Claims built from a session give back that session, up to the fresh id and whole seconds. */
  lemma ClaimsRoundTrip(svc: SessionService, us: Session, id: string, now: Time)
    ensures var s := SessionOfClaims(ClaimsFor(svc, us, id, now));
      && s.id == id
      && s.userID == us.userID && s.email == us.email && s.origin == us.origin
      && s.createdAt <= us.createdAt < s.createdAt + Second && s.createdAt % Second == 0
      && s.updatedAt <= us.updatedAt < s.updatedAt + Second && s.updatedAt % Second == 0
  {
    UnixTruncates(us.createdAt);
    UnixTruncates(us.updatedAt);
  }

  /**
   * CreateSession / sessionCredentials: `randomID` is generateRandomToken(32)
   * and `now` is time.Now(). An error from either the random source or the
   * signer is passed on unchanged.
   */
  function CreateSession(svc: SessionService, us: Session, randomID: Result<string, Error>, now: Time, sign: Signer)
    : (r: Result<SessionCredentials, Error>)
    ensures randomID.Failure? ==> r == Failure(randomID.error)
    ensures randomID.Success? ==>
      var signed := sign(svc.secretKey, ClaimsFor(svc, us, randomID.value, now));
      (r.Success? <==> signed.Success?) &&
      (r.Success? ==> r.value.authToken == signed.value) &&
      (r.Failure? ==> r.error == signed.error)
  {
    match randomID
    case Failure(e) => Failure(e)
    case Success(id) =>
      match sign(svc.secretKey, ClaimsFor(svc, us, id, now))
      case Failure(e) => Failure(e)
      case Success(token) => Success(SessionCredentials(token))
  }

  /** UpdateSession issues credentials exactly as CreateSession does. */
  function UpdateSession(svc: SessionService, us: Session, randomID: Result<string, Error>, now: Time, sign: Signer)
    : Result<SessionCredentials, Error>
  {
    CreateSession(svc, us, randomID, now, sign)
  }

  /** The claim fields validateClaims compares, in the order it compares them. */
  datatype ClaimField = Jti | Iat | Exp | Sub | Iss

  function FieldRank(f: ClaimField): nat {
    match f
    case Jti => 0
    case Iat => 1
    case Exp => 2
    case Sub => 3
    case Iss => 4
  }

  function FieldName(f: ClaimField): string {
    match f
    case Jti => "jti"
    case Iat => "iat"
    case Exp => "exp"
    case Sub => "sub"
    case Iss => "iss"
  }

  predicate Agrees(lhs: SessionClaims, rhs: SessionClaims, f: ClaimField) {
    match f
    case Jti => lhs.standard.id == rhs.standard.id
    case Iat => lhs.standard.issuedAt == rhs.standard.issuedAt
    case Exp => lhs.standard.expiresAt == rhs.standard.expiresAt
    case Sub => lhs.standard.subject == rhs.standard.subject
    case Iss => lhs.standard.issuer == rhs.standard.issuer
  }

  function MismatchMessage(f: ClaimField): string {
    "jwt: validation and authentication token " + FieldName(f) + " mismatched"
  }

  /**
   * validateClaims: None when jti, iat, exp, sub and iss all agree; otherwise
   * the message naming the first field, in that order, that differs.
   */
  function ValidateClaims(lhs: SessionClaims, rhs: SessionClaims): (r: Option<string>)
    ensures r.None? <==> forall f :: Agrees(lhs, rhs, f)
    ensures r.Some? ==> exists f ::
      && !Agrees(lhs, rhs, f) && r.value == MismatchMessage(f)
      && forall g :: FieldRank(g) < FieldRank(f) ==> Agrees(lhs, rhs, g)
  {
    if lhs.standard.id != rhs.standard.id then
      assert !Agrees(lhs, rhs, Jti);
      Some(MismatchMessage(Jti))
    else if lhs.standard.issuedAt != rhs.standard.issuedAt then
      assert !Agrees(lhs, rhs, Iat);
      Some(MismatchMessage(Iat))
    else if lhs.standard.expiresAt != rhs.standard.expiresAt then
      assert !Agrees(lhs, rhs, Exp);
      Some(MismatchMessage(Exp))
    else if lhs.standard.subject != rhs.standard.subject then
      assert !Agrees(lhs, rhs, Sub);
      Some(MismatchMessage(Sub))
    else if lhs.standard.issuer != rhs.standard.issuer then
      assert !Agrees(lhs, rhs, Iss);
      Some(MismatchMessage(Iss))
    else
      None
  }

  /**
   * isTokenExpired: the error is a ValidationError with no bit other than
   * Expired set. A zero mask qualifies too.
   */
  function IsTokenExpired(err: Error): (r: bool)
    ensures r <==> err.ValidationError? && (err.errors == 0 || err.errors == ValidationErrorExpired)
  {
    match err
    case ValidationError(bits, _) => bits & !ValidationErrorExpired == 0
    case OtherError(_) => false
  }

  /** tokenClaims: the claims of an accepted token; on every error, no claims at all. */
  function TokenClaims(svc: SessionService, parse: Parser, tokenStr: string): (r: Result<SessionClaims, Error>)
    ensures var p := parse(svc.secretKey, TrimSpace(tokenStr));
      && (r.Success? <==> p.Accepted?)
      && (r.Success? ==> r.value == p.claims)
      && (r.Failure? ==> r.error == p.err)
  {
    match parse(svc.secretKey, TrimSpace(tokenStr))
    case Accepted(c) => Success(c)
    case Rejected(_, e) => Failure(e)
  }

  /** SessionService.Session: the session of a token the library accepts, else its error. */
  function SessionFor(svc: SessionService, parse: Parser, sc: SessionCredentials): (r: Result<Session, Error>)
    ensures var p := parse(svc.secretKey, TrimSpace(sc.authToken));
      && (r.Success? <==> p.Accepted?)
      && (r.Success? ==> r.value == SessionOfClaims(p.claims))
      && (r.Failure? ==> r.error == p.err)
  {
    match TokenClaims(svc, parse, sc.authToken)
    case Success(c) => Success(SessionOfClaims(c))
    case Failure(e) => Failure(e)
  }

  /**
   * A token issued by CreateSession and accepted by the library yields a
   * session with the original UserID, Email and Origin, CreatedAt truncated
   * to a whole second, and as ID the fresh jti rather than the original ID.
   */
  lemma CreateThenSession(svc: SessionService, us: Session, id: string, now: Time, sign: Signer, parse: Parser)
    requires sign(svc.secretKey, ClaimsFor(svc, us, id, now)).Success?
    requires var token := sign(svc.secretKey, ClaimsFor(svc, us, id, now)).value;
      parse(svc.secretKey, TrimSpace(token)) == Accepted(ClaimsFor(svc, us, id, now))
    ensures CreateSession(svc, us, Success(id), now, sign).Success?
    ensures var s := SessionFor(svc, parse, CreateSession(svc, us, Success(id), now, sign).value);
      && s.Success?
      && s.value.id == id
      && s.value.userID == us.userID && s.value.email == us.email && s.value.origin == us.origin
      && s.value.createdAt <= us.createdAt < s.value.createdAt + Second
  {
    ClaimsRoundTrip(svc, us, id, now);
  }

  /** What RefreshSession ends in; NilDereference is the Go panic of calling Session() on nil claims. */
  datatype RefreshOutcome =
    | Refreshed(session: Session)
    | RefreshFailed(err: Error)
    | NilDereference

  /**
   * RefreshSession as written: a non-expiry error is returned, but on an
   * expiry-only error the nil claims that tokenClaims returned are
   * dereferenced. An updated session is produced only for a token the
   * library accepts outright.
   */
  function RefreshSession(svc: SessionService, parse: Parser, c: SessionCredentials, now: Time): (r: RefreshOutcome)
    ensures var p := parse(svc.secretKey, TrimSpace(c.authToken));
      && (r.Refreshed? <==> p.Accepted?)
      && (r.Refreshed? ==> r.session == SessionOfClaims(p.claims).(updatedAt := now))
      && (r.RefreshFailed? <==> p.Rejected? && !IsTokenExpired(p.err))
      && (r.RefreshFailed? ==> r.err == p.err)
  {
    match TokenClaims(svc, parse, c.authToken)
    case Success(claims) => Refreshed(SessionOfClaims(claims).(updatedAt := now))
    case Failure(e) => if !IsTokenExpired(e) then RefreshFailed(e) else NilDereference
  }

  /** An expired but correctly signed token makes RefreshSession panic. */
  lemma RefreshSessionPanicsWhenExpired(svc: SessionService, parse: Parser, c: SessionCredentials, claims: SessionClaims, text: string, now: Time)
    requires parse(svc.secretKey, TrimSpace(c.authToken)) == Rejected(Some(claims), ValidationError(ValidationErrorExpired, text))
    ensures RefreshSession(svc, parse, c, now) == NilDereference
  {
  }

  /**
   * RefreshSession as intended: the claims decoded from an expired but
   * otherwise valid token give the refreshed session; every other error is
   * returned. It never dereferences missing claims.
   */
  function RefreshSessionFixed(svc: SessionService, parse: Parser, c: SessionCredentials, now: Time): (r: RefreshOutcome)
    ensures !r.NilDereference?
    ensures r.Refreshed? ==> r.session.updatedAt == now
    ensures var p := parse(svc.secretKey, TrimSpace(c.authToken));
      && (p.Accepted? ==> r == Refreshed(SessionOfClaims(p.claims).(updatedAt := now)))
      && (p.Rejected? && IsTokenExpired(p.err) && p.decoded.Some? ==>
            r == Refreshed(SessionOfClaims(p.decoded.value).(updatedAt := now)))
      && (p.Rejected? && (!IsTokenExpired(p.err) || p.decoded.None?) ==> r == RefreshFailed(p.err))
  {
    match parse(svc.secretKey, TrimSpace(c.authToken))
    case Accepted(claims) => Refreshed(SessionOfClaims(claims).(updatedAt := now))
    case Rejected(decoded, e) =>
      if IsTokenExpired(e) && decoded.Some? then Refreshed(SessionOfClaims(decoded.value).(updatedAt := now))
      else RefreshFailed(e)
  }

  /** Wherever the written RefreshSession completes, the fixed one returns the same. */
  lemma RefreshFixedAgrees(svc: SessionService, parse: Parser, c: SessionCredentials, now: Time)
    requires !RefreshSession(svc, parse, c, now).NilDereference?
    ensures RefreshSessionFixed(svc, parse, c, now) == RefreshSession(svc, parse, c, now)
  {
  }

  /**
   * HasExpired: (false, no error) for an accepted token, (true, err) for an
   * expiry-only error, (false, err) for any other error.
   */
  function HasExpired(svc: SessionService, parse: Parser, c: SessionCredentials): (r: (bool, Option<Error>))
    ensures var p := parse(svc.secretKey, TrimSpace(c.authToken));
      && (r.1.None? <==> p.Accepted?)
      && (r.1.Some? ==> r.1.value == p.err)
      && (r.0 <==> p.Rejected? && IsTokenExpired(p.err))
  {
    match TokenClaims(svc, parse, c.authToken)
    case Success(_) => (false, None)
    case Failure(e) => if IsTokenExpired(e) then (true, Some(e)) else (false, Some(e))
  }

  /** The signing methods jwt-go knows. */
  datatype SigningMethod =
    | SigningMethodHMAC(name: string)
    | SigningMethodRSA(name: string)
    | SigningMethodRSAPSS(name: string)
    | SigningMethodECDSA(name: string)
    | SigningMethodNone

  /**
   * verifySigningMethod, the key function handed to the parser: the secret
   * for any HMAC method, and an error naming the header's alg otherwise.
   */
  function VerifySigningMethod(svc: SessionService, m: SigningMethod, headerAlg: string): (r: Result<seq<bv8>, Error>)
    ensures r.Success? <==> m.SigningMethodHMAC?
    ensures r.Success? ==> r.value == svc.secretKey
    ensures r.Failure? ==> r.error == OtherError("unexpected signing method: " + headerAlg)
  {
    if m.SigningMethodHMAC? then Success(svc.secretKey)
    else Failure(OtherError("unexpected signing method: " + headerAlg))
  }
}
