/**
 * The bearer-token guard: a public handler passes untouched; otherwise the
 * `authorization` header must read `Bearer <token>`, the token must verify, and the
 * verified payload becomes `request.user`. Every failure is an Unauthorized error.
 */
module JwtAuthGuard {
  import opened Wrappers
  import opened JsStrings
  import opened Crypto
  import opened Http

  const TokenNotFound := "Token not found"
  const InvalidHeader := "Invalid authorization header"

  /** `const [bearer, token] = header.split(' ')`, then the `Bearer` and non-empty token test. */
  function BearerToken(header: string): (r: Option<string>)
    ensures r.Some? ==> r.value != "" && ' ' !in r.value
  {
    var parts := Split(header, ' ');
    if parts[0] != "Bearer" || |parts| < 2 || parts[1] == "" then None
    else Some(parts[1])
  }

  /**
   * A header is accepted exactly when it is `Bearer`, one space, a token without spaces,
   * and then either nothing or a space followed by anything (the surplus fields are ignored).
   */
  lemma BearerTokenShape(header: string)
    ensures BearerToken(header).Some? ==>
      var n := 7 + |BearerToken(header).value|;
      n <= |header| && header[..n] == "Bearer " + BearerToken(header).value &&
      (n == |header| || header[n] == ' ')
  {
    var parts := Split(header, ' ');
    if BearerToken(header).Some? {
      JoinSplit(header, ' ');
      var t := parts[1];
      assert Join(parts, " ") == "Bearer" + " " + Join(parts[1..], " ");
      if |parts| == 2 {
        assert Join(parts[1..], " ") == t;
        assert header == "Bearer " + t;
      } else {
        assert parts[1..][1..] == parts[2..];
        assert Join(parts[1..], " ") == t + " " + Join(parts[2..], " ");
        assert header == "Bearer " + t + " " + Join(parts[2..], " ");
        assert header[7 + |t|] == ' ';
      }
    }
  }

  /** Conversely, every header of that shape yields its token. */
  lemma BearerTokenOfShape(t: string, rest: string)
    requires t != "" && ' ' !in t
    requires rest == "" || rest[0] == ' '
    ensures BearerToken("Bearer " + t + rest) == Some(t)
  {
    assert ' ' !in "Bearer";
    if rest == "" {
      SplitWhole(t, ' ');
      SplitPiece("Bearer", ' ', t);
      assert "Bearer " + t + rest == "Bearer" + [' '] + t;
    } else {
      SplitPiece(t, ' ', rest[1..]);
      SplitPiece("Bearer", ' ', t + [' '] + rest[1..]);
      assert "Bearer " + t + rest == "Bearer" + [' '] + (t + [' '] + rest[1..]);
    }
  }

  /** The message for a verification failure, chosen by the error's `name`. */
  function ErrorMessage(errorName: string): (m: string)
    ensures errorName == "TokenExpiredError" ==> m == "Token expired"
    ensures errorName == "JsonWebTokenError" ==> m == "Invalid token"
    ensures errorName != "TokenExpiredError" && errorName != "JsonWebTokenError" ==> m == "Unauthorized"
  {
    if errorName == "TokenExpiredError" then "Token expired"
    else if errorName == "JsonWebTokenError" then "Invalid token"
    else "Unauthorized"
  }

  /**
   * The guard's decision: `Ok(None)` lets a public handler through without touching the
   * request, `Ok(Some(p))` admits the request with `p` as its user, `Err` is the exception.
   */
  function Decide(isPublic: bool, authorization: Option<string>, verify: string -> VerifyOutcome): (r: Result<Option<JwtPayload>>)
    ensures isPublic ==> r == Ok(None)
    ensures r.Err? ==> r.error.Unauthorized?
    ensures !isPublic ==> r.Err? || r.value.Some?
    ensures !isPublic && !Truthy(authorization) ==> r == Err(Unauthorized(TokenNotFound))
    ensures !isPublic && Truthy(authorization) && BearerToken(authorization.value).None? ==>
      r == Err(Unauthorized(InvalidHeader))
    ensures !isPublic && Truthy(authorization) && BearerToken(authorization.value).Some? ==>
      match verify(BearerToken(authorization.value).value)
      case Verified(p) => r == Ok(Some(p))
      case Rejected(name) => r == Err(Unauthorized(ErrorMessage(name)))
  {
    if isPublic then Ok(None)
    else if !Truthy(authorization) then Err(Unauthorized(TokenNotFound))
    else match BearerToken(authorization.value)
      case None => Err(Unauthorized(InvalidHeader))
      case Some(token) =>
        match verify(token)
        case Verified(p) => Ok(Some(p))
        case Rejected(name) => Err(Unauthorized(ErrorMessage(name)))
  }

  /** `canActivate`: returns true or throws; it never returns false. */
  method CanActivate(req: Request, isPublic: bool, verify: string -> VerifyOutcome) returns (r: Result<bool>)
    modifies req
    ensures r.Ok? ==> r.value
    ensures r.Ok? <==> Decide(isPublic, old(req.authorization), verify).Ok?
    ensures r.Err? ==> r.error == Decide(isPublic, old(req.authorization), verify).error
    ensures req.user == match Decide(isPublic, old(req.authorization), verify)
      case Ok(Some(p)) => TokenUser(p)
      case _ => old(req.user)
    ensures req.query == old(req.query) && req.authorization == old(req.authorization)
  {
    if isPublic {
      return Ok(true);
    }
    var header := req.authorization;
    if !Truthy(header) {
      return Err(Unauthorized(TokenNotFound));
    }
    var token := BearerToken(header.value);
    if token.None? {
      return Err(Unauthorized(InvalidHeader));
    }
    match verify(token.value)
    case Verified(p) =>
      req.user := TokenUser(p);
      return Ok(true);
    case Rejected(name) =>
      return Err(Unauthorized(ErrorMessage(name)));
  }
}
