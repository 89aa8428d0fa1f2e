/** The JWT bearer middleware of middleware/jwt.go: the `Bearer ` scheme
    check, the token extraction, the signing-method restriction its key
    function imposes, and the claims it hands to the next handler.

    Decoding a token and checking its signature (and its registered claims)
    with the HMAC secret is an oracle `decode(token, secret)`: None for a
    malformed token, otherwise the token's signing method, whether it
    verifies under the secret, and its claims. */
module Jwt {
  import opened Http
  import opened Server

  const BearerPrefix := "Bearer "
  const UserKey := "user"

  datatype SigningMethod = HS256 | HS384 | HS512 | RS256 | ES256 | OtherMethod(alg: string)

  predicate IsHMAC(m: SigningMethod)
  {
    m.HS256? || m.HS384? || m.HS512?
  }

  /** `jwt.MapClaims` (string-valued here) or any other claims type. */
  datatype Claims = MapClaims(entries: map<string, string>) | OtherClaims

  datatype Token = Token(Method: SigningMethod, Verifies: bool, Claims: Claims)

  datatype ParseError = Malformed | UnexpectedSigningMethod | SignatureInvalid

  /** `jwt.Parse` with the middleware's key function: the key function
      refuses every non-HMAC method before the signature is looked at. */
  function Parse(tokenStr: string, secret: string, decode: (string, string) -> Option<Token>): (r: Result<Token, ParseError>)
    ensures r.Ok? ==> decode(tokenStr, secret) == Some(r.value) && IsHMAC(r.value.Method) && r.value.Verifies
    ensures decode(tokenStr, secret).None? ==> r == Err(Malformed)
    ensures decode(tokenStr, secret).Some? && !IsHMAC(decode(tokenStr, secret).value.Method) ==>
      r == Err(UnexpectedSigningMethod)
    ensures decode(tokenStr, secret).Some? && IsHMAC(decode(tokenStr, secret).value.Method) ==>
      r == (if decode(tokenStr, secret).value.Verifies then Ok(decode(tokenStr, secret).value) else Err(SignatureInvalid))
  {
    match decode(tokenStr, secret)
    case None => Err(Malformed)
    case Some(t) =>
      if !IsHMAC(t.Method) then Err(UnexpectedSigningMethod)
      else if !t.Verifies then Err(SignatureInvalid)
      else Ok(t)
  }

  datatype Decision = MissingToken | InvalidToken | Authorized(claims: Option<map<string, string>>)

  /** What the middleware makes of an Authorization header. */
  function Authorize(auth: string, secret: string, decode: (string, string) -> Option<Token>): (d: Decision)
    ensures d == MissingToken <==> !HasPrefix(auth, BearerPrefix)
    ensures d == InvalidToken <==>
      HasPrefix(auth, BearerPrefix) && Parse(TrimPrefix(auth, BearerPrefix), secret, decode).Err?
    ensures d.Authorized? ==>
      var t := Parse(TrimPrefix(auth, BearerPrefix), secret, decode);
      t.Ok? && d.claims == (if t.value.Claims.MapClaims? then Some(t.value.Claims.entries) else None)
  {
    if !HasPrefix(auth, BearerPrefix) then MissingToken
    else
      match Parse(TrimPrefix(auth, BearerPrefix), secret, decode)
      case Err(_) => InvalidToken
      case Ok(t) => Authorized(if t.Claims.MapClaims? then Some(t.Claims.entries) else None)
  }

  /** The token is the header with exactly one leading "Bearer " removed. */
  lemma BearerRoundTrip(token: string)
    ensures HasPrefix(BearerPrefix + token, BearerPrefix)
    ensures TrimPrefix(BearerPrefix + token, BearerPrefix) == token
  {
    assert (BearerPrefix + token)[..|BearerPrefix|] == BearerPrefix;
    assert (BearerPrefix + token)[|BearerPrefix|..] == token;
  }

  /** Every header the middleware accepts is "Bearer " followed by the token
      it parses. */
  lemma BearerSplit(auth: string)
    requires HasPrefix(auth, BearerPrefix)
    ensures auth == BearerPrefix + TrimPrefix(auth, BearerPrefix)
  {
    assert auth == auth[..|BearerPrefix|] + auth[|BearerPrefix|..];
  }

  /** A request without an Authorization header is turned away as missing a
      token, and so is any other scheme spelling, "bearer " included. */
  lemma MissingOrOtherScheme(secret: string, decode: (string, string) -> Option<Token>)
    ensures Authorize("", secret, decode) == MissingToken
    ensures Authorize("bearer abc", secret, decode) == MissingToken
    ensures Authorize("Bearer", secret, decode) == MissingToken
  {
    assert "bearer abc"[..7] != BearerPrefix by {
      assert "bearer abc"[0] != BearerPrefix[0];
    }
  }

  /** A token that does not decode is invalid. */
  lemma UndecodableTokenInvalid(token: string, secret: string, decode: (string, string) -> Option<Token>)
    requires decode(token, secret) == None
    ensures Authorize(BearerPrefix + token, secret, decode) == InvalidToken
  {
    BearerRoundTrip(token);
  }

  /** A token signed with a non-HMAC method is invalid even when its
      signature would verify. */
  lemma NonHmacTokenInvalid(token: string, secret: string, decode: (string, string) -> Option<Token>)
    requires decode(token, secret).Some? && !IsHMAC(decode(token, secret).value.Method)
    ensures Authorize(BearerPrefix + token, secret, decode) == InvalidToken
  {
    BearerRoundTrip(token);
  }

  /** An HS256 token that verifies and carries map claims is authorized with
      exactly those claims. */
  lemma ValidTokenAuthorized(token: string, secret: string, decode: (string, string) -> Option<Token>,
                             claims: map<string, string>)
    requires decode(token, secret) == Some(Token(HS256, true, MapClaims(claims)))
    ensures Authorize(BearerPrefix + token, secret, decode) == Authorized(Some(claims))
  {
    BearerRoundTrip(token);
  }

  /** Every HMAC-signed token that verifies under the secret is authorized,
      with its map claims when it has them; HS384 and HS512 as much as HS256. */
  lemma HmacVerifiedTokenAuthorized(token: string, secret: string, decode: (string, string) -> Option<Token>)
    requires decode(token, secret).Some? && IsHMAC(decode(token, secret).value.Method)
    requires decode(token, secret).value.Verifies
    ensures var claims := decode(token, secret).value.Claims;
      Authorize(BearerPrefix + token, secret, decode) ==
        Authorized(if claims.MapClaims? then Some(claims.entries) else None)
  {
    BearerRoundTrip(token);
  }

  /** An HMAC token whose signature does not verify is invalid. */
  lemma BadSignatureInvalid(token: string, secret: string, decode: (string, string) -> Option<Token>)
    requires decode(token, secret).Some? && IsHMAC(decode(token, secret).value.Method)
    requires !decode(token, secret).value.Verifies
    ensures Authorize(BearerPrefix + token, secret, decode) == InvalidToken
  {
    BearerRoundTrip(token);
  }

  /** The handler `JWTMiddleware(secret)` wraps around `next`. Both
      rejections answer with a 401 JSON failure and leave the context
      handled; on success the map claims are stored under "user" and the
      request continues with `next(c)`. */
  method JWTHandler(secret: string, c: Context, decode: (string, string) -> Option<Token>) returns (o: Outcome)
    modifies c`Handled, c`Committed, c`Header, c`Body, c`Values
    ensures var d := Authorize(HeaderGet(c.Request.Header, "Authorization"), secret, decode);
      (d == MissingToken ==>
        o == Respond(Response(false, "Missing token", NoDetail, StatusUnauthorized)) &&
        c.WroteOnce(StatusUnauthorized, JsonContentType, JsonOf(o.resp)) && c.Values == old(c.Values)) &&
      (d == InvalidToken ==>
        o == Respond(Response(false, "Invalid token", NoDetail, StatusUnauthorized)) &&
        c.WroteOnce(StatusUnauthorized, JsonContentType, JsonOf(o.resp)) && c.Values == old(c.Values)) &&
      (d.Authorized? ==>
        o == CallNext &&
        c.Handled == old(c.Handled) && c.Committed == old(c.Committed) &&
        c.Header == old(c.Header) && c.Body == old(c.Body) &&
        c.Values == (if d.claims.Some? then old(c.Values)[UserKey := ClaimsMap(d.claims.value)] else old(c.Values)))
  {
    var auth := HeaderGet(c.Request.Header, "Authorization");
    if !HasPrefix(auth, BearerPrefix) {
      var resp := c.ErrorJSON("Missing token", NoDetail, StatusUnauthorized);
      return Respond(resp);
    }

    var tokenStr := TrimPrefix(auth, BearerPrefix);

    var parsed := Parse(tokenStr, secret, decode);
    if parsed.Err? {
      var resp := c.ErrorJSON("Invalid token", NoDetail, StatusUnauthorized);
      return Respond(resp);
    }

    if parsed.value.Claims.MapClaims? {
      c.Set(UserKey, ClaimsMap(parsed.value.Claims.entries));
    }

    return CallNext;
  }
}
