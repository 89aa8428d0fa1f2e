/** The CORS middleware of middleware/cors.go: the configuration defaults,
    the origin match, the response headers it sets on every request, and the
    preflight short-circuit. */
module Cors {
  import opened Http
  import opened Server

  const AllowOriginHeader := "Access-Control-Allow-Origin"
  const AllowMethodsHeader := "Access-Control-Allow-Methods"
  const AllowHeadersHeader := "Access-Control-Allow-Headers"
  const AllowCredentialsHeader := "Access-Control-Allow-Credentials"

  datatype CORSConfig = CORSConfig(AllowOrigins: seq<string>, AllowMethods: seq<string>, AllowHeaders: seq<string>)

  /** `defaultCORSConfig`. */
  const DefaultCORSConfig := CORSConfig(
    ["*"],
    ["GET", "HEAD", "PUT", "PATCH", "POST", "DELETE"],
    ["Content-Type", "Authorization", "Accept", "Origin", "X-Requested-With"])

  /** The configuration `CORSWithConfig` closes over: each empty list is
      replaced by its fallback, a non-empty one is kept as given. */
  function WithDefaults(cfg: CORSConfig): (eff: CORSConfig)
    ensures eff.AllowOrigins != [] && eff.AllowMethods != [] && eff.AllowHeaders != []
    ensures cfg.AllowOrigins != [] ==> eff.AllowOrigins == cfg.AllowOrigins
    ensures cfg.AllowMethods != [] ==> eff.AllowMethods == cfg.AllowMethods
    ensures cfg.AllowHeaders != [] ==> eff.AllowHeaders == cfg.AllowHeaders
    ensures cfg.AllowOrigins == [] ==> eff.AllowOrigins == ["*"]
    ensures cfg.AllowMethods == [] ==> eff.AllowMethods == ["GET", "POST", "PUT", "PATCH", "DELETE", "OPTIONS"]
    ensures cfg.AllowHeaders == [] ==> eff.AllowHeaders == ["Content-Type", "Authorization"]
  {
    var origins := if |cfg.AllowOrigins| == 0 then ["*"] else cfg.AllowOrigins;
    var methods := if |cfg.AllowMethods| == 0 then ["GET", "POST", "PUT", "PATCH", "DELETE", "OPTIONS"] else cfg.AllowMethods;
    var headers := if |cfg.AllowHeaders| == 0 then ["Content-Type", "Authorization"] else cfg.AllowHeaders;
    CORSConfig(origins, methods, headers)
  }

  /** Defaulting twice is defaulting once. */
  lemma WithDefaultsIdempotent(cfg: CORSConfig)
    ensures WithDefaults(WithDefaults(cfg)) == WithDefaults(cfg)
  {
  }

  /** `CORS()`: the middleware over `defaultCORSConfig`, which no default
      replaces since none of its lists is empty. */
  function CORS(): (eff: CORSConfig)
    ensures eff == DefaultCORSConfig
    ensures "OPTIONS" !in eff.AllowMethods && "HEAD" in eff.AllowMethods
  {
    WithDefaults(DefaultCORSConfig)
  }

  /** One configured origin entry admits the request's origin: the wildcard,
      or the same origin up to case. */
  predicate OriginMatches(entry: string, origin: string)
  {
    entry == "*" || EqualFold(entry, origin)
  }

  predicate OriginAllowed(origins: seq<string>, origin: string)
  {
    exists k :: 0 <= k < |origins| && OriginMatches(origins[k], origin)
  }

  /** The response headers after the middleware ran, starting from `h`. */
  function CORSHeaders(h: map<string, string>, eff: CORSConfig, origin: string): map<string, string>
  {
    var h1 := if origin != "" && OriginAllowed(eff.AllowOrigins, origin) then h[AllowOriginHeader := origin] else h;
    h1[AllowMethodsHeader := Join(eff.AllowMethods, ", ")]
      [AllowHeadersHeader := Join(eff.AllowHeaders, ", ")]
      [AllowCredentialsHeader := "true"]
  }

  /** What the headers say about the origin: an admitted origin (non-empty,
      and some entry admits it) is echoed back, never replaced by a literal
      "*"; otherwise an Allow-Origin set earlier is left as it was. The other
      three headers are set whatever the origin. */
  lemma CORSHeadersSpec(h: map<string, string>, eff: CORSConfig, origin: string)
    ensures var r := CORSHeaders(h, eff, origin);
      var admitted := origin != "" && OriginAllowed(eff.AllowOrigins, origin);
      (AllowOriginHeader in r <==> admitted || AllowOriginHeader in h) &&
      (AllowOriginHeader in r ==> r[AllowOriginHeader] == if admitted then origin else h[AllowOriginHeader]) &&
      r[AllowMethodsHeader] == Join(eff.AllowMethods, ", ") &&
      r[AllowHeadersHeader] == Join(eff.AllowHeaders, ", ") &&
      r[AllowCredentialsHeader] == "true"
  {
  }

  /** A wildcard entry admits every non-empty origin, and the header then
      carries that origin rather than "*". */
  lemma WildcardEchoesOrigin(h: map<string, string>, eff: CORSConfig, origin: string)
    requires "*" in eff.AllowOrigins && origin != ""
    ensures CORSHeaders(h, eff, origin)[AllowOriginHeader] == origin
  {
    var k :| 0 <= k < |eff.AllowOrigins| && eff.AllowOrigins[k] == "*";
    assert OriginMatches(eff.AllowOrigins[k], origin);
  }

  /** Origins are compared without regard to ASCII case. */
  lemma OriginMatchIgnoresCase(eff: CORSConfig, origin: string, k: nat)
    requires k < |eff.AllowOrigins| && origin != "" && ToLower(eff.AllowOrigins[k]) == ToLower(origin)
    ensures OriginAllowed(eff.AllowOrigins, origin)
  {
    assert OriginMatches(eff.AllowOrigins[k], origin);
  }

  /** The handler `CORSWithConfig(cfg)` wraps around `next`. An OPTIONS
      request is answered with 204 and `next` is not run; any other request
      continues with `next(c)`. */
  method CORSHandler(cfg: CORSConfig, c: Context) returns (o: Outcome)
    modifies c`Header, c`Committed, c`Handled
    ensures c.Header == CORSHeaders(old(c.Header), WithDefaults(cfg), HeaderGet(c.Request.Header, "Origin"))
    ensures c.Request.Method == "OPTIONS" ==>
      o == Respond(Response(true, "CORS preflight", NoDetail, StatusNoContent)) &&
      c.Handled &&
      c.Committed == (if old(c.Committed).None? then Some(Head(StatusNoContent, c.Header, c.Cookies)) else old(c.Committed))
    ensures c.Request.Method != "OPTIONS" ==>
      o == CallNext && c.Handled == old(c.Handled) && c.Committed == old(c.Committed)
  {
    var eff := WithDefaults(cfg);
    var origin := HeaderGet(c.Request.Header, "Origin");

    if origin != "" {
      var i := 0;
      while i < |eff.AllowOrigins|
        invariant 0 <= i <= |eff.AllowOrigins|
        invariant forall k :: 0 <= k < i ==> !OriginMatches(eff.AllowOrigins[k], origin)
        invariant c.Header == old(c.Header)
      {
        var entry := eff.AllowOrigins[i];
        if entry == "*" || EqualFold(entry, origin) {
          c.SetHeader(AllowOriginHeader, origin);
          break;
        }
        i := i + 1;
      }
    }

    c.SetHeader(AllowMethodsHeader, Join(eff.AllowMethods, ", "));
    c.SetHeader(AllowHeadersHeader, Join(eff.AllowHeaders, ", "));
    c.SetHeader(AllowCredentialsHeader, "true");

    if c.Request.Method == "OPTIONS" {
      c.WriteHeader(StatusNoContent);
      c.Handled := true;
      return Respond(Response(true, "CORS preflight", NoDetail, StatusNoContent));
    }

    return CallNext;
  }
}
