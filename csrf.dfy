/** The CSRF middleware of middleware/csrf.go: which methods skip it, where
    the client's token is read from, when the request is rejected, and the
    cookie and context entry it sets before continuing.

    `getOrCreateCSRFToken` and `validateCSRFToken` are oracles: the server's
    token is a parameter (the same value for both of the handler's calls to
    `getOrCreateCSRFToken`) and validation is a function of the secret, the
    server token and the client token. */
module Csrf {
  import opened Http
  import opened Server

  /** `CSRFConfig`. `HasErrorHandler` says whether `ErrorHandler` is non-nil;
      the handler itself is abstract. */
  datatype CSRFConfig = CSRFConfig(
    TokenHeader: string,
    TokenCookie: string,
    ContextKey: string,
    Secret: string,
    SkipMethods: seq<string>,
    HasErrorHandler: bool,
    CookieSecure: bool,
    CookieHTTPOnly: bool)

  /** `defaultCSRFConfig`. */
  const DefaultCSRFConfig := CSRFConfig(
    "X-CSRF-Token", "csrf_token", "csrf_token", "supersecretkey",
    ["GET", "HEAD", "OPTIONS", "TRACE"], false, true, true)

  /** The token the client presented: the TokenHeader header, or, only when
      that is empty, the TokenCookie cookie. */
  function ClientToken(req: HttpRequest, cfg: CSRFConfig): string
  {
    var fromHeader := HeaderGet(req.Header, cfg.TokenHeader);
    if fromHeader != "" then fromHeader
    else match CookieGet(req, cfg.TokenCookie)
      case Some(v) => v
      case None => ""
  }

  datatype Decision = Skip | Reject | Proceed

  /** What the middleware does with a request: skip a listed method, reject
      a presented token that fails validation, and otherwise proceed. */
  function Decide(cfg: CSRFConfig, req: HttpRequest, serverToken: string,
                  validate: (string, string, string) -> bool): (d: Decision)
    ensures d == Skip <==> req.Method in cfg.SkipMethods
    ensures d == Reject <==>
      req.Method !in cfg.SkipMethods && ClientToken(req, cfg) != "" &&
      !validate(cfg.Secret, serverToken, ClientToken(req, cfg))
  {
    if req.Method in cfg.SkipMethods then Skip
    else
      var clientToken := ClientToken(req, cfg);
      if clientToken != "" && !validate(cfg.Secret, serverToken, clientToken) then Reject
      else Proceed
  }

  /** A request that presents no token at all is never rejected. */
  lemma NoTokenNeverRejected(cfg: CSRFConfig, req: HttpRequest, serverToken: string,
                             validate: (string, string, string) -> bool)
    requires HeaderGet(req.Header, cfg.TokenHeader) == "" && cfg.TokenCookie !in req.Cookies
    ensures Decide(cfg, req, serverToken, validate) != Reject
  {
  }

  /** A non-empty header token takes precedence: the cookie is not read. */
  lemma HeaderTokenShadowsCookie(cfg: CSRFConfig, req: HttpRequest, cookies: map<string, string>)
    requires HeaderGet(req.Header, cfg.TokenHeader) != ""
    ensures ClientToken(req, cfg) == ClientToken(req.(Cookies := cookies), cfg) == HeaderGet(req.Header, cfg.TokenHeader)
  {
  }

  /** The cookie is consulted when the header is absent or empty. */
  lemma CookieTokenWhenNoHeader(cfg: CSRFConfig, req: HttpRequest)
    requires HeaderGet(req.Header, cfg.TokenHeader) == "" && cfg.TokenCookie in req.Cookies
    ensures ClientToken(req, cfg) == req.Cookies[cfg.TokenCookie]
  {
  }

  /** net/http stores the default token header under its canonical name
      "X-Csrf-Token"; the middleware still finds it there, ahead of any
      cookie, and rejects an unsafe request whose token fails validation. */
  lemma DefaultHeaderTokenFound(token: string, verb: string, cookies: map<string, string>, hasBody: bool,
                                serverToken: string, validate: (string, string, string) -> bool)
    requires token != ""
    ensures var req := HttpRequest(verb, map["X-Csrf-Token" := token], cookies, hasBody);
      ClientToken(req, DefaultCSRFConfig) == token &&
      (verb !in DefaultCSRFConfig.SkipMethods && !validate(DefaultCSRFConfig.Secret, serverToken, token) ==>
        Decide(DefaultCSRFConfig, req, serverToken, validate) == Reject)
  {
    var key := DefaultCSRFConfig.TokenHeader;
    assert CanonicalKey(key) == "X-Csrf-Token" by {
      assert |CanonicalKey(key)| == 12;
      forall i | 0 <= i < 12
        ensures CanonicalKey(key)[i] == "X-Csrf-Token"[i]
      {
      }
    }
  }

  /** The default configuration lets the four safe methods through and
      checks the others. */
  lemma DefaultSkipsSafeMethods(req: HttpRequest, serverToken: string,
                                validate: (string, string, string) -> bool)
    ensures Decide(DefaultCSRFConfig, req, serverToken, validate) == Skip <==>
      req.Method == "GET" || req.Method == "HEAD" || req.Method == "OPTIONS" || req.Method == "TRACE"
  {
  }

  /** The handler `CSRFWithConfig(cfg)` wraps around `next`. `errText` is the
      text of `ErrCSRFInvalid`. */
  method CSRFHandler(cfg: CSRFConfig, c: Context, serverToken: string,
                     validate: (string, string, string) -> bool, errText: string)
    returns (o: Outcome)
    modifies c`Handled, c`Committed, c`Header, c`Body, c`Cookies, c`Params
    ensures var d := Decide(cfg, c.Request, serverToken, validate);
      (d == Skip ==>
        o == CallNext &&
        c.Handled == old(c.Handled) && c.Committed == old(c.Committed) && c.Header == old(c.Header) &&
        c.Body == old(c.Body) && c.Cookies == old(c.Cookies) && c.Params == old(c.Params)) &&
      (d == Reject && cfg.HasErrorHandler ==>
        o == CallErrorHandler(errText) &&
        c.Handled == old(c.Handled) && c.Committed == old(c.Committed) && c.Header == old(c.Header) &&
        c.Body == old(c.Body) && c.Cookies == old(c.Cookies) && c.Params == old(c.Params)) &&
      (d == Reject && !cfg.HasErrorHandler ==>
        o.Respond? && o.resp.Code == StatusForbidden && o.resp.Message == errText &&
        c.WroteOnce(StatusForbidden, TextContentType, Text(errText)) &&
        c.Params == old(c.Params)) &&
      (d == Proceed ==>
        o == CallNext &&
        c.Cookies == old(c.Cookies) + [Cookie(cfg.TokenCookie, serverToken, "/", cfg.CookieSecure, cfg.CookieHTTPOnly)] &&
        c.Params == old(c.Params)[cfg.ContextKey := serverToken] &&
        c.Handled == old(c.Handled) && c.Committed == old(c.Committed) && c.Header == old(c.Header) &&
        c.Body == old(c.Body))
  {
    var i := 0;
    while i < |cfg.SkipMethods|
      invariant 0 <= i <= |cfg.SkipMethods|
      invariant c.Request.Method !in cfg.SkipMethods[..i]
    {
      if c.Request.Method == cfg.SkipMethods[i] {
        return CallNext;
      }
      i := i + 1;
    }
    assert cfg.SkipMethods[..i] == cfg.SkipMethods;

    var clientToken := HeaderGet(c.Request.Header, cfg.TokenHeader);
    if clientToken == "" {
      var cookie := CookieGet(c.Request, cfg.TokenCookie);
      if cookie.Some? {
        clientToken := cookie.value;
      }
    }

    if clientToken != "" {
      if !validate(cfg.Secret, serverToken, clientToken) {
        if cfg.HasErrorHandler {
          return CallErrorHandler(errText);
        }
        var resp := c.String(StatusForbidden, errText);
        return Respond(resp);
      }
    }

    c.AddCookie(Cookie(cfg.TokenCookie, serverToken, "/", cfg.CookieSecure, cfg.CookieHTTPOnly));
    c.Params := c.Params[cfg.ContextKey := serverToken];
    return CallNext;
  }
}
