/** Values shared by the request-handling model: the handler's response value,
    what a request carries, what a handler writes to the client, and the few
    functions of Go's `strings` package that the middleware relies on. */
module Http {

  datatype Option<T> = None | Some(value: T)

  datatype Result<T, E> = Ok(value: T) | Err(error: E)

  /** The `Details` payload of a response: absent (`nil`), an error text,
      or a map of fields. */
  datatype Detail = NoDetail | TextDetail(text: string) | FieldsDetail(fields: map<string, string>)

  /** `server.Response`, the value every handler and middleware returns. */
  datatype Response = Response(Success: bool, Message: string, Details: Detail, Code: int)

  /** One call to `ResponseWriter.Write`: raw bytes, text, or the JSON
      encoding of a Response. */
  datatype Chunk = Bytes(data: seq<bv8>) | Text(text: string) | JsonOf(resp: Response)

  /** A `Set-Cookie` the handler asked for (expiry is not modelled). */
  datatype Cookie = Cookie(Name: string, Value: string, Path: string, Secure: bool, HttpOnly: bool)

  /** What the client receives when the status line is committed: the status
      and the headers and cookies set up to that moment. */
  datatype Head = Head(Status: int, Header: map<string, string>, Cookies: seq<Cookie>)

  /** The parts of `*http.Request` the core reads. Header keys are stored in
      canonical form, as net/http's request parser stores them. */
  datatype HttpRequest = HttpRequest(
    Method: string,
    Header: map<string, string>,
    Cookies: map<string, string>,
    HasBody: bool)

  /** A value stored in `Context.Values`. */
  datatype Value = Str(s: string) | ClaimsMap(claims: map<string, string>)

  /** How a middleware ends: with a response of its own, by returning
      `next(c)`, or by returning `cfg.ErrorHandler(c, err)`. */
  datatype Outcome = Respond(resp: Response) | CallNext | CallErrorHandler(err: string)

  const StatusOK := 200
  const StatusNoContent := 204
  const StatusUnauthorized := 401
  const StatusForbidden := 403
  const StatusInternalServerError := 500

  /** `textproto.CanonicalMIMEHeaderKey` on ASCII: the first letter and every
      letter after a hyphen upper-cased, all other letters lower-cased. */
  function CanonicalKey(key: string): string
  {
    seq(|key|, i requires 0 <= i < |key| =>
      if i == 0 || key[i - 1] == '-' then UpperChar(key[i]) else LowerChar(key[i]))
  }

  /** `Header.Get`: the value under the canonical form of `key`, or "" when
      there is none. */
  function HeaderGet(h: map<string, string>, key: string): string
  {
    if CanonicalKey(key) in h then h[CanonicalKey(key)] else ""
  }

  /** Header lookup ignores the case of the name asked for: two spellings
      that differ only in ASCII case find the same value. */
  lemma HeaderGetIgnoresCase(h: map<string, string>, a: string, b: string)
    requires EqualFold(a, b)
    ensures HeaderGet(h, a) == HeaderGet(h, b)
  {
    assert |a| == |ToLower(a)| == |ToLower(b)| == |b|;
    forall i | 0 <= i < |a|
      ensures CanonicalKey(a)[i] == CanonicalKey(b)[i]
    {
      assert LowerChar(a[i]) == ToLower(a)[i] == ToLower(b)[i] == LowerChar(b[i]);
      if i > 0 {
        assert LowerChar(a[i - 1]) == ToLower(a)[i - 1] == ToLower(b)[i - 1] == LowerChar(b[i - 1]);
      }
    }
    assert CanonicalKey(a) == CanonicalKey(b);
  }

  /** `Request.Cookie(name)`: the cookie's value, or None (Go's ErrNoCookie). */
  function CookieGet(req: HttpRequest, name: string): Option<string>
  {
    if name in req.Cookies then Some(req.Cookies[name]) else None
  }

  /** ASCII lower-casing of one character. */
  function LowerChar(ch: char): char
  {
    if 'A' <= ch <= 'Z' then (ch as int + 32) as char else ch
  }

  /** ASCII upper-casing of one character. */
  function UpperChar(ch: char): char
  {
    if 'a' <= ch <= 'z' then (ch as int - 32) as char else ch
  }

  /** `strings.ToLower`, restricted to ASCII letters. */
  function ToLower(s: string): string
  {
    seq(|s|, i requires 0 <= i < |s| => LowerChar(s[i]))
  }

  /** `strings.EqualFold`, restricted to ASCII case folding. */
  predicate EqualFold(a: string, b: string)
  {
    ToLower(a) == ToLower(b)
  }

  /** `strings.HasPrefix`. */
  predicate HasPrefix(s: string, prefix: string)
  {
    |prefix| <= |s| && s[..|prefix|] == prefix
  }

  /** `strings.TrimPrefix`: removes one leading `prefix` when present. */
  function TrimPrefix(s: string, prefix: string): string
  {
    if HasPrefix(s, prefix) then s[|prefix|..] else s
  }

  /** `strings.Join`. */
  function Join(xs: seq<string>, sep: string): string
  {
    if |xs| == 0 then ""
    else if |xs| == 1 then xs[0]
    else xs[0] + sep + Join(xs[1..], sep)
  }
}
