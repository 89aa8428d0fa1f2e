# Falcon request-state model

A Dafny model of the per-request state machine of the Falcon HTTP framework
(Go). It has two parts. The first is the write-once response discipline on
`Context`. The second is the request-gating code around it: the body and form
binding checks, and the CORS, CSRF and JWT middleware.

- `http.dfy` (module `Http`): the values shared by the model. These are the
  `Response` a handler returns, the request data the core reads, the body
  chunks and cookies a handler writes, and ASCII versions of the
  `strings` functions used (`ToLower`, `EqualFold`, `HasPrefix`,
  `TrimPrefix`, `Join`). A middleware ends with an `Outcome`. It either
  answers itself (`Respond`), returns `next(c)` (`CallNext`), or returns
  `cfg.ErrorHandler(c, err)` (`CallErrorHandler`). `next` and the error
  handler are abstract.
- `context.dfy` (module `Server`): `Context` is a class. Its fields are
  `Handled`, the committed status and headers (`Committed`), the live
  `Header` map, `Cookies`, `Body`, `Params` and `Values`. The response
  writer follows net/http:
  - the first final status written is the one sent;
  - a 1xx status other than 101 is sent as an interim response and commits nothing;
  - a `Write` with no final status commits 200;
  - a body written after a 1xx, 204 or 304 status is refused, as with net/http's `ErrBodyNotAllowed`;
  - only headers set before the commit reach the client;
  - a request header is looked up under the canonical form of its name, as `Header.Get` does.

  On top of this sit `writeResponse`, `writeErrorResponse`, the helpers the
  middleware call (`JSON`, `ErrorJSON`, `String`, `Set`), `http.Error`, and
  `Context.Render` (both as written and corrected).
- `binding.dfy` (module `Binding`): the parts of `shouldBindBody` that run
  before the body is read (the Content-Type gate and the nil-body check), the
  kind dispatch of `setFieldValue`, and the field loop of
  `bindFormToStruct`. The loop works in place on an array of field values and
  is proved against the recursive specification `BindFrom`. The loop takes the
  dispatch as a parameter (`Dispatch`): `AsWritten` is the truncating
  `setFieldValue` of server/util.go, and `RangeChecked` is the corrected one. Every
  lemma about the loop holds for both.
- `cors.dfy`, `csrf.dfy`, `jwt.dfy` (modules `Cors`, `Csrf`, `Jwt`): each
  middleware is a method over the `Context` and returns an `Outcome`.
  CSRF and JWT also have a pure decision function (`Decide`, `Authorize`)
  that their methods are proved against.

Oracles are passed in as inputs:
- the result of `mime.ParseMediaType`;
- the `strconv` parsers;
- the renderer's outcome;
- the server CSRF token and its validation function;
- JWT decoding and signature checking.

## Model

| member | source | states |
|---|---|---|
| `Server.Context.WriteHeader` | server/util.go:22 | Only the first final status written is committed, together with the headers and cookies of that moment. A 1xx status other than 101 is interim and commits nothing. |
| `Server.Context.Write` | server/util.go:23 | Commits 200 if no status was written. Appends the chunk unless the committed status is 1xx, 204 or 304, which allow no body. |
| `Server.Context.WriteResponse` | server/util.go:17-25 | On a handled context it changes no status, header or body. Otherwise it sets Content-Type and commits the status if none was committed (200 after an interim 1xx). It appends exactly the given body, unless the committed status allows no body, and sets `Handled`. |
| `Server.EarlyHintsThenBody` | server/util.go:21-23 | `writeResponse` with 103 on a fresh request sends 200 and the body, since 103 is only an interim response. |
| `Server.NoContentResponseHasNoBody` | server/util.go:21-23 | `writeResponse` with 204 on a fresh request sends 204 and no body at all. |
| `Server.WriteResponseTwice` | server/util.go:18-20 | After two `writeResponse` calls in a row, the state is the one the first call produced. |
| `Server.Context.WriteErrorResponse` | server/util.go:32-41 | It does nothing when handled. Otherwise it writes once a JSON failure carrying the message, the error text as details, and the code. |
| `Server.Context.JSON` | server/responses_test.go:48-58 | Returns `Response(success, message, details, code)`. Writes its JSON encoding once, with `application/json`. |
| `Server.Context.ErrorJSON` | server/responses_test.go:99-143 | Returns a failed response with the given message, details and code. It writes only when the context is not yet handled, and leaves it handled. |
| `Server.Context.String` | server/responses_test.go:14-23 | Writes the text once as `text/plain`. Returns a response whose message is the text. |
| `Server.Context.Set` | server/server_test.go:85-111 | Stores a value under a key. A later `Set` on the same key overwrites it. |
| `Server.Context.HttpError` | server/template.go:86 | `http.Error`: plain-text error headers, the status (when none was committed) and the message plus a newline. |
| `Server.Context.Render` | server/template.go:72-92 | If handled: writes nothing and returns `Response already handled` with the requested code. Otherwise it sets the HTML Content-Type and commits a non-200 final code before rendering. An interim 1xx code is sent and commits nothing. On success `Handled` becomes true and it returns `Template rendered: <name>`. On failure it leaves `Handled` false, calls `http.Error` with 500 and returns `Template render error` with 500. The state it states exactly shows which status the client actually gets. |
| `Server.RenderFailureAfterCustomStatus` | server/template.go:77-87 | With code 201, a template that fails before writing leaves the client with 201 and `text/html`, while the returned response says 500. |
| `Server.Context.RenderBuffered` | server/template.go:72-92 | Corrected render. A failure on an uncommitted response commits 500 with the plain-text error headers. Success behaves exactly as in `Render`. |
| `Server.RenderBufferedFailureAfterCustomStatus` | server/template.go:84-88 | The same failing request with the corrected render sends 500 and `text/plain; charset=utf-8`. |
| `Binding.CheckContentType` | server/util.go:55-66 | There is no check when the expected type or the header is empty. A parse failure gives an invalid-Content-Type error. Otherwise the gate passes exactly when the media type is accepted, and the error names both types. |
| `Binding.AcceptsOnlyXmlAlias` | server/util.go:62-64 | The only accepted media type other than the expected one is `text/xml` for `application/xml`, and not the other way round. |
| `Binding.GateIgnoresParserWhenOff` | server/util.go:55-57 | With no expected type or no header, the parser's verdict never matters. |
| `Binding.ShouldBindBodyPrecheck` | server/util.go:53-70 | A gate error wins. The empty-body error is returned exactly when the gate passes and there is no body. Reading goes ahead only when both pass. |
| `Binding.SetFieldValueAsWritten` | server/util.go:137-163 | Strings are stored as given and unsupported kinds fail. An integer, bool or float field succeeds exactly when its parser does. An integer is stored as the parsed value truncated to the field's width, a bool and a float as parsed. A stored value always fits its kind. |
| `Binding.Int8OverflowIsStoredTruncated` | server/util.go:141-146 | The form value "300" for an int8 field is stored as 44 with no error. The corrected dispatch rejects it. |
| `Binding.SetFieldValue` | server/util.go:137-163 | Corrected dispatch. A stored value always fits the field's kind. An integer is stored exactly as parsed, or the field fails. Bool follows its parser. String never fails. Exactly the unsupported kinds give an unsupported error. |
| `Binding.SetFieldValueAgreesInRange` | server/util.go:137-163 | The corrected and as-written dispatches agree on every input except an out-of-range integer. |
| `Binding.BindFrom` | server/util.go:99-126 | The loop from field `i` on never changes the fields before `i`, and keeps the number of fields. This holds for either dispatch. |
| `Binding.BindFormSpec` | server/util.go:90-94 | A destination that is not a pointer to a struct is rejected with no field touched. |
| `Binding.BindSucceedsIff` | server/util.go:116-126 | Binding succeeds exactly when every field binds. |
| `Binding.BindFieldValue` | server/util.go:99-126 | A field holds its new value when it and every earlier field bound. Otherwise it keeps its old value. So on failure the earlier fields keep their new values and the later ones are untouched. |
| `Binding.BindErrorNamesFirstFailure` | server/util.go:121-123 | A binding error names the first field that failed and carries that field's error. |
| `Binding.SkippedFieldUntouched` | server/util.go:103-119 | A field is never written if it is unsettable, its key is `-`, or its form value is missing or empty. The key is the tag, or the lower-cased name when the tag is empty. |
| `Binding.BoundFieldHoldsParsedValue` | server/util.go:116-124 | After a successful bind, every field with a form value holds what `setFieldValue` made of it, and that value fits its kind. |
| `Binding.Int8OverflowBoundTruncated` | server/util.go:116-124 | Binding `x=300` into a settable int8 field `X` stores 44 with no error under the as-written dispatch. The range-checked loop instead stops with `OutOfRange` and leaves the field untouched. |
| `Binding.BindFormToStruct` | server/util.go:90-127 | The in-place loop over the destination's fields, with either dispatch. The final field values and the error are those of `BindFormSpec` with the same dispatch. |
| `Cors.WithDefaults` | middleware/cors.go:46-55 | Every list is non-empty afterwards. A non-empty list is kept as given. An empty list becomes its fallback (`*`; GET, POST, PUT, PATCH, DELETE, OPTIONS; Content-Type, Authorization). |
| `Cors.WithDefaultsIdempotent` | middleware/cors.go:46-55 | Defaulting twice equals defaulting once. |
| `Cors.CORS` | middleware/cors.go:11-34 | `CORS()` runs with `defaultCORSConfig` unchanged: HEAD is allowed and OPTIONS is not listed. |
| `Http.HeaderGetIgnoresCase` | middleware/csrf.go:50 | A header is found whatever the ASCII case of the name it is asked for, as `Header.Get` canonicalizes the name. |
| `Cors.CORSHeadersSpec` | middleware/cors.go:59-74 | An origin is admitted when it is non-empty and some entry is `*` or equals it ignoring case. An admitted origin is written to Allow-Origin as itself. Otherwise an Allow-Origin set earlier is kept, and none is added. Allow-Methods and Allow-Headers are the lists joined with `, `, and Allow-Credentials is `true`, whatever the origin. |
| `Cors.WildcardEchoesOrigin` | middleware/cors.go:62-69 | A `*` entry admits any non-empty origin, and the header then carries the origin, not `*`. |
| `Cors.OriginMatchIgnoresCase` | middleware/cors.go:64 | An entry equal to the origin up to ASCII case admits it. |
| `Cors.CORSHandler` | middleware/cors.go:57-86 | It sets the headers above. OPTIONS commits 204, sets `Handled` and answers `CORS preflight` with 204 without running `next`. Any other method returns `next(c)` with the handled flag and status untouched. |
| `Csrf.Decide` | middleware/csrf.go:43-66 | It skips exactly the listed methods. It rejects exactly when the method is not skipped, a client token is present, and validation fails. |
| `Csrf.NoTokenNeverRejected` | middleware/csrf.go:58 | A request with neither header token nor cookie is never rejected. |
| `Csrf.HeaderTokenShadowsCookie` | middleware/csrf.go:50-55 | A non-empty header token is used and the cookie is not read. |
| `Csrf.CookieTokenWhenNoHeader` | middleware/csrf.go:51-54 | With an empty header, the cookie's value is the client token. |
| `Csrf.DefaultHeaderTokenFound` | middleware/csrf.go:50-66 | The default `X-CSRF-Token` header, stored by net/http as `X-Csrf-Token`, is the client token. An unsafe request whose token fails validation is rejected. |
| `Csrf.DefaultSkipsSafeMethods` | middleware/csrf.go:10-19 | The default configuration skips exactly GET, HEAD, OPTIONS and TRACE. |
| `Csrf.CSRFHandler` | middleware/csrf.go:39-82 | Skip returns `next(c)` and changes nothing. Reject calls the error handler if one is set, and changes nothing. Without one, reject writes a 403 plain-text answer with the error text and sets no cookie or param. Proceed appends the cookie (token, path `/`, Secure and HttpOnly from the config), sets `Params[ContextKey]` to the token and returns `next(c)`. |
| `Jwt.Parse` | middleware/jwt.go:32-42 | A token is accepted exactly when it decodes, its signing method is HMAC, and it verifies; it is then the decoded token. Otherwise the error says which failed: malformed, an unexpected signing method (checked before the signature), or an invalid signature. |
| `Jwt.Authorize` | middleware/jwt.go:24-46 | Missing token exactly when the header lacks the `Bearer ` prefix. Invalid token exactly when the rest fails to parse. Otherwise authorized, with the map claims when there are any. |
| `Jwt.BearerRoundTrip` | middleware/jwt.go:25-29 | `Bearer ` + t passes the prefix check and yields exactly t; only one prefix is removed. |
| `Jwt.BearerSplit` | middleware/jwt.go:25-29 | Every accepted header is `Bearer ` followed by the token that is parsed. |
| `Jwt.MissingOrOtherScheme` | middleware/jwt_test.go:23-34 | No header, `bearer abc` and `Bearer` are all missing-token rejections. |
| `Jwt.UndecodableTokenInvalid` | middleware/jwt_test.go:36-48 | `Bearer ` followed by an undecodable token is an invalid-token rejection. |
| `Jwt.NonHmacTokenInvalid` | middleware/jwt.go:34-36 | A non-HMAC token is rejected even when it would verify. |
| `Jwt.HmacVerifiedTokenAuthorized` | middleware/jwt.go:13-16 | Every verifying token signed with HS256, HS384 or HS512 is authorized, with its map claims when it has them. |
| `Jwt.BadSignatureInvalid` | middleware/jwt.go:32-42 | An HMAC token whose signature does not verify is an invalid-token rejection. |
| `Jwt.ValidTokenAuthorized` | middleware/jwt_test.go:50-72 | A verifying HS256 token with map claims is authorized with exactly those claims. |
| `Jwt.JWTHandler` | middleware/jwt.go:23-51 | Both rejections answer through `ErrorJSON` with Success false and code 401, leave the context handled, and store nothing. On success the claims are stored under `user` before `next(c)` is returned, and no response is written. |

## Left out

- Router, route registry, chain builder and dispatcher (`FindHandler`, `Handle`, `Use`, `UseIf`, groups): not part of this model. Their implementations are not among the modelled files.
- `Context.Get`, `Context.Param` and the response helpers `HTML`, `Blob`, `File` and `Redirect`: not modelled. `JSON`, `ErrorJSON`, `String` and `Set` are modelled only as far as their tests and callers pin them down.
- Server.Context.WriteHeader: net/http panics on a status outside 100-999. The model commits any integer status, and so does every helper that passes its code on. The headers an interim 1xx response carries are not recorded. net/http also discards the body of a response to a HEAD request, which the model's `Body` keeps.
- Server.Context.String: the contract does not state the `Success` flag of the returned response, because the helper's code is not part of this model.
- `TemplateRenderer` (`NewTemplateRenderer`, `mustLoad`, its `Render`): html/template parsing behind a reader/writer lock. Only its effect on the writer is an input (`RenderOutcome`), and its output is one chunk.
- Body reading and decoding (`http.MaxBytesReader`, `io.ReadAll`, the `unmarshal` callback, server/util.go:72-78): I/O. `ShouldBindBodyPrecheck` ends where reading begins.
- `mime.ParseMediaType`, the `strconv` parsers, `jwt.Parse` decoding and signature checking, and the CSRF token functions `getOrCreateCSRFToken`/`validateCSRFToken`: library code and crypto, all taken as inputs. Both of the CSRF handler's calls to `getOrCreateCSRFToken` are assumed to yield the same token.
- Floating point: a float field holds the 64-bit pattern the parser returns. Rounding into a `float32` field is not modelled.
- Cookie expiry (`time.Now().Add(cfg.Expiry)`): depends on the wall clock. `CSRFConfig` has no `Expiry`.
- Unicode: `ToLower`, `EqualFold` and `CanonicalKey` fold ASCII letters only. `CanonicalKey` also canonicalizes a name holding a space or another non-token byte, which Go returns unchanged.
- Request header names are stored canonical, as net/http's parser stores them. Response headers are set under the exact name given; every name the modelled code sets is already canonical. Each header holds one value (`Set` semantics).
- `token.Valid` is folded into `Jwt.Parse`: a parse that returns no error is the valid case.
- The `ErrCSRFInvalid` text is a parameter of `Csrf.CSRFHandler`, since its definition is not part of this model.
- Go's nil maps are not modelled. The model has no panic for an unallocated `Params`, and no lazy allocation of `Values`.
- `writeErrorResponse` takes the error's text, so a nil error (a panic in Go) is not modelled.
- Validator wrappers, the docs generator and the example program: not part of this model.

## Findings

| source | as written | input that shows it | evidently intended | confidence | as-written member | corrected member |
|---|---|---|---|---|---|---|
| server/template.go:80-87 | A non-200 status is committed before the template runs. When the template then fails, the 500 that `http.Error` writes is ignored, because net/http keeps the first status. The same happens once the template has written partial output. | `Render(201, "page", …)` with a template that fails before writing: the client gets 201 with `text/html`, while the returned response says 500. | A failed render reaches the client as a 500 plain-text error. | high for net/http's first-status rule; not executed | `Server.RenderFailureAfterCustomStatus` (over `Server.Context.Render`) | `Server.Context.RenderBuffered` |
| server/util.go:141-146 | Every integer kind is parsed with `ParseInt(value, 10, 64)`, then stored with `SetInt`, which truncates to the field's width. | An `int8` field with form value `300` becomes 44, with no error. | A value outside the field's range is a binding error. | high; not executed | `Binding.Int8OverflowIsStoredTruncated` (over `Binding.SetFieldValueAsWritten`) and `Binding.Int8OverflowBoundTruncated` (the loop with `AsWritten`) | `Binding.SetFieldValue` (the loop with `RangeChecked`) |
