/** The per-request `Context` of the server package and the operations that
    write the response through it: the write-once helpers of server/util.go,
    the response helpers they back, and `Context.Render` of
    server/template.go.

    The response writer follows net/http: the first final status written is
    the one the client receives (a later `WriteHeader` is superfluous and
    ignored), a 1xx status other than 101 goes out as an interim response and
    commits nothing, a `Write` with no final status written first commits 200, a body written after a
    1xx, 204 or 304 status is refused (`http.ErrBodyNotAllowed`), and the
    headers and cookies that reach the client are those set before the status
    was committed. `Committed` records that moment; `Header` and `Cookies` are the
    live values a handler sees through `Writer.Header()`. */
module Server {
  import opened Http

  const HtmlContentType := "text/html; charset=utf-8"
  const JsonContentType := "application/json"
  const TextContentType := "text/plain"

  /** What the template renderer did to the writer: it wrote the whole output,
      or it failed after writing `partial` (html/template stops on error but
      keeps what it already wrote). */
  datatype RenderOutcome = Rendered(output: string) | RenderFailed(partial: string, err: string)

  /** The chunks a renderer's write of `s` leaves in the body. */
  function Emitted(s: string): seq<Chunk>
  {
    if s == "" then [] else [Text(s)]
  }

  /** A 1xx status other than 101 Switching Protocols: net/http sends it at
      once as an interim response and keeps waiting for the final status. */
  predicate IsInterim(code: int)
  {
    100 <= code <= 199 && code != 101
  }

  /** The final status a write with `code` followed by a body write leaves:
      an interim code gives way to the 200 the body write commits. */
  function FinalStatus(code: int): int
  {
    if IsInterim(code) then StatusOK else code
  }

  /** Whether net/http lets a response with this status carry a body. */
  predicate BodyAllowed(status: int)
  {
    !(100 <= status < 200) && status != StatusNoContent && status != 304
  }

  /** The part of `chunks` that reaches the body once `committed` holds the
      committed head: all of it, or nothing when the status forbids a body. */
  function Admitted(committed: Option<Head>, chunks: seq<Chunk>): seq<Chunk>
  {
    if committed.Some? && !BodyAllowed(committed.value.Status) then [] else chunks
  }

  /** The headers after `http.Error` prepared them. */
  function ErrorHeader(h: map<string, string>): map<string, string>
  {
    (h - {"Content-Length"})["Content-Type" := "text/plain; charset=utf-8"]["X-Content-Type-Options" := "nosniff"]
  }

  class Context {
    const Request: HttpRequest
    var Handled: bool
    var Committed: Option<Head>
    var Header: map<string, string>
    var Cookies: seq<Cookie>
    var Body: seq<Chunk>
    var Params: map<string, string>
    var Values: map<string, Value>

    constructor (req: HttpRequest, params: map<string, string>)
      ensures Request == req && Params == params
      ensures !Handled && Committed == None && Header == map[] && Cookies == [] && Body == []
      ensures Values == map[]
    {
      Request := req;
      Params := params;
      Handled := false;
      Committed := None;
      Header := map[];
      Cookies := [];
      Body := [];
      Values := map[];
    }

    /** The head the client holds after a status `code` is written now. */
    function CommitWith(code: int): Option<Head>
      reads this
    {
      if Committed.None? && !IsInterim(code) then Some(Head(code, Header, Cookies)) else Committed
    }

    /** The effect of one guarded write of `body` with `code` and
        `contentType`: nothing at all on a handled context; otherwise the
        Content-Type header, then the status (if none was committed yet; an
        interim status is followed by the 200 the body write commits), then
        exactly `body` (unless the committed status forbids a body), and the
        context becomes handled. */
    twostate predicate WroteOnce(code: int, contentType: string, body: Chunk)
      reads this
    {
      Handled && Cookies == old(Cookies) &&
      if old(Handled) then
        Committed == old(Committed) && Header == old(Header) && Body == old(Body)
      else
        Header == old(Header)["Content-Type" := contentType] &&
        Committed == (if old(Committed).None? then Some(Head(FinalStatus(code), Header, Cookies)) else old(Committed)) &&
        Body == old(Body) + Admitted(Committed, [body])
    }

    /** `Writer.Header().Set`. */
    method SetHeader(key: string, value: string)
      modifies this`Header
      ensures Header == old(Header)[key := value]
    {
      Header := Header[key := value];
    }

    /** `Writer.WriteHeader`: only the first final status is kept; an interim
        one leaves the response uncommitted. */
    method WriteHeader(code: int)
      modifies this`Committed
      ensures Committed == old(CommitWith(code))
    {
      Committed := CommitWith(code);
    }

    /** `Writer.Write`: commits 200 when no status was written, and is
        refused when the committed status does not allow a body. */
    method Write(chunk: Chunk)
      modifies this`Committed, this`Body
      ensures Committed == old(CommitWith(StatusOK))
      ensures Body == old(Body) + Admitted(Committed, [chunk])
    {
      Committed := CommitWith(StatusOK);
      Body := Body + Admitted(Committed, [chunk]);
    }

    /** `http.SetCookie` on the writer. */
    method AddCookie(cookie: Cookie)
      modifies this`Cookies
      ensures Cookies == old(Cookies) + [cookie]
    {
      Cookies := Cookies + [cookie];
    }

    /** `http.Error`: resets the headers for a plain-text error, writes the
        status and the message followed by a newline. */
    method HttpError(error: string, code: int)
      modifies this`Header, this`Committed, this`Body
      ensures Header == ErrorHeader(old(Header))
      ensures Committed == (if old(Committed).None? then Some(Head(FinalStatus(code), Header, Cookies)) else old(Committed))
      ensures Body == old(Body) + Admitted(Committed, [Text(error + "\n")])
    {
      Header := ErrorHeader(Header);
      WriteHeader(code);
      Write(Text(error + "\n"));
    }

    /** `writeResponse`: the single guarded write every response helper goes
        through. */
    method WriteResponse(code: int, contentType: string, body: Chunk)
      modifies this`Handled, this`Committed, this`Header, this`Body
      ensures WroteOnce(code, contentType, body)
    {
      if Handled {
        return;
      }
      SetHeader("Content-Type", contentType);
      WriteHeader(code);
      Write(body);
      Handled := true;
    }

    /** `JSON`: builds the response value and writes its JSON encoding once. */
    method JSON(success: bool, message: string, details: Detail, code: int) returns (resp: Response)
      modifies this`Handled, this`Committed, this`Header, this`Body
      ensures resp == Response(success, message, details, code)
      ensures WroteOnce(code, JsonContentType, JsonOf(resp))
    {
      resp := Response(success, message, details, code);
      WriteResponse(code, JsonContentType, JsonOf(resp));
    }

    /** `ErrorJSON`: a failed JSON response; on a handled context it still
        returns the response value but writes nothing. */
    method ErrorJSON(message: string, details: Detail, code: int) returns (resp: Response)
      modifies this`Handled, this`Committed, this`Header, this`Body
      ensures resp == Response(false, message, details, code)
      ensures WroteOnce(code, JsonContentType, JsonOf(resp))
    {
      resp := JSON(false, message, details, code);
    }

    /** `String`: a plain-text response whose message is the text itself. */
    method String(code: int, s: string) returns (resp: Response)
      modifies this`Handled, this`Committed, this`Header, this`Body
      ensures resp.Message == s && resp.Code == code && resp.Details == NoDetail
      ensures WroteOnce(code, TextContentType, Text(s))
    {
      WriteResponse(code, TextContentType, Text(s));
      resp := Response(true, s, NoDetail, code);
    }

    /** `writeErrorResponse`: a JSON failure whose details are the error's
        text; a no-op on a handled context. */
    method WriteErrorResponse(code: int, message: string, err: string)
      modifies this`Handled, this`Committed, this`Header, this`Body
      ensures WroteOnce(code, JsonContentType, JsonOf(Response(false, message, TextDetail(err), code)))
    {
      if Handled {
        return;
      }
      var resp := JSON(false, message, TextDetail(err), code);
    }

    /** `Set`: stores `value` under `key` in the side channel. */
    method Set(key: string, value: Value)
      modifies this`Values
      ensures Values == old(Values)[key := value]
    {
      Values := Values[key := value];
    }

    /** `Context.Render` as written: the HTML Content-Type is set and a
        non-200 status is written BEFORE the template runs, so when the
        template then fails the 500 that `http.Error` writes is superfluous
        unless nothing was committed by then. */
    method Render(code: int, name: string, outcome: RenderOutcome) returns (resp: Response)
      modifies this`Handled, this`Committed, this`Header, this`Body
      ensures old(Handled) ==>
        resp == Response(false, "Response already handled", NoDetail, code) &&
        Handled && Committed == old(Committed) && Header == old(Header) && Body == old(Body)
      ensures !old(Handled) && outcome.Rendered? ==>
        resp == Response(true, "Template rendered: " + name, NoDetail, code) &&
        Handled &&
        Header == old(Header)["Content-Type" := HtmlContentType] &&
        Body == old(Body) + Admitted(Committed, Emitted(outcome.output)) &&
        Committed == (if old(Committed).Some? then old(Committed)
                      else if (code != StatusOK && !IsInterim(code)) || outcome.output != "" then
                        Some(Head(FinalStatus(code), Header, Cookies))
                      else None)
      ensures !old(Handled) && outcome.RenderFailed? ==>
        resp == Response(false, "Template render error", NoDetail, StatusInternalServerError) &&
        !Handled &&
        Header == ErrorHeader(old(Header)["Content-Type" := HtmlContentType]) &&
        Body == old(Body) + Admitted(Committed, Emitted(outcome.partial) + [Text("Template error: " + outcome.err + "\n")]) &&
        Committed == (if old(Committed).Some? then old(Committed)
                      else if (code != StatusOK && !IsInterim(code)) || outcome.partial != "" then
                        Some(Head(FinalStatus(code), old(Header)["Content-Type" := HtmlContentType], Cookies))
                      else Some(Head(StatusInternalServerError, Header, Cookies)))
    {
      if Handled {
        return Response(false, "Response already handled", NoDetail, code);
      }
      SetHeader("Content-Type", HtmlContentType);
      if code != StatusOK {
        WriteHeader(code);
      }
      match outcome {
        case RenderFailed(partial, err) =>
          if partial != "" {
            Write(Text(partial));
          }
          HttpError("Template error: " + err, StatusInternalServerError);
          return Response(false, "Template render error", NoDetail, StatusInternalServerError);
        case Rendered(output) =>
          if output != "" {
            Write(Text(output));
          }
      }
      Handled := true;
      resp := Response(true, "Template rendered: " + name, NoDetail, code);
    }

    /** `Context.Render` with the template run into a buffer first, so that a
        failure is known before anything reaches the writer: a failed render
        on an uncommitted response then sends 500 with the plain-text error. */
    method RenderBuffered(code: int, name: string, outcome: RenderOutcome) returns (resp: Response)
      modifies this`Handled, this`Committed, this`Header, this`Body
      ensures old(Handled) ==>
        resp == Response(false, "Response already handled", NoDetail, code) &&
        Handled && Committed == old(Committed) && Header == old(Header) && Body == old(Body)
      ensures !old(Handled) && outcome.Rendered? ==>
        resp == Response(true, "Template rendered: " + name, NoDetail, code) &&
        Handled &&
        Header == old(Header)["Content-Type" := HtmlContentType] &&
        Body == old(Body) + Admitted(Committed, Emitted(outcome.output)) &&
        Committed == (if old(Committed).Some? then old(Committed)
                      else if (code != StatusOK && !IsInterim(code)) || outcome.output != "" then
                        Some(Head(FinalStatus(code), Header, Cookies))
                      else None)
      ensures !old(Handled) && outcome.RenderFailed? ==>
        resp == Response(false, "Template render error", NoDetail, StatusInternalServerError) &&
        !Handled &&
        Header == ErrorHeader(old(Header)) &&
        Body == old(Body) + Admitted(Committed, [Text("Template error: " + outcome.err + "\n")]) &&
        Committed == (if old(Committed).Some? then old(Committed)
                      else Some(Head(StatusInternalServerError, Header, Cookies)))
    {
      if Handled {
        return Response(false, "Response already handled", NoDetail, code);
      }
      match outcome {
        case RenderFailed(_, err) =>
          HttpError("Template error: " + err, StatusInternalServerError);
          return Response(false, "Template render error", NoDetail, StatusInternalServerError);
        case Rendered(output) =>
          SetHeader("Content-Type", HtmlContentType);
          if code != StatusOK {
            WriteHeader(code);
          }
          if output != "" {
            Write(Text(output));
          }
      }
      Handled := true;
      resp := Response(true, "Template rendered: " + name, NoDetail, code);
    }
  }

  /** Two `writeResponse` calls in a row: the second changes nothing, so the
      state is the one the first call produced. */
  method WriteResponseTwice(c: Context, code1: int, type1: string, body1: Chunk,
                            code2: int, type2: string, body2: Chunk)
    modifies c`Handled, c`Committed, c`Header, c`Body
    ensures c.WroteOnce(code1, type1, body1)
  {
    c.WriteResponse(code1, type1, body1);
    c.WriteResponse(code2, type2, body2);
  }

  /** A fresh request whose handler renders with status 201 and whose template
      fails before writing anything: the client receives 201 and the
      text/html Content-Type, while the returned response reports 500. */
  method RenderFailureAfterCustomStatus() returns (sent: int, sentType: string, reported: int)
    ensures sent == 201 && sentType == HtmlContentType && reported == StatusInternalServerError
  {
    var c := new Context(HttpRequest("GET", map[], map[], false), map[]);
    var resp := c.Render(201, "page", RenderFailed("", "boom"));
    sent, sentType := c.Committed.value.Status, c.Committed.value.Header["Content-Type"];
    reported := resp.Code;
  }

  /** The same request with the buffered render: the client receives the 500
      and the plain-text Content-Type that the response reports. */
  method RenderBufferedFailureAfterCustomStatus() returns (sent: int, sentType: string, reported: int)
    ensures sent == StatusInternalServerError && sentType == "text/plain; charset=utf-8"
    ensures reported == StatusInternalServerError
  {
    var c := new Context(HttpRequest("GET", map[], map[], false), map[]);
    var resp := c.RenderBuffered(201, "page", RenderFailed("", "boom"));
    sent, sentType := c.Committed.value.Status, c.Committed.value.Header["Content-Type"];
    reported := resp.Code;
  }

  /** A 204 answer written through `writeResponse` on a fresh request has its
      status and Content-Type sent but no body: net/http refuses the write. */
  method NoContentResponseHasNoBody(body: Chunk) returns (sent: int, sentBody: seq<Chunk>)
    ensures sent == StatusNoContent && sentBody == []
  {
    var c := new Context(HttpRequest("GET", map[], map[], false), map[]);
    c.WriteResponse(StatusNoContent, JsonContentType, body);
    sent, sentBody := c.Committed.value.Status, c.Body;
  }

  /** A 103 Early Hints status given to `writeResponse` is only an interim
      response: the body write that follows commits 200 and the body is sent. */
  method EarlyHintsThenBody(body: Chunk) returns (sent: int, sentBody: seq<Chunk>)
    ensures sent == StatusOK && sentBody == [body]
  {
    var c := new Context(HttpRequest("GET", map[], map[], false), map[]);
    c.WriteResponse(103, JsonContentType, body);
    sent, sentBody := c.Committed.value.Status, c.Body;
  }
}
