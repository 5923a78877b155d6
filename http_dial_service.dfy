/** The HTTP adapter of http/dial_service.go: the server's three handlers,
    which map what the wrapped DialService reports onto statuses and bodies,
    and the client's three operations, which read those bodies back.

    The wrapped service and the network are parameters: a handler receives
    what the service returned (or, for POST and PATCH, the service as a
    function of its arguments), and a client operation receives the round
    trip as a function from request to response. JSON decoding of requests
    is summarised as an Option: None when the body is not valid JSON. */
module HttpDialService {
  import opened Wrappers
  import opened Wtf
  import opened Errors
  import opened HttpHandler

  /** postDialRequest: the dial without its Token, and the token beside it. */
  datatype PostDialRequest = PostDialRequest(dial: Option<Dial>, token: string)

  /** patchDialRequest. */
  datatype PatchDialRequest = PatchDialRequest(id: DialID, token: string, level: Level)

  /** What the wrapped CreateDial returned, and the dial struct as it left it. */
  datatype CreateOutcome = CreateOutcome(err: Option<Err>, dial: Dial)

  /** The body that an error response carries for `err` under `code`. */
  predicate IsErrorBody(p: Payload, err: Err, code: int) {
    && p.Json?
    && p.body.dial == None
    && p.body.err == (if code == StatusInternalServerError then Message(Internal) else ErrorString(err))
  }

  // ---------------------------------------------------------------- server

  /** handleGetDial, given what DialService.Dial returned: an error is always
      a 500, a missing dial a 404 with body "{}", a found one a 200 carrying
      the dial without its token. */
  function HandleGetDial(found: Option<Dial>, err: Option<Err>, encodeErr: Option<Err>): (r: Response)
    ensures err.Some? ==> r.status == StatusInternalServerError && IsErrorBody(r.payload, err.value, r.status)
    ensures err.None? && found.None? ==> r.status == StatusNotFound && r.payload == Text("{}\n")
    ensures err.None? && found.Some? && encodeErr.None? ==>
      r.status == StatusOK && r.payload == Json(Body(Some(Wire(found.value)), ""))
    ensures err.None? && found.Some? && encodeErr.Some? ==>
      r.status == StatusInternalServerError && IsErrorBody(r.payload, encodeErr.value, r.status)
  {
    if err.Some? then Error(err.value, StatusInternalServerError)
    else if found.None? then NotFound()
    else EncodeJSON(Body(found, ""), encodeErr)
  }

  /** The dial handlePostDial passes to CreateDial: the decoded dial with the
      request's token put in and its ModTime zeroed. */
  function PostDialInput(req: PostDialRequest): (d: Dial)
    requires req.dial.Some?
    ensures d.token == req.token && d.modTime == ZeroTime
    ensures d.id == req.dial.value.id && d.name == req.dial.value.name && d.level == req.dial.value.level
  {
    req.dial.value.(token := req.token, modTime := ZeroTime)
  }

  /** The status switch of handlePostDial. */
  function PostStatus(err: Option<Err>): (code: int)
    ensures code == StatusOK <==> err == None
    ensures code == StatusBadRequest <==> err == Some(ErrDialRequired) || err == Some(ErrDialIDRequired)
    ensures code == StatusConflict <==> err == Some(ErrDialExists)
    ensures code in {StatusOK, StatusBadRequest, StatusConflict, StatusInternalServerError}
  {
    match err
    case None => StatusOK
    case Some(e) =>
      if e == ErrDialRequired || e == ErrDialIDRequired then StatusBadRequest
      else if e == ErrDialExists then StatusConflict
      else StatusInternalServerError
  }

  /** handlePostDial. A request whose JSON holds no dial makes the handler
      dereference nil; that panic is excluded. */
  function HandlePostDial(req: Option<PostDialRequest>, createDial: Dial -> CreateOutcome, encodeErr: Option<Err>): (r: Response)
    requires req.Some? ==> req.value.dial.Some?
    ensures req.None? ==> r.status == StatusBadRequest && IsErrorBody(r.payload, ErrInvalidJSON, r.status)
    ensures req.Some? ==> var out := createDial(PostDialInput(req.value));
      && (out.err.Some? ==> r.status == PostStatus(out.err) && IsErrorBody(r.payload, out.err.value, r.status))
      && (out.err.None? && encodeErr.None? ==>
            r.status == StatusOK && r.payload == Json(Body(Some(Wire(out.dial)), "")))
      && (out.err.None? && encodeErr.Some? ==>
            r.status == StatusInternalServerError && IsErrorBody(r.payload, encodeErr.value, r.status))
  {
    match req
    case None => Error(ErrInvalidJSON, StatusBadRequest)
    case Some(rq) =>
      var out := createDial(PostDialInput(rq));
      match out.err
      case None => EncodeJSON(Body(Some(out.dial), ""), encodeErr)
      case Some(e) => Error(e, PostStatus(out.err))
  }

  /** The status switch of handlePatchDial. */
  function PatchStatus(err: Option<Err>): (code: int)
    ensures code == StatusOK <==> err == None
    ensures code == StatusNotFound <==> err == Some(ErrDialNotFound)
    ensures code == StatusUnauthorized <==> err == Some(ErrUnauthorized)
    ensures code in {StatusOK, StatusNotFound, StatusUnauthorized, StatusInternalServerError}
  {
    match err
    case None => StatusOK
    case Some(e) =>
      if e == ErrDialNotFound then StatusNotFound
      else if e == ErrUnauthorized then StatusUnauthorized
      else StatusInternalServerError
  }

  /** handlePatchDial. The ID passed to SetLevel is the one in the body;
      `urlID`, the ":id" route parameter, is not consulted. On success the
      handler encodes an empty patchDialResponse, which cannot fail, so no
      encoder failure enters here. */
  function HandlePatchDial(req: Option<PatchDialRequest>, urlID: DialID,
                           setLevel: (DialID, string, Level) -> Option<Err>): (r: Response)
    ensures req.None? ==> r.status == StatusBadRequest && IsErrorBody(r.payload, ErrInvalidJSON, r.status)
    ensures req.Some? ==> var err := setLevel(req.value.id, req.value.token, req.value.level);
      && (err.Some? ==> r.status == PatchStatus(err) && IsErrorBody(r.payload, err.value, r.status))
      && (err.None? ==> r.status == StatusOK && r.payload == Json(Body(None, "")))
  {
    match req
    case None => Error(ErrInvalidJSON, StatusBadRequest)
    case Some(rq) =>
      var err := setLevel(rq.id, rq.token, rq.level);
      match err
      case None => EncodeJSON(Body(None, ""), None)
      case Some(e) => Error(e, PatchStatus(err))
  }

  // ---------------------------------------------------------------- client

  /** The opaque error json.Decoder reports for a body that is not the JSON
      of a response object. */
  const UndecodableBody: Err := Other("json: cannot decode response body")

  /** The response body as the client decodes it, or the transport or decode
      error, which the client returns as it is. The status is not looked at. */
  function ReadBody(resp: Result<Response, Err>): (r: Result<Body, Err>)
    ensures resp.Failure? ==> r == Failure(resp.error)
    ensures resp.Success? && resp.value.payload.Json? ==> r == Success(resp.value.payload.body)
    ensures resp.Success? && resp.value.payload == Text("{}\n") ==> r == Success(Body(None, ""))
    ensures r.Failure? ==> resp.Failure? || r.error == UndecodableBody
  {
    match resp
    case Failure(e) => Failure(e)
    case Success(rs) =>
      match rs.payload
      case Json(b) => Success(b)
      case Text(raw) => if raw == "{}\n" then Success(Body(None, "")) else Failure(UndecodableBody)
  }

  /** The error a client operation returns for a response: a transport or
      decode failure as it is, otherwise `wtf.Error(err)` when the body's
      `err` field is non-empty, and nil when it is empty. */
  function ResponseError(resp: Result<Response, Err>): (r: Option<Err>)
    ensures ReadBody(resp).Failure? ==> r == Some(ReadBody(resp).error)
    ensures ReadBody(resp).Success? && ReadBody(resp).value.err == "" ==> r == None
    ensures ReadBody(resp).Success? && ReadBody(resp).value.err != "" ==> r == Some(WtfError(ReadBody(resp).value.err))
  {
    match ReadBody(resp)
    case Failure(e) => Some(e)
    case Success(b) => if b.err != "" then Some(WtfError(b.err)) else None
  }

  /** The client's Dial: a `{}` body is (nil, nil), not an error; a dial
      read back from the wire has an empty Token. */
  function ClientDial(resp: Result<Response, Err>): (result: (Option<Dial>, Option<Err>))
    ensures result.1 == ResponseError(resp)
    ensures result.1.Some? ==> result.0 == None
    ensures result.1.None? ==> result.0 == ReadBody(resp).value.dial
    ensures resp.Success? && resp.value.payload == Text("{}\n") ==> result == (None, None)
  {
    match ResponseError(resp)
    case Some(e) => (None, Some(e))
    case None => (ReadBody(resp).value.dial, None)
  }

  /** The request body the client's CreateDial sends: the dial, which loses
      its Token on the wire, and the token as a field of its own. */
  function ClientPostRequest(d: Dial): (req: PostDialRequest)
    ensures req.dial.Some? && req.dial.value == Wire(d) && req.token == d.token
  {
    PostDialRequest(Some(Wire(d)), d.token)
  }

  /** A successful response to a POST carries a dial; the client copies it
      without checking, so a response without one is excluded. */
  predicate SuccessCarriesDial(resp: Result<Response, Err>) {
    ResponseError(resp).None? ==> ReadBody(resp).Success? && ReadBody(resp).value.dial.Some?
  }

  /** The client's CreateDial: nil gives ErrDialRequired without a request;
      on success the caller's struct becomes the server's copy with the
      caller's own token put back; on an error it is left alone. */
  method ClientCreateDial(d: DialCell?, roundTrip: PostDialRequest -> Result<Response, Err>) returns (err: Option<Err>)
    requires d != null ==> SuccessCarriesDial(roundTrip(ClientPostRequest(d.value)))
    modifies d
    ensures d == null ==> err == Some(ErrDialRequired)
    ensures d != null ==> err == ResponseError(roundTrip(ClientPostRequest(old(d.value))))
    ensures d != null && err.Some? ==> d.value == old(d.value)
    ensures d != null && err.None? ==>
      d.value == ReadBody(roundTrip(ClientPostRequest(old(d.value)))).value.dial.value.(token := old(d.value).token)
  {
    if d == null {
      return Some(ErrDialRequired);
    }
    var token := d.value.token;
    var resp := roundTrip(ClientPostRequest(d.value));
    err := ResponseError(resp);
    if err.Some? {
      return err;
    }
    d.value := ReadBody(resp).value.dial.value;
    d.value := d.value.(token := token);
    return None;
  }

  /** The client's SetLevel: it sends the caller's id, token and level as
      the PATCH body and returns the error read back from the response. */
  function ClientSetLevel(id: DialID, token: string, level: Level,
                          roundTrip: PatchDialRequest -> Result<Response, Err>): (err: Option<Err>)
    ensures err == ResponseError(roundTrip(PatchDialRequest(id, token, level)))
  {
    ResponseError(roundTrip(PatchDialRequest(id, token, level)))
  }

  // ------------------------------------------------------- server to client

  /** What the client makes of an error response: the generic ErrInternal
      behind a 500, otherwise a wtf.Error with the original message. */
  lemma ErrorResponseRoundTrip(e: Err, code: int)
    requires code == StatusInternalServerError || ErrorString(e) != ""
    ensures ResponseError(Success(Error(e, code))) ==
      Some(if code == StatusInternalServerError then ErrInternal else WtfError(ErrorString(e)))
  {
  }

  /** The errors POST maps to a status other than 500 are sentinels. */
  lemma PostMappedErrorsAreSentinels(e: Err)
    ensures PostStatus(Some(e)) != StatusInternalServerError ==>
      ErrorString(e) != "" && WtfError(ErrorString(e)) == e
  {
  }

  /** The errors PATCH maps to a status other than 500 are sentinels. */
  lemma PatchMappedErrorsAreSentinels(e: Err)
    ensures PatchStatus(Some(e)) != StatusInternalServerError ==>
      ErrorString(e) != "" && WtfError(ErrorString(e)) == e
  {
  }

  /** GET through the server and back: a service error, or a dial the
      encoder rejects, reaches the caller as ErrInternal; a missing dial as
      (nil, nil); a found one without its token. */
  lemma GetRoundTrip(found: Option<Dial>, err: Option<Err>, encodeErr: Option<Err>)
    ensures ClientDial(Success(HandleGetDial(found, err, encodeErr))) ==
      if err.Some? || (found.Some? && encodeErr.Some?) then (None, Some(ErrInternal))
      else if found.None? then (None, None)
      else (Some(Wire(found.value)), None)
  {
  }

  /** POST through the server and back. The server hands CreateDial the
      caller's dial with its token and a zero ModTime; an error the handler
      maps to 400 or 409 comes back as itself and any other as ErrInternal;
      and on success the client's copy, once its token is put back, is the
      dial CreateDial left behind. */
  lemma PostRoundTrip(d: Dial, createDial: Dial -> CreateOutcome, encodeErr: Option<Err>)
    ensures PostDialInput(ClientPostRequest(d)) == d.(modTime := ZeroTime)
    ensures var out := createDial(d.(modTime := ZeroTime));
            var resp := Success(HandlePostDial(Some(ClientPostRequest(d)), createDial, encodeErr));
      && SuccessCarriesDial(resp)
      && ResponseError(resp) ==
           (if out.err.Some? then Some(if PostStatus(out.err) == StatusInternalServerError then ErrInternal else out.err.value)
            else if encodeErr.Some? then Some(ErrInternal)
            else None)
      && (ResponseError(resp).None? ==>
            ReadBody(resp).value.dial.value.(token := d.token) == out.dial.(token := d.token))
  {
  }

  /** PATCH through the server and back: an error the handler maps to 404 or
      401 comes back as itself, any other as ErrInternal, and success as nil.
      The route parameter has no say in which dial is updated. */
  lemma PatchRoundTrip(id: DialID, token: string, level: Level, urlID: DialID,
                       setLevel: (DialID, string, Level) -> Option<Err>)
    ensures var err := setLevel(id, token, level);
      ClientSetLevel(id, token, level, rq => Success(HandlePatchDial(Some(rq), urlID, setLevel))) ==
        (if err.Some? then Some(if PatchStatus(err) == StatusInternalServerError then ErrInternal else err.value)
         else None)
  {
  }

  /** Sentinel by sentinel: which ones a client gets back unchanged from
      a POST, and which ones it sees as ErrInternal. */
  lemma PostSentinelTable(s: Sentinel)
    ensures ResponseError(Success(Error(ToErr(s), PostStatus(Some(ToErr(s)))))) ==
      Some(if s in {DialRequired, DialIDRequired, DialExists} then ToErr(s) else ErrInternal)
  {
  }

  /** Sentinel by sentinel for PATCH. */
  lemma PatchSentinelTable(s: Sentinel)
    ensures ResponseError(Success(Error(ToErr(s), PatchStatus(Some(ToErr(s)))))) ==
      Some(if s in {DialNotFound, Unauthorized} then ToErr(s) else ErrInternal)
  {
  }
}
