/** The shared HTTP plumbing of http/handler.go: the top-level router, the
    error writer that hides internal errors, the empty not-found answer and
    the JSON encoder's fallback.

    A response is modelled as the status written and the body as the client
    reads it: Json(body) for a body produced by the JSON encoder, Text(raw)
    for one written as raw bytes. Logging is left out. */
module HttpHandler {
  import opened Wrappers
  import opened Wtf
  import opened Errors

  const StatusOK: int := 200
  const StatusBadRequest: int := 400
  const StatusUnauthorized: int := 401
  const StatusNotFound: int := 404
  const StatusConflict: int := 409
  const StatusInternalServerError: int := 500

  /** ErrInvalidJSON (http/handler.go:12). */
  const ErrInvalidJSON: Err := WtfError("invalid json")

  /** The JSON object of every response of the dial API (getDialResponse,
      postDialResponse, patchDialResponse and errorResponse share it): an
      optional dial and an `err` string, both omitted when empty, so an empty
      `err` stands for an absent field. */
  datatype Body = Body(dial: Option<Dial>, err: string)

  datatype Payload = Json(body: Body) | Text(raw: string)

  datatype Response = Response(status: int, payload: Payload)

  /** Error writes `code` and an `err` field that, for a 500, is the text of
      ErrInternal instead of the error's own message. */
  function Error(err: Err, code: int): (r: Response)
    ensures r.status == code
    ensures r.payload.Json? && r.payload.body.dial == None
    ensures code == StatusInternalServerError ==> r.payload.body.err == "internal error"
    ensures code != StatusInternalServerError ==> r.payload.body.err == ErrorString(err)
  {
    var shown := if code == StatusInternalServerError then ErrInternal else err;
    Response(code, Json(Body(None, ErrorString(shown))))
  }

  /** NotFound writes 404 and the raw body "{}\n". */
  function NotFound(): (r: Response)
    ensures r.status == StatusNotFound && r.payload == Text("{}\n")
  {
    Response(StatusNotFound, Text("{}\n"))
  }

  /** net/http's generic answer to an unknown path. */
  function PageNotFound(): (r: Response)
    ensures r.status == StatusNotFound && r.payload.Text?
  {
    Response(StatusNotFound, Text("404 page not found\n"))
  }

  /** The wire form of a response object: a dial in it loses its Token. */
  function Encoded(v: Body): (w: Body)
    ensures w.err == v.err
    ensures w.dial.Some? <==> v.dial.Some?
    ensures w.dial.Some? ==> w.dial.value == Wire(v.dial.value) && w.dial.value.token == ""
  {
    match v.dial
    case None => v
    case Some(d) => v.(dial := Some(Wire(d)))
  }

  /** encodeJSON writes `v` with the implicit status 200; when the encoder
      fails (`encodeErr`, from encoding/json) it falls back to Error with 500. */
  function EncodeJSON(v: Body, encodeErr: Option<Err>): (r: Response)
    ensures encodeErr.None? ==> r.status == StatusOK && r.payload == Json(Encoded(v))
    ensures encodeErr.Some? ==> r == Error(encodeErr.value, StatusInternalServerError)
  {
    if encodeErr.Some? then Error(encodeErr.value, StatusInternalServerError)
    else Response(StatusOK, Json(Encoded(v)))
  }

  /** strings.HasPrefix. */
  function HasPrefix(s: string, prefix: string): (b: bool)
    ensures b <==> prefix <= s
  {
    |s| >= |prefix| && s[..|prefix|] == prefix
  }

  /** ServeHTTP passes a request to the dial handler, whose answer is
      `dialHandled`, exactly when its path starts with "/api/dials"; any
      other path gets net/http's generic not-found. */
  function ServeHTTP(path: string, dialHandled: Response): (r: Response)
    ensures "/api/dials" <= path ==> r == dialHandled
    ensures !("/api/dials" <= path) ==> r == PageNotFound()
  {
    if HasPrefix(path, "/api/dials") then dialHandled else PageNotFound()
  }

  /** ErrInvalidJSON is none of the domain sentinels. */
  lemma InvalidJsonIsNotSentinel()
    ensures SentinelOf(ErrorString(ErrInvalidJSON)) == None
    ensures forall s :: ErrInvalidJSON != ToErr(s)
  {
  }
}
