/**
 * The HTTP side of the transport (transport/http/service.go): the request decoders, the
 * choice between an error reply and a success reply, and the status code of an error.
 * JSON coding, routing and header writes are not modelled: a decoded UUID arrives as the
 * result of uuid.Parse, a decoded body as the result of the JSON decoder.
 */
module TransportHttp {
  import opened Wrappers
  import opened Uuids
  import opened Errors
  import opened Titanic
  import opened Transport

  const StatusOK := 200
  const StatusBadRequest := 400
  const StatusNotFound := 404
  const StatusInternalServerError := 500

  /** codeFrom: 404 for titanic's ErrNotFound, 400 for ErrAlreadyExists and ErrInconsistentIDs, 500 for all else. */
  function CodeFrom(err: Error): (code: int)
    ensures code == StatusNotFound <==> err == ErrNotFound
    ensures code == StatusBadRequest <==> err == ErrAlreadyExists || err == ErrInconsistentIDs
    ensures code == StatusInternalServerError <==> !(err in {ErrNotFound, ErrAlreadyExists, ErrInconsistentIDs})
  {
    match err
    case ErrNotFound => StatusNotFound
    case ErrAlreadyExists => StatusBadRequest
    case ErrInconsistentIDs => StatusBadRequest
    case _ => StatusInternalServerError
  }

  /** What is written back: an error object `{"error": message}` or the JSON of the response. */
  datatype Body = ErrorBody(error: string) | JsonBody(response: Response)

  datatype Reply = Reply(status: int, body: Body)

  /** encodeError: it panics on a nil error, so a non-nil error is its precondition. */
  function EncodeError(err: Option<Error>): (r: Reply)
    requires err.Some?
    ensures r.status != StatusOK && r.status == CodeFrom(err.value)
    ensures r.body == ErrorBody(err.value.Message())
  {
    Reply(CodeFrom(err.value), ErrorBody(err.value.Message()))
  }

  /**
   * encodeResponse as written. The `errorer` interface (transport/http/service.go:261-263) is
   * declared in package http and its one method is unexported; the responses' `error()` methods
   * are declared in package transport. Unexported names from different packages are different
   * names in Go, so no response implements errorer, the type assertion at line 270 always fails,
   * and every response is encoded as JSON with the default status 200. A business error thus
   * travels only inside the body.
   */
  function EncodeResponse(response: Response): (r: Reply)
    ensures r.status == StatusOK
    ensures r.body == JsonBody(response)
  {
    Reply(StatusOK, JsonBody(response))
  }

  /**
   * encodeResponse as its comments describe it (transport/http/service.go:257-260, 270-274):
   * a response whose `error()` is non-nil is sent as an error with codeFrom's status; any
   * other is encoded as JSON with status 200.
   */
  function EncodeResponseIntended(response: Response): (r: Reply)
    ensures r.body.ErrorBody? <==> response.ReportedError().Some?
    ensures response.ReportedError().Some? ==> r == EncodeError(response.ReportedError())
    ensures response.ReportedError().None? ==> r == Reply(StatusOK, JsonBody(response))
  {
    if response.ReportedError().Some? then EncodeError(response.ReportedError())
    else Reply(StatusOK, JsonBody(response))
  }

  /**
   * A lookup of a missing record, which the service reports as ErrQueryRepository, is answered
   * 200 by the encoder as written, and 500 by the intended one.
   */
  lemma BusinessErrorAnsweredOK()
    ensures EncodeResponse(GetPeopleByIDResponse(Zero, Some(ErrQueryRepository))).status == StatusOK
    ensures EncodeResponseIntended(GetPeopleByIDResponse(Zero, Some(ErrQueryRepository))).status
            == StatusInternalServerError
  {
  }

  /** decodePostPeopleRequest: a body the JSON decoder rejects fails the request with that error. */
  function DecodePostPeopleRequest(body: Result<People, string>): (r: Result<Request, Error>)
    ensures body.Ok? <==> r.Ok?
    ensures body.Ok? ==> r.value == PostPeopleRequest(body.value)
    ensures body.Err? ==> r.error == Other(body.error)
  {
    match body
    case Ok(p) => Ok(PostPeopleRequest(p))
    case Err(msg) => Err(Other(msg))
  }

  /** decodeGetPeopleByIDRequest: an unparsable path id fails with ErrBadRouting. */
  function DecodeGetPeopleByIDRequest(parsed: Option<Uuid>): (r: Result<Request, Error>)
    ensures parsed.None? <==> r == Err(ErrBadRouting)
    ensures parsed.Some? ==> r == Ok(GetPeopleByIDRequest(parsed.value))
  {
    match parsed
    case None => Err(ErrBadRouting)
    case Some(id) => Ok(GetPeopleByIDRequest(id))
  }

  /** decodePutPeopleRequest: the path id is checked before the body is read. */
  function DecodePutPeopleRequest(parsed: Option<Uuid>, body: Result<People, string>): (r: Result<Request, Error>)
    ensures parsed.None? <==> r == Err(ErrBadRouting)
    ensures parsed.Some? && body.Err? ==> r == Err(Other(body.error))
    ensures r.Ok? <==> parsed.Some? && body.Ok?
    ensures r.Ok? ==> r.value == PutPeopleRequest(parsed.value, body.value)
  {
    match parsed
    case None => Err(ErrBadRouting)
    case Some(id) =>
      match body
      case Err(msg) => Err(Other(msg))
      case Ok(p) => Ok(PutPeopleRequest(id, p))
  }

  /** decodePatchPeopleRequest: the path id is checked before the body is read. */
  function DecodePatchPeopleRequest(parsed: Option<Uuid>, body: Result<People, string>): (r: Result<Request, Error>)
    ensures parsed.None? <==> r == Err(ErrBadRouting)
    ensures parsed.Some? && body.Err? ==> r == Err(Other(body.error))
    ensures r.Ok? <==> parsed.Some? && body.Ok?
    ensures r.Ok? ==> r.value == PatchPeopleRequest(parsed.value, body.value)
  {
    match parsed
    case None => Err(ErrBadRouting)
    case Some(id) =>
      match body
      case Err(msg) => Err(Other(msg))
      case Ok(p) => Ok(PatchPeopleRequest(id, p))
  }

  /** decodeDeletePeopleRequest: an unparsable path id fails with ErrBadRouting. */
  function DecodeDeletePeopleRequest(parsed: Option<Uuid>): (r: Result<Request, Error>)
    ensures parsed.None? <==> r == Err(ErrBadRouting)
    ensures parsed.Some? ==> r == Ok(DeletePeopleRequest(parsed.value))
  {
    match parsed
    case None => Err(ErrBadRouting)
    case Some(id) => Ok(DeletePeopleRequest(id))
  }

  /**
   * One request through a go-kit server built by MakeHTTPHandler with the response encoder
   * `encode`: a decoder error, or an endpoint error, goes to the configured error encoder
   * (encodeError); otherwise the response goes to `encode`. `outcome` is what the endpoint
   * returned for the decoded request; it is not consulted when decoding failed.
   */
  function Serve(decoded: Result<Request, Error>, outcome: Outcome, encode: Response -> Reply): (r: Reply)
    ensures decoded.Err? ==> r == EncodeError(Some(decoded.error))
    ensures decoded.Ok? && outcome.err.None? ==> r == encode(outcome.response)
    ensures decoded.Ok? && outcome.err.Some? ==> r == EncodeError(outcome.err)
  {
    if decoded.Err? then EncodeError(Some(decoded.error))
    else if outcome.err.Some? then EncodeError(outcome.err)
    else encode(outcome.response)
  }
}
