/**
 * The go-kit endpoints (transport/endpoints.go). An endpoint calls one service method and wraps
 * its results in a response; here it takes what the service returned. A business error
 * travels inside the response, never as the endpoint's own error.
 */
module Transport {
  import opened Wrappers
  import opened Uuids
  import opened Errors
  import opened Titanic

  /** The request values the HTTP decoders produce and the endpoints consume. */
  datatype Request =
    | PostPeopleRequest(people: People)
    | GetPeopleByIDRequest(uuid: Uuid)
    | PutPeopleRequest(uuid: Uuid, people: People)
    | PatchPeopleRequest(uuid: Uuid, people: People)
    | DeletePeopleRequest(uuid: Uuid)
    | GetPeopleRequest
    | GetAPIStatusRequest

  /** The response values. Each has an `error()` method declared in this package (see ReportedError). */
  datatype Response =
    | PostPeopleResponse(id: string, err: Option<Error>)
    | GetPeopleByIDResponse(people: People, err: Option<Error>)
    | PutPeopleResponse(err: Option<Error>)
    | PatchPeopleResponse(err: Option<Error>)
    | DeletePeopleResponse(id: string, err: Option<Error>)
    | GetPeopleResponse(all: seq<People>, err: Option<Error>)
    | GetAPIStatusResponse(status: string, err: Option<Error>)
  {
    /** The response's `error()` method: its Err field, except that PutPeopleResponse always reports nil. */
    function ReportedError(): (e: Option<Error>)
      ensures PutPeopleResponse? ==> e.None?
      ensures !PutPeopleResponse? ==> e == err
    {
      match this
      case PutPeopleResponse(_) => None
      case _ => err
    }
  }

  /** What an endpoint returns: a response and the endpoint (transport-level) error. */
  datatype Outcome = Outcome(response: Response, err: Option<Error>)

  /** MakePostPeopleEndpoint's closure, given the service's (id, error). */
  function PostPeopleEndpoint(id: string, e: Option<Error>): (r: Outcome)
    ensures r.err.None?
    ensures r.response.PostPeopleResponse? && r.response.id == id && r.response.ReportedError() == e
  {
    Outcome(PostPeopleResponse(id, e), None)
  }

  /** MakeGetPeopleByIDEndpoint's closure: the record is carried even when an error is set. */
  function GetPeopleByIDEndpoint(p: People, e: Option<Error>): (r: Outcome)
    ensures r.err.None?
    ensures r.response.GetPeopleByIDResponse? && r.response.people == p && r.response.ReportedError() == e
  {
    Outcome(GetPeopleByIDResponse(p, e), None)
  }

  /** MakePutPeopleEndpoint's closure: the service error is stored but never reported. */
  function PutPeopleEndpoint(e: Option<Error>): (r: Outcome)
    ensures r.err.None?
    ensures r.response.PutPeopleResponse? && r.response.err == e && r.response.ReportedError().None?
  {
    Outcome(PutPeopleResponse(e), None)
  }

  /** MakePatchPeopleEndpoint's closure. */
  function PatchPeopleEndpoint(e: Option<Error>): (r: Outcome)
    ensures r.err.None?
    ensures r.response.PatchPeopleResponse? && r.response.ReportedError() == e
  {
    Outcome(PatchPeopleResponse(e), None)
  }

  /** MakeDeletePeopleEndpoint's closure: the id is carried even when an error is set. */
  function DeletePeopleEndpoint(id: string, e: Option<Error>): (r: Outcome)
    ensures r.err.None?
    ensures r.response.DeletePeopleResponse? && r.response.id == id && r.response.ReportedError() == e
  {
    Outcome(DeletePeopleResponse(id, e), None)
  }

  /** MakeGetPeopleEndpoint's closure. */
  function GetPeopleEndpoint(all: seq<People>, e: Option<Error>): (r: Outcome)
    ensures r.err.None?
    ensures r.response.GetPeopleResponse? && r.response.all == all && r.response.ReportedError() == e
  {
    Outcome(GetPeopleResponse(all, e), None)
  }

  /** MakeGetAPIStatusEndpoint's closure: no service call, always healthy. */
  function GetAPIStatusEndpoint(): (r: Outcome)
    ensures r.err.None?
    ensures r.response.GetAPIStatusResponse? && r.response.status == "Healthy"
    ensures r.response.ReportedError().None?
  {
    Outcome(GetAPIStatusResponse("Healthy", None), None)
  }
}
