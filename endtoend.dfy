/**
 * Each HTTP route from the repository's outcome to the reply: decoder, service translation,
 * endpoint, encoder, as MakeHTTPHandler mounts them over NewService. The route functions take
 * the outcome of the repository call; the handlers obtain it from the in-memory store.
 *
 * With the response encoder as written (TransportHttp.EncodeResponse) a route answers 500 exactly
 * when its request fails to decode and 200 otherwise, the service's error riding in the body.
 * The *Intended routes mount TransportHttp.EncodeResponseIntended instead, the encoder the
 * comments describe, under which the service's error decides the status.
 */
module EndToEnd {
  import opened Wrappers
  import opened Uuids
  import opened Errors
  import opened Titanic
  import Inmemory
  import Implementation
  import opened Transport
  import opened TransportHttp

  /** The reply to a request whose UUID path variable does not parse. */
  const BadRouting := Reply(StatusInternalServerError, ErrorBody(ErrBadRouting.Message()))

  /** POST /people/: 500 for a body that does not decode; otherwise 200 with the service's id and error. */
  function PostPeopleRoute(body: Result<People, string>, repoId: string, repoErr: Option<Error>): (r: Reply)
    ensures r.status == StatusInternalServerError <==> body.Err?
    ensures body.Err? ==> r == Reply(StatusInternalServerError, ErrorBody(body.error))
    ensures body.Ok? && repoErr.None? ==> r == Reply(StatusOK, JsonBody(PostPeopleResponse(repoId, None)))
    ensures body.Ok? && repoErr.Some? ==>
      r == Reply(StatusOK, JsonBody(PostPeopleResponse(repoId, Some(ErrCmdRepository))))
  {
    var (id, e) := Implementation.PostPeople(repoId, repoErr);
    Serve(DecodePostPeopleRequest(body), PostPeopleEndpoint(id, e), EncodeResponse)
  }

  /** GET /people/{uuid}: 500 for a UUID that does not parse; otherwise 200 with the record and the service's error. */
  function GetPeopleByIDRoute(parsed: Option<Uuid>, repoPeople: People, repoErr: Option<Error>): (r: Reply)
    ensures r.status == StatusInternalServerError <==> parsed.None?
    ensures parsed.None? ==> r == BadRouting
    ensures parsed.Some? ==>
      r == Reply(StatusOK, JsonBody(GetPeopleByIDResponse(repoPeople, Implementation.GetPeopleByID(repoPeople, repoErr).1)))
  {
    var (p, e) := Implementation.GetPeopleByID(repoPeople, repoErr);
    Serve(DecodeGetPeopleByIDRequest(parsed), GetPeopleByIDEndpoint(p, e), EncodeResponse)
  }

  /** PUT /people/{uuid}: 500 for a request that does not decode; otherwise 200, whatever the repository reports. */
  function PutPeopleRoute(parsed: Option<Uuid>, body: Result<People, string>, repoErr: Option<Error>): (r: Reply)
    ensures r.status == (if parsed.None? || body.Err? then StatusInternalServerError else StatusOK)
    ensures parsed.None? ==> r == BadRouting
    ensures parsed.Some? && body.Ok? ==> r.body == JsonBody(PutPeopleResponse(Implementation.PutPeople(repoErr)))
  {
    Serve(DecodePutPeopleRequest(parsed, body), PutPeopleEndpoint(Implementation.PutPeople(repoErr)), EncodeResponse)
  }

  /** PATCH /people/{uuid}: 500 for a request that does not decode; otherwise 200 with the service's error. */
  function PatchPeopleRoute(parsed: Option<Uuid>, body: Result<People, string>, repoErr: Option<Error>): (r: Reply)
    ensures r.status == StatusInternalServerError <==> parsed.None? || body.Err?
    ensures parsed.None? ==> r == BadRouting
    ensures parsed.Some? && body.Ok? ==>
      r == Reply(StatusOK, JsonBody(PatchPeopleResponse(if repoErr.None? then None else Some(ErrCmdRepository))))
  {
    Serve(DecodePatchPeopleRequest(parsed, body), PatchPeopleEndpoint(Implementation.PatchPeople(repoErr)), EncodeResponse)
  }

  /** DELETE /people/{uuid}: 500 for a UUID that does not parse; otherwise 200 with the service's id and error. */
  function DeletePeopleRoute(parsed: Option<Uuid>, repoId: string, repoErr: Option<Error>): (r: Reply)
    ensures r.status == StatusInternalServerError <==> parsed.None?
    ensures parsed.None? ==> r == BadRouting
    ensures parsed.Some? ==>
      r == Reply(StatusOK, JsonBody(DeletePeopleResponse(Implementation.DeletePeople(parsed.value, repoId, repoErr).0,
                                                         Implementation.DeletePeople(parsed.value, repoId, repoErr).1)))
  {
    var uuid := if parsed.Some? then parsed.value else Nil;
    var (id, e) := Implementation.DeletePeople(uuid, repoId, repoErr);
    Serve(DecodeDeletePeopleRequest(parsed), DeletePeopleEndpoint(id, e), EncodeResponse)
  }

  /** GET /people/: always 200, with the list and the service's error. */
  function GetPeopleRoute(repoPeople: seq<People>, repoErr: Option<Error>): (r: Reply)
    ensures r.status == StatusOK
    ensures r.body == JsonBody(GetPeopleResponse(repoPeople, Implementation.GetPeople(repoPeople, repoErr).1))
  {
    var (all, e) := Implementation.GetPeople(repoPeople, repoErr);
    Serve(Ok(GetPeopleRequest), GetPeopleEndpoint(all, e), EncodeResponse)
  }

  /** GET /: always 200 and healthy (the elapsed-time check is not modelled). */
  function GetAPIStatusRoute(): (r: Reply)
    ensures r == Reply(StatusOK, JsonBody(GetAPIStatusResponse("Healthy", None)))
  {
    Serve(Ok(GetAPIStatusRequest), GetAPIStatusEndpoint(), EncodeResponse)
  }

  /** A decoded request is never answered with an error status, whatever the repository reports. */
  lemma DecodedRequestsAnswered200(uuid: Uuid, people: People, id: string, all: seq<People>, repoErr: Option<Error>)
    ensures PostPeopleRoute(Ok(people), id, repoErr).status == StatusOK
    ensures GetPeopleByIDRoute(Some(uuid), people, repoErr).status == StatusOK
    ensures PutPeopleRoute(Some(uuid), Ok(people), repoErr).status == StatusOK
    ensures PatchPeopleRoute(Some(uuid), Ok(people), repoErr).status == StatusOK
    ensures DeletePeopleRoute(Some(uuid), id, repoErr).status == StatusOK
    ensures GetPeopleRoute(all, repoErr).status == StatusOK
  {
  }

  /** POST /people/ with the intended encoder: 200 with the id, or 500 for a bad body or any repository error. */
  function PostPeopleRouteIntended(body: Result<People, string>, repoId: string, repoErr: Option<Error>): (r: Reply)
    ensures r.status == (if body.Err? || repoErr.Some? then StatusInternalServerError else StatusOK)
    ensures body.Ok? && repoErr.None? ==> r.body == JsonBody(PostPeopleResponse(repoId, None))
  {
    var (id, e) := Implementation.PostPeople(repoId, repoErr);
    Serve(DecodePostPeopleRequest(body), PostPeopleEndpoint(id, e), EncodeResponseIntended)
  }

  /** GET /people/{uuid} with the intended encoder: 200 with the record, 404 only for ErrNoRows, 500 otherwise. */
  function GetPeopleByIDRouteIntended(parsed: Option<Uuid>, repoPeople: People, repoErr: Option<Error>): (r: Reply)
    ensures r.status == (if parsed.None? then StatusInternalServerError
                         else if repoErr.None? then StatusOK
                         else if repoErr == Some(SqlErrNoRows) then StatusNotFound
                         else StatusInternalServerError)
    ensures parsed.Some? && repoErr.None? ==> r.body == JsonBody(GetPeopleByIDResponse(repoPeople, None))
  {
    var (p, e) := Implementation.GetPeopleByID(repoPeople, repoErr);
    Serve(DecodeGetPeopleByIDRequest(parsed), GetPeopleByIDEndpoint(p, e), EncodeResponseIntended)
  }

  /** PUT /people/{uuid} with the intended encoder: still 200 once decoded, since the Put response reports no error. */
  function PutPeopleRouteIntended(parsed: Option<Uuid>, body: Result<People, string>, repoErr: Option<Error>): (r: Reply)
    ensures r.status == (if parsed.None? || body.Err? then StatusInternalServerError else StatusOK)
    ensures parsed.Some? && body.Ok? ==> r.body == JsonBody(PutPeopleResponse(Implementation.PutPeople(repoErr)))
  {
    Serve(DecodePutPeopleRequest(parsed, body), PutPeopleEndpoint(Implementation.PutPeople(repoErr)), EncodeResponseIntended)
  }

  /** PATCH /people/{uuid} with the intended encoder: 200 on success; any repository error is 500. */
  function PatchPeopleRouteIntended(parsed: Option<Uuid>, body: Result<People, string>, repoErr: Option<Error>): (r: Reply)
    ensures r.status == (if parsed.None? || body.Err? || repoErr.Some? then StatusInternalServerError else StatusOK)
  {
    Serve(DecodePatchPeopleRequest(parsed, body), PatchPeopleEndpoint(Implementation.PatchPeople(repoErr)), EncodeResponseIntended)
  }

  /** DELETE /people/{uuid} with the intended encoder: 200 with the id, 404 only for ErrNoRows, 500 otherwise. */
  function DeletePeopleRouteIntended(parsed: Option<Uuid>, repoId: string, repoErr: Option<Error>): (r: Reply)
    ensures r.status == (if parsed.None? then StatusInternalServerError
                         else if repoErr.None? then StatusOK
                         else if repoErr == Some(SqlErrNoRows) then StatusNotFound
                         else StatusInternalServerError)
    ensures parsed.Some? && repoErr.None? ==> r.body == JsonBody(DeletePeopleResponse(repoId, None))
  {
    var uuid := if parsed.Some? then parsed.value else Nil;
    var (id, e) := Implementation.DeletePeople(uuid, repoId, repoErr);
    Serve(DecodeDeletePeopleRequest(parsed), DeletePeopleEndpoint(id, e), EncodeResponseIntended)
  }

  /** GET /people/ with the intended encoder: 200 with the list, 404 only for ErrNoRows, 500 otherwise. */
  function GetPeopleRouteIntended(repoPeople: seq<People>, repoErr: Option<Error>): (r: Reply)
    ensures r.status == (if repoErr.None? then StatusOK
                         else if repoErr == Some(SqlErrNoRows) then StatusNotFound
                         else StatusInternalServerError)
    ensures repoErr.None? ==> r.body == JsonBody(GetPeopleResponse(repoPeople, None))
  {
    var (all, e) := Implementation.GetPeople(repoPeople, repoErr);
    Serve(Ok(GetPeopleRequest), GetPeopleEndpoint(all, e), EncodeResponseIntended)
  }

  /**
   * Even with the intended encoder no route answers 400: the service never produces
   * ErrAlreadyExists or ErrInconsistentIDs. Over the in-memory store, whose errors are never
   * ErrNoRows, no route answers 404 either.
   */
  lemma InmemoryAnswersOnly200Or500(parsed: Option<Uuid>, body: Result<People, string>, id: string,
                                    people: People, all: seq<People>, repoErr: Option<Error>)
    requires repoErr.Some? ==> repoErr.value.IsInmem()
    ensures PostPeopleRouteIntended(body, id, repoErr).status in {StatusOK, StatusInternalServerError}
    ensures GetPeopleByIDRouteIntended(parsed, people, repoErr).status in {StatusOK, StatusInternalServerError}
    ensures PutPeopleRouteIntended(parsed, body, repoErr).status in {StatusOK, StatusInternalServerError}
    ensures PatchPeopleRouteIntended(parsed, body, repoErr).status in {StatusOK, StatusInternalServerError}
    ensures DeletePeopleRouteIntended(parsed, id, repoErr).status in {StatusOK, StatusInternalServerError}
    ensures GetPeopleRouteIntended(all, repoErr).status in {StatusOK, StatusInternalServerError}
  {
  }

  /**
   * GET /people/{uuid} over the in-memory store: 200 with the stored record; for a missing
   * record, 200 with the zero record and ErrQueryRepository in the body.
   */
  method HandleGetPeopleByID(r: Inmemory.Repository, parsed: Option<Uuid>) returns (reply: Reply)
    ensures parsed.None? ==> reply == BadRouting
    ensures parsed.Some? && ToString(parsed.value) in r.m ==>
      reply == Reply(StatusOK, JsonBody(GetPeopleByIDResponse(r.m[ToString(parsed.value)], None)))
    ensures parsed.Some? && ToString(parsed.value) !in r.m ==>
      reply == Reply(StatusOK, JsonBody(GetPeopleByIDResponse(Zero, Some(ErrQueryRepository))))
  {
    var p, e := Zero, None;
    if parsed.Some? {
      p, e := r.GetPeopleByID(parsed.value);
    }
    reply := GetPeopleByIDRoute(parsed, p, e);
  }

  /**
   * GET /people/ over the in-memory store: always 200 with no error, listing every stored
   * record once, in the order of the keys in `order`.
   */
  method HandleGetPeople(r: Inmemory.Repository) returns (reply: Reply, ghost order: seq<string>)
    ensures reply.status == StatusOK
    ensures reply.body.JsonBody? && reply.body.response.GetPeopleResponse? && reply.body.response.err.None?
    ensures |reply.body.response.all| == |order| == |r.m|
    ensures forall i :: 0 <= i < |order| ==> order[i] in r.m && reply.body.response.all[i] == r.m[order[i]]
    ensures forall k :: k in r.m ==> k in order
    ensures forall i, j :: 0 <= i < j < |order| ==> order[i] != order[j]
  {
    var all, e;
    all, e, order := r.GetPeople();
    reply := GetPeopleRoute(all, e);
  }

  /**
   * POST /people/ over the in-memory store. The service stamps its own fresh id on the record
   * (implementation/service.go:37-39) and the store then overwrites it with another, which is
   * the one stored and returned. An id collision is answered 200 with an empty id and
   * ErrCmdRepository in the body, the store unchanged.
   */
  method HandlePostPeople(r: Inmemory.Repository, body: Result<People, string>, serviceId: Uuid, storeId: Uuid)
    returns (reply: Reply)
    modifies r
    ensures body.Err? ==> reply == Reply(StatusInternalServerError, ErrorBody(body.error)) && r.m == old(r.m)
    ensures body.Ok? && ToString(storeId) in old(r.m) ==>
      reply == Reply(StatusOK, JsonBody(PostPeopleResponse("", Some(ErrCmdRepository)))) && r.m == old(r.m)
    ensures body.Ok? && ToString(storeId) !in old(r.m) ==>
      reply == Reply(StatusOK, JsonBody(PostPeopleResponse(ToString(storeId), None)))
      && r.m == old(r.m)[ToString(storeId) := body.value.(id := storeId)]
  {
    var key, e := "", None;
    if body.Ok? {
      key, e := r.PostPeople(body.value.(id := serviceId), storeId);
    }
    reply := PostPeopleRoute(body, key, e);
  }

  /** PUT /people/{uuid} over the in-memory store: a decodable request is stored and answered 200. */
  method HandlePutPeople(r: Inmemory.Repository, parsed: Option<Uuid>, body: Result<People, string>)
    returns (reply: Reply)
    modifies r
    ensures !(parsed.Some? && body.Ok?) ==> reply.status == StatusInternalServerError && r.m == old(r.m)
    ensures parsed.Some? && body.Ok? ==> reply == Reply(StatusOK, JsonBody(PutPeopleResponse(None)))
    ensures parsed.Some? && body.Ok? ==>
      var key := ToString(parsed.value);
      r.m == old(r.m)[key := if key in old(r.m) then Inmemory.SetPeople(body.value, old(r.m)[key])
                             else body.value.(id := Nil)]
  {
    var e := None;
    if parsed.Some? && body.Ok? {
      e := r.PutPeople(parsed.value, body.value);
    }
    reply := PutPeopleRoute(parsed, body, e);
  }

  /**
   * PATCH /people/{uuid} over the in-memory store: a missing record is answered 200 with
   * ErrCmdRepository in the body and leaves the store unchanged.
   */
  method HandlePatchPeople(r: Inmemory.Repository, parsed: Option<Uuid>, body: Result<People, string>)
    returns (reply: Reply)
    modifies r
    ensures !(parsed.Some? && body.Ok?) ==> reply.status == StatusInternalServerError && r.m == old(r.m)
    ensures parsed.Some? && body.Ok? && ToString(parsed.value) !in old(r.m) ==>
      reply == Reply(StatusOK, JsonBody(PatchPeopleResponse(Some(ErrCmdRepository)))) && r.m == old(r.m)
    ensures parsed.Some? && body.Ok? && ToString(parsed.value) in old(r.m) ==>
      reply == Reply(StatusOK, JsonBody(PatchPeopleResponse(None)))
      && r.m == old(r.m)[ToString(parsed.value) := Inmemory.SetPeople(body.value, old(r.m)[ToString(parsed.value)])]
  {
    var e := None;
    if parsed.Some? && body.Ok? {
      e := r.PatchPeople(parsed.value, body.value);
    }
    reply := PatchPeopleRoute(parsed, body, e);
  }

  /**
   * DELETE /people/{uuid} over the in-memory store: a missing record is answered 200 with the
   * requested id and ErrQueryRepository in the body.
   */
  method HandleDeletePeople(r: Inmemory.Repository, parsed: Option<Uuid>) returns (reply: Reply)
    modifies r
    ensures parsed.None? ==> reply == BadRouting && r.m == old(r.m)
    ensures parsed.Some? && ToString(parsed.value) !in old(r.m) ==>
      reply == Reply(StatusOK, JsonBody(DeletePeopleResponse(ToString(parsed.value), Some(ErrQueryRepository))))
      && r.m == old(r.m)
    ensures parsed.Some? && ToString(parsed.value) in old(r.m) ==>
      reply == Reply(StatusOK, JsonBody(DeletePeopleResponse(ToString(parsed.value), None)))
      && r.m == old(r.m) - {ToString(parsed.value)}
  {
    var key, e := "", None;
    if parsed.Some? {
      key, e := r.DeletePeople(parsed.value);
    }
    reply := DeletePeopleRoute(parsed, key, e);
  }
}
