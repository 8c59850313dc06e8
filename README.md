# Titanic person store — a Dafny model

This project models the core of the Titanic people service. That core is the in-process
(volatile) person store, the service layer that turns store results into the `titanic` error
sentinels, and the go-kit endpoints and HTTP encoders that turn results into replies.

Modules, one per source file or component:

- `Wrappers` (`wrappers.dfy`): `Option` for Go's nil pointers and nil errors, and `Result`.
- `Errors` (`errors.dfy`): Go's `error` values, closed over the identities the code creates or
  compares against. These are the five `titanic` sentinels, the in-memory store's own three,
  `sql.ErrNoRows`, `ErrBadRouting` and `Other(text)` for everything else. Errors compare by
  identity, so the store's `ErrNotFound` is not `titanic.ErrNotFound`, even though both say
  "not found".
- `Uuids` (`uuids.dfy`): a UUID is 16 bytes, and a store key is its canonical text
  (8-4-4-4-12 lower-case hex). The text is always 36 characters, and decoding it gives back the
  UUID. So keys never are empty, and distinct UUIDs have distinct keys.
- `Titanic` (`people.dfy`): the `People` record and `Validate`.
- `Inmemory` (`inmemory.dfy`): the merge rule `SetPeople` as a pure function with its algebra,
  and the store as a class `Repository` whose field `m: map<string, People>` the methods update.
- `Implementation` (`implementation.dfy`): the service's error translation.
- `Transport` (`transport.dfy`): request and response values, the responses' `error()` method,
  and the endpoint closures.
- `TransportHttp` (`transport_http.dfy`): `codeFrom`, `encodeError`, `encodeResponse` as written
  and as its comments intend it, the request decoders, and how the go-kit server wires them.
- `EndToEnd` (`endtoend.dfy`): each route from the repository's outcome to the HTTP reply, with
  the encoder as written and with the intended one. There are handlers that call the in-memory
  store, too.

Representation choices:

- The five pointer fields are `Option`s.
- `people.go` declares `Age` a plain `int`, while `setPeople` nil-checks it. The model follows
  `people.go`: `Age` is an `int`, and the merge takes the incoming `Age` when it is set, which
  means non-zero. Zero is the value the merge comment calls "not specified". `Name` and `Sex`
  are handled the same way, with the empty string as "not specified".
- `Fare` (`*float32`) is only copied, so it is kept as its 32-bit pattern.
- `uuid.New()` becomes a UUID parameter. `uuid.Parse` becomes its result, an `Option<Uuid>`.
  A JSON body becomes the decoder's result, a `Result<People, string>`.
- Each service method and endpoint is a function of what its callee returned. The in-memory
  handlers in `EndToEnd` supply that outcome from the store.

Behaviours of the code that the proofs make explicit:

- A PUT on a missing key stores the record with the zero UUID as its ID. The `p.ID = uuid`
  assignment (inmemory/respository.go:69) is discarded, because `setPeople` keeps `existing.ID`.
- The `ErrInconsistentID` guards of PUT and PATCH (inmemory/respository.go:60-62, 78-80) can
  never fire, because a UUID's text is never empty.
- `GetPeople` in the store never fails. Its slice starts non-nil, so the `p == nil` branch is dead.
- No response type implements the HTTP package's `errorer` interface. Its method `error()` is
  unexported and declared in package `http` (transport/http/service.go:261-263), while the
  responses' `error()` methods are declared in package `transport`. Go treats unexported names
  from different packages as different names. So the assertion in `encodeResponse`
  (transport/http/service.go:270) always fails, and every response is written as JSON with
  status 200. A business error such as "not found" reaches the client only as the `err` field of
  a 200 reply. The same holds for `encodeStatusResponse` (transport/http/service.go:290).
- A route therefore answers 500 exactly when its request fails to decode: an unparsable path id
  fails with `ErrBadRouting`, a bad body with the JSON decoder's error. The go-kit server hands
  both to `encodeError`, and `codeFrom` maps both to 500. Every decoded request is answered 200,
  with the record, id or list and the service's error in the body.
- Over the in-memory store a missing record is answered 200. GET carries the zero record and
  `ErrQueryRepository`, DELETE carries the requested id and `ErrQueryRepository`, and PATCH
  carries `ErrCmdRepository`. An id collision on POST is answered 200 with an empty id and
  `ErrCmdRepository`.
- With the intended encoder the status would follow the service's error: 404 only for
  `sql.ErrNoRows`, 500 for other errors. The service never produces `ErrAlreadyExists` or
  `ErrInconsistentIDs`, so no route would answer 400 even then. The in-memory store never
  reports `sql.ErrNoRows`, so with it no route would answer 404 either.
- `PutPeopleResponse.error()` is always nil. So a decodable PUT is answered 200 with either encoder.
- `Name`, `Sex` and `Age` have no absent state of their own. The merge treats their zero value
  as "not specified", so an update cannot set them to the empty string or to zero.
- No transaction-retry wrapper exists in this code. The durable store's `forceRetryLoop` is a
  test helper that nothing calls.

The HTTP decoders build their requests with a field `ID`, while the request types declare that
field as `UUID`. This affects `decodeGetPeopleByIDRequest`, `decodePutPeopleRequest`,
`decodePatchPeopleRequest` and `decodeDeletePeopleRequest` (transport/http/service.go:107,
122-125, 140-143 and 154), against the fields at transport/endpoints.go:136, 149, 163 and 175.
The endpoints read `req.UUID`. The model treats `ID` and `UUID` as one field.

## Model

| member | source | states |
|---|---|---|
| `Uuids.ToString` | inmemory/respository.go:42-45 | a record's key is its UUID's canonical 36-character text, with dashes at positions 8, 13, 18, 23 |
| `Uuids.FromStringToString` | inmemory/respository.go:52 | the key text determines the UUID: reading it back gives the UUID |
| `Uuids.ToStringInjective` | inmemory/respository.go:52 | distinct UUIDs have distinct keys, so records under distinct UUIDs never share a map entry |
| `Uuids.ToStringNonEmpty` | inmemory/respository.go:60-62 | a UUID's text is never empty, so the ErrInconsistentID guard cannot fire |
| `Titanic.Validate` | people.go:27-34 | the age message is reported iff Age >= 18 and the name message iff Name is empty; they are independent, at most one each, with the age message first |
| `Inmemory.SetPeople` | inmemory/respository.go:119-159 | each attribute comes from `p` iff `p` carries it (non-nil, non-empty, non-zero), else from `existing`; the ID always comes from `existing` |
| `Inmemory.SetPeopleIdempotent` | inmemory/respository.go:119-159 | applying the same update twice equals applying it once |
| `Inmemory.SetPeopleComposes` | inmemory/respository.go:119-159 | two successive updates equal one update with the second laid over the first |
| `Inmemory.SetPeopleCommutesOnDisjoint` | inmemory/respository.go:126-156 | updates that set disjoint attributes commute, so neither is lost |
| `Inmemory.SetPeopleNeverClears` | inmemory/respository.go:126-156 | the merged record carries exactly the attributes either side carried; an empty string or nil never clears a value |
| `Inmemory.SetPeopleEmptyUpdate` | inmemory/respository.go:126-156 | an update carrying no attribute leaves the record unchanged |
| `Inmemory.SetPeopleIgnoresIncomingId` | inmemory/respository.go:158 | the incoming record's ID never reaches the result |
| `Inmemory.SetPeopleOntoZero` | inmemory/respository.go:67-72 | merging onto the zero record gives the incoming record with the zero UUID as ID |
| `Inmemory.Repository.constructor` | inmemory/respository.go:27-32 | a new store is empty |
| `Inmemory.Repository.PostPeople` | inmemory/respository.go:34-47 | a free key gets `p` with ID set to the fresh id, and its text is returned; a taken key yields ("", ErrAlreadyExists) with the map unchanged |
| `Inmemory.Repository.GetPeopleByID` | inmemory/respository.go:49-57 | the stored record iff the key is present, else the zero record and ErrNotFound; nothing changes |
| `Inmemory.Repository.PutPeople` | inmemory/respository.go:59-75 | never fails; only the target key changes; a stored record is merged with `p`, a missing one becomes `p` with the zero UUID |
| `Inmemory.Repository.PatchPeople` | inmemory/respository.go:77-92 | a missing key yields ErrNotFound with the map unchanged; a stored record is merged with `p` and keeps its ID; only that key changes |
| `Inmemory.Repository.DeletePeople` | inmemory/respository.go:94-102 | the requested key's text is always returned; a missing key yields ErrNotFound with the map unchanged, else exactly that key is removed |
| `Inmemory.Repository.GetPeople` | inmemory/respository.go:104-117 | never fails; one element per stored record, in a repetition-free key order covering every key |
| `Inmemory.DeletionIsTerminal` | inmemory/respository.go:94-102 | after a successful delete, a lookup and a second delete both fail with ErrNotFound |
| `Inmemory.PutIsIdempotent` | inmemory/respository.go:59-75 | PUT twice with the same record leaves the same state as once, and a lookup then finds it |
| `Inmemory.PatchIsLocal` | inmemory/respository.go:77-92 | a PATCH of one UUID leaves the lookup of every other UUID as it was, record and error, and leaves its presence unchanged |
| `Implementation.QueryError` | implementation/service.go:55-58 | ErrNoRows becomes ErrNotFound and every other error ErrQueryRepository |
| `Implementation.PostPeople` | implementation/service.go:35-48 | the repository's id is returned unchanged; the error is nil iff the repository's was, else ErrCmdRepository |
| `Implementation.GetPeopleByID` | implementation/service.go:50-61 | the record passes through; ErrNoRows becomes ErrNotFound, any other error ErrQueryRepository, nil stays nil |
| `Implementation.CommandError` | implementation/service.go:65-68 | any repository error becomes ErrCmdRepository, nil stays nil |
| `Implementation.PutPeople` | implementation/service.go:63-70 | any repository error becomes ErrCmdRepository, nil stays nil |
| `Implementation.PatchPeople` | implementation/service.go:72-79 | any repository error becomes ErrCmdRepository, nil stays nil |
| `Implementation.DeletePeople` | implementation/service.go:81-92 | on error the requested UUID's text is returned, with ErrNotFound for ErrNoRows and ErrQueryRepository otherwise; on success the repository's id and nil |
| `Implementation.GetPeople` | implementation/service.go:94-105 | the list passes through; ErrNoRows becomes ErrNotFound, any other error ErrQueryRepository |
| `Implementation.NoRawErrorEscapes` | implementation/service.go:43-104 | every error any service method returns is one of the titanic sentinels |
| `Implementation.InmemErrorsNeverNotFound` | implementation/service.go:50-61 | an in-memory store error surfaces as ErrQueryRepository (lookup, delete, list) or ErrCmdRepository (post, patch), never as ErrNotFound |
| `Transport.Response.ReportedError` | transport/endpoints.go:126-206 | `error()` is the Err field for every response type except PutPeopleResponse, for which it is always nil |
| `Transport.PostPeopleEndpoint` | transport/endpoints.go:39-45 | nil endpoint error; the response carries the service's id and reports its error |
| `Transport.GetPeopleByIDEndpoint` | transport/endpoints.go:49-55 | nil endpoint error; the record is carried even when the error is set |
| `Transport.PutPeopleEndpoint` | transport/endpoints.go:59-65 | nil endpoint error; the service error is stored but not reported |
| `Transport.PatchPeopleEndpoint` | transport/endpoints.go:69-75 | nil endpoint error; the response reports the service error |
| `Transport.DeletePeopleEndpoint` | transport/endpoints.go:79-85 | nil endpoint error; the id is carried even when the error is set |
| `Transport.GetPeopleEndpoint` | transport/endpoints.go:89-95 | nil endpoint error; the response carries the list and reports the error |
| `Transport.GetAPIStatusEndpoint` | transport/endpoints.go:99-104 | no service call; status "Healthy" with a nil error |
| `TransportHttp.CodeFrom` | transport/http/service.go:334-343 | 404 iff ErrNotFound, 400 iff ErrAlreadyExists or ErrInconsistentIDs, 500 for every other error |
| `TransportHttp.EncodeError` | transport/http/service.go:323-332 | requires a non-nil error; the status is codeFrom's (never 200) and the body carries the error's message |
| `TransportHttp.EncodeResponse` | transport/http/service.go:269-285 | as written, every response is answered 200 with the response as JSON body, since no response implements `errorer` |
| `TransportHttp.EncodeResponseIntended` | transport/http/service.go:256-275 | as the comments intend: the reply is an error reply iff `error()` is non-nil, with codeFrom's status; otherwise 200 with the response as body |
| `TransportHttp.BusinessErrorAnsweredOK` | transport/http/service.go:269-275 | a lookup answered with ErrQueryRepository gets 200 from the encoder as written and 500 from the intended one |
| `TransportHttp.DecodePostPeopleRequest` | transport/http/service.go:91-97 | a request iff the body decodes, else the decoder's error |
| `TransportHttp.DecodeGetPeopleByIDRequest` | transport/http/service.go:99-108 | ErrBadRouting iff the path id does not parse, else a request for that UUID |
| `TransportHttp.DecodePutPeopleRequest` | transport/http/service.go:110-126 | ErrBadRouting iff the id does not parse; then the body's error; a request iff both decode |
| `TransportHttp.DecodePatchPeopleRequest` | transport/http/service.go:128-144 | ErrBadRouting iff the id does not parse; then the body's error; a request iff both decode |
| `TransportHttp.DecodeDeletePeopleRequest` | transport/http/service.go:146-155 | ErrBadRouting iff the path id does not parse, else a request for that UUID |
| `TransportHttp.Serve` | transport/http/service.go:30-36 | a decoder or endpoint error is answered by encodeError, anything else by the response encoder the server was built with |
| `EndToEnd.PostPeopleRoute` | transport/http/service.go:46-51 | 500 with the decoder's message iff the body does not decode; otherwise 200 with the repository's id, and ErrCmdRepository in the body iff the repository failed |
| `EndToEnd.GetPeopleByIDRoute` | transport/http/service.go:52-57 | 500 with ErrBadRouting iff the id does not parse; otherwise 200 with the record and the service's error in the body |
| `EndToEnd.PutPeopleRoute` | transport/http/service.go:58-63 | 500 only when the request does not decode; otherwise 200 whatever the repository reports |
| `EndToEnd.PatchPeopleRoute` | transport/http/service.go:64-69 | 500 iff the request does not decode; otherwise 200, with ErrCmdRepository in the body iff the repository failed |
| `EndToEnd.DeletePeopleRoute` | transport/http/service.go:70-75 | 500 with ErrBadRouting iff the id does not parse; otherwise 200 with the service's id and error in the body |
| `EndToEnd.GetPeopleRoute` | transport/http/service.go:76-81 | always 200, with the list and the service's error in the body |
| `EndToEnd.GetAPIStatusRoute` | transport/http/service.go:82-87 | always 200 with status "Healthy" |
| `EndToEnd.DecodedRequestsAnswered200` | transport/http/service.go:269-285 | every route answers a decoded request 200, whatever the repository reports |
| `EndToEnd.PostPeopleRouteIntended` | transport/endpoints.go:106-119 | with the intended encoder: 200 with the id, or 500 for an undecodable body or any repository error |
| `EndToEnd.GetPeopleByIDRouteIntended` | transport/endpoints.go:106-119 | with the intended encoder: 500 for an unparsable id; 200 when the repository succeeds, 404 only for ErrNoRows, else 500 |
| `EndToEnd.PutPeopleRouteIntended` | transport/endpoints.go:106-119 | with the intended encoder: still 500 only when the request does not decode, else 200 |
| `EndToEnd.PatchPeopleRouteIntended` | transport/endpoints.go:106-119 | with the intended encoder: 200 iff the request decodes and the repository succeeds, else 500 |
| `EndToEnd.DeletePeopleRouteIntended` | transport/endpoints.go:106-119 | with the intended encoder: 500 for an unparsable id; 200 on success, 404 only for ErrNoRows, else 500 |
| `EndToEnd.GetPeopleRouteIntended` | transport/endpoints.go:106-119 | with the intended encoder: 200 with the list on success, 404 only for ErrNoRows, else 500 |
| `EndToEnd.InmemoryAnswersOnly200Or500` | transport/http/service.go:334-343 | even with the intended encoder, the in-memory store's errors make every route answer 200 or 500, never 400 or 404 |
| `EndToEnd.HandleGetPeopleByID` | inmemory/respository.go:49-57 | over the in-memory store: 200 with the stored record when present, else 200 with the zero record and ErrQueryRepository; 500 for an unparsable id |
| `EndToEnd.HandleGetPeople` | inmemory/respository.go:104-117 | over the in-memory store: always 200 with no error, listing each stored record exactly once in a repetition-free key order covering every key |
| `EndToEnd.HandlePostPeople` | implementation/service.go:35-48 | over the in-memory store: the service's own fresh id is overwritten by the store's, which is stored and returned with 200; a collision is 200 with an empty id and ErrCmdRepository, a bad body 500, both with the map unchanged |
| `EndToEnd.HandlePutPeople` | inmemory/respository.go:59-75 | over the in-memory store: a decodable PUT is stored (merged, or created with the zero UUID) and answered 200 |
| `EndToEnd.HandlePatchPeople` | inmemory/respository.go:77-92 | over the in-memory store: a missing record is answered 200 with ErrCmdRepository and the map unchanged; a stored one is merged and answered 200 with no error |
| `EndToEnd.HandleDeletePeople` | inmemory/respository.go:94-102 | over the in-memory store: a missing record is answered 200 with its id and ErrQueryRepository; a stored one is removed and answered 200 with its id and no error |

## Left out

- The durable store (cockroachdb/respository.go) is left out. Each of its operations is one ORM
  call whose meaning lives in the ORM. Its `forceRetryLoop` is an unused test helper, and the
  code has no transaction-retry wrapper to model.
- The store's read/write mutex is left out. Each repository method is modelled as one atomic step.
- Logging (middleware/logging.go, middleware/service.go, the service's logger calls) is left out.
  It only passes calls through.
- Process wiring, flags, the database connection and signal handling (cmd/titanic/main.go) are left out.
- transport/requestsresponse.go is not part of this model. It re-declares the response types of
  transport/endpoints.go with the same `error()` behaviour.
- UUID generation and parsing are library calls and are left out. The results enter as parameters.
- JSON encoding and decoding, the mux router, header writes and the client-side
  `encode*Request`/`decode*Response` helpers are left out.
- The elapsed-time check in `encodeStatusResponse` reads the clock and is left out. Its `errorer`
  branch is dead for the same reason as in `encodeResponse`. `GetAPIStatusRoute` uses `EncodeResponse`
  and answers 200.
- The JSON form of a response's `err` field is not modelled; a reply body holds the response value.
  An `errors.New` value has no exported fields and would be written as an empty object.
- Context arguments and cancellation are left out. No shown code reads them.
- The endpoints' type assertions on the request (`request.(PostPeopleRequest)`) are left out. The
  router always pairs a decoder with its own endpoint, so they cannot fail.
- `Pclass` and `Age` are unbounded integers. The code only copies and compares them, so Go's
  64-bit width never matters.
- Go's nil-versus-empty slice distinction is not modelled. It only decides the dead branch in `GetPeople`.
- Inmemory.Repository.GetPeople: the map's iteration order is random in Go. The model exposes the
  order it used as a ghost output and says nothing about which order that is.

## Findings

| source | as written | input that shows it | evidently intended | confidence | as-written member | corrected member |
|---|---|---|---|---|---|---|
| transport/http/service.go:261-275 | `errorer`'s method is unexported and declared in package `http`, so no `transport` response implements it; every response is answered 200 | GET /people/{uuid} for a parsable UUID that is not stored, over the in-memory store: the response carries the zero record and ErrQueryRepository and is answered 200 | a response whose `error()` is non-nil is answered by `encodeError` with codeFrom's status (500 here, 404 for ErrNotFound), as the comments at transport/http/service.go:256-259 and transport/endpoints.go:106-119 describe | not executed | `TransportHttp.BusinessErrorAnsweredOK` | `TransportHttp.EncodeResponseIntended` |
