/**
 * The service layer (implementation/service.go): each method makes one repository call and
 * translates its error. The repository call is the injected dependency, so each function here
 * takes what the repository returned and yields what the service returns.
 */
module Implementation {
  import opened Wrappers
  import opened Uuids
  import opened Errors
  import opened Titanic

  /** The error a query reports for a failed repository call: ErrNoRows is "not found", the rest is opaque. */
  function QueryError(repoErr: Error): (e: Error)
    ensures e.IsSentinel()
    ensures e == ErrNotFound <==> repoErr == SqlErrNoRows
    ensures e == ErrQueryRepository <==> repoErr != SqlErrNoRows
  {
    if repoErr == SqlErrNoRows then ErrNotFound else ErrQueryRepository
  }

  /** PostPeople: the repository's id is returned as is; any repository error becomes ErrCmdRepository. */
  function PostPeople(repoId: string, repoErr: Option<Error>): (r: (string, Option<Error>))
    ensures r.0 == repoId
    ensures r.1.None? <==> repoErr.None?
    ensures r.1.Some? ==> r.1.value == ErrCmdRepository
  {
    if repoErr.Some? then (repoId, Some(ErrCmdRepository)) else (repoId, repoErr)
  }

  /** GetPeopleByID: the record passes through; ErrNoRows becomes ErrNotFound, any other error ErrQueryRepository. */
  function GetPeopleByID(repoPeople: People, repoErr: Option<Error>): (r: (People, Option<Error>))
    ensures r.0 == repoPeople
    ensures r.1.None? <==> repoErr.None?
    ensures repoErr == Some(SqlErrNoRows) ==> r.1 == Some(ErrNotFound)
    ensures repoErr.Some? && repoErr != Some(SqlErrNoRows) ==> r.1 == Some(ErrQueryRepository)
  {
    if repoErr.Some? then (repoPeople, Some(QueryError(repoErr.value))) else (repoPeople, repoErr)
  }

  /** The shared translation of PutPeople and PatchPeople: any repository error becomes ErrCmdRepository. */
  function CommandError(repoErr: Option<Error>): (e: Option<Error>)
    ensures e.None? <==> repoErr.None?
    ensures e.Some? ==> e.value == ErrCmdRepository
  {
    if repoErr.Some? then Some(ErrCmdRepository) else None
  }

  /** PutPeople. */
  function PutPeople(repoErr: Option<Error>): (e: Option<Error>)
    ensures e.None? <==> repoErr.None?
    ensures e.Some? ==> e.value == ErrCmdRepository
  {
    CommandError(repoErr)
  }

  /** PatchPeople: a missing record too surfaces as ErrCmdRepository, never as ErrNotFound. */
  function PatchPeople(repoErr: Option<Error>): (e: Option<Error>)
    ensures e.None? <==> repoErr.None?
    ensures e.Some? ==> e.value == ErrCmdRepository
  {
    CommandError(repoErr)
  }

  /**
   * DeletePeople: on failure the requested UUID's text is returned, whatever id the repository
   * gave, with ErrNotFound for ErrNoRows and ErrQueryRepository otherwise.
   */
  function DeletePeople(uuid: Uuid, repoId: string, repoErr: Option<Error>): (r: (string, Option<Error>))
    ensures repoErr.None? ==> r == (repoId, None)
    ensures repoErr.Some? ==> r.0 == ToString(uuid) && r.1.Some?
    ensures repoErr == Some(SqlErrNoRows) ==> r.1 == Some(ErrNotFound)
    ensures repoErr.Some? && repoErr != Some(SqlErrNoRows) ==> r.1 == Some(ErrQueryRepository)
  {
    if repoErr.Some? then (ToString(uuid), Some(QueryError(repoErr.value))) else (repoId, repoErr)
  }

  /** GetPeople: the list passes through, with the same translation as GetPeopleByID. */
  function GetPeople(repoPeople: seq<People>, repoErr: Option<Error>): (r: (seq<People>, Option<Error>))
    ensures r.0 == repoPeople
    ensures r.1.None? <==> repoErr.None?
    ensures repoErr == Some(SqlErrNoRows) ==> r.1 == Some(ErrNotFound)
    ensures repoErr.Some? && repoErr != Some(SqlErrNoRows) ==> r.1 == Some(ErrQueryRepository)
  {
    if repoErr.Some? then (repoPeople, Some(QueryError(repoErr.value))) else (repoPeople, repoErr)
  }

  /** The service never hands a raw repository error to its caller: every error is a titanic sentinel. */
  lemma NoRawErrorEscapes(uuid: Uuid, id: string, people: People, list: seq<People>, repoErr: Option<Error>)
    ensures var e := PostPeople(id, repoErr).1; e.Some? ==> e.value.IsSentinel()
    ensures var e := GetPeopleByID(people, repoErr).1; e.Some? ==> e.value.IsSentinel()
    ensures var e := PutPeople(repoErr); e.Some? ==> e.value.IsSentinel()
    ensures var e := PatchPeople(repoErr); e.Some? ==> e.value.IsSentinel()
    ensures var e := DeletePeople(uuid, id, repoErr).1; e.Some? ==> e.value.IsSentinel()
    ensures var e := GetPeople(list, repoErr).1; e.Some? ==> e.value.IsSentinel()
  {
  }

  /**
   * The service produces only ErrNotFound, ErrCmdRepository and ErrQueryRepository, and ErrNotFound
   * only from ErrNoRows. The in-memory store reports its own ErrNotFound, which is not ErrNoRows,
   * so with that store a missing id surfaces as ErrQueryRepository (lookup, delete) or
   * ErrCmdRepository (patch), never as ErrNotFound.
   */
  lemma InmemErrorsNeverNotFound(uuid: Uuid, id: string, people: People, list: seq<People>, e: Error)
    requires e.IsInmem()
    ensures GetPeopleByID(people, Some(e)).1 == Some(ErrQueryRepository)
    ensures DeletePeople(uuid, id, Some(e)) == (ToString(uuid), Some(ErrQueryRepository))
    ensures GetPeople(list, Some(e)).1 == Some(ErrQueryRepository)
    ensures PatchPeople(Some(e)) == Some(ErrCmdRepository)
    ensures PostPeople(id, Some(e)) == (id, Some(ErrCmdRepository))
  {
  }
}
