/**
 * The error values that flow through the service. Go's `error` is an open interface compared
 * by identity (`err == titanic.ErrNotFound`); the model closes it over the identities that
 * the code creates or tests for. Two values with the same message are still different errors
 * (inmemory's ErrNotFound is not titanic's ErrNotFound).
 */
module Errors {

  datatype Error =
    // The sentinel set of package titanic (service.go:11-17).
    | ErrInconsistentIDs
    | ErrAlreadyExists
    | ErrNotFound
    | ErrCmdRepository
    | ErrQueryRepository
    // The in-memory repository's own error values (inmemory/respository.go:14-18).
    | InmemErrInconsistentID
    | InmemErrAlreadyExists
    | InmemErrNotFound
    // database/sql's ErrNoRows, the only raw repository error the service recognises.
    | SqlErrNoRows
    // Returned by the HTTP decoders when the path id does not parse (transport/http/service.go:26).
    | ErrBadRouting
    // Any other error: a driver failure, a malformed JSON body, ...
    | Other(text: string)
  {
    /** One of package titanic's sentinels. */
    predicate IsSentinel() {
      ErrInconsistentIDs? || ErrAlreadyExists? || ErrNotFound? || ErrCmdRepository? || ErrQueryRepository?
    }

    /** One of the errors the in-memory repository returns. */
    predicate IsInmem() {
      InmemErrInconsistentID? || InmemErrAlreadyExists? || InmemErrNotFound?
    }

    /** The text `err.Error()` yields, which is what an error response carries. */
    function Message(): string {
      match this
      case ErrInconsistentIDs => "inconsistent IDs"
      case ErrAlreadyExists => "already exists"
      case ErrNotFound => "not found"
      case ErrCmdRepository => "unable to command repository"
      case ErrQueryRepository => "unable to query repository"
      case InmemErrInconsistentID => "inconsistent ID"
      case InmemErrAlreadyExists => "already exists"
      case InmemErrNotFound => "not found"
      case SqlErrNoRows => "sql: no rows in result set"
      case ErrBadRouting => "inconsistent mapping between route and handler (programmer error)"
      case Other(text) => text
    }
  }
}
