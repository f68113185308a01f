/** Option and Result, the shapes every oracle reply and service call takes in this model. */
module Wrappers {

  datatype Option<+T> = None | Some(value: T)

  /** A JavaScript promise that resolves with `value` or rejects with an Error carrying `message`. */
  datatype Result<+T> = Ok(value: T) | Err(message: string)
}

/**
 * The storage collaborator (database rows, object storage, auth) seen from the services:
 * every call returns the requests it issued, in order, and its result. The replies of storage
 * are parameters; nothing is persisted.
 */
module Storage {
  import opened Wrappers

  const NotAuthenticated: string := "User not authenticated"

  datatype Outcome<Q, T> = Outcome(requests: seq<Q>, result: Result<T>)

  /** A `maybeSingle()` lookup: a storage error propagates, a missing row becomes `notFound`. */
  function FoundOr<T>(reply: Result<Option<T>>, notFound: string): (r: Result<T>)
    ensures reply.Err? ==> r == Err(reply.message)
    ensures reply == Ok(None) ==> r == Err(notFound)
    ensures r.Ok? <==> reply.Ok? && reply.value.Some?
    ensures r.Ok? ==> r.value == reply.value.value
  {
    match reply
    case Err(m) => Err(m)
    case Ok(None) => Err(notFound)
    case Ok(Some(row)) => Ok(row)
  }
}
