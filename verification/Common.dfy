/** Small datatypes shared by every module. */
module Common {
  /** Ticket, phase, comment, project and agent ids: opaque strings. */
  type Id = string

  datatype Option<+T> = None | Some(value: T)

  /** The sentinel errors of internal/domain/errors.go that the modelled operations return. */
  datatype Error = NotFound | InvalidArgument | FailedPrecondition | AlreadyExists

  datatype Result<+T> = Ok(value: T) | Err(error: Error)

  /** The elements of a sequence. */
  function Elems<T>(s: seq<T>): set<T> {
    set x | x in s
  }
}
