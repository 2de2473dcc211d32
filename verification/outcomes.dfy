/** Failure-carrying datatypes shared by the SQL composers.

The errors are the two exception classes the persistence layer throws:
`BadRequestError` (a caller mistake, raised before any SQL is built) and
`NotFoundError` (the database returned no row for an id-scoped statement).
*/
module Outcomes {

  /** An optional value; `None` stands for JavaScript's `null`/`undefined`. */
  datatype Option<+T> = None | Some(value: T)

  /** The exceptions thrown by the modelled code, with their message text. */
  datatype Error = BadRequest(message: string) | NotFound(message: string)

  /** Either the value an operation returns or the exception it throws. */
  datatype Result<+T> = Ok(value: T) | Err(error: Error)
}
