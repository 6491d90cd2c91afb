/** Failure-carrying values shared by every module of the model. */
module Wrappers {

  /** A value that may be absent: Python's `None` or a row that `fetchone` did not find. */
  datatype Option<+T> = None | Some(value: T)

  /** The ways a call into the model can fail where the source raises an exception. */
  datatype Error =
    | KeyMissing       // a dictionary lookup on a key that is not there (`KeyError`)
    | RowMissing       // `fetchone()` returned `None` and the caller indexed it (`TypeError`)
    | Unresolvable     // a search, catalogue lookup or stream selection came back empty
    | BadArgument      // arithmetic on an argument of the wrong type (`TypeError`)
    | NoSuchTable      // a query names a table the schema does not create (`OperationalError`)

  /** A value or the error that stopped its computation. */
  datatype Result<+T> = Ok(value: T) | Err(error: Error)
}
