/** Failure-carrying values. A JavaScript call that either returns a value or
    throws an `Error` is modelled as a `Result`: the thrown error is reduced to
    its `message` string, which is all the upload code ever reads of it. */
module Wrappers {

  datatype Option<+T> = None | Some(value: T)

  datatype Result<+T> = Ok(value: T) | Err(message: string)
}
