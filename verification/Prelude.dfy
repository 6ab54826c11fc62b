/** Result types shared by the modules. */
module Prelude {
  datatype Option<+T> = None | Some(value: T)

  /** The exceptions the queue and its store raise. */
  datatype Error = NotInitialized | DuplicateMessage | ItemNotFound | InvalidArgument

  /** The outcome of an operation that can raise. */
  datatype Result<+T> = Ok(value: T) | Err(error: Error)
}
