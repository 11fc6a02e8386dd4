/** Option, Result and Key, the wrappers every other module uses. */
module Wrappers {

  datatype Option<+T> = None | Some(value: T)

  /** The outcome of a call that may raise: `Err` carries the exception text. */
  datatype Result<+T> = Ok(value: T) | Err(error: string)

  /** Whether a dict has a key, and the key's value when it does. */
  datatype Key<+T> = Absent | Present(value: T)
}
