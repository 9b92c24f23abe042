/**
 * Small wrappers shared by the model: an optional value, and the outcome of
 * an operation that either returns a value or throws. The library only ever
 * throws plain PHP `Exception`s, distinguished by their message, so an
 * exception is modelled by its message text.
 */
module Wrappers {

  datatype Option<+T> = None | Some(value: T)

  datatype Result<+T> = Ok(value: T) | Thrown(message: string)
}
