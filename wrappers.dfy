/** Failure-carrying values shared by the modules of this model: a thrown
    JavaScript error becomes `Err`, a normal return becomes `Ok`. */
module Wrappers {

  datatype Option<+T> = None | Some(value: T)

  datatype Result<+T, +E> = Ok(value: T) | Err(error: E)
}
