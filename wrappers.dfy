/** Optional values and possibly raising results, as the rest of the model
    uses them. */
module Wrappers {

  datatype Option<T> = None | Some(value: T)

  /** The result of a computation that may raise an exception it does not
      catch. */
  datatype Outcome<T> = Returned(value: T) | Raised
}
