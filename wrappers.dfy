/** A value that may be missing: a dictionary lookup that found nothing, or a
    computation that stopped with a lookup error. */
module Wrappers {
  datatype Option<+T> = None | Some(value: T)
}
