/** A value that may be absent: a failed lookup or parse. */
module Optionals {

  datatype Optional<+T> = None | Some(value: T)
}
