/** The optional value used where the pricing engine holds a possibly-null
    reference (the running best breakdown of a fleet scan). */
module Wrappers {

  datatype Option<+T> = None | Some(value: T)
}
