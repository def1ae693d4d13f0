/** The optional-value datatype used by the lookups of the model. */
module Wrappers {

  /** Some value, or None when a lookup finds nothing. */
  datatype Option<+T> = None | Some(value: T)
}
