/** The optional-value wrapper used for the builder's unset fields. */
module Wrappers {

  /** Rust's `Option`: either nothing or one value. */
  datatype Option<+T> = None | Some(value: T)
}
