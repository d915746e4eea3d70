/** The optional-value datatype shared by the whole model. */
module Wrappers {

  /** `None` stands for a JavaScript value that is absent or falsy
      (`undefined`, `false`, an empty string); `Some(v)` for a present one. */
  datatype Option<+T> = None | Some(value: T)
}
