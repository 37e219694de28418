/** The optional-value datatype the model uses for Python's `None`. */
module Wrappers {

  /** `None` stands for Python's None; `Some(v)` for a present value `v`. */
  datatype Option<+T> = None | Some(value: T)
}
