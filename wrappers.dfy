/** The absence value used for nullable columns and for "no row matched". */
module Wrappers {

  /** `None` stands for JavaScript's `null`; `Some(v)` for a present value. */
  datatype Option<+T> = None | Some(value: T)
}
