/** The optional-value datatype used in place of the source's nullable pointers. */
module Wrappers {

  /** `None` stands for a null `Ptr`, `Some(v)` for a non-null one. */
  datatype Option<+T> = None | Some(value: T)
}
