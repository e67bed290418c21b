/** Small failure-carrying datatypes shared by the modules of this model. */
module Wrappers {

  /** An optional value; `None` stands for Python's "attribute not present". */
  datatype Option<+T> = None | Some(value: T)
}
