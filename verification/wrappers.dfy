/** A minimal optional-value type shared by the other modules. */
module Wrappers {

  /** `None` stands for a value that is absent: a failed network read, an
      amount that cannot be converted, a text that is not a result line. */
  datatype Option<+T> = None | Some(value: T)
}
