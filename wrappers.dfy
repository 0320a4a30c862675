/** The optional-value type the rest of the model uses for "absent" keys and NaN results. */
module Wrappers {

  datatype Option<+T> = None | Some(value: T)
}
