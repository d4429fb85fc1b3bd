/** The optional value used throughout the model. A missing number (pandas' NaN)
    is `None`; a lookup that finds nothing is `None`. */
module Wrappers {

  datatype Option<+T> = None | Some(value: T)
}
