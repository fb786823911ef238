/** The optional-value datatype the model uses for PHP's `null` and for
    "the pattern did not match". */
module Wrappers {

  datatype Option<+T> = None | Some(value: T)
}
