/** The optional-value datatype used for Python's `None`-or-value parameters. */
module Wrappers {

  datatype Option<+T> = None | Some(value: T)
}
