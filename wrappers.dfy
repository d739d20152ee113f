/** The optional value used wherever the source stores or reads Python `None`. */
module Wrappers {

  datatype Option<+T> = None | Some(value: T)
}
