/** The optional value the model uses where the server has `None` or a missing key. */
module Wrappers {

  datatype Option<+T> = None | Some(value: T)
}
