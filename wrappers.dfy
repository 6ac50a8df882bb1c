/** C#'s nullable references, as an option value. */
module Wrappers {
  datatype Option<+T> = None | Some(value: T)
}
