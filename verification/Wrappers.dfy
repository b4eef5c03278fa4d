/** The optional value used for the program's `std::optional`. */
module Wrappers {
  datatype Option<+T> = None | Some(value: T)
}
