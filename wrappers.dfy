/** The scanner's "measured or null" values. */
module Wrappers {

  datatype Option<+T> = None | Some(value: T)
}
