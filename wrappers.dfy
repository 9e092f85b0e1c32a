/** The optional-value datatype used for headers, statuses and parse results. */
module Wrappers {

  datatype Option<+T> = None | Some(value: T)
}
