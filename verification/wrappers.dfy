/** The optional-value datatype the rules use for "skipped" and "no diagnostic". */
module Wrappers {

  datatype Option<+T> = None | Some(value: T)

}
