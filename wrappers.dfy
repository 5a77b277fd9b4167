/** The optional value used for "the column is absent" and "the scenario is skipped". */
module Wrappers {

  datatype Option<+T> = None | Some(value: T)
}
