/** The optional value used wherever a spreadsheet cell may be missing (pandas NaN). */
module Wrappers {

  datatype Option<+T> = None | Some(value: T)
}
