/** The Some/None datatype used where the program has a value or `null` (or `NaN`). */
module Wrappers {

  datatype Option<+T> = None | Some(value: T)
}
