/** The Some/None datatype used where the script would yield `undefined`
    or where a parse can fail. */
module Wrappers {

  datatype Option<+T> = None | Some(value: T)
}
