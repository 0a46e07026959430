/** An optional value: the decoded request body, and the JSON encoder's
    result. */
module Wrappers {

  datatype Option<+T> = None | Some(value: T)
}
