/** The "value or nothing" wrapper used for the record's nullable fields
    and for a rule that may or may not report an error. */
module Wrappers {

  datatype Option<+T> = None | Some(value: T)
}
