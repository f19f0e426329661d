/** The optional value used wherever the source has `undefined` as "absent". */
module Wrappers {

  datatype Option<+T> = None | Some(value: T)
}
