/** The optional value used wherever the source reads a property that may be absent
    (`undefined`) or a state slot that may be `null`. */
module Wrappers {
  datatype Option<+T> = None | Some(value: T)
}
