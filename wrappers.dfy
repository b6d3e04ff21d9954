/** The nullable results of the source (`number | null`, a missing stored item). */
module Wrappers {
  datatype Option<+T> = None | Some(value: T)
}
