/** An optional value, used wherever the source can come back empty-handed
    (a lookup that finds nothing, a computation that throws). */
module Wrappers {

  datatype Option<+T> = None | Some(value: T)
}
