/** A nullable value: `null` in the component becomes `None`. */
module Wrappers {

  datatype Option<+T> = None | Some(value: T)
}
