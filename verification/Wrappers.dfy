/** What every other module may need. */
module Wrappers {

  datatype Option<+T> = None | Some(value: T)
}
