/** The optional value used where the plugin has a null or a "not found". */
module Wrappers {

  datatype Option<+T> = None | Some(value: T)
}
