/** An optional value: the JavaScript `null` of the component's state. */
module Wrappers {
  datatype Option<+T> = None | Some(value: T)
}
