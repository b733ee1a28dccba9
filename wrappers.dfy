/** The optional value used for the worker's "no queue subscribed yet" state. */
module Wrappers {

  datatype Option<+T> = None | Some(value: T)
}
