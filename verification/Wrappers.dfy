/** The stock option type used by every module of the model. */
module Wrappers {

  datatype Option<+T> = None | Some(value: T)
}
