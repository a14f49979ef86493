/** A value that may be absent: the model's stand-in for a TypeScript `undefined`-able field. */
module Wrappers {

  datatype Option<+T> = None | Some(value: T)
}
