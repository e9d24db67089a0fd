/** An optional value: the model's stand-in for a TypeScript field or property that may be `undefined`. */
module Wrappers {

  datatype Option<+T> = None | Some(value: T)
}
