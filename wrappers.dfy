/** Option, for values JavaScript reports as `undefined` and for decoders that can fail. */
module Wrappers {

  datatype Option<+T> = None | Some(value: T)
}
