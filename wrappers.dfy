/** Optional values: the model's rendering of Go's `(T, error)` results and nil `*string` fields. */
module Wrappers {

  datatype Option<+T> = None | Some(value: T)
}
