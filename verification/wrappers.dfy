/** The optional-value wrapper used throughout the model: a request field that
    JavaScript would read as `undefined` (or that `isNaN` rejects) is `None`. */
module Wrappers {

  datatype Option<+T> = None | Some(value: T)
}
