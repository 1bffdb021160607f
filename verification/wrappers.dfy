/** The optional-value wrapper used throughout the model: JavaScript's
    `undefined`/`null` become `None`. */
module Wrappers {

  datatype Option<+T> = None | Some(value: T)
}
