/** The optional value used throughout the model: `None` stands for JavaScript's
    `undefined`/`null` and Python's `None` wherever the source tests for absence. */
module Wrappers {

  datatype Option<+T> = None | Some(value: T)
}
