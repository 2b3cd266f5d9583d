/** The optional value the model uses for JavaScript's `null` results and absent DOM children. */
module Wrappers {

  datatype Option<+T> = None | Some(value: T)
}
