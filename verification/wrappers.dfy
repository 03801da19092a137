/** The optional-value datatype used for the possibly absent signed-in user and role claim. */
module Wrappers {

  datatype Option<+T> = None | Some(value: T)

}
