/** The optional value used for missing fields and for the `null` sentinel of the cart store. */
module Wrappers {

  datatype Option<+T> = None | Some(value: T)
}
