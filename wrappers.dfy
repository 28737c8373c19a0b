/** The Kotlin nullable `T?` used by the components, as a datatype. */
module Wrappers {

  datatype Option<+T> = None | Some(value: T)
}
