/** The optional values the components keep in their state (`T | null` in the source). */
module Wrappers {
  datatype Option<+T> = None | Some(value: T)
}
