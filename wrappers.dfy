/** An optional value: absent query-string values, absent sibling elements,
    statements the store cannot read. */
module Wrappers {
  datatype Option<T> = None | Some(value: T)
}
