/** Small failure-carrying datatypes used in place of Java's null and exceptions. */
module Wrappers {

  /** A possibly absent value: Java's `null` where a reference may be missing. */
  datatype Option<T> = None | Some(value: T)

  /** The outcome of a parsing routine: a value, or a ParseError that was thrown. */
  datatype Res<T> = Ok(value: T) | Err
}
