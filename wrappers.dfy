/** Option and Result values, standing for `undefined` and for the
    `ok(..)` / `err(..)` results the providers return. */
module Wrappers {

  datatype Option<+T> = None | Some(value: T)

  /** The source's `Result`: either a value or an error message for the user. */
  datatype Result<+T> = Ok(value: T) | Err(error: string)

  /** JavaScript truthiness of an optional string: `undefined` and `""` are falsy. */
  predicate Truthy(s: Option<string>) {
    s.Some? && s.value != ""
  }
}
