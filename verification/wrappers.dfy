/** Optional and success-or-error values shared by the Effort dialog model.
    `Option` stands in for JavaScript's "falsy or absent" values (`null`,
    `undefined`, the empty string of an unselected form field); `Result`
    stands in for an operation that either returns or throws. */
module Wrappers {

  datatype Option<+T> = None | Some(value: T)

  datatype Result<+T, +E> = Ok(value: T) | Err(error: E)
}
