/** Optional values and success-or-failure results, as the forms and the chat
    use them: a value that may be absent (`null`, `undefined`, a missing
    field) and a validation that either yields a value or names its error. */
module Wrappers {

  datatype Option<+T> = None | Some(value: T)

  datatype Result<+T, +E> = Success(value: T) | Failure(error: E)
}
