/**
 * The service's error kinds (`NotFoundError`, `ProviderError`, `ValidationError`,
 * all subclasses of `MCRError`) plus Python's `KeyError`, and the result type
 * every fallible operation of the model returns.
 */
module Errors {

  datatype McrError =
    | NotFoundError(message: string)
    | ProviderError(message: string)
    | ValidationError(message: string)
    | KeyError(key: string)

  datatype Result<T> = Ok(value: T) | Err(error: McrError)
}
