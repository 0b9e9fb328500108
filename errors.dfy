/** The exceptions the modelled code raises: the five `ChargifyError`
    subclasses, and the Python built-in errors that its attribute reads,
    concatenations and conversions raise on unexpected values. */
module Errors {

  datatype Error =
    | UnAuthorized
    | Forbidden
    | NotFound
    | UnProcessableEntity
    | ServerError
    | AttributeError(attr: string)
    | TypeError
    | ValueError
}
