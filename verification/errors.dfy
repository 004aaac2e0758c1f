/** The exceptions the pass library can raise, as data. */
module Errors {

  /** Why a `PassParameterException` was raised. */
  datatype Reason =
    | TooManyLocations          // ten or more locations on a pass
    | MissingField(field: string)  // a required key is absent from pass.json
    | InsecureWebService        // webServiceURL does not start with https://
    | TooManyHeaderFields       // more than three header fields
    | BadDateFormat             // a date-styled field value is not an ISO timestamp

  datatype Error =
    | MissingArgument(name: string)  // KeyError: a required keyword argument or dictionary key is absent
    | NotANumber                     // ValueError or TypeError raised by float()
    | FloatOverflow                  // OverflowError: float() of an int too large for a double
    | Unhashable                     // TypeError: a list or dict used as a lookup key
    | WrongType                      // AttributeError or TypeError: a string operation on a non-string
    | PassParameter(reason: Reason)  // PassParameterException
    | SigningFailed(diagnostic: seq<bv8>)  // openssl exited non-zero; its stderr

  /** The timestamp format date-styled fields are parsed with. */
  const IsoDateFormat := "%Y-%m-%dT%H:%M:%S.%f%z"

  /** The text the library puts into each `PassParameterException`. */
  function Message(r: Reason): string {
    match r
    case TooManyLocations => "Field locations has<10 entries"
    case MissingField(f) => "Field " + f + " missing"
    case InsecureWebService => "Webservie Url need to start with https://"
    case TooManyHeaderFields => "To many Header Fields (>3)"
    case BadDateFormat => "Date Field does not match format (" + IsoDateFormat + ")"
  }
}
