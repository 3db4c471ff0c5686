/** Values shared by every part of the model: optional values, the Python
    exceptions the client can raise, and "returns a value or raises". */
module Base {

  datatype Option<+T> = None | Some(value: T)

  /** The exceptions that escape the client's methods, named after their cause. */
  datatype Fault =
    | ConnectionFailed(message: string) // a transport exception that is not an HTTPError
    | ZeroDivision                      // admission wait computed with a drip rate of 0
    | BodyNotJson                       // the response body does not parse as JSON
    | KeyMissing(key: string)           // KeyError on a page
    | NotSubscriptable                  // TypeError: indexing a non-object with a string
    | NoGetMethod                       // AttributeError: `.get` on something that is not an object
    | TypeMismatch                      // TypeError while building a URL

  /** A Python call either returns a value or raises. */
  datatype Result<+T> = Ok(value: T) | Raised(fault: Fault)

  function Last<T>(s: seq<T>): T
    requires |s| > 0
  {
    s[|s| - 1]
  }
}
