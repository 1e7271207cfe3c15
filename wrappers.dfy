/** Optional values and the outcome of a Python call: a normal return or a raised exception. */
module Wrappers {

  /** Python's `None` next to a value. */
  datatype Option<+T> = None | Some(value: T) {
    function GetOr(default: T): T {
      match this
      case Some(v) => v
      case None => default
    }
  }

  /** The exception classes the modelled code can raise or let escape. */
  datatype Exc =
    | ConnectionError        // requests.exceptions.ConnectionError: the provider could not be reached
    | AuthenticationError    // raised by authenticate() after a failed login
    | SegmentRetrievalError  // raised by get_segment() after a 403
    | RetryError             // raised by a tenacity decorator once its attempts are used up
    | TypeError              // subscripting a None JSON result, or `%d` applied to a string
    | KeyError               // a missing key that nothing catches
    | IndexError             // an index past the end of a list
    | AttributeError         // reading `.text` of a response that was never received
    | MissingSchema          // requests refusing the URL `None`
    | RecursionError         // Python's recursion limit

  /** What a Python call does: return a value or raise. */
  datatype Outcome<+T> = Returned(value: T) | Raised(exc: Exc)
}
