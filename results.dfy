/** The browser-result record of the protocol engine's browser contract. */
module Results {
  import opened Wrappers

  /** The protocol engine's `BrowserResultType` enumeration. */
  datatype BrowserResultType = Success | HttpError | UserCancel | Timeout | UnknownError

  /** `BrowserResultType.ToString()`: the member's own name. */
  function TypeName(t: BrowserResultType): (name: string)
    ensures |name| > 0
  {
    match t
    case Success => "Success"
    case HttpError => "HttpError"
    case UserCancel => "UserCancel"
    case Timeout => "Timeout"
    case UnknownError => "UnknownError"
  }

  /** A `BrowserResult`: its type, the callback response and the error text (each possibly null). */
  datatype BrowserResult = BrowserResult(resultType: BrowserResultType, response: Option<string>, error: Option<string>)
}
