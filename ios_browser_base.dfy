/** The result constructors shared by the iOS browsers. */
module IOSBrowserBase {
  import opened Wrappers
  import opened Results

  /** `Canceled()`: a user cancel carrying neither response nor error. */
  function Canceled(): (r: BrowserResult)
    ensures r.resultType == BrowserResultType.UserCancel && r.response.None? && r.error.None?
  {
    BrowserResult(BrowserResultType.UserCancel, None, None)
  }

  /** `UnknownError(error)`: an unknown error carrying the error text and no response. */
  function UnknownError(error: string): (r: BrowserResult)
    ensures r.resultType == BrowserResultType.UnknownError && r.error == Some(error) && r.response.None?
  {
    BrowserResult(BrowserResultType.UnknownError, None, Some(error))
  }

  /** `Success(response)`: a success carrying the response and no error. */
  function Success(response: string): (r: BrowserResult)
    ensures r.resultType == BrowserResultType.Success && r.response == Some(response) && r.error.None?
  {
    BrowserResult(BrowserResultType.Success, Some(response), None)
  }

  /** The three constructors never coincide, and each is recovered from its result. */
  lemma ConstructorsDistinct(response: string, response': string, error: string, error': string)
    ensures Success(response) != Canceled() && UnknownError(error) != Canceled() && Success(response) != UnknownError(error)
    ensures Success(response) == Success(response') ==> response == response'
    ensures UnknownError(error) == UnknownError(error') ==> error == error'
  {
  }
}
