/**
 * `SFAuthenticationSessionBrowser`: the iOS 11 system authentication session. The platform
 * shows the start URL and calls back once with either the callback URL or an error; the
 * browser turns that into a `BrowserResult` and a `BrowserMediator` broadcast.
 */
module SFAuthSession {
  import opened Wrappers
  import opened Results
  import opened Mediation
  import opened Options
  import opened Urls
  import Preflight
  import IOSBrowserBase

  /** An `NSError` as the handler sees it: its code and its `ToString()` text. */
  datatype NSError = NSError(code: int, text: string)

  /** `SFAuthenticationError.CanceledLogin`. */
  const CanceledLoginCode: int := 1

  /** The message the completion handler broadcasts on `BrowserMediator`: it runs before anything can throw. */
  function CompletionSignal(error: Option<NSError>): string {
    if error.None? then SuccessMessage else UserCancelMessage
  }

  /**
   * `CreateBrowserResult(callbackUrl, error)`. Without an error the callback URL's text is the
   * response (a null callback URL throws); the user's cancel is `Canceled()`; any other error
   * is an unknown error carrying the error's text.
   */
  function CreateBrowserResult(callbackUrl: Option<Url>, error: Option<NSError>): (r: Checked<BrowserResult>)
    ensures r.Threw? <==> error.None? && callbackUrl.None?
    ensures r.Threw? ==> r.exception == NullReferenceException
    ensures r.Returned? ==> (r.value.response.Some? <==> error.None?)
    ensures r.Returned? && error.None? ==> r.value.response == Some(callbackUrl.value.absolute)
    ensures r.Returned? ==> (r.value.error.Some? <==> error.Some? && error.value.code != CanceledLoginCode)
    ensures r.Returned? && r.value.error.Some? ==> r.value.error == Some(error.value.text)
  {
    if error.None? then
      if callbackUrl.None? then Threw(NullReferenceException)
      else Returned(IOSBrowserBase.Success(callbackUrl.value.absolute))
    else if error.value.code == CanceledLoginCode then Returned(IOSBrowserBase.Canceled())
    else Returned(IOSBrowserBase.UnknownError(error.value.text))
  }

  /**
   * The broadcast agrees with the result: "Success" exactly when the result is a success; the
   * result is a user cancel exactly for the cancelled-login code, and an unknown error for
   * every other code.
   */
  lemma SignalMatchesResult(callbackUrl: Option<Url>, error: Option<NSError>)
    requires CreateBrowserResult(callbackUrl, error).Returned?
    ensures CompletionSignal(error) == SuccessMessage <==> CreateBrowserResult(callbackUrl, error).value.resultType == BrowserResultType.Success
    ensures CompletionSignal(error) == UserCancelMessage <==> CreateBrowserResult(callbackUrl, error).value.resultType != BrowserResultType.Success
    ensures CreateBrowserResult(callbackUrl, error).value.resultType == BrowserResultType.UserCancel <==>
              error.Some? && error.value.code == CanceledLoginCode
    ensures CreateBrowserResult(callbackUrl, error).value.resultType == BrowserResultType.UnknownError <==>
              error.Some? && error.value.code != CanceledLoginCode
  {
  }

  /** The system session `Start` creates, and the task its handler completes. */
  class AuthenticationSession {
    const url: string
    const callbackScheme: Option<string>
    const browserMediator: Mediator
    var result: Option<BrowserResult>
    var disposed: bool

    /** `new SFAuthenticationSession(new NSUrl(StartUrl), EndUrl, handler)`, then `Start()`. */
    constructor (url: string, callbackScheme: Option<string>, browserMediator: Mediator)
      ensures this.url == url && this.callbackScheme == callbackScheme && this.browserMediator == browserMediator
      ensures result.None? && !disposed
    {
      this.url, this.callbackScheme, this.browserMediator := url, callbackScheme, browserMediator;
      result, disposed := None, false;
    }

    /**
     * The completion handler: the broadcast is made first, then the task is completed with the
     * result and the session disposed. A null callback URL without an error, or a second
     * completion (`SetResult` on a completed task), throws out of the handler, and then the
     * session is not disposed.
     */
    method Complete(callbackUrl: Option<Url>, error: Option<NSError>) returns (escaped: Option<Exception>)
      modifies this, browserMediator
      ensures browserMediator.listeners == old(browserMediator.listeners)
      ensures browserMediator.trace == old(browserMediator.trace) + Deliveries(browserMediator.listeners, CompletionSignal(error))
      ensures CreateBrowserResult(callbackUrl, error).Threw? ==>
                escaped == Some(NullReferenceException) && result == old(result) && disposed == old(disposed)
      ensures CreateBrowserResult(callbackUrl, error).Returned? && old(result).Some? ==>
                escaped == Some(InvalidOperationException) && result == old(result) && disposed == old(disposed)
      ensures CreateBrowserResult(callbackUrl, error).Returned? && old(result).None? ==>
                escaped.None? && result == Some(CreateBrowserResult(callbackUrl, error).value) && disposed
    {
      browserMediator.Send(CompletionSignal(error));
      var r := CreateBrowserResult(callbackUrl, error);
      if r.Threw? {
        return Some(r.exception);
      }
      if result.Some? {
        return Some(InvalidOperationException);
      }
      result := Some(r.value);
      disposed := true;
      escaped := None;
    }
  }

  /** `Start(options)`: a null start URL makes `new NSUrl` throw before any session exists. */
  method Start(startUrl: Option<string>, endUrl: Option<string>, browserMediator: Mediator)
    returns (r: Checked<AuthenticationSession>)
    ensures startUrl.None? <==> r.Threw?
    ensures r.Threw? ==> r.exception == ArgumentNullException
    ensures r.Returned? ==>
      && fresh(r.value) && r.value.url == startUrl.value && r.value.callbackScheme == endUrl
      && r.value.browserMediator == browserMediator && r.value.result.None? && !r.value.disposed
  {
    if startUrl.None? {
      return Threw(ArgumentNullException);
    }
    var s := new AuthenticationSession(startUrl.value, endUrl, browserMediator);
    r := Returned(s);
  }

  /**
   * `InvokeAsync` with either kind of options (only the two URLs are used): blank URLs throw
   * the validation error, start URL first; otherwise a session is started on the start URL
   * with the end URL as its callback scheme.
   */
  method InvokeAsync(options: LaunchOptions, browserMediator: Mediator) returns (r: Checked<AuthenticationSession>)
    ensures Preflight.Validate(StartUrlOf(options), EndUrlOf(options)).Some? ==>
              r == Threw(Preflight.Validate(StartUrlOf(options), EndUrlOf(options)).value)
    ensures Preflight.Validate(StartUrlOf(options), EndUrlOf(options)).None? ==>
      && r.Returned? && fresh(r.value)
      && Some(r.value.url) == StartUrlOf(options) && r.value.callbackScheme == EndUrlOf(options)
      && r.value.browserMediator == browserMediator && r.value.result.None? && !r.value.disposed
  {
    var invalid := Preflight.Validate(StartUrlOf(options), EndUrlOf(options));
    if invalid.Some? {
      return Threw(invalid.value);
    }
    Preflight.ValidUrlsAreNonNull(StartUrlOf(options), EndUrlOf(options));
    r := Start(StartUrlOf(options), EndUrlOf(options), browserMediator);
  }
}
