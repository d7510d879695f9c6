# Everwealth.OidcClient browser coordination, in Dafny

Everwealth.OidcClient adapts an external OpenID Connect engine to iOS and Android. The engine does
the protocol work. This library supplies the "browsers" that show the sign-in pages and report back
what happened. This project models that coordination logic and proves properties of it:

- **the relays** (`BrowserMediator`, and `ActivityMediator` with the same shape):
  - a lazy process-wide instance;
  - a listener list changed by `+=`/`-=` (which removes the last occurrence);
  - `Send` reaching every subscribed listener;
- **the launch options** (`ExtendedBrowserOptions`): a class whose setters change one property each;
- **the pre-flight check** both platforms make: a blank start URL is rejected first, then a blank end URL;
- **the iOS embedded browser** (`WKWebViewBrowser`):
  - the ordered navigation decision `DecidePolicy` (callback, then restart route, then viewable host;
    always `Allow`);
  - the option overwrite in `Launch`;
  - the initial-URL choice;
  - `Start` with its self-unsubscribing callback, where "UserCancel" cancels, "RestartFlow" presents the
    disposed controller again and leaves the task pending for good, and anything else succeeds;
  - the close button and the swipe-to-dismiss cancel signals;
- **the iOS system session** (`SFAuthenticationSessionBrowser`):
  - the error-to-result mapping and its broadcast;
  - the completion handler that completes the task and then disposes the session;
- **the Android launch** (`AndroidBrowserBase` with `WebViewBrowser`):
  - validation, then subscription, then the browser is opened;
  - the detour/start dispatch;
  - the intent flags;
  - the callback mapping;
  - the web-view client that hands every non-web URL to `ActivityMediator`;
  - the Home menu item;
- **the Android client** (`AuthClient`):
  - callback-URI derivation from the activity's intent filters;
  - the constructor's defaulting of the browser and redirect URIs;
  - `DetouredLoginAsync`.

Objects updated in place are classes with `modifies` clauses. Mediators, options, sessions, intents,
web-view clients and the client options all take this form. Each class's methods are specified
against a pure function of its state. That is the `View()` of a session, a `SessionState` of
subscription, result, surface and an effect log. The decisions are pure functions with reference
definitions and lemmas connecting the two. One property follows from the model as written: with the
library's `WebViewBrowser`, `DetouredLoginAsync` can never succeed. The two-URL `OpenBrowser` it
needs is never overridden and always throws (`AndroidAuth.AuthClient.DetouredLoginAsync`).

The platform's parts are parameters:

- URL parsing (a `Parser` from text to a `Url` record of scheme, host, path, query and full text);
- `CanOpenUrl`;
- resource lookup;
- `Application.Context`;
- the engine's prepared start URL;
- how a foreign browser's launch ends.

A delegate subscribed to a mediator is named by an id. The mediator keeps a trace of the deliveries
it makes. A session's `Deliver` is the mediator's `Send` followed by that session's own callback,
when the callback is still subscribed.

## Model

| member | source | states |
|---|---|---|
| `Mediation.Deliveries` | src/Everwealth.OidcClient.Core/BrowserMediator.cs:34-37 | one send makes one delivery per subscribed listener, in subscription order, each carrying the message |
| `Mediation.RemoveLastAbsent` | src/Everwealth.OidcClient.iOS/WKWebViewBrowser.cs:56 | removing a delegate that is not subscribed leaves the listener list as it was |
| `Mediation.RemoveLastCount` | src/Everwealth.OidcClient.Android/AndroidBrowserBase.cs:49 | `-=` removes exactly one occurrence of the delegate when there is one, and nothing else |
| `Mediation.RemoveLastPosition` | src/Everwealth.OidcClient.iOS/WKWebViewBrowser.cs:56 | the occurrence removed is the last one, and the other listeners keep their order |
| `Mediation.RemoveLastOnlyCopy` | src/Everwealth.OidcClient.Android/AndroidBrowserBase.cs:49-69 | a delegate subscribed once is no longer subscribed after `-=` |
| `Mediation.Mediator.constructor` | src/Everwealth.OidcClient.Core/BrowserMediator.cs:9 | a new relay has no listeners and has delivered nothing |
| `Mediation.Mediator.Subscribe` | src/Everwealth.OidcClient.Core/BrowserMediator.cs:28 | `+=` appends the delegate and delivers nothing |
| `Mediation.Mediator.Unsubscribe` | src/Everwealth.OidcClient.Core/BrowserMediator.cs:28 | `-=` removes the last occurrence and delivers nothing |
| `Mediation.Mediator.Send` | src/Everwealth.OidcClient.Core/BrowserMediator.cs:34-37 | the listener list is unchanged; the message is delivered to each listener in order and only those; with no listeners nothing happens; no message is kept |
| `Mediation.Mediator.Cancel` | src/Everwealth.OidcClient.Core/BrowserMediator.cs:42-45 | exactly the deliveries of sending "UserCancel" |
| `Mediation.Mediator.Success` | src/Everwealth.OidcClient.Core/BrowserMediator.cs:50-53 | exactly the deliveries of sending "Success" |
| `Mediation.MediatorSingleton.constructor` | src/Everwealth.OidcClient.Core/BrowserMediator.cs:8 | no instance exists before the first access |
| `Mediation.MediatorSingleton.Instance` | src/Everwealth.OidcClient.Core/BrowserMediator.cs:14-17 | the first access creates an empty relay; every later access returns the same one |
| `Mediation.InstanceIsShared` | src/Everwealth.OidcClient.Core/BrowserMediator.cs:16 | two accesses in a row yield the same relay |
| `Options.ExtendedBrowserOptions.constructor` | src/Everwealth.OidcClient.Core/ExtendedBrowserOptions.cs:8-10 | both URLs are passed through; no routes, no viewable URLs, no detour, the redirect mode |
| `Options.ExtendedBrowserOptions.WithRoutes` | src/Everwealth.OidcClient.Core/ExtendedBrowserOptions.cs:12-15 | as the two-argument constructor, with the given restart routes |
| `Options.ExtendedBrowserOptions.WithRoutesAndViewables` | src/Everwealth.OidcClient.iOS/WKWebViewBrowser.cs:40 | as the two-argument constructor, with the given routes and viewable URLs |
| `Options.ExtendedBrowserOptions.SetRestartFlowRoutes` | src/Everwealth.OidcClient.Core/ExtendedBrowserOptions.cs:21 | sets the routes; every other property keeps its value |
| `Options.ExtendedBrowserOptions.SetViewableUrls` | src/Everwealth.OidcClient.iOS/WKWebViewBrowser.cs:37 | sets the viewable URLs; every other property keeps its value |
| `Options.ExtendedBrowserOptions.SetLoadDetourUrl` | src/Everwealth.OidcClient.Core/ExtendedBrowserOptions.cs:26 | sets the detour flag; every other property keeps its value |
| `Options.ExtendedBrowserOptions.SetDetourUrl` | src/Everwealth.OidcClient.Core/ExtendedBrowserOptions.cs:31 | sets the detour URL; every other property keeps its value |
| `Options.ExtendedBrowserOptions.SetResponseMode` | src/Everwealth.OidcClient.Android/AuthClient.cs:124-131 | sets the response mode; every other property keeps its value |
| `Text.ToUpperOrdinal` | src/Everwealth.OidcClient.iOS/WKWebViewBrowser.cs:195 | lower-case ASCII letters fold to their upper-case letter; every other character is kept |
| `Text.ContainsIgnoreCaseIff` | src/Everwealth.OidcClient.iOS/WKWebViewBrowser.cs:195 | the case-insensitive `Contains` walk succeeds exactly when some route equals the path ignoring case |
| `Text.EqualsIgnoreCaseEquivalence` | src/Everwealth.OidcClient.iOS/WKWebViewBrowser.cs:195 | the ordinal case-insensitive comparison is reflexive, symmetric and transitive |
| `Text.ContainsIgnoreCaseRespectsCase` | src/Everwealth.OidcClient.iOS/WKWebViewBrowser.cs:195 | two paths that differ only in the case of ASCII letters match the same restart routes |
| `Results.TypeName` | src/Everwealth.OidcClient.Android/AuthClient.cs:145 | a result type's name is never empty |
| `Preflight.Validate` | src/Everwealth.OidcClient.iOS/iOSBrowserBase.cs:17-21 | "Missing StartUrl" exactly for a null, empty or white-space start URL; otherwise "Missing EndUrl" exactly for such an end URL; otherwise no exception |
| `Preflight.ValidUrlsAreNonNull` | src/Everwealth.OidcClient.Android/AndroidBrowserBase.cs:39-43 | URLs that pass the check are non-null and non-empty |
| `IOSBrowserBase.Canceled` | src/Everwealth.OidcClient.iOS/iOSBrowserBase.cs:46-52 | type `UserCancel`, no response, no error |
| `IOSBrowserBase.UnknownError` | src/Everwealth.OidcClient.iOS/iOSBrowserBase.cs:54-61 | type `UnknownError`, the given error, no response |
| `IOSBrowserBase.Success` | src/Everwealth.OidcClient.iOS/iOSBrowserBase.cs:63-70 | type `Success`, the given response, no error |
| `IOSBrowserBase.ConstructorsDistinct` | src/Everwealth.OidcClient.iOS/iOSBrowserBase.cs:46-70 | the three constructors never coincide, and a success or an error determines its text |
| `Sessions.IgnoresAllOnceUnsubscribed` | src/Everwealth.OidcClient.iOS/WKWebViewBrowser.cs:54-56 | once the callback has unsubscribed, no later message changes the launch |
| `Sessions.FirstMessageDecides` | src/Everwealth.OidcClient.Android/AndroidBrowserBase.cs:47-49 | for a callback that unsubscribes itself, a message series has the effect of its first message alone |
| `WKWebView.AnySameHostIff` | src/Everwealth.OidcClient.iOS/WKWebViewBrowser.cs:200 | the `Any` walk succeeds exactly when some viewable URL parses to the URL's host |
| `WKWebView.DecidePolicySpec` | src/Everwealth.OidcClient.iOS/WKWebViewBrowser.cs:183-210 | always `Allow`; no action without a URL; a callback URL is sent, as its full text, exactly when its scheme is the end URL's, even if it also matches a restart route; a reload of `StartUrl` (never the detour URL) exactly for a restart route that is not a callback; an external open exactly for a viewable-host URL the system can open that is neither |
| `WKWebView.AsWrittenAgreesWithViewables` | src/Everwealth.OidcClient.iOS/WKWebViewBrowser.cs:200-207 | where viewable URLs are configured, the code as written and the corrected decision agree |
| `WKWebView.AsWrittenThrowsWithoutViewables` | src/Everwealth.OidcClient.iOS/WKWebViewBrowser.cs:200 | with the default options, every non-callback navigation throws `ArgumentNullException` as written |
| `WKWebView.InitialUrl` | src/Everwealth.OidcClient.iOS/WKWebViewBrowser.cs:123 | the detour URL when `LoadDetourUrl` is set, otherwise the start URL |
| `WKWebView.CallbackSpec` | src/Everwealth.OidcClient.iOS/WKWebViewBrowser.cs:54-79 | the callback unsubscribes before anything else; "UserCancel" completes with `Canceled()`; "RestartFlow" keeps the result and presents the disposed controller again (the view is taken to be open); anything else completes with `Success(response)` and closes the view; at most one broadcast, matching the outcome |
| `WKWebView.CallbackEffectsCounts` | src/Everwealth.OidcClient.iOS/WKWebViewBrowser.cs:58-78 | one run broadcasts "UserCancel", nothing, or "Success", and completes the task except on "RestartFlow" |
| `WKWebView.LaunchResolution` | src/Everwealth.OidcClient.iOS/WKWebViewBrowser.cs:54-81 | a started launch is decided by its first message alone and completed at most once; after "RestartFlow" it stays unresolved for good |
| `WKWebView.CallbackUrlCompletesLaunch` | src/Everwealth.OidcClient.iOS/WKWebViewBrowser.cs:187-191 | reaching the callback URL completes a started launch with the URL's full text and one "Success" broadcast |
| `WKWebView.OtherNavigationKeepsWaiting` | src/Everwealth.OidcClient.iOS/WKWebViewBrowser.cs:192-207 | a reload or an external open neither completes the launch, nor unsubscribes it, nor broadcasts |
| `WKWebView.WKWebViewSession.Create` | src/Everwealth.OidcClient.iOS/WKWebViewBrowser.cs:116-125 | the controller starts by asking the view to load the initial URL |
| `WKWebView.WKWebViewSession.Start` | src/Everwealth.OidcClient.iOS/WKWebViewBrowser.cs:43-87 | a null initial URL throws before anything is subscribed; otherwise load, then subscribe once, then present, with the task pending |
| `WKWebView.WKWebViewSession.RunCallback` | src/Everwealth.OidcClient.iOS/WKWebViewBrowser.cs:54-79 | the session's new state is the callback's, the delegate is removed, and `BrowserMediator` delivers the callback's signal |
| `WKWebView.WKWebViewSession.Deliver` | src/Everwealth.OidcClient.iOS/WKWebViewBrowser.cs:54-81 | `ActivityMediator` delivers to every listener, and the callback runs only if still subscribed |
| `WKWebView.WKWebViewSession.HandleNavigation` | src/Everwealth.OidcClient.iOS/WKWebViewBrowser.cs:183-210 | the corrected navigation delegate (null viewable URLs read as none): the decided action is carried out and `Allow` returned; only a callback URL touches the relays; there, the callback is unsubscribed and its signal broadcast |
| `WKWebView.WKWebViewSession.HandleNavigationAsWritten` | src/Everwealth.OidcClient.iOS/WKWebViewBrowser.cs:183-210 | the delegate as written: when the decision throws, the exception escapes with nothing changed and no answer given; otherwise it is the corrected delegate and answers `Allow` |
| `WKWebView.WKWebViewSession.CloseButton` | src/Everwealth.OidcClient.iOS/WKWebViewBrowser.cs:176-180 | `ActivityMediator.Cancel()`, then the view is dismissed; a waiting callback is unsubscribed and broadcasts "UserCancel" on `BrowserMediator` |
| `WKWebView.WKWebViewSession.DidDismiss` | src/Everwealth.OidcClient.iOS/WKWebViewBrowser.cs:105-108 | once the view is dismissed, `ActivityMediator.Cancel()`; a waiting callback is unsubscribed and broadcasts "UserCancel" on `BrowserMediator` |
| `WKWebView.WKWebViewBrowser.constructor` | src/Everwealth.OidcClient.iOS/WKWebViewBrowser.cs:25-29 | the browser keeps the routes and viewable URLs it is given |
| `WKWebView.WKWebViewBrowser.Launch` | src/Everwealth.OidcClient.iOS/WKWebViewBrowser.cs:32-41 | the caller's extended options get the browser's routes and viewable URLs and nothing else changes; plain options are copied into new extended options with them; then `Start` |
| `WKWebView.WKWebViewBrowser.InvokeAsync` | src/Everwealth.OidcClient.iOS/iOSBrowserBase.cs:15-36 | blank URLs throw the validation error with nothing changed; otherwise exactly what `Launch` promises: the options rewritten, a session that is presented, subscribed once and pending, unless a requested detour URL is null |
| `SFAuthSession.CompletionSignal` | src/Everwealth.OidcClient.iOS/SFAuthenticationSessionBrowser.cs:40-53 | "Success" without an error, "UserCancel" for every error |
| `SFAuthSession.CreateBrowserResult` | src/Everwealth.OidcClient.iOS/SFAuthenticationSessionBrowser.cs:38-54 | no error gives the callback URL's text as response (a null URL throws); the cancelled-login code gives a cancel; other codes give the error's text |
| `SFAuthSession.SignalMatchesResult` | src/Everwealth.OidcClient.iOS/SFAuthenticationSessionBrowser.cs:40-53 | the broadcast is "Success" exactly for a success result; a cancel exactly for the cancelled-login code; an unknown error for every other code |
| `SFAuthSession.AuthenticationSession.constructor` | src/Everwealth.OidcClient.iOS/SFAuthenticationSessionBrowser.cs:24-26 | the session shows the start URL and waits for the end URL's scheme |
| `SFAuthSession.AuthenticationSession.Complete` | src/Everwealth.OidcClient.iOS/SFAuthenticationSessionBrowser.cs:27-31 | exactly one broadcast, made first; then the task is completed and the session disposed, unless the result throws or the task was already complete |
| `SFAuthSession.Start` | src/Everwealth.OidcClient.iOS/SFAuthenticationSessionBrowser.cs:19-36 | a null start URL throws; otherwise a pending session on the start URL with the end URL as callback scheme |
| `SFAuthSession.InvokeAsync` | src/Everwealth.OidcClient.iOS/iOSBrowserBase.cs:15-24 | blank URLs throw the validation error; otherwise a pending session is started on the URLs |
| `AndroidBase.LaunchContext` | src/Everwealth.OidcClient.Android/AndroidBrowserBase.cs:71-78 | the browser's context when it has one, the application context otherwise |
| `AndroidBase.ChooseOpen` | src/Everwealth.OidcClient.Android/AndroidBrowserBase.cs:71-78 | the two-URL open exactly for extended options with `LoadDetourUrl`, with the detour URL; otherwise the start URL alone |
| `AndroidBase.OpenWithDetourOutcome` | src/Everwealth.OidcClient.Android/AndroidBrowserBase.cs:95-98 | the two-URL open always throws: `NotImplementedException`, or the failed parse of a null detour URL |
| `AndroidBase.CallbackSpec` | src/Everwealth.OidcClient.Android/AndroidBrowserBase.cs:47-67 | unsubscribe first; "UserCancel" gives a cancel and a "UserCancel" broadcast; anything else gives a success and a "Success" broadcast; the message is the response; the task is completed exactly once |
| `AndroidBase.LaunchResolution` | src/Everwealth.OidcClient.Android/AndroidBrowserBase.cs:47-69 | a started launch is resolved by its first message alone, exactly once, with that message as response |
| `AndroidBase.AndroidSession.Subscribe` | src/Everwealth.OidcClient.Android/AndroidBrowserBase.cs:45-69 | the callback is subscribed once and the task is pending |
| `AndroidBase.AndroidSession.Opened` | src/Everwealth.OidcClient.Android/AndroidBrowserBase.cs:77 | the browser was opened on the URL |
| `AndroidBase.AndroidSession.RunCallback` | src/Everwealth.OidcClient.Android/AndroidBrowserBase.cs:47-67 | the session's new state is the callback's, the delegate is removed, and `BrowserMediator` delivers the callback's signal |
| `AndroidBase.AndroidSession.Deliver` | src/Everwealth.OidcClient.Android/AndroidBrowserBase.cs:47-69 | `ActivityMediator` delivers to every listener, and the callback runs only if still subscribed |
| `AndroidWebView.Intent.constructor` | src/Everwealth.OidcClient.Android/WebViewBrowser.cs:28 | an intent for the activity, with no flags and no extras |
| `AndroidWebView.Intent.AddFlags` | src/Everwealth.OidcClient.Android/WebViewBrowser.cs:29-32 | the flag is added and the extras are untouched |
| `AndroidWebView.Intent.PutExtra` | src/Everwealth.OidcClient.Android/WebViewBrowser.cs:35 | the extra is set and the flags are untouched |
| `AndroidWebView.WebViewBrowser.constructor` | src/Everwealth.OidcClient.Android/AndroidBrowserBase.cs:30-34 | `IsNewTask` exactly when no context was given |
| `AndroidWebView.WebViewBrowser.OpenBrowser` | src/Everwealth.OidcClient.Android/WebViewBrowser.cs:26-38 | the intent always has `NoHistory`, has `NewTask` exactly when `IsNewTask`, and carries the URI under `extra.url`; it is started |
| `AndroidWebView.WebViewBrowser.InvokeAsync` | src/Everwealth.OidcClient.Android/AndroidBrowserBase.cs:37-81 | blank URLs throw before any subscription, start URL first; otherwise subscription comes before the open; the detour path throws with the callback left subscribed; the start path starts one activity on the start URL |
| `AndroidWebView.CustomSchemeWebViewClient.constructor` | src/Everwealth.OidcClient.Android/WebViewBrowser.cs:85-88 | the client keeps its progress bar |
| `AndroidWebView.CustomSchemeWebViewClient.ShouldOverrideUrlLoading` | src/Everwealth.OidcClient.Android/WebViewBrowser.cs:90-99 | a present URL that is not http or https is sent once as its full text and the load overridden; a waiting callback is unsubscribed and broadcasts its signal; otherwise nothing is sent, the bar is shown and the base answer returned |
| `AndroidWebView.CustomSchemeWebViewClient.OnPageFinished` | src/Everwealth.OidcClient.Android/WebViewBrowser.cs:101-105 | the bar is hidden |
| `AndroidWebView.HandOverCompletesLaunch` | src/Everwealth.OidcClient.Android/WebViewBrowser.cs:92-96 | a handed-over URL completes a started launch once, with its text as response; http and https URLs are never handed over |
| `AndroidWebView.WebViewActivity.constructor` | src/Everwealth.OidcClient.Android/WebViewBrowser.cs:42 | a new activity is not finished |
| `AndroidWebView.WebViewActivity.OnOptionsItemSelected` | src/Everwealth.OidcClient.Android/WebViewBrowser.cs:70-80 | Home finishes the activity and reports it handled, without any message; other items get the base answer |
| `AndroidAuth.FilterTestSpec` | src/Everwealth.OidcClient.Android/AuthClient.cs:89-99 | the filter test throws exactly for a viewing filter with null categories; otherwise it passes exactly for view, default, browsable, and scheme, host and prefix present |
| `AndroidAuth.QualifyingFiltersThrow` | src/Everwealth.OidcClient.Android/AuthClient.cs:73-77 | listing the filters throws exactly when some filter breaks the test |
| `AndroidAuth.QualifyingFiltersMembers` | src/Everwealth.OidcClient.Android/AuthClient.cs:73-77 | the listed filters are exactly the qualifying ones |
| `AndroidAuth.NoneQualifying` | src/Everwealth.OidcClient.Android/AuthClient.cs:76-80 | nothing is listed exactly when no filter qualifies |
| `AndroidAuth.SingleQualifying` | src/Everwealth.OidcClient.Android/AuthClient.cs:76-80 | one filter is listed exactly when exactly one qualifies, and it is that one |
| `AndroidAuth.GetResourcableValue` | src/Everwealth.OidcClient.Android/AuthClient.cs:101-106 | a value not starting with "@" is kept; one that does becomes its resource string when the identifier is positive, and is kept otherwise |
| `AndroidAuth.CallbackUriSpec` | src/Everwealth.OidcClient.Android/AuthClient.cs:71-87 | the derivation throws exactly when a filter breaks the test; otherwise there is a URI exactly when one filter qualifies, namely its resolved scheme, "://", host and prefix |
| `AndroidAuth.CompleteLogin` | src/Everwealth.OidcClient.Android/AuthClient.cs:135-145 | a success is handed to the engine with its response; anything else fails with the error text, or the type's non-empty name when there is none |
| `AndroidAuth.LaunchResultLogin` | src/Everwealth.OidcClient.Android/AuthClient.cs:135-145 | an Android launch cancelled with "UserCancel" fails the login with "UserCancel"; any other message is handed to the engine |
| `AndroidAuth.OidcClientOptions.constructor` | src/Everwealth.OidcClient.Android/AuthClient.cs:48-58 | the engine's options hold the browser, both redirect URIs and the response mode they are given |
| `AndroidAuth.AuthClient.constructor` | src/Everwealth.OidcClient.Android/AuthClient.cs:29-32 | the options are used as given |
| `AndroidAuth.AuthClient.Create` | src/Everwealth.OidcClient.Android/AuthClient.cs:48-58 | a null browser becomes the auto-selecting one; non-null settings are kept; the URI is derived only when a redirect URI is null (so a filter that would throw cannot then), and fills in each null one |
| `AndroidAuth.AuthClient.SetBrowser` | src/Everwealth.OidcClient.Android/AuthClient.cs:60-63 | only the browser changes |
| `AndroidAuth.AuthClient.DetourOptions` | src/Everwealth.OidcClient.Android/AuthClient.cs:116-131 | prepared start URL, the client's redirect URI, detour on with the given URL, form-post exactly when the client uses it |
| `AndroidAuth.AuthClient.DetouredLoginAsync` | src/Everwealth.OidcClient.Android/AuthClient.cs:108-150 | with the library's web-view browser the login always throws; any other browser's launch is awaited: its exception escapes, its completion (whatever the result) fails the login with "UserCancel", and a launch that never completes leaves the login waiting; a null browser throws |

## Left out

- UI chrome:
  - view-controller construction details, navigation bar, activity indicator;
  - `ViewDidLoad`, `ViewDidAppear`, `DidFinishNavigation`, `DidFailNavigation`;
  - animations and colours;
  - the `FindRootController` walk (a view-hierarchy lookup);
  - the unused `CallbackHandler` scheme handler.
  
  None of these decides anything about a launch.
- The Android activity lifecycle (`OnCreate`: layout, cookie clearing, loading the `extra.url` URL). It is platform plumbing.
- `SystemBrowser`, `ChromeCustomTabsBrowser`, the `AutoSelectBrowser` the constructor creates, and any other browser. Their launches are foreign: `DetouredLoginAsync` takes how such a launch ends as a parameter: it throws, it completes, or it stays pending. `AutoSelectBrowser` is not part of this model; it is taken not to be a `WebViewBrowser`.
- The protocol engine is foreign. `PrepareLoginAsync` becomes the prepared start URL passed in. `ProcessResponseAsync` becomes the symbolic `Processed(response)`. `Timeout`, `DisplayMode` and the back-channel parameters of the login request are not modelled.
- Asynchrony and threads. Each callback runs as one atomic step, and await points inside it (view dismissal) are not interleaved with other messages. Cancellation tokens are accepted and never used by the source.
- Console and debug logging.
- URL parsing (`NSUrl`, `Android.Net.Uri`) and `CanOpenUrl` are parameters. Android's `Uri.Parse(s).ToString()` is taken to give `s` back. The failure of `Uri.Parse(null)` is modelled as a null reference. The parser is total: a failed `NSUrl` construction on malformed text (the end, start and viewable URLs in `DecidePolicy`, the initial URL in `Start`) is not modelled.
- WKWebView.CallbackSpec: on "RestartFlow" the source dismisses and disposes the controller, then presents that same disposed controller (WKWebViewBrowser.cs:67-70). The model takes that presentation to succeed and marks the view open; the source promises no such outcome, and the effect log only records the three calls in order.
- `ActivityMediator`'s source is not part of this model. It is modelled with the same class as `BrowserMediator`, so its `Cancel()` sends "UserCancel". This is an assumption: the iOS callback treats that text as its cancel signal.
- A mediator's delegates are ids, and their bodies do not run when the mediator sends. A session's `Deliver` runs only its own callback after the send, so other subscribers' reactions are not modelled.
- The arrays of restart routes and viewable URLs are taken to hold no null element.
- `NSError.ToString()` is the error's text as given.
- The source does not compile as shown, in these places; the model follows the evident intent:
  - `WKWebViewBrowser.Launch` and `SFAuthenticationSessionBrowser.Launch` override a one-parameter `Launch`, while the base declares it with a cancellation token;
  - `WebViewBrowser.OpenBrowser` has two parameters where the base declares three;
  - the four-argument `ExtendedBrowserOptions` constructor and its `ViewableUrls` property are used but not declared. They are modelled as `WithRoutesAndViewables` and `SetViewableUrls`;
  - Android `AuthClient.DetouredLoginAsync` overrides a two-parameter method, while `AuthClientBase` declares it with a third, cancellation-token parameter;
  - Android `AuthClient.DetouredLoginAsync` calls `WebViewBrowser.InvokeAsync` with the options alone, while `AndroidBrowserBase.InvokeAsync` requires the cancellation token as well.
- WKWebView.WKWebViewSession.HandleNavigation: runs the corrected decision, reading null viewable URLs as none, so it never throws. The code as written is `HandleNavigationAsWritten`, and the divergence is the finding below.
- Text.ToUpperOrdinal: folds ASCII letters only. .NET's ordinal case-insensitive comparison also folds non-ASCII letters, so a route matching the path only through such a letter is not recognised here.
- AndroidAuth.GetResourcableValue: tests the "@" prefix ordinally. .NET's `StartsWith(string)` is culture-sensitive and also ignores leading zero-width characters.
- AndroidWebView.CustomSchemeWebViewClient.ShouldOverrideUrlLoading: a null request and a request without a URL are one case (`None`), as the source treats them alike.

## Findings

| source | as written | input that shows it | evidently intended | confidence | as-written member | corrected member |
|---|---|---|---|---|---|---|
| src/Everwealth.OidcClient.iOS/WKWebViewBrowser.cs:200 | `ViewableUrls.Any(...)` is called on the options' viewable URLs. These are null unless the browser was built with some: the constructor default is null (:25), and `Launch` copies it into the options (:37, :40). LINQ throws `ArgumentNullException`, so the decision handler is never called. | `new WKWebViewBrowser()` (as test/iOS/MyViewController.cs:31 builds it), then any navigation whose scheme is not the end URL's, starting with the first load of the start URL | null viewable URLs mean "none": the navigation is allowed with no side action | not executed | `WKWebView.AsWrittenThrowsWithoutViewables` | `WKWebView.DecidePolicySpec` |
