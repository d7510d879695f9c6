/**
 * The Android `AuthClient`: how it derives a callback URI from the intent filters registered on
 * the calling activity, how its constructor fills in the browser and redirect URIs the options
 * leave null, and how `DetouredLoginAsync` drives a browser through a detour URL.
 */
module AndroidAuth {
  import opened Wrappers
  import opened Text
  import opened Results
  import opened Mediation
  import opened Options
  import opened AndroidBase
  import opened AndroidWebView
  import Preflight

  /** `Intent.ActionView`, `Intent.CategoryDefault`, `Intent.CategoryBrowsable`. */
  const ActionView: string := "android.intent.action.VIEW"
  const CategoryDefault: string := "android.intent.category.DEFAULT"
  const CategoryBrowsable: string := "android.intent.category.BROWSABLE"

  /** An `[IntentFilter]` attribute on the activity; `Categories` and the data properties may be null. */
  datatype IntentFilter = IntentFilter(
    actions: seq<string>,
    categories: Option<seq<string>>,
    dataScheme: Option<string>,
    dataHost: Option<string>,
    dataPathPrefix: Option<string>)

  /**
   * The calling activity as the client consults it: its intent filters, in declaration order,
   * and its resources (`Resources.GetIdentifier` for the activity's package, and
   * `Resources.GetString`), which are the platform's.
   */
  datatype ActivityInfo = ActivityInfo(
    filters: seq<IntentFilter>,
    identifier: string -> int,
    resourceString: int -> string)

  // ---- Filter tests, as written and as a reference ----

  /** `IsActionDefaultBrowsable`: `Contains` on null categories throws, but only once the action test has passed. */
  function IsActionDefaultBrowsable(f: IntentFilter): Checked<bool> {
    if ActionView !in f.actions then Returned(false)
    else if f.categories.None? then Threw(ArgumentNullException)
    else Returned(CategoryDefault in f.categories.value && CategoryBrowsable in f.categories.value)
  }

  /** `HasSchemeHostAndPrefix`. */
  predicate HasSchemeHostAndPrefix(f: IntentFilter) {
    f.dataScheme.Some? && f.dataHost.Some? && f.dataPathPrefix.Some?
  }

  /** A filter on which the test throws. */
  predicate Breaks(f: IntentFilter) {
    ActionView in f.actions && f.categories.None?
  }

  /**
   * A filter that can receive the sign-in callback: it views, it is a default browsable
   * category, and it names a scheme, a host and a path prefix.
   */
  predicate Qualifies(f: IntentFilter) {
    && ActionView in f.actions
    && f.categories.Some? && CategoryDefault in f.categories.value && CategoryBrowsable in f.categories.value
    && f.dataScheme.Some? && f.dataHost.Some? && f.dataPathPrefix.Some?
  }

  /** `.Where(i => IsActionDefaultBrowsable(i) && HasSchemeHostAndPrefix(i)).ToList()`: every filter is tested, in order. */
  function QualifyingFilters(filters: seq<IntentFilter>): Checked<seq<IntentFilter>> {
    if filters == [] then Returned([])
    else
      var head := IsActionDefaultBrowsable(filters[0]);
      if head.Threw? then Threw(head.exception)
      else
        var rest := QualifyingFilters(filters[1..]);
        if rest.Threw? then rest
        else if head.value && HasSchemeHostAndPrefix(filters[0]) then Returned([filters[0]] + rest.value)
        else rest
  }

  /** The filter test agrees with the reference definition wherever it does not throw. */
  lemma FilterTestSpec(f: IntentFilter)
    ensures IsActionDefaultBrowsable(f).Threw? <==> Breaks(f)
    ensures IsActionDefaultBrowsable(f).Threw? ==> IsActionDefaultBrowsable(f).exception == ArgumentNullException
    ensures IsActionDefaultBrowsable(f).Returned? ==>
              (IsActionDefaultBrowsable(f).value && HasSchemeHostAndPrefix(f) <==> Qualifies(f))
  {
  }

  /** Listing the filters throws exactly when one of them breaks the test. */
  lemma {:induction false} QualifyingFiltersThrow(filters: seq<IntentFilter>)
    ensures QualifyingFilters(filters).Threw? <==> exists i :: 0 <= i < |filters| && Breaks(filters[i])
    ensures QualifyingFilters(filters).Threw? ==> QualifyingFilters(filters).exception == ArgumentNullException
  {
    if filters != [] {
      QualifyingFiltersThrow(filters[1..]);
      if exists i :: 0 <= i < |filters[1..]| && Breaks(filters[1..][i]) {
        var i :| 0 <= i < |filters[1..]| && Breaks(filters[1..][i]);
        assert Breaks(filters[i + 1]);
      }
      if exists i :: 0 <= i < |filters| && Breaks(filters[i]) {
        var i :| 0 <= i < |filters| && Breaks(filters[i]);
        if i > 0 {
          assert Breaks(filters[1..][i - 1]);
        }
      }
    }
  }

  /** The listed filters are exactly the qualifying ones. */
  lemma {:induction false} QualifyingFiltersMembers(filters: seq<IntentFilter>)
    requires QualifyingFilters(filters).Returned?
    ensures forall k :: 0 <= k < |QualifyingFilters(filters).value| ==> Qualifies(QualifyingFilters(filters).value[k])
    ensures forall i :: 0 <= i < |filters| && Qualifies(filters[i]) ==> filters[i] in QualifyingFilters(filters).value
    ensures forall k :: 0 <= k < |QualifyingFilters(filters).value| ==> QualifyingFilters(filters).value[k] in filters
  {
    if filters != [] {
      QualifyingFiltersMembers(filters[1..]);
      FilterTestSpec(filters[0]);
      forall i | 0 <= i < |filters| && Qualifies(filters[i])
        ensures filters[i] in QualifyingFilters(filters).value
      {
        if i > 0 {
          assert filters[i] == filters[1..][i - 1];
        }
      }
    }
  }

  /** Exactly one filter qualifies, at index `i`. */
  predicate OnlyQualifying(filters: seq<IntentFilter>, i: int) {
    0 <= i < |filters| && Qualifies(filters[i]) && forall j :: 0 <= j < |filters| && j != i ==> !Qualifies(filters[j])
  }

  /** No filter qualifies exactly when none is listed. */
  lemma {:induction false} NoneQualifying(filters: seq<IntentFilter>)
    requires QualifyingFilters(filters).Returned?
    ensures |QualifyingFilters(filters).value| == 0 <==> forall j :: 0 <= j < |filters| ==> !Qualifies(filters[j])
  {
    QualifyingFiltersMembers(filters);
    if |QualifyingFilters(filters).value| > 0 {
      var f := QualifyingFilters(filters).value[0];
      var j :| 0 <= j < |filters| && filters[j] == f;
      assert Qualifies(filters[j]);
    }
  }

  /** One filter is listed exactly when exactly one filter qualifies; it is that filter. */
  lemma {:induction false} SingleQualifying(filters: seq<IntentFilter>)
    requires QualifyingFilters(filters).Returned?
    ensures |QualifyingFilters(filters).value| == 1 <==> exists i :: OnlyQualifying(filters, i)
    ensures forall i :: OnlyQualifying(filters, i) ==> QualifyingFilters(filters).value == [filters[i]]
  {
    if filters != [] {
      var rest := filters[1..];
      FilterTestSpec(filters[0]);
      SingleQualifying(rest);
      NoneQualifying(rest);
      forall j | 0 <= j < |rest| ensures rest[j] == filters[j + 1] { }
      if Qualifies(filters[0]) {
        assert QualifyingFilters(filters).value == [filters[0]] + QualifyingFilters(rest).value;
        if |QualifyingFilters(rest).value| == 0 {
          assert OnlyQualifying(filters, 0);
        }
        forall i | OnlyQualifying(filters, i) ensures i == 0 && |QualifyingFilters(rest).value| == 0 {
          forall j | 0 <= j < |rest| ensures !Qualifies(rest[j]) {
            assert j + 1 != i;
          }
        }
      } else {
        assert QualifyingFilters(filters).value == QualifyingFilters(rest).value;
        if exists i :: OnlyQualifying(rest, i) {
          var i :| OnlyQualifying(rest, i);
          assert OnlyQualifying(filters, i + 1) by {
            forall j | 0 <= j < |filters| && j != i + 1 ensures !Qualifies(filters[j]) {
              if j > 0 { assert rest[j - 1] == filters[j]; }
            }
          }
        }
        forall i | OnlyQualifying(filters, i) ensures i > 0 && OnlyQualifying(rest, i - 1) {
          forall j | 0 <= j < |rest| && j != i - 1 ensures !Qualifies(rest[j]) {
            assert filters[j + 1] == rest[j];
          }
        }
      }
    }
  }

  /**
   * `GetResourcableValue`: a value not starting with "@" is kept; one that does is replaced by
   * the resource string it names when the lookup finds a positive identifier, and kept otherwise.
   */
  function GetResourcableValue(activity: ActivityInfo, value: string): (r: string)
    ensures !StartsWith(value, "@") ==> r == value
    ensures StartsWith(value, "@") && activity.identifier(value) > 0 ==> r == activity.resourceString(activity.identifier(value))
    ensures StartsWith(value, "@") && activity.identifier(value) <= 0 ==> r == value
  {
    if !StartsWith(value, "@") then value
    else
      var resourceId := activity.identifier(value);
      if resourceId > 0 then activity.resourceString(resourceId) else value
  }

  /** The callback URI a qualifying filter describes: `scheme://host` followed by the path prefix. */
  function FilterUri(activity: ActivityInfo, f: IntentFilter): string
    requires HasSchemeHostAndPrefix(f)
  {
    GetResourcableValue(activity, f.dataScheme.value) + "://" + GetResourcableValue(activity, f.dataHost.value)
      + GetResourcableValue(activity, f.dataPathPrefix.value)
  }

  /** `GetActivityIntentCallbackUri`: null unless exactly one filter qualifies. */
  function GetActivityIntentCallbackUri(activity: ActivityInfo): Checked<Option<string>> {
    var intents := QualifyingFilters(activity.filters);
    if intents.Threw? then Threw(intents.exception)
    else if |intents.value| != 1 then Returned(None)
    else
      QualifyingFiltersMembers(activity.filters);
      Returned(Some(FilterUri(activity, intents.value[0])))
  }

  /**
   * The derived URI: the lookup throws exactly when some filter breaks the test; otherwise
   * there is a URI exactly when one filter qualifies, and it is that filter's, with
   * `"://"` right after the resolved scheme.
   */
  lemma CallbackUriSpec(activity: ActivityInfo)
    ensures GetActivityIntentCallbackUri(activity).Threw? <==> exists i :: 0 <= i < |activity.filters| && Breaks(activity.filters[i])
    ensures GetActivityIntentCallbackUri(activity).Returned? ==>
              (GetActivityIntentCallbackUri(activity).value.Some? <==> exists i :: OnlyQualifying(activity.filters, i))
    ensures forall i :: GetActivityIntentCallbackUri(activity).Returned? && OnlyQualifying(activity.filters, i) ==>
              && GetActivityIntentCallbackUri(activity).value == Some(FilterUri(activity, activity.filters[i]))
              && StartsWith(FilterUri(activity, activity.filters[i])[|GetResourcableValue(activity, activity.filters[i].dataScheme.value)|..], "://")
  {
    QualifyingFiltersThrow(activity.filters);
    if QualifyingFilters(activity.filters).Returned? {
      SingleQualifying(activity.filters);
      forall i | OnlyQualifying(activity.filters, i)
        ensures StartsWith(FilterUri(activity, activity.filters[i])[|GetResourcableValue(activity, activity.filters[i].dataScheme.value)|..], "://")
      {
        var f := activity.filters[i];
        var scheme := GetResourcableValue(activity, f.dataScheme.value);
        var rest := GetResourcableValue(activity, f.dataHost.value) + GetResourcableValue(activity, f.dataPathPrefix.value);
        assert FilterUri(activity, f) == scheme + ("://" + rest);
        assert FilterUri(activity, f)[|scheme|..] == "://" + rest;
      }
    }
  }

  // ---- Client options and construction ----

  /** What `OidcClientOptions.Browser` holds. */
  datatype BrowserChoice =
    | NoBrowser                        // null
    | WebView(browser: WebViewBrowser) // the library's WebViewBrowser
    | AutoSelect                       // the AutoSelectBrowser the constructor supplies
    | OtherBrowser(name: string)       // any other IBrowser

  /** The protocol engine's `OidcClientOptions`, as far as the client reads and writes it. */
  class OidcClientOptions {
    var browser: BrowserChoice
    var redirectUri: Option<string>
    var postLogoutRedirectUri: Option<string>
    var responseMode: ResponseMode

    constructor (browser: BrowserChoice, redirectUri: Option<string>, postLogoutRedirectUri: Option<string>, responseMode: ResponseMode)
      ensures this.browser == browser && this.redirectUri == redirectUri
      ensures this.postLogoutRedirectUri == postLogoutRedirectUri && this.responseMode == responseMode
    {
      this.browser, this.redirectUri, this.postLogoutRedirectUri, this.responseMode := browser, redirectUri, postLogoutRedirectUri, responseMode;
    }
  }

  /** The outcome of a login. `Processed` stands for the engine's result of processing that response. */
  datatype LoginResult = Failed(error: string) | Processed(response: Option<string>)

  /** What `DetouredLoginAsync` leaves behind. */
  datatype LoginOutcome =
    | LoginFinished(result: LoginResult)
    | LoginThrew(exception: Exception)
    | LoginWaiting(session: AndroidSession)  // the browser's task has not completed
    | LoginWaitingForeign                    // a foreign browser's task has not completed

  /**
   * How a foreign browser's `InvokeAsync` task ends, as far as the login can tell: it throws,
   * it completes (with a result the login ignores), or it never completes (an
   * `AndroidBrowserBase` browser's task waits for an `ActivityMediator` message).
   */
  datatype ForeignLaunch = ForeignThrew(exception: Exception) | ForeignCompleted | ForeignPending

  /**
   * What the login does with a completed browser result: a success is handed to the engine;
   * anything else fails with the result's error text, or with the result type's name when there
   * is none.
   */
  function CompleteLogin(result: BrowserResult): (r: LoginResult)
    ensures r.Processed? <==> result.resultType == BrowserResultType.Success
    ensures r.Processed? ==> r.response == result.response
    ensures r.Failed? && result.error.Some? ==> r.error == result.error.value
    ensures r.Failed? && result.error.None? ==> r.error == TypeName(result.resultType) && |r.error| > 0
  {
    if result.resultType == BrowserResultType.Success then Processed(result.response)
    else Failed(result.error.GetOr(TypeName(result.resultType)))
  }

  /**
   * For the results an Android launch completes with: the cancel sentinel fails the login with
   * "UserCancel", and any other message is handed to the engine as the response.
   */
  lemma LaunchResultLogin(message: string)
    ensures message == UserCancelMessage ==> CompleteLogin(CallbackResult(message)) == Failed(UserCancelMessage)
    ensures message != UserCancelMessage ==> CompleteLogin(CallbackResult(message)) == Processed(Some(message))
  {
  }

  /** The login's outcome after awaiting a foreign browser's launch. */
  function ForeignLogin(launch: ForeignLaunch): LoginOutcome {
    match launch
    case ForeignThrew(e) => LoginThrew(e)
    case ForeignCompleted => LoginFinished(Failed(UserCancelMessage))
    case ForeignPending => LoginWaitingForeign
  }

  /** The Android client, over the options object it was built with (and keeps updating). */
  class AuthClient {
    const options: OidcClientOptions

    /** `new AuthClient(options)`: the options are used as given. */
    constructor (options: OidcClientOptions)
      ensures this.options == options
    {
      this.options := options;
    }

    /**
     * `new AuthClient(options, activity)`: a null browser becomes an `AutoSelectBrowser`; the
     * callback URI is derived from the activity only when a redirect URI is null, and then fills
     * in each null one; non-null settings are kept. A derivation that throws leaves the browser
     * already set.
     */
    static method Create(options: OidcClientOptions, activity: ActivityInfo) returns (r: Checked<AuthClient>)
      modifies options
      ensures options.browser == if old(options.browser).NoBrowser? then AutoSelect else old(options.browser)
      ensures options.responseMode == old(options.responseMode)
      ensures old(options.redirectUri).Some? && old(options.postLogoutRedirectUri).Some? ==>
                r.Returned? && options.redirectUri == old(options.redirectUri) && options.postLogoutRedirectUri == old(options.postLogoutRedirectUri)
      ensures (old(options.redirectUri).None? || old(options.postLogoutRedirectUri).None?) ==>
        var derived := GetActivityIntentCallbackUri(activity);
        && (derived.Threw? ==>
              (r == Threw(derived.exception)
               && options.redirectUri == old(options.redirectUri)
               && options.postLogoutRedirectUri == old(options.postLogoutRedirectUri)))
        && (derived.Returned? ==>
              (r.Returned?
               && options.redirectUri == (if old(options.redirectUri).Some? then old(options.redirectUri) else derived.value)
               && options.postLogoutRedirectUri ==
                    (if old(options.postLogoutRedirectUri).Some? then old(options.postLogoutRedirectUri) else derived.value)))
      ensures r.Returned? ==> fresh(r.value) && r.value.options == options
    {
      if options.browser.NoBrowser? {
        options.browser := AutoSelect;
      }
      var defaultRedirectUri: Option<string> := None;
      if options.redirectUri.None? || options.postLogoutRedirectUri.None? {
        var derived := GetActivityIntentCallbackUri(activity);
        if derived.Threw? {
          return Threw(derived.exception);
        }
        defaultRedirectUri := derived.value;
      }
      if options.redirectUri.None? {
        options.redirectUri := defaultRedirectUri;
      }
      if options.postLogoutRedirectUri.None? {
        options.postLogoutRedirectUri := defaultRedirectUri;
      }
      var client := new AuthClient(options);
      r := Returned(client);
    }

    /** `SetBrowser(browser)`: the engine's options (the same object) get the browser. */
    method SetBrowser(browser: BrowserChoice)
      modifies options
      ensures options.browser == browser
      ensures options.redirectUri == old(options.redirectUri) && options.postLogoutRedirectUri == old(options.postLogoutRedirectUri)
      ensures options.responseMode == old(options.responseMode)
    {
      options.browser := browser;
    }

    /**
     * The browser options `DetouredLoginAsync` builds: the prepared start URL and the client's
     * redirect URI, with the detour URL to be loaded first, and the form-post mode exactly when
     * the client uses it.
     */
    method DetourOptions(startUrl: Option<string>, detourUrl: Option<string>) returns (o: ExtendedBrowserOptions)
      ensures fresh(o)
      ensures o.View() == Initial(startUrl, options.redirectUri).(loadDetourUrl := true, detourUrl := detourUrl,
                                                                    responseMode := options.responseMode)
      ensures o.View().responseMode == FormPost <==> options.responseMode == FormPost
    {
      o := new ExtendedBrowserOptions(startUrl, options.redirectUri);
      o.SetLoadDetourUrl(true);
      o.SetDetourUrl(detourUrl);
      if options.responseMode == FormPost {
        o.SetResponseMode(FormPost);
      } else {
        o.SetResponseMode(Redirect);
      }
    }

    /**
     * `DetouredLoginAsync(detourUrl)`. With the library's `WebViewBrowser` the prepared start
     * URL (from the engine's `PrepareLoginAsync`) is launched with the detour URL; since the
     * two-URL open always throws, so does the login. Any other browser is launched on the detour
     * URL with "null" as end URL (`otherLaunch` is how that foreign launch ends): an exception
     * escapes, a completed launch fails the login with "UserCancel" whatever its result, and a
     * launch that never completes leaves the login waiting; a null browser throws.
     */
    method DetouredLoginAsync(detourUrl: Option<string>, preparedStartUrl: Option<string>,
                              activity: Mediator, browserMediator: Mediator, id: ListenerId,
                              applicationContext: Context, otherLaunch: ForeignLaunch) returns (r: LoginOutcome)
      requires activity != browserMediator && id !in activity.listeners
      modifies activity, if options.browser.WebView? then {options.browser.browser} else {}
      ensures options.browser.NoBrowser? ==> r == LoginThrew(NullReferenceException)
      ensures (options.browser.AutoSelect? || options.browser.OtherBrowser?) ==>
                && (otherLaunch.ForeignThrew? ==> r == LoginThrew(otherLaunch.exception))
                && (otherLaunch.ForeignCompleted? ==> r == LoginFinished(Failed(UserCancelMessage)))
                && (otherLaunch.ForeignPending? ==> r == LoginWaitingForeign)
      ensures options.browser.WebView? ==>
        && r.LoginThrew?
        && (Preflight.Validate(preparedStartUrl, options.redirectUri).Some? ==>
              r.exception == Preflight.Validate(preparedStartUrl, options.redirectUri).value)
        && (Preflight.Validate(preparedStartUrl, options.redirectUri).None? ==>
              r.exception == OpenWithDetourOutcome(detourUrl) && activity.listeners == old(activity.listeners) + [id])
    {
      match options.browser {
        case NoBrowser =>
          return LoginThrew(NullReferenceException);
        case WebView(browser) =>
          var browserOptions := DetourOptions(preparedStartUrl, detourUrl);
          var launch := browser.InvokeAsync(Extended(browserOptions), activity, browserMediator, id, applicationContext);
          match launch {
            case Rejected(e) => r := LoginThrew(e);
            case Abandoned(e, _) => r := LoginThrew(e);
            case Pending(s, _) => r := LoginWaiting(s);
          }
        case AutoSelect =>
          r := ForeignLogin(otherLaunch);
        case OtherBrowser(_) =>
          r := ForeignLogin(otherLaunch);
      }
    }
  }
}
