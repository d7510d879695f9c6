/**
 * `WebViewBrowser`: the Android browser that shows the sign-in pages in the library's own
 * `WebViewActivity`, and that activity's `CustomSchemeWebViewClient`, which hands every
 * non-web URL to `ActivityMediator`.
 */
module AndroidWebView {
  import opened Wrappers
  import opened Mediation
  import opened Options
  import opened Urls
  import opened Sessions
  import opened AndroidBase
  import Preflight

  /** `ActivityFlags` the browser sets. */
  datatype ActivityFlag = NoHistory | NewTask

  /** `WebViewActivity.EXTRA_URL`: the extra that carries the URL to load. */
  const ExtraUrl: string := "extra.url"

  /** The activity the browser's intents start. */
  const WebViewActivityName: string := "WebViewActivity"

  /** `android.R.id.home`, the action bar's Up/Home item. */
  const HomeItemId: int := 0x0102002c

  /** An Android `Intent` under construction: its target and the flags and extras added so far. */
  class Intent {
    const context: Context
    const component: string
    var flags: set<ActivityFlag>
    var extras: map<string, string>

    /** `new Intent(context, typeof(component))`: no flags, no extras. */
    constructor (context: Context, component: string)
      ensures this.context == context && this.component == component
      ensures flags == {} && extras == map[]
    {
      this.context, this.component := context, component;
      flags, extras := {}, map[];
    }

    /** `AddFlags(flag)`: the extras are untouched. */
    method AddFlags(flag: ActivityFlag)
      modifies this
      ensures flags == old(flags) + {flag} && extras == old(extras)
    {
      flags := flags + {flag};
    }

    /** `PutExtra(key, value)`: the flags are untouched. */
    method PutExtra(key: string, value: string)
      modifies this
      ensures extras == old(extras)[key := value] && flags == old(flags)
    {
      extras := extras[key := value];
    }
  }

  /** What `InvokeAsync` leaves behind. */
  datatype LaunchOutcome =
    | Rejected(exception: Exception)                        // thrown before anything was subscribed
    | Abandoned(exception: Exception, session: AndroidSession)  // thrown after the callback was subscribed
    | Pending(session: AndroidSession, intent: Intent)      // the activity was started; the task waits

  /**
   * A `WebViewBrowser`: the context it was constructed with, whether it launches a new Android
   * task, and the intents it has started.
   */
  class WebViewBrowser {
    const context: Option<Context>
    const isNewTask: bool
    var started: seq<Intent>

    /** `new WebViewBrowser(context)`: a new task is launched exactly when no context is given. */
    constructor (context: Option<Context>)
      ensures this.context == context
      ensures isNewTask <==> context.None?
      ensures started == []
    {
      this.context := context;
      isNewTask := context.None?;
      started := [];
    }

    /**
     * `OpenBrowser(uri, context)`: an intent for `WebViewActivity` that always carries
     * `NoHistory`, carries `NewTask` exactly when the browser launches a new task, and passes the
     * URI text under `EXTRA_URL`; it is then started.
     */
    method OpenBrowser(uri: string, launchContext: Context) returns (intent: Intent)
      modifies this
      ensures fresh(intent)
      ensures intent.context == launchContext && intent.component == WebViewActivityName
      ensures NoHistory in intent.flags
      ensures NewTask in intent.flags <==> isNewTask
      ensures intent.flags == {NoHistory} + (if isNewTask then {NewTask} else {})
      ensures intent.extras == map[ExtraUrl := uri]
      ensures started == old(started) + [intent]
    {
      intent := new Intent(launchContext, WebViewActivityName);
      intent.AddFlags(NoHistory);
      if isNewTask {
        intent.AddFlags(NewTask);
      }
      intent.PutExtra(ExtraUrl, uri);
      started := started + [intent];
    }

    /**
     * `InvokeAsync(options)`: blank URLs throw before anything is subscribed (start URL first);
     * otherwise the callback is subscribed and only then is the browser opened. The two-URL
     * open, chosen for extended options with `LoadDetourUrl`, throws and leaves the callback
     * subscribed; the one-URL open starts `WebViewActivity` on the start URL with
     * `context ?? Application.Context`.
     */
    method InvokeAsync(options: LaunchOptions, activity: Mediator, browserMediator: Mediator, id: ListenerId,
                       applicationContext: Context) returns (r: LaunchOutcome)
      requires activity != browserMediator && id !in activity.listeners
      modifies this, activity
      ensures Preflight.Validate(StartUrlOf(options), EndUrlOf(options)).Some? ==>
        && r == Rejected(Preflight.Validate(StartUrlOf(options), EndUrlOf(options)).value)
        && unchanged(this) && unchanged(activity)
      ensures Preflight.Validate(StartUrlOf(options), EndUrlOf(options)).None? ==>
        && !r.Rejected?
        && (r.Abandoned? <==> options.Extended? && options.extended.loadDetourUrl)
        && activity.listeners == old(activity.listeners) + [id] && activity.trace == old(activity.trace)
        && (r.Abandoned? ==>
              && r.exception == OpenWithDetourOutcome(options.extended.detourUrl)
              && fresh(r.session) && r.session.Valid() && r.session.activity == activity && r.session.id == id
              && r.session.View() == SessionState(true, None, false, [Subscribed])
              && unchanged(this))
        && (r.Pending? ==>
              && fresh(r.session) && r.session.Valid() && r.session.activity == activity && r.session.id == id
              && r.session.browserMediator == browserMediator
              && r.session.View() == SessionState(true, None, true, [Subscribed, StartedActivity(StartUrlOf(options).value)])
              && fresh(r.intent) && started == old(started) + [r.intent]
              && r.intent.context == LaunchContext(context, applicationContext)
              && r.intent.extras == map[ExtraUrl := StartUrlOf(options).value]
              && r.intent.flags == {NoHistory} + (if isNewTask then {NewTask} else {}))
    {
      var invalid := Preflight.Validate(StartUrlOf(options), EndUrlOf(options));
      if invalid.Some? {
        return Rejected(invalid.value);
      }
      Preflight.ValidUrlsAreNonNull(StartUrlOf(options), EndUrlOf(options));
      var startUrl := StartUrlOf(options).value;
      var session := new AndroidSession.Subscribe(activity, browserMediator, id);
      var choice := ChooseOpen(options, startUrl);
      if choice.OpenWithDetour? {
        return Abandoned(OpenWithDetourOutcome(choice.detourUrl), session);
      }
      var intent := OpenBrowser(startUrl, LaunchContext(context, applicationContext));
      session.Opened(startUrl);
      r := Pending(session, intent);
    }
  }

  /** `ProgressBar.Visibility`. */
  datatype Visibility = Visible | Invisible | Gone

  /**
   * The web view client of `WebViewActivity`: the progress bar it shows while a page loads, and
   * the launch waiting on `ActivityMediator` that the URLs it hands over reach.
   */
  class CustomSchemeWebViewClient {
    const session: AndroidSession
    var progress: Visibility

    /** `new CustomSchemeWebViewClient(progressBar)`, the bar in its initial state. */
    constructor (session: AndroidSession, progress: Visibility)
      ensures this.session == session && this.progress == progress
    {
      this.session, this.progress := session, progress;
    }

    /**
     * `ShouldOverrideUrlLoading`: a URL whose scheme is neither "http" nor "https" is sent to
     * `ActivityMediator` (its full text) and the load is overridden; any other load, and a
     * missing request or URL, shows the progress bar and defers to the base class's answer.
     */
    method ShouldOverrideUrlLoading(requestUrl: Option<Url>, baseResult: bool) returns (handled: bool)
      requires session.Valid()
      modifies this, session, session.activity, session.browserMediator
      ensures session.Valid()
      ensures HandsOver(requestUrl) ==>
        && handled && progress == old(progress)
        && session.View() == Sessions.Deliver(LaunchCallback, old(session.View()), requestUrl.value.absolute)
        && session.activity.trace == old(session.activity.trace) + Deliveries(old(session.activity.listeners), requestUrl.value.absolute)
        && session.activity.listeners ==
             (if old(session.id in session.activity.listeners) then RemoveLast(old(session.activity.listeners), session.id) else old(session.activity.listeners))
        && session.browserMediator.listeners == old(session.browserMediator.listeners)
        && session.browserMediator.trace == old(session.browserMediator.trace) +
             (if old(session.id in session.activity.listeners)
              then Deliveries(session.browserMediator.listeners, CallbackSignal(requestUrl.value.absolute)) else [])
      ensures !HandsOver(requestUrl) ==>
        && handled == baseResult && progress == Visible
        && unchanged(session) && unchanged(session.activity) && unchanged(session.browserMediator)
    {
      if HandsOver(requestUrl) {
        session.Deliver(requestUrl.value.absolute);
        return true;
      }
      progress := Visible;
      handled := baseResult;
    }

    /** `OnPageFinished`: the progress bar is hidden, whatever the page. */
    method OnPageFinished(url: string)
      modifies this
      ensures progress == Invisible
    {
      progress := Invisible;
    }
  }

  /** The client's test: a present URL that is not a web (http or https) URL is a callback. */
  predicate HandsOver(requestUrl: Option<Url>) {
    requestUrl.Some? && requestUrl.value.scheme != Some("http") && requestUrl.value.scheme != Some("https")
  }

  /**
   * A callback URL reaching a started launch completes it with the URL's full text as the
   * response; a web URL never reaches the launch.
   */
  lemma HandOverCompletesLaunch(s: SessionState, requestUrl: Option<Url>)
    requires Fresh(s)
    ensures HandsOver(requestUrl) ==>
              Sessions.Deliver(LaunchCallback, s, requestUrl.value.absolute).result == Some(CallbackResult(requestUrl.value.absolute))
    ensures HandsOver(requestUrl) ==> Resolutions(Sessions.Deliver(LaunchCallback, s, requestUrl.value.absolute).effects) == 1
    ensures requestUrl.Some? && requestUrl.value.scheme in {Some("http"), Some("https")} ==> !HandsOver(requestUrl)
  {
    if HandsOver(requestUrl) {
      CallbackSpec(s, requestUrl.value.absolute);
    }
  }

  /** `WebViewActivity`: only whether it has been finished is modelled. */
  class WebViewActivity {
    var finished: bool

    constructor ()
      ensures !finished
    {
      finished := false;
    }

    /**
     * `OnOptionsItemSelected`: the Home item finishes the activity and reports the item handled,
     * without any `ActivityMediator` message; any other item is the base class's answer.
     */
    method OnOptionsItemSelected(itemId: int, baseResult: bool) returns (handled: bool)
      modifies this
      ensures itemId == HomeItemId ==> handled && finished
      ensures itemId != HomeItemId ==> handled == baseResult && finished == old(finished)
    {
      if itemId == HomeItemId {
        finished := true;
        return true;
      }
      handled := baseResult;
    }
  }
}
