/**
 * The embedded iOS browser (`WKWebViewBrowser` and its `WKWebViewController`): the
 * navigation policy the view applies to every URL it is about to load, the launch that
 * opens the view and subscribes to `ActivityMediator`, and the callback that resolves the
 * launch's task.
 */
module WKWebView {
  import opened Wrappers
  import opened Text
  import opened Results
  import opened Mediation
  import opened Options
  import opened Urls
  import opened Sessions
  import Preflight
  import IOSBrowserBase

  /** `new NSUrl(text)`, which is the platform's. */
  type Parser = string -> Url

  /** What the view does besides answering the decision handler. */
  datatype PolicyAction =
    | SendToMediator(message: string)   // ActivityMediator.Send(url.AbsoluteString)
    | ReloadStartUrl(target: string)       // WebView.LoadRequest(StartUrl)
    | OpenExternally(page: Url)          // UIApplication.OpenUrl(url)
    | NoAction

  /** `WKNavigationActionPolicy`. */
  datatype NavigationActionPolicy = Allow | Cancel

  /** The side action and the answer given to the decision handler. */
  datatype Decision = Decision(action: PolicyAction, policy: NavigationActionPolicy)

  /** As the code stands a decision may also end in an exception, and then no answer is given. */
  datatype PolicyOutcome = Decided(decision: Decision) | Raised(exception: Exception)

  /** `viewables.Any(x => new NSUrl(x).Host == host)`: the walk LINQ performs. */
  function AnySameHost(viewables: seq<string>, host: Option<string>, parse: Parser): bool {
    if viewables == [] then false
    else parse(viewables[0]).host == host || AnySameHost(viewables[1..], host, parse)
  }

  /** The walk succeeds exactly when some viewable URL has the host. */
  lemma {:induction false} AnySameHostIff(viewables: seq<string>, host: Option<string>, parse: Parser)
    ensures AnySameHost(viewables, host, parse) <==> exists i :: 0 <= i < |viewables| && parse(viewables[i]).host == host
  {
    if viewables != [] {
      AnySameHostIff(viewables[1..], host, parse);
      if AnySameHost(viewables[1..], host, parse) {
        var i :| 0 <= i < |viewables[1..]| && parse(viewables[1..][i]).host == host;
        assert parse(viewables[i + 1]).host == host;
      }
      if exists i :: 0 <= i < |viewables| && parse(viewables[i]).host == host {
        var i :| 0 <= i < |viewables| && parse(viewables[i]).host == host;
        if i > 0 {
          assert parse(viewables[1..][i - 1]).host == host;
        }
      }
    }
  }

  // ---- Reference definitions of the three URL classes ----

  /** A callback URL: its scheme is that of the end URL. */
  predicate IsCallbackUrl(url: Url, endUrl: string, parse: Parser) {
    url.scheme == parse(endUrl).scheme
  }

  /**
   * A restart route: routes are configured, the host is the start URL's, the query is null or
   * empty, and the path equals some route ignoring case.
   */
  predicate IsRestartRoute(url: Url, o: OptionsView, parse: Parser)
    requires o.startUrl.Some?
  {
    && o.restartFlowRoutes.Some?
    && url.host == parse(o.startUrl.value).host
    && IsNullOrEmpty(url.query)
    && url.path.Some?
    && exists i :: 0 <= i < |o.restartFlowRoutes.value| && EqualsIgnoreCase(o.restartFlowRoutes.value[i], url.path.value)
  }

  /** A viewable URL: some configured viewable URL has the same host. */
  predicate IsViewable(url: Url, viewables: seq<string>, parse: Parser) {
    exists i :: 0 <= i < |viewables| && parse(viewables[i]).host == url.host
  }

  // ---- The decision, as written and as intended ----

  /**
   * `DecidePolicy` exactly as the controller has it: the checks run in order, and when no
   * viewable URLs are configured (`ViewableUrls` null) the `Any` call throws, so the decision
   * handler is never answered.
   */
  function DecidePolicyAsWritten(request: Option<Url>, o: OptionsView, parse: Parser, canOpenUrl: Url -> bool): PolicyOutcome
    requires o.startUrl.Some? && o.endUrl.Some?
  {
    match request
    case None => Decided(Decision(NoAction, Allow))
    case Some(url) =>
      if url.scheme == parse(o.endUrl.value).scheme then
        Decided(Decision(SendToMediator(url.absolute), Allow))
      else if o.restartFlowRoutes.Some? && url.host == parse(o.startUrl.value).host && IsNullOrEmpty(url.query)
              && url.path.Some? && ContainsIgnoreCase(o.restartFlowRoutes.value, url.path.value) then
        Decided(Decision(ReloadStartUrl(o.startUrl.value), Allow))
      else if o.viewableUrls.None? then
        Raised(ArgumentNullException)
      else if AnySameHost(o.viewableUrls.value, url.host, parse) then
        Decided(Decision(if canOpenUrl(url) then OpenExternally(url) else NoAction, Allow))
      else
        Decided(Decision(NoAction, Allow))
  }

  /** The decision with null `ViewableUrls` read as "no viewable URLs", as the optional parameter intends. */
  function DecidePolicy(request: Option<Url>, o: OptionsView, parse: Parser, canOpenUrl: Url -> bool): Decision
    requires o.startUrl.Some? && o.endUrl.Some?
  {
    match request
    case None => Decision(NoAction, Allow)
    case Some(url) =>
      if url.scheme == parse(o.endUrl.value).scheme then
        Decision(SendToMediator(url.absolute), Allow)
      else if o.restartFlowRoutes.Some? && url.host == parse(o.startUrl.value).host && IsNullOrEmpty(url.query)
              && url.path.Some? && ContainsIgnoreCase(o.restartFlowRoutes.value, url.path.value) then
        Decision(ReloadStartUrl(o.startUrl.value), Allow)
      else if o.viewableUrls.Some? && AnySameHost(o.viewableUrls.value, url.host, parse) then
        Decision(if canOpenUrl(url) then OpenExternally(url) else NoAction, Allow)
      else
        Decision(NoAction, Allow)
  }

  /**
   * The decision classifies each URL by the reference definitions, in priority order:
   * a callback URL is sent (its full text) and nothing else happens, even if it also looks like
   * a restart route; otherwise a restart route reloads the START URL (never the detour URL);
   * otherwise a viewable URL is opened outside only when the system can open it; a missing
   * URL does nothing; and the navigation is always allowed.
   */
  lemma DecidePolicySpec(request: Option<Url>, o: OptionsView, parse: Parser, canOpenUrl: Url -> bool)
    requires o.startUrl.Some? && o.endUrl.Some?
    ensures DecidePolicy(request, o, parse, canOpenUrl).policy == Allow
    ensures request.None? ==> DecidePolicy(request, o, parse, canOpenUrl).action == NoAction
    ensures request.Some? ==>
      var url, a := request.value, DecidePolicy(request, o, parse, canOpenUrl).action;
      && (a.SendToMediator? <==> IsCallbackUrl(url, o.endUrl.value, parse))
      && (a.SendToMediator? ==> a.message == url.absolute)
      && (a.ReloadStartUrl? <==> !IsCallbackUrl(url, o.endUrl.value, parse) && IsRestartRoute(url, o, parse))
      && (a.ReloadStartUrl? ==> a.target == o.startUrl.value)
      && (a.OpenExternally? <==>
            (!IsCallbackUrl(url, o.endUrl.value, parse) && !IsRestartRoute(url, o, parse)
             && o.viewableUrls.Some? && IsViewable(url, o.viewableUrls.value, parse) && canOpenUrl(url)))
      && (a.OpenExternally? ==> a.page == url)
  {
    if request.Some? {
      var url := request.value;
      if o.restartFlowRoutes.Some? && url.path.Some? {
        ContainsIgnoreCaseIff(o.restartFlowRoutes.value, url.path.value);
      }
      if o.viewableUrls.Some? {
        AnySameHostIff(o.viewableUrls.value, url.host, parse);
      }
    }
  }

  /** Where viewable URLs are configured the code as written and the intended decision agree. */
  lemma AsWrittenAgreesWithViewables(request: Option<Url>, o: OptionsView, parse: Parser, canOpenUrl: Url -> bool)
    requires o.startUrl.Some? && o.endUrl.Some? && o.viewableUrls.Some?
    ensures DecidePolicyAsWritten(request, o, parse, canOpenUrl) == Decided(DecidePolicy(request, o, parse, canOpenUrl))
  {
  }

  /**
   * With the browser's default construction (no restart routes, no viewable URLs) every
   * navigation that is not a callback -- the very first load of the start URL among them --
   * throws as the code is written, and the decision handler is never called.
   */
  lemma AsWrittenThrowsWithoutViewables(url: Url, startUrl: string, endUrl: string, parse: Parser, canOpenUrl: Url -> bool)
    requires !IsCallbackUrl(url, endUrl, parse)
    ensures DecidePolicyAsWritten(Some(url), Initial(Some(startUrl), Some(endUrl)), parse, canOpenUrl) == Raised(ArgumentNullException)
  {
  }

  /** The URL the view loads first: the detour URL when asked for, otherwise the start URL (null throws). */
  function InitialUrl(o: OptionsView): (u: Option<string>)
    ensures o.loadDetourUrl ==> u == o.detourUrl
    ensures !o.loadDetourUrl ==> u == o.startUrl
  {
    if o.loadDetourUrl then o.detourUrl else o.startUrl
  }

  // ---- The callback subscribed by Start ----

  /**
   * What `LaunchCallback(response)` does: it unsubscribes first; "UserCancel" broadcasts a cancel and
   * completes the task with `Canceled()`; "RestartFlow" dismisses and disposes the controller,
   * then presents that disposed controller again (taken to succeed, so `surfaceOpen` is set) and
   * leaves the task pending; any other text broadcasts a success, dismisses and disposes
   * the view and completes the task with `Success(response)`.
   */
  function LaunchCallback(s: SessionState, response: string): SessionState {
    s.(subscribed := false,
       result := if response == RestartFlowMessage then s.result else Some(CallbackResult(response)),
       surfaceOpen := if response == UserCancelMessage then s.surfaceOpen else response == RestartFlowMessage,
       effects := s.effects + CallbackEffects(response))
  }

  /** The result a completing callback gives the task. */
  function CallbackResult(response: string): BrowserResult {
    if response == UserCancelMessage then IOSBrowserBase.Canceled() else IOSBrowserBase.Success(response)
  }

  /** The side effects of one callback run, in order. */
  function CallbackEffects(response: string): seq<Effect> {
    [Unsubscribed] +
    if response == UserCancelMessage then [Broadcast(UserCancelMessage), Resolved(CallbackResult(response))]
    else if response == RestartFlowMessage then [Dismissed, Disposed, Presented]
    else [Broadcast(SuccessMessage), Dismissed, Disposed, Resolved(CallbackResult(response))]
  }

  /** The message the callback broadcasts on `BrowserMediator`, if any. */
  function Signal(response: string): Option<string> {
    if response == UserCancelMessage then Some(UserCancelMessage)
    else if response == RestartFlowMessage then None
    else Some(SuccessMessage)
  }

  /** Convert an optional message to the list of messages. */
  function AsSeq(m: Option<string>): seq<string> {
    if m.Some? then [m.value] else []
  }

  /**
   * One callback run: the first thing it logs is its own unsubscription; it broadcasts at
   * most one message (`Signal`) and completes the task at most once; "RestartFlow" leaves the
   * result as it was.
   */
  lemma CallbackSpec(s: SessionState, response: string)
    ensures !LaunchCallback(s, response).subscribed
    ensures |LaunchCallback(s, response).effects| > |s.effects|
    ensures LaunchCallback(s, response).effects[..|s.effects| + 1] == s.effects + [Unsubscribed]
    ensures Broadcasts(LaunchCallback(s, response).effects) == Broadcasts(s.effects) + AsSeq(Signal(response))
    ensures Resolutions(LaunchCallback(s, response).effects) == Resolutions(s.effects) + (if response == RestartFlowMessage then 0 else 1)
    ensures response == UserCancelMessage ==> LaunchCallback(s, response).result == Some(IOSBrowserBase.Canceled())
    ensures response == RestartFlowMessage ==> LaunchCallback(s, response).result == s.result && LaunchCallback(s, response).surfaceOpen
    ensures response != UserCancelMessage && response != RestartFlowMessage ==>
              LaunchCallback(s, response).result == Some(IOSBrowserBase.Success(response)) && !LaunchCallback(s, response).surfaceOpen
  {
    CallbackEffectsCounts(response);
    BroadcastsAppend(s.effects, CallbackEffects(response));
    ResolutionsAppend(s.effects, CallbackEffects(response));
  }

  /** One callback run broadcasts `Signal(response)` and completes the task unless asked to restart. */
  lemma CallbackEffectsCounts(response: string)
    ensures Broadcasts(CallbackEffects(response)) == AsSeq(Signal(response))
    ensures Resolutions(CallbackEffects(response)) == if response == RestartFlowMessage then 0 else 1
  {
    EmptyCounts();
    if response == UserCancelMessage {
      var c := Resolved(CallbackResult(response));
      assert CallbackEffects(response) == [Unsubscribed] + ([Broadcast(UserCancelMessage)] + ([c] + []));
      ConsCounts(c, []);
      ConsCounts(Broadcast(UserCancelMessage), [c] + []);
      ConsCounts(Unsubscribed, [Broadcast(UserCancelMessage)] + ([c] + []));
    } else if response == RestartFlowMessage {
      assert CallbackEffects(response) == [Unsubscribed] + ([Dismissed] + ([Disposed] + ([Presented] + [])));
      ConsCounts(Presented, []);
      ConsCounts(Disposed, [Presented] + []);
      ConsCounts(Dismissed, [Disposed] + ([Presented] + []));
      ConsCounts(Unsubscribed, [Dismissed] + ([Disposed] + ([Presented] + [])));
    } else {
      var c := Resolved(CallbackResult(response));
      var rest := [Dismissed] + ([Disposed] + ([c] + []));
      assert CallbackEffects(response) == [Unsubscribed] + ([Broadcast(SuccessMessage)] + rest);
      ConsCounts(c, []);
      ConsCounts(Disposed, [c] + []);
      ConsCounts(Dismissed, [Disposed] + ([c] + []));
      ConsCounts(Broadcast(SuccessMessage), rest);
      ConsCounts(Unsubscribed, [Broadcast(SuccessMessage)] + rest);
    }
  }

  /**
   * A started launch is decided by the first `ActivityMediator` message alone: "UserCancel"
   * cancels, "RestartFlow" strands the task unresolved for good (the callback is not
   * re-subscribed), anything else succeeds with that text; the task is completed at most once.
   */
  lemma {:induction false} LaunchResolution(s: SessionState, messages: seq<string>)
    requires Fresh(s) && messages != []
    ensures DeliverAll(LaunchCallback, s, messages) == LaunchCallback(s, messages[0])
    ensures !DeliverAll(LaunchCallback, s, messages).subscribed
    ensures Resolutions(DeliverAll(LaunchCallback, s, messages).effects) <= 1
    ensures DeliverAll(LaunchCallback, s, messages).result ==
              if messages[0] == UserCancelMessage then Some(IOSBrowserBase.Canceled())
              else if messages[0] == RestartFlowMessage then None
              else Some(IOSBrowserBase.Success(messages[0]))
  {
    CallbackSpec(s, messages[0]);
    FirstMessageDecides(LaunchCallback, s, messages);
  }

  /** What the view does for a decided action. */
  function Enact(s: SessionState, action: PolicyAction): SessionState {
    match action
    case SendToMediator(m) => Sessions.Deliver(LaunchCallback, s, m)
    case ReloadStartUrl(u) => s.(effects := s.effects + [LoadRequested(u)])
    case OpenExternally(u) => s.(effects := s.effects + [OpenedExternally(u.absolute)])
    case NoAction => s
  }

  /**
   * Reaching the callback URL completes a started launch with `Success` of the URL's full text;
   * the options' restart routes do not matter.
   */
  lemma CallbackUrlCompletesLaunch(s: SessionState, url: Url, o: OptionsView, parse: Parser, canOpenUrl: Url -> bool)
    requires Fresh(s) && o.startUrl.Some? && o.endUrl.Some?
    requires IsCallbackUrl(url, o.endUrl.value, parse)
    requires url.absolute != UserCancelMessage && url.absolute != RestartFlowMessage
    ensures Enact(s, DecidePolicy(Some(url), o, parse, canOpenUrl).action).result == Some(IOSBrowserBase.Success(url.absolute))
    ensures Broadcasts(Enact(s, DecidePolicy(Some(url), o, parse, canOpenUrl).action).effects) == Broadcasts(s.effects) + [SuccessMessage]
  {
    CallbackSpec(s, url.absolute);
  }

  /** A restart route or a viewable URL never completes the launch and keeps it subscribed. */
  lemma OtherNavigationKeepsWaiting(s: SessionState, request: Option<Url>, o: OptionsView, parse: Parser, canOpenUrl: Url -> bool)
    requires o.startUrl.Some? && o.endUrl.Some?
    requires !DecidePolicy(request, o, parse, canOpenUrl).action.SendToMediator?
    ensures Enact(s, DecidePolicy(request, o, parse, canOpenUrl).action).result == s.result
    ensures Enact(s, DecidePolicy(request, o, parse, canOpenUrl).action).subscribed == s.subscribed
    ensures Broadcasts(Enact(s, DecidePolicy(request, o, parse, canOpenUrl).action).effects) == Broadcasts(s.effects)
  {
    var a := DecidePolicy(request, o, parse, canOpenUrl).action;
    if a.ReloadStartUrl? {
      BroadcastsAppend(s.effects, [LoadRequested(a.target)]);
    } else if a.OpenExternally? {
      BroadcastsAppend(s.effects, [OpenedExternally(a.page.absolute)]);
    }
  }

  /**
   * One `Start` in progress: the view controller, the task and the callback subscribed to
   * `ActivityMediator` (`activity`); `browserMediator` is the relay the callback broadcasts on.
   */
  class WKWebViewSession {
    const activity: Mediator
    const browserMediator: Mediator
    const id: ListenerId
    const options: ExtendedBrowserOptions
    var result: Option<BrowserResult>
    var surfaceOpen: bool
    var effects: seq<Effect>

    /** The callback is subscribed at most once, and never after the task is complete. */
    ghost predicate Valid()
      reads this, activity
    {
      && activity != browserMediator
      && options.startUrl.Some? && options.endUrl.Some?
      && multiset(activity.listeners)[id] <= 1
      && (result.Some? ==> id !in activity.listeners)
    }

    /** The session's abstract state. */
    function View(): SessionState
      reads this, activity
    {
      SessionState(id in activity.listeners, result, surfaceOpen, effects)
    }

    /** The controller's construction: it asks the view to load `initialUrl`. */
    constructor Create(activity: Mediator, browserMediator: Mediator, options: ExtendedBrowserOptions, id: ListenerId, initialUrl: string)
      ensures this.activity == activity && this.browserMediator == browserMediator
      ensures this.options == options && this.id == id
      ensures result.None? && !surfaceOpen && effects == [LoadRequested(initialUrl)]
    {
      this.activity, this.browserMediator, this.options, this.id := activity, browserMediator, options, id;
      result, surfaceOpen, effects := None, false, [LoadRequested(initialUrl)];
    }

    /**
     * `Start(options)`: the controller loads the initial URL (a null detour URL throws before
     * anything is subscribed), then the callback is subscribed, then the view is presented.
     */
    static method Start(options: ExtendedBrowserOptions, activity: Mediator, browserMediator: Mediator, id: ListenerId)
      returns (r: Checked<WKWebViewSession>)
      requires activity != browserMediator && id !in activity.listeners
      requires Preflight.Validate(options.startUrl, options.endUrl).None?
      modifies activity
      ensures InitialUrl(options.View()).None? ==> r == Threw(ArgumentNullException) && unchanged(activity)
      ensures InitialUrl(options.View()).Some? ==>
        && r.Returned? && fresh(r.value) && r.value.Valid()
        && r.value.activity == activity && r.value.browserMediator == browserMediator
        && r.value.options == options && r.value.id == id
        && r.value.View() == SessionState(true, None, true, [LoadRequested(InitialUrl(options.View()).value), Subscribed, Presented])
        && activity.listeners == old(activity.listeners) + [id] && activity.trace == old(activity.trace)
    {
      Preflight.ValidUrlsAreNonNull(options.startUrl, options.endUrl);
      var initial := InitialUrl(options.View());
      if initial.None? {
        return Threw(ArgumentNullException);
      }
      var s := new WKWebViewSession.Create(activity, browserMediator, options, id, initial.value);
      activity.Subscribe(id);
      s.effects := s.effects + [Subscribed];
      s.surfaceOpen := true;
      s.effects := s.effects + [Presented];
      assert multiset(activity.listeners)[id] == 1;
      r := Returned(s);
    }

    /** The callback body, run when a message reaches it while it is subscribed. */
    method RunCallback(response: string)
      requires Valid() && id in activity.listeners
      modifies this, activity, browserMediator
      ensures Valid()
      ensures View() == LaunchCallback(old(View()), response)
      ensures activity.listeners == RemoveLast(old(activity.listeners), id) && activity.trace == old(activity.trace)
      ensures browserMediator.listeners == old(browserMediator.listeners)
      ensures browserMediator.trace == old(browserMediator.trace) +
                (if Signal(response).Some? then Deliveries(browserMediator.listeners, Signal(response).value) else [])
    {
      RemoveLastOnlyCopy(activity.listeners, id);
      activity.Unsubscribe(id);
      if response == UserCancelMessage {
        browserMediator.Cancel();
      } else if response == RestartFlowMessage {
        surfaceOpen := true;
      } else {
        browserMediator.Success();
        surfaceOpen := false;
      }
      if response != RestartFlowMessage {
        result := Some(CallbackResult(response));
      }
      effects := effects + CallbackEffects(response);
    }

    /**
     * `ActivityMediator.Send(message)` with this session's callback among the listeners it may
     * reach: every listener receives the message, and the callback runs if still subscribed.
     */
    method Deliver(message: string)
      requires Valid()
      modifies this, activity, browserMediator
      ensures Valid()
      ensures View() == Sessions.Deliver(LaunchCallback, old(View()), message)
      ensures activity.trace == old(activity.trace) + Deliveries(old(activity.listeners), message)
      ensures activity.listeners == if old(id in activity.listeners) then RemoveLast(old(activity.listeners), id) else old(activity.listeners)
      ensures browserMediator.listeners == old(browserMediator.listeners)
      ensures browserMediator.trace == old(browserMediator.trace) +
                (if old(id in activity.listeners) && Signal(message).Some? then Deliveries(browserMediator.listeners, Signal(message).value) else [])
    {
      var subscribed := id in activity.listeners;
      activity.Send(message);
      if subscribed {
        RunCallback(message);
      }
    }

    /**
     * `DecidePolicy` as the view's navigation delegate: the decision is taken on the options as
     * they are now, its action is carried out, and the navigation is allowed.
     */
    method HandleNavigation(request: Option<Url>, parse: Parser, canOpenUrl: Url -> bool) returns (policy: NavigationActionPolicy)
      requires Valid()
      modifies this, activity, browserMediator
      ensures Valid()
      ensures policy == Allow
      ensures View() == Enact(old(View()), DecidePolicy(request, options.View(), parse, canOpenUrl).action)
      ensures browserMediator.listeners == old(browserMediator.listeners)
      ensures !DecidePolicy(request, options.View(), parse, canOpenUrl).action.SendToMediator? ==>
                unchanged(activity) && unchanged(browserMediator)
      ensures DecidePolicy(request, options.View(), parse, canOpenUrl).action.SendToMediator? ==>
                var m := DecidePolicy(request, options.View(), parse, canOpenUrl).action.message;
                && activity.trace == old(activity.trace) + Deliveries(old(activity.listeners), m)
                && activity.listeners == (if old(id in activity.listeners) then RemoveLast(old(activity.listeners), id) else old(activity.listeners))
                && browserMediator.trace == old(browserMediator.trace) +
                     (if old(id in activity.listeners) && Signal(m).Some? then Deliveries(browserMediator.listeners, Signal(m).value) else [])
    {
      var d := DecidePolicy(request, options.View(), parse, canOpenUrl);
      match d.action {
        case SendToMediator(m) =>
          Deliver(m);
        case ReloadStartUrl(u) =>
          effects := effects + [LoadRequested(u)];
        case OpenExternally(u) =>
          effects := effects + [OpenedExternally(u.absolute)];
        case NoAction =>
      }
      policy := d.policy;
    }

    /**
     * `DecidePolicy` exactly as the controller has it: when the decision throws (no viewable
     * URLs configured and the URL is neither a callback nor a restart route) the exception
     * escapes, nothing is done and the decision handler is never answered; otherwise it is
     * `HandleNavigation`.
     */
    method HandleNavigationAsWritten(request: Option<Url>, parse: Parser, canOpenUrl: Url -> bool) returns (r: Checked<NavigationActionPolicy>)
      requires Valid()
      modifies this, activity, browserMediator
      ensures Valid()
      ensures DecidePolicyAsWritten(request, options.View(), parse, canOpenUrl).Raised? ==>
                && r == Threw(DecidePolicyAsWritten(request, options.View(), parse, canOpenUrl).exception)
                && unchanged(this) && unchanged(activity) && unchanged(browserMediator)
      ensures DecidePolicyAsWritten(request, options.View(), parse, canOpenUrl).Decided? ==>
                && r == Returned(Allow)
                && DecidePolicyAsWritten(request, options.View(), parse, canOpenUrl).decision == DecidePolicy(request, options.View(), parse, canOpenUrl)
                && View() == Enact(old(View()), DecidePolicy(request, options.View(), parse, canOpenUrl).action)
                && browserMediator.listeners == old(browserMediator.listeners)
    {
      var outcome := DecidePolicyAsWritten(request, options.View(), parse, canOpenUrl);
      if outcome.Raised? {
        return Threw(outcome.exception);
      }
      var policy := HandleNavigation(request, parse, canOpenUrl);
      r := Returned(policy);
    }

    /** `Cancelled`, the close button: `ActivityMediator.Cancel()`, then the view is dismissed. */
    method CloseButton()
      requires Valid()
      modifies this, activity, browserMediator
      ensures Valid()
      ensures View() == Sessions.Deliver(LaunchCallback, old(View()), UserCancelMessage).(surfaceOpen := false,
                effects := Sessions.Deliver(LaunchCallback, old(View()), UserCancelMessage).effects + [Dismissed])
      ensures activity.trace == old(activity.trace) + Deliveries(old(activity.listeners), UserCancelMessage)
      ensures activity.listeners == if old(id in activity.listeners) then RemoveLast(old(activity.listeners), id) else old(activity.listeners)
      ensures browserMediator.listeners == old(browserMediator.listeners)
      ensures browserMediator.trace == old(browserMediator.trace) +
                (if old(id in activity.listeners) then Deliveries(browserMediator.listeners, UserCancelMessage) else [])
    {
      Deliver(UserCancelMessage);
      surfaceOpen := false;
      effects := effects + [Dismissed];
    }

    /** `DidDismiss`: once the user has swiped the view away, `ActivityMediator.Cancel()`. */
    method DidDismiss()
      requires Valid()
      modifies this, activity, browserMediator
      ensures Valid()
      ensures View() == Sessions.Deliver(LaunchCallback, old(View()).(surfaceOpen := false, effects := old(View()).effects + [Dismissed]), UserCancelMessage)
      ensures activity.trace == old(activity.trace) + Deliveries(old(activity.listeners), UserCancelMessage)
      ensures activity.listeners == if old(id in activity.listeners) then RemoveLast(old(activity.listeners), id) else old(activity.listeners)
      ensures browserMediator.listeners == old(browserMediator.listeners)
      ensures browserMediator.trace == old(browserMediator.trace) +
                (if old(id in activity.listeners) then Deliveries(browserMediator.listeners, UserCancelMessage) else [])
    {
      surfaceOpen := false;
      effects := effects + [Dismissed];
      Deliver(UserCancelMessage);
    }
  }

  /** `WKWebViewBrowser`: the restart routes and viewable URLs given at construction. */
  class WKWebViewBrowser {
    const restartFlowRoutes: Option<seq<string>>
    const viewableUrls: Option<seq<string>>

    /** `new WKWebViewBrowser(restartFlowRoutes, viewableUrls)`; both default to null. */
    constructor (restartFlowRoutes: Option<seq<string>>, viewableUrls: Option<seq<string>>)
      ensures this.restartFlowRoutes == restartFlowRoutes && this.viewableUrls == viewableUrls
    {
      this.restartFlowRoutes, this.viewableUrls := restartFlowRoutes, viewableUrls;
    }

    /**
     * `Launch(options)`: extended options get the browser's own routes and viewable URLs
     * written into them (the caller's object is changed); plain options are copied into new
     * extended options carrying the browser's routes and viewable URLs; then `Start`.
     */
    method Launch(options: LaunchOptions, activity: Mediator, browserMediator: Mediator, id: ListenerId)
      returns (r: Checked<WKWebViewSession>)
      requires activity != browserMediator && id !in activity.listeners
      requires Preflight.Validate(StartUrlOf(options), EndUrlOf(options)).None?
      modifies activity, if options.Extended? then {options.extended} else {}
      ensures options.Extended? ==>
                (options.extended.View() ==
                 old(options.extended.View()).(restartFlowRoutes := restartFlowRoutes, viewableUrls := viewableUrls))
      ensures options.Plain? || !options.extended.loadDetourUrl || options.extended.detourUrl.Some? ==> r.Returned?
      ensures r.Threw? ==> r.exception == ArgumentNullException && unchanged(activity)
      ensures r.Returned? ==>
        && fresh(r.value) && r.value.Valid() && r.value.activity == activity && r.value.browserMediator == browserMediator
        && (options.Extended? ==> r.value.options == options.extended)
        && (options.Plain? ==>
              fresh(r.value.options) && r.value.options.View() == Initial(options.options.startUrl, options.options.endUrl).(restartFlowRoutes := restartFlowRoutes, viewableUrls := viewableUrls))
        && InitialUrl(r.value.options.View()).Some?
        && r.value.View() == SessionState(true, None, true, [LoadRequested(InitialUrl(r.value.options.View()).value), Subscribed, Presented])
        && activity.listeners == old(activity.listeners) + [id]
    {
      var e: ExtendedBrowserOptions;
      if options.Extended? {
        e := options.extended;
        e.SetRestartFlowRoutes(restartFlowRoutes);
        e.SetViewableUrls(viewableUrls);
      } else {
        e := new ExtendedBrowserOptions.WithRoutesAndViewables(options.options.startUrl, options.options.endUrl, restartFlowRoutes, viewableUrls);
      }
      r := WKWebViewSession.Start(e, activity, browserMediator, id);
    }

    /**
     * `InvokeAsync` (both overloads): blank URLs throw before anything changes, the start URL
     * checked first; otherwise exactly what `Launch` promises.
     */
    method InvokeAsync(options: LaunchOptions, activity: Mediator, browserMediator: Mediator, id: ListenerId)
      returns (r: Checked<WKWebViewSession>)
      requires activity != browserMediator && id !in activity.listeners
      modifies activity, if options.Extended? then {options.extended} else {}
      ensures Preflight.Validate(StartUrlOf(options), EndUrlOf(options)).Some? ==>
        && r == Threw(Preflight.Validate(StartUrlOf(options), EndUrlOf(options)).value)
        && unchanged(activity) && (options.Extended? ==> unchanged(options.extended))
      ensures Preflight.Validate(StartUrlOf(options), EndUrlOf(options)).None? ==>
        && (options.Extended? ==>
              (options.extended.View() ==
               old(options.extended.View()).(restartFlowRoutes := restartFlowRoutes, viewableUrls := viewableUrls)))
        && (options.Plain? || !options.extended.loadDetourUrl || options.extended.detourUrl.Some? ==> r.Returned?)
        && (r.Threw? ==> r.exception == ArgumentNullException && unchanged(activity))
        && (r.Returned? ==>
              && fresh(r.value) && r.value.Valid() && r.value.activity == activity && r.value.browserMediator == browserMediator
              && (options.Extended? ==> r.value.options == options.extended)
              && (options.Plain? ==>
                    fresh(r.value.options) && r.value.options.View() == Initial(options.options.startUrl, options.options.endUrl).(restartFlowRoutes := restartFlowRoutes, viewableUrls := viewableUrls))
              && InitialUrl(r.value.options.View()).Some?
              && r.value.View() == SessionState(true, None, true, [LoadRequested(InitialUrl(r.value.options.View()).value), Subscribed, Presented])
              && activity.listeners == old(activity.listeners) + [id])
    {
      var invalid := Preflight.Validate(StartUrlOf(options), EndUrlOf(options));
      if invalid.Some? {
        return Threw(invalid.value);
      }
      r := Launch(options, activity, browserMediator, id);
    }
  }
}
