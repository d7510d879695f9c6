/**
 * `AndroidBrowserBase`: the launch every Android browser shares. `InvokeAsync` validates the
 * options, subscribes a callback to `ActivityMediator`, and opens the browser; the callback maps
 * the first message it receives to the launch's result.
 */
module AndroidBase {
  import opened Wrappers
  import opened Results
  import opened Mediation
  import opened Options
  import opened Sessions

  /** An Android `Context`, which is the platform's; only its identity matters here. */
  datatype Context = Context(name: string)

  /** `context ?? Application.Context`: the context a launch opens the browser with. */
  function LaunchContext(context: Option<Context>, applicationContext: Context): (c: Context)
    ensures context.Some? ==> c == context.value
    ensures context.None? ==> c == applicationContext
  {
    context.GetOr(applicationContext)
  }

  /** Which of the two `OpenBrowser` overloads `InvokeAsync` calls. */
  datatype OpenChoice = OpenStart(startUrl: string) | OpenWithDetour(startUrl: string, detourUrl: Option<string>)

  /**
   * The dispatch of `InvokeAsync`: the two-URL overload exactly for extended options that ask
   * for the detour URL, with the start and detour URLs; otherwise the start URL alone.
   */
  function ChooseOpen(options: LaunchOptions, startUrl: string): (c: OpenChoice)
    reads if options.Extended? then {options.extended} else {}
    ensures c.OpenWithDetour? <==> options.Extended? && options.extended.loadDetourUrl
    ensures c.startUrl == startUrl
    ensures c.OpenWithDetour? ==> c.detourUrl == options.extended.detourUrl
  {
    if options.Extended? && options.extended.loadDetourUrl then OpenWithDetour(startUrl, options.extended.detourUrl)
    else OpenStart(startUrl)
  }

  /**
   * The base two-URL `OpenBrowser`, which no browser in this library overrides: it always throws.
   * Parsing a null detour URL fails first, on the platform side; that failure is modelled as a
   * null reference.
   */
  function OpenWithDetourOutcome(detourUrl: Option<string>): (e: Exception)
    ensures detourUrl.None? ==> e == NullReferenceException
    ensures detourUrl.Some? ==> e == NotImplementedException
  {
    if detourUrl.None? then NullReferenceException else NotImplementedException
  }

  // ---- The callback ----

  /** The result the callback completes the task with: the message is always the response. */
  function CallbackResult(response: string): BrowserResult {
    BrowserResult(if response == UserCancelMessage then BrowserResultType.UserCancel else BrowserResultType.Success,
                  Some(response), None)
  }

  /** The message the callback broadcasts on `BrowserMediator`. */
  function CallbackSignal(response: string): string {
    if response == UserCancelMessage then UserCancelMessage else SuccessMessage
  }

  /** The side effects of one callback run, in order. */
  function CallbackEffects(response: string): seq<Effect> {
    [Unsubscribed, Broadcast(CallbackSignal(response)), Resolved(CallbackResult(response))]
  }

  /** What the callback does: it unsubscribes, broadcasts, and completes the task. */
  function LaunchCallback(s: SessionState, response: string): SessionState {
    s.(subscribed := false, result := Some(CallbackResult(response)), effects := s.effects + CallbackEffects(response))
  }

  /**
   * One callback run unsubscribes before anything else, broadcasts "UserCancel" for the cancel
   * sentinel and "Success" for anything else, and completes the task exactly once with the
   * message as response and a type that agrees with the broadcast.
   */
  lemma CallbackSpec(s: SessionState, response: string)
    ensures !LaunchCallback(s, response).subscribed
    ensures LaunchCallback(s, response).effects[..|s.effects| + 1] == s.effects + [Unsubscribed]
    ensures Broadcasts(LaunchCallback(s, response).effects) == Broadcasts(s.effects) + [CallbackSignal(response)]
    ensures Resolutions(LaunchCallback(s, response).effects) == Resolutions(s.effects) + 1
    ensures LaunchCallback(s, response).result.Some?
    ensures LaunchCallback(s, response).result.value.response == Some(response)
    ensures LaunchCallback(s, response).result.value.error.None?
    ensures (LaunchCallback(s, response).result.value.resultType == BrowserResultType.UserCancel) <==> response == UserCancelMessage
    ensures (LaunchCallback(s, response).result.value.resultType == BrowserResultType.Success) <==> response != UserCancelMessage
    ensures (CallbackSignal(response) == SuccessMessage) <==> LaunchCallback(s, response).result.value.resultType == BrowserResultType.Success
  {
    var tail := CallbackEffects(response);
    var c := Resolved(CallbackResult(response));
    assert tail == [Unsubscribed] + ([Broadcast(CallbackSignal(response))] + ([c] + []));
    EmptyCounts();
    ConsCounts(c, []);
    ConsCounts(Broadcast(CallbackSignal(response)), [c] + []);
    ConsCounts(Unsubscribed, [Broadcast(CallbackSignal(response))] + ([c] + []));
    BroadcastsAppend(s.effects, tail);
    ResolutionsAppend(s.effects, tail);
  }

  /**
   * A started launch is resolved by the first `ActivityMediator` message alone, exactly once,
   * with that message as its response; later messages find no callback.
   */
  lemma {:induction false} LaunchResolution(s: SessionState, messages: seq<string>)
    requires Fresh(s) && messages != []
    ensures DeliverAll(LaunchCallback, s, messages) == LaunchCallback(s, messages[0])
    ensures Resolutions(DeliverAll(LaunchCallback, s, messages).effects) == 1
    ensures DeliverAll(LaunchCallback, s, messages).result == Some(CallbackResult(messages[0]))
    ensures Broadcasts(DeliverAll(LaunchCallback, s, messages).effects) == Broadcasts(s.effects) + [CallbackSignal(messages[0])]
  {
    CallbackSpec(s, messages[0]);
    FirstMessageDecides(LaunchCallback, s, messages);
  }

  /** One `InvokeAsync` in progress: the task and the callback subscribed to `ActivityMediator`. */
  class AndroidSession {
    const activity: Mediator
    const browserMediator: Mediator
    const id: ListenerId
    var result: Option<BrowserResult>
    var surfaceOpen: bool
    var effects: seq<Effect>

    /** The callback is subscribed at most once, and never after the task is complete. */
    ghost predicate Valid()
      reads this, activity
    {
      && activity != browserMediator
      && multiset(activity.listeners)[id] <= 1
      && (result.Some? ==> id !in activity.listeners)
    }

    /** The session's abstract state. */
    function View(): SessionState
      reads this, activity
    {
      SessionState(id in activity.listeners, result, surfaceOpen, effects)
    }

    /** `InvokeAsync`'s task and callback, subscribed at once (`ActivityMessageReceived += Callback`). */
    constructor Subscribe(activity: Mediator, browserMediator: Mediator, id: ListenerId)
      requires activity != browserMediator && id !in activity.listeners
      modifies activity
      ensures this.activity == activity && this.browserMediator == browserMediator && this.id == id
      ensures Valid()
      ensures View() == SessionState(true, None, false, [Subscribed])
      ensures activity.listeners == old(activity.listeners) + [id] && activity.trace == old(activity.trace)
    {
      this.activity, this.browserMediator, this.id := activity, browserMediator, id;
      result, surfaceOpen, effects := None, false, [Subscribed];
      new;
      activity.Subscribe(id);
      assert multiset(activity.listeners)[id] == 1;
    }

    /** The browser was opened on `url`. */
    method Opened(url: string)
      modifies this
      ensures View() == old(View()).(surfaceOpen := true, effects := old(View()).effects + [StartedActivity(url)])
    {
      surfaceOpen := true;
      effects := effects + [StartedActivity(url)];
    }

    /** The callback body, run when a message reaches it while it is subscribed. */
    method RunCallback(response: string)
      requires Valid() && id in activity.listeners
      modifies this, activity, browserMediator
      ensures Valid()
      ensures View() == LaunchCallback(old(View()), response)
      ensures activity.listeners == RemoveLast(old(activity.listeners), id) && activity.trace == old(activity.trace)
      ensures browserMediator.listeners == old(browserMediator.listeners)
      ensures browserMediator.trace == old(browserMediator.trace) + Deliveries(browserMediator.listeners, CallbackSignal(response))
    {
      RemoveLastOnlyCopy(activity.listeners, id);
      activity.Unsubscribe(id);
      if response == UserCancelMessage {
        browserMediator.Cancel();
      } else {
        browserMediator.Success();
      }
      result := Some(CallbackResult(response));
      effects := effects + CallbackEffects(response);
    }

    /**
     * `ActivityMediator.Send(message)` with this session's callback among the listeners it may
     * reach: every listener receives the message, and the callback runs if still subscribed.
     */
    method Deliver(message: string)
      requires Valid()
      modifies this, activity, browserMediator
      ensures Valid()
      ensures View() == Sessions.Deliver(LaunchCallback, old(View()), message)
      ensures activity.trace == old(activity.trace) + Deliveries(old(activity.listeners), message)
      ensures activity.listeners == if old(id in activity.listeners) then RemoveLast(old(activity.listeners), id) else old(activity.listeners)
      ensures browserMediator.listeners == old(browserMediator.listeners)
      ensures browserMediator.trace == old(browserMediator.trace) +
                (if old(id in activity.listeners) then Deliveries(browserMediator.listeners, CallbackSignal(message)) else [])
    {
      var subscribed := id in activity.listeners;
      activity.Send(message);
      if subscribed {
        RunCallback(message);
      }
    }
  }
}
