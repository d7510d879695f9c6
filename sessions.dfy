/**
 * The state one browser launch keeps while it waits for its result, shared by the iOS and the
 * Android launches: whether its callback is still subscribed to `ActivityMediator`, the one-shot
 * result slot (the `TaskCompletionSource`), whether its view is on screen, and the ordered log
 * of the side effects it has performed.
 */
module Sessions {
  import opened Wrappers
  import opened Results

  /** One observable side effect of a session. */
  datatype Effect =
    | Subscribed                      // callback added to ActivityMediator
    | Unsubscribed                    // callback removed from ActivityMediator
    | Broadcast(message: string)      // message sent on BrowserMediator
    | LoadRequested(url: string)      // embedded view asked to load a URL
    | Presented                       // view controller presented
    | Dismissed                       // view controller dismissed
    | Disposed                        // view controller disposed
    | OpenedExternally(url: string)   // URL handed to the system
    | StartedActivity(url: string)    // Android activity started for a URL
    | Resolved(result: BrowserResult) // task completed with a result

  datatype SessionState = SessionState(subscribed: bool, result: Option<BrowserResult>, surfaceOpen: bool, effects: seq<Effect>)

  /** What a session's callback does to its state when it receives a message. */
  type Callback = (SessionState, string) -> SessionState

  /** An `ActivityMediator` message reaches the session only while its callback is subscribed. */
  function Deliver(callback: Callback, s: SessionState, message: string): SessionState {
    if s.subscribed then callback(s, message) else s
  }

  /** A series of `ActivityMediator` messages, in order. */
  function DeliverAll(callback: Callback, s: SessionState, messages: seq<string>): SessionState
    decreases messages
  {
    if messages == [] then s else DeliverAll(callback, Deliver(callback, s, messages[0]), messages[1..])
  }

  /** Once unsubscribed, a session ignores every later message. */
  lemma {:induction false} IgnoresAllOnceUnsubscribed(callback: Callback, s: SessionState, messages: seq<string>)
    requires !s.subscribed
    ensures DeliverAll(callback, s, messages) == s
  {
    if messages != [] {
      IgnoresAllOnceUnsubscribed(callback, s, messages[1..]);
    }
  }

  /**
   * For a callback that unsubscribes itself, only the first message a subscribed session
   * receives has any effect.
   */
  lemma FirstMessageDecides(callback: Callback, s: SessionState, messages: seq<string>)
    requires s.subscribed && messages != []
    requires !callback(s, messages[0]).subscribed
    ensures DeliverAll(callback, s, messages) == callback(s, messages[0])
  {
    IgnoresAllOnceUnsubscribed(callback, callback(s, messages[0]), messages[1..]);
  }

  /** How many times the task was completed. */
  function Resolutions(effects: seq<Effect>): nat {
    if effects == [] then 0
    else (if effects[0].Resolved? then 1 else 0) + Resolutions(effects[1..])
  }

  /** Completions of a concatenated log add up. */
  lemma {:induction false} ResolutionsAppend(a: seq<Effect>, b: seq<Effect>)
    ensures Resolutions(a + b) == Resolutions(a) + Resolutions(b)
  {
    if a != [] {
      assert (a + b)[0] == a[0];
      assert (a + b)[1..] == a[1..] + b;
      ResolutionsAppend(a[1..], b);
    } else {
      assert a + b == b;
    }
  }

  /** The counts of a log that starts with one effect: that effect's share, then the rest's. */
  lemma ConsCounts(e: Effect, rest: seq<Effect>)
    ensures Broadcasts([e] + rest) == (if e.Broadcast? then [e.message] else []) + Broadcasts(rest)
    ensures Resolutions([e] + rest) == (if e.Resolved? then 1 else 0) + Resolutions(rest)
  {
    assert ([e] + rest)[0] == e;
    assert ([e] + rest)[1..] == rest;
  }

  /** The empty log broadcasts nothing and completes nothing. */
  lemma EmptyCounts()
    ensures Broadcasts([]) == [] && Resolutions([]) == 0
  {
  }

  /** A session just started: subscribed, unresolved, nothing completed yet. */
  predicate Fresh(s: SessionState) {
    s.subscribed && s.result.None? && Resolutions(s.effects) == 0
  }

  /** The messages sent on `BrowserMediator`, in order. */
  function Broadcasts(effects: seq<Effect>): seq<string> {
    if effects == [] then []
    else (if effects[0].Broadcast? then [effects[0].message] else []) + Broadcasts(effects[1..])
  }

  /** Broadcasts of a concatenated log concatenate. */
  lemma {:induction false} BroadcastsAppend(a: seq<Effect>, b: seq<Effect>)
    ensures Broadcasts(a + b) == Broadcasts(a) + Broadcasts(b)
  {
    if a != [] {
      assert (a + b)[0] == a[0];
      assert (a + b)[1..] == a[1..] + b;
      BroadcastsAppend(a[1..], b);
    } else {
      assert a + b == b;
    }
  }
}
