/** `ExtendedBrowserOptions`: the per-launch configuration, and the plain options it extends. */
module Options {
  import opened Wrappers

  /** The protocol engine's authorize response mode. */
  datatype ResponseMode = Redirect | FormPost

  /** The protocol engine's plain `BrowserOptions`: the two URLs every launch needs. */
  datatype BrowserOptions = BrowserOptions(startUrl: Option<string>, endUrl: Option<string>)

  /** Everything a launch can read from an `ExtendedBrowserOptions`, at one moment. */
  datatype OptionsView = OptionsView(
    startUrl: Option<string>,
    endUrl: Option<string>,
    responseMode: ResponseMode,
    restartFlowRoutes: Option<seq<string>>,
    viewableUrls: Option<seq<string>>,
    loadDetourUrl: bool,
    detourUrl: Option<string>)

  /** The view of a freshly constructed options object, before any setter runs. */
  function Initial(startUrl: Option<string>, endUrl: Option<string>): OptionsView {
    OptionsView(startUrl, endUrl, Redirect, None, None, false, None)
  }

  /**
   * A mutable options object. `StartUrl` and `EndUrl` are fixed at construction; the other
   * properties are settable and default to null, false and the engine's `Redirect` mode.
   * `ViewableUrls` is read by the embedded iOS view but not declared in the options file; it is
   * modelled here as one more settable property.
   */
  class ExtendedBrowserOptions {
    const startUrl: Option<string>
    const endUrl: Option<string>
    var responseMode: ResponseMode
    var restartFlowRoutes: Option<seq<string>>
    var viewableUrls: Option<seq<string>>
    var loadDetourUrl: bool
    var detourUrl: Option<string>

    /** The current value of every property. */
    function View(): OptionsView
      reads this
    {
      OptionsView(startUrl, endUrl, responseMode, restartFlowRoutes, viewableUrls, loadDetourUrl, detourUrl)
    }

    /** `new ExtendedBrowserOptions(startUrl, endUrl)`: both URLs passed through, nothing else set. */
    constructor (startUrl: Option<string>, endUrl: Option<string>)
      ensures View() == Initial(startUrl, endUrl)
    {
      this.startUrl, this.endUrl := startUrl, endUrl;
      responseMode := Redirect;
      restartFlowRoutes, viewableUrls := None, None;
      loadDetourUrl, detourUrl := false, None;
    }

    /** `new ExtendedBrowserOptions(startUrl, endUrl, restartFlowRoutes)`. */
    constructor WithRoutes(startUrl: Option<string>, endUrl: Option<string>, routes: Option<seq<string>>)
      ensures View() == Initial(startUrl, endUrl).(restartFlowRoutes := routes)
    {
      this.startUrl, this.endUrl := startUrl, endUrl;
      responseMode := Redirect;
      restartFlowRoutes, viewableUrls := routes, None;
      loadDetourUrl, detourUrl := false, None;
    }

    /** The four-argument construction the embedded iOS browser performs: routes and viewable URLs set. */
    constructor WithRoutesAndViewables(startUrl: Option<string>, endUrl: Option<string>,
                                       routes: Option<seq<string>>, viewables: Option<seq<string>>)
      ensures View() == Initial(startUrl, endUrl).(restartFlowRoutes := routes, viewableUrls := viewables)
    {
      this.startUrl, this.endUrl := startUrl, endUrl;
      responseMode := Redirect;
      restartFlowRoutes, viewableUrls := routes, viewables;
      loadDetourUrl, detourUrl := false, None;
    }

    /** The `RestartFlowRoutes` setter; the other properties keep their values. */
    method SetRestartFlowRoutes(routes: Option<seq<string>>)
      modifies this
      ensures View() == old(View()).(restartFlowRoutes := routes)
    {
      restartFlowRoutes := routes;
    }

    /** The `ViewableUrls` setter. */
    method SetViewableUrls(viewables: Option<seq<string>>)
      modifies this
      ensures View() == old(View()).(viewableUrls := viewables)
    {
      viewableUrls := viewables;
    }

    /** The `LoadDetourUrl` setter. */
    method SetLoadDetourUrl(load: bool)
      modifies this
      ensures View() == old(View()).(loadDetourUrl := load)
    {
      loadDetourUrl := load;
    }

    /** The `DetourUrl` setter. */
    method SetDetourUrl(url: Option<string>)
      modifies this
      ensures View() == old(View()).(detourUrl := url)
    {
      detourUrl := url;
    }

    /** The inherited `ResponseMode` setter. */
    method SetResponseMode(mode: ResponseMode)
      modifies this
      ensures View() == old(View()).(responseMode := mode)
    {
      responseMode := mode;
    }
  }

  /** What a browser's `InvokeAsync` receives: plain options, or an extended options object. */
  datatype LaunchOptions = Plain(options: BrowserOptions) | Extended(extended: ExtendedBrowserOptions)

  /** The start URL of either kind of options. */
  function StartUrlOf(o: LaunchOptions): Option<string>
    reads if o.Extended? then {o.extended} else {}
  {
    match o
    case Plain(b) => b.startUrl
    case Extended(e) => e.startUrl
  }

  /** The end URL of either kind of options. */
  function EndUrlOf(o: LaunchOptions): Option<string>
    reads if o.Extended? then {o.extended} else {}
  {
    match o
    case Plain(b) => b.endUrl
    case Extended(e) => e.endUrl
  }
}
