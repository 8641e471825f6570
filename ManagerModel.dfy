/**
 * The resource manager as a state machine over values.
 *
 * A state holds the two singleton slots (the tracked Playwright driver
 * connection and the tracked Browser), the option store keyed by option
 * kind, and the part of the engine the manager observes: the live context
 * list of every launched browser and the next fresh handle number. Each
 * operation maps a state to a `Step`: the new state, the value returned or
 * the exception thrown, and the engine calls made, in order.
 */
module ManagerModel {
  import opened Wrappers
  import ObjUtils
  import BrowserLaunchOptions
  import PlaywrightOptions

  datatype PlaywrightResource = PLAYWRIGHT | BROWSER | BROWSER_CONTEXT

  /** Flags that ask for a second Playwright or Browser instance. */
  datatype ResourceOptionArg = NEW_PLAYWRIGHT_INSTANCE | NEW_BROWSER_INSTANCE

  /** Engine handles: abstract, numbered from one counter so that every new handle is fresh. */
  datatype Playwright = Playwright(id: nat)
  datatype Browser = Browser(id: nat, owner: Playwright)
  datatype BrowserContext = BrowserContext(id: nat, browser: Browser)

  datatype Resource =
    | PlaywrightRes(playwright: Playwright)
    | BrowserRes(browser: Browser)
    | ContextRes(context: BrowserContext)

  /** Option records whose fields are not part of this model: opaque engine settings. */
  datatype BrowserContextOption = BrowserContextOption(settings: map<string, string>)
  datatype TracingStartOption = TracingStartOption(settings: map<string, string>)
  datatype TracingStopOption = TracingStopOption(settings: map<string, string>)

  /**
   * One element of the untyped argument array of create and close; also the
   * type of the values in the option store, which holds plain objects.
   */
  datatype Arg =
    | FlagArg(flag: ResourceOptionArg)
    | PlaywrightOptionArg(playwrightOption: PlaywrightOptions.PlaywrightOption)
    | LaunchOptionArg(launchOption: BrowserLaunchOptions.BrowserLaunchOption)
    | ContextOptionArg(contextOption: BrowserContextOption)
    | TracingStartArg(tracingStart: TracingStartOption)
    | TracingStopArg(tracingStop: TracingStopOption)
    | ResourceArg(resource: Resource)

  /** The runtime class of an argument. */
  datatype ArgClass =
    | ResourceOptionArgClass
    | PlaywrightOptionClass
    | BrowserLaunchOptionClass
    | BrowserContextOptionClass
    | TracingStartOptionClass
    | TracingStopOptionClass
    | PlaywrightClass
    | BrowserClass
    | BrowserContextClass

  function ClassOf(a: Arg): ArgClass
  {
    match a
    case FlagArg(_) => ResourceOptionArgClass
    case PlaywrightOptionArg(_) => PlaywrightOptionClass
    case LaunchOptionArg(_) => BrowserLaunchOptionClass
    case ContextOptionArg(_) => BrowserContextOptionClass
    case TracingStartArg(_) => TracingStartOptionClass
    case TracingStopArg(_) => TracingStopOptionClass
    case ResourceArg(PlaywrightRes(_)) => PlaywrightClass
    case ResourceArg(BrowserRes(_)) => BrowserClass
    case ResourceArg(ContextRes(_)) => BrowserContextClass
  }

  /** Keys of the option store. */
  datatype OptionKey =
    | PLAYWRIGHT_OPTION
    | BROWSER_LAUNCH_OPTION
    | BROWSER_CONTEXT_OPTION
    | TRACE_START_OPTION
    | TRACE_STOP_OPTION

  /** The option class stored under a key. */
  function KeyClass(k: OptionKey): ArgClass
  {
    match k
    case PLAYWRIGHT_OPTION => PlaywrightOptionClass
    case BROWSER_LAUNCH_OPTION => BrowserLaunchOptionClass
    case BROWSER_CONTEXT_OPTION => BrowserContextOptionClass
    case TRACE_START_OPTION => TracingStartOptionClass
    case TRACE_STOP_OPTION => TracingStopOptionClass
  }

  /** The record `builder().build()` gives for the option class of a key. */
  function DefaultFor(k: OptionKey): (a: Arg)
    ensures ClassOf(a) == KeyClass(k)
  {
    match k
    case PLAYWRIGHT_OPTION => PlaywrightOptionArg(PlaywrightOptions.Default())
    case BROWSER_LAUNCH_OPTION => LaunchOptionArg(BrowserLaunchOptions.Default())
    case BROWSER_CONTEXT_OPTION => ContextOptionArg(BrowserContextOption(map[]))
    case TRACE_START_OPTION => TracingStartArg(TracingStartOption(map[]))
    case TRACE_STOP_OPTION => TracingStopArg(TracingStopOption(map[]))
  }

  /** Every stored value has the option class of its key, so the casts on reading it succeed. */
  ghost predicate StoreTyped(store: map<OptionKey, Arg>)
  {
    forall k :: k in store ==> ClassOf(store[k]) == KeyClass(k)
  }

  /**
   * Option resolution: the first argument of the key's option class, else
   * the stored value, else the builder default.
   */
  function ResolveOption(args: seq<Arg>, store: map<OptionKey, Arg>, key: OptionKey): (r: Arg)
    requires StoreTyped(store)
    ensures ClassOf(r) == KeyClass(key)
    ensures r in args || (key in store && r == store[key]) || r == DefaultFor(key)
  {
    match ObjUtils.GetFromArray(args, ClassOf, KeyClass(key))
    case Some(explicit) => explicit
    case None => if key in store then store[key] else DefaultFor(key)
  }

  /** An explicit argument wins: the first one of the key's class. */
  lemma ResolveExplicitFirst(args: seq<Arg>, store: map<OptionKey, Arg>, key: OptionKey, i: nat)
    requires StoreTyped(store)
    requires i < |args| && ClassOf(args[i]) == KeyClass(key)
    requires forall j :: 0 <= j < i ==> ClassOf(args[j]) != KeyClass(key)
    ensures ResolveOption(args, store, key) == args[i]
  {
    ObjUtils.GetFromArrayFirst(args, ClassOf, KeyClass(key), i);
  }

  /** Without an explicit argument, the stored value is reused. */
  lemma ResolveStored(args: seq<Arg>, store: map<OptionKey, Arg>, key: OptionKey)
    requires StoreTyped(store)
    requires forall i :: 0 <= i < |args| ==> ClassOf(args[i]) != KeyClass(key)
    requires key in store
    ensures ResolveOption(args, store, key) == store[key]
  {
  }

  /** With neither an explicit argument nor a stored value, the default is used. */
  lemma ResolveDefault(args: seq<Arg>, store: map<OptionKey, Arg>, key: OptionKey)
    requires StoreTyped(store)
    requires forall i :: 0 <= i < |args| ==> ClassOf(args[i]) != KeyClass(key)
    requires key !in store
    ensures ResolveOption(args, store, key) == DefaultFor(key)
  {
  }

  /** The `ResourceOptionArg` flags among the arguments, in order. */
  function Flags(args: seq<Arg>): (flags: seq<ResourceOptionArg>)
    ensures forall f :: f in flags <==> FlagArg(f) in args
    ensures flags == [] <==> forall i :: 0 <= i < |args| ==> !args[i].FlagArg?
  {
    var matched := ObjUtils.FilterFromArray(args, ClassOf, ResourceOptionArgClass);
    ObjUtils.FilterEmptyIff(args, ClassOf, ResourceOptionArgClass);
    var flags := seq(|matched|, i requires 0 <= i < |matched| => matched[i].flag);
    assert forall i :: 0 <= i < |matched| ==> matched[i] == FlagArg(flags[i]);
    assert forall f :: FlagArg(f) in matched ==> f in flags by {
      forall f | FlagArg(f) in matched ensures f in flags {
        var i :| 0 <= i < |matched| && matched[i] == FlagArg(f);
        assert flags[i] == f;
      }
    }
    flags
  }

  /** What create does about a singleton slot, given the flags passed. */
  datatype Decision = ReuseTracked | RejectFlags | CreateNew

  /**
   * Reuse the tracked instance when no flag is passed; with flags, create
   * another only if the override flag is among them, else reject. With
   * nothing tracked the flags do not matter.
   */
  function SingletonDecision<H>(tracked: Option<H>, flags: seq<ResourceOptionArg>, override: ResourceOptionArg): (d: Decision)
    ensures d == ReuseTracked <==> tracked.Some? && flags == []
    ensures d == RejectFlags <==> tracked.Some? && flags != [] && override !in flags
    ensures d == CreateNew <==> tracked.None? || override in flags
  {
    if tracked.None? then CreateNew
    else if flags == [] then ReuseTracked
    else if override in flags then CreateNew
    else RejectFlags
  }

  /** The engine's three browser launchers. */
  datatype BrowserType = Chromium | Firefox | Webkit

  /** The launcher a browser selector is dispatched to: an exact, case-sensitive match. */
  function LauncherFor(browser: string): (r: Option<BrowserType>)
    ensures r == Some(Chromium) <==> browser in {"chromium", "chrome", "msedge"}
    ensures r == Some(Firefox) <==> browser == "firefox"
    ensures r == Some(Webkit) <==> browser == "webkit"
    ensures r == None <==> browser !in {"chromium", "chrome", "msedge", "firefox", "webkit"}
  {
    if browser == "chromium" || browser == "chrome" || browser == "msedge" then Some(Chromium)
    else if browser == "firefox" then Some(Firefox)
    else if browser == "webkit" then Some(Webkit)
    else None
  }

  /** Selectors differing only in case are not recognised. */
  lemma SelectorIsCaseSensitive()
    ensures LauncherFor("Chrome") == None && LauncherFor("CHROMIUM") == None
    ensures LauncherFor("MSEdge") == None && LauncherFor("Firefox") == None && LauncherFor("WebKit") == None
  {
  }

  datatype State = State(
    playwright: Option<Playwright>,
    browser: Option<Browser>,
    optionCtx: map<OptionKey, Arg>,
    contexts: map<Browser, seq<BrowserContext>>,
    nextId: nat)

  /** Nothing tracked, nothing stored, nothing launched. */
  const INITIAL: State := State(None, None, map[], map[], 0)

  /**
   * The invariant every operation keeps: the store is well typed, the
   * tracked browser has a context list, every context is listed under its
   * own browser, and every handle is numbered below `nextId`.
   */
  ghost predicate Valid(s: State)
  {
    && StoreTyped(s.optionCtx)
    && (s.playwright.Some? ==> s.playwright.value.id < s.nextId)
    && (s.browser.Some? ==> s.browser.value in s.contexts)
    && (forall b :: b in s.contexts ==> b.id < s.nextId)
    && (forall b, c :: b in s.contexts && c in s.contexts[b] ==> c.browser == b && c.id < s.nextId)
  }

  /**
   * Calls into the engine, recorded in the order they are made. A driver
   * start and a launch record the manager's option record; the engine is
   * handed its translation (`StartedWith`, `LaunchedWith`).
   */
  datatype EngineCall =
    | CreateDriver(option: PlaywrightOptions.PlaywrightOption, started: Option<Playwright>)
    | Sleep(seconds: nat)
    | Launch(launcher: BrowserType, launchOption: BrowserLaunchOptions.BrowserLaunchOption, launched: Browser)
    | NewContext(parent: Browser, contextOption: BrowserContextOption, created: BrowserContext)
    | StartTracing(traced: BrowserContext, startOption: TracingStartOption)
    | StopTracing(stopped: BrowserContext, stopOption: TracingStopOption)
    | Release(released: Resource)

  /** The create options a driver start is handed: the translation of the recorded option. */
  function StartedWith(call: EngineCall): PlaywrightOptions.CreateOptions
    requires call.CreateDriver?
  {
    PlaywrightOptions.ForPlaywright(call.option)
  }

  /** The launch options a launch call is handed: the translation of the recorded configuration. */
  function LaunchedWith(call: EngineCall): BrowserLaunchOptions.LaunchOptions
    requires call.Launch?
  {
    BrowserLaunchOptions.ForPlaywright(call.launchOption)
  }

  /** The exceptions the manager lets through. */
  datatype Error =
    | IllegalArgument(flags: seq<ResourceOptionArg>)
    | PlaywrightNotInitialized
    | BrowserNotInitialized
    | UnsupportedBrowser(selector: string)
    | DriverStartFailed
    | ReleaseFailed

  datatype Step<R> = Step(state: State, result: Result<R, Error>, calls: seq<EngineCall>)

  /** How the driver start behaves under the retry: it succeeds at once, on the retry, or never. */
  datatype StartAttempts = FirstAttemptSucceeds | RetrySucceeds | BothAttemptsFail

  /** Seconds waited before the single retry of the driver start. */
  const RETRY_DELAY_SECONDS: nat := 5

  /**
   * The engine calls of starting the driver under the retry: one attempt,
   * and after a failed one a wait and a second attempt.
   */
  function StartDriverCalls(option: PlaywrightOptions.PlaywrightOption, p: Playwright, start: StartAttempts): (calls: seq<EngineCall>)
  {
    match start
    case FirstAttemptSucceeds => [CreateDriver(option, Some(p))]
    case RetrySucceeds => [CreateDriver(option, None), Sleep(RETRY_DELAY_SECONDS), CreateDriver(option, Some(p))]
    case BothAttemptsFail => [CreateDriver(option, None), Sleep(RETRY_DELAY_SECONDS), CreateDriver(option, None)]
  }

  function CreatePlaywright(s: State, args: seq<Arg>, start: StartAttempts): (step: Step<Resource>)
    requires Valid(s)
  {
    var argsList := Flags(args);
    match SingletonDecision(s.playwright, argsList, NEW_PLAYWRIGHT_INSTANCE)
    case ReuseTracked => Step(s, Ok(PlaywrightRes(s.playwright.value)), [])
    case RejectFlags => Step(s, Err(IllegalArgument(argsList)), [])
    case CreateNew =>
      var options := ResolveOption(args, s.optionCtx, PLAYWRIGHT_OPTION).playwrightOption;
      var p := Playwright(s.nextId);
      var calls := StartDriverCalls(options, p, start);
      if start == BothAttemptsFail then Step(s, Err(DriverStartFailed), calls)
      else
        Step(s.(playwright := Some(p),
                optionCtx := s.optionCtx[PLAYWRIGHT_OPTION := PlaywrightOptionArg(options)],
                nextId := s.nextId + 1),
             Ok(PlaywrightRes(p)),
             calls)
  }

  function CreateBrowser(s: State, args: seq<Arg>): (step: Step<Resource>)
    requires Valid(s)
  {
    var argsList := Flags(args);
    match SingletonDecision(s.browser, argsList, NEW_BROWSER_INSTANCE)
    case ReuseTracked => Step(s, Ok(BrowserRes(s.browser.value)), [])
    case RejectFlags => Step(s, Err(IllegalArgument(argsList)), [])
    case CreateNew =>
      if s.playwright.None? then Step(s, Err(PlaywrightNotInitialized), [])
      else
        var options := ResolveOption(args, s.optionCtx, BROWSER_LAUNCH_OPTION).launchOption;
        match LauncherFor(options.browser)
        case None => Step(s, Err(UnsupportedBrowser(options.browser)), [])
        case Some(launcher) =>
          var b := Browser(s.nextId, s.playwright.value);
          Step(s.(browser := Some(b),
                  optionCtx := s.optionCtx[BROWSER_LAUNCH_OPTION := LaunchOptionArg(options)],
                  contexts := s.contexts[b := []],
                  nextId := s.nextId + 1),
               Ok(BrowserRes(b)),
               [Launch(launcher, options, b)])
  }

  function CreateBrowserContext(s: State, args: seq<Arg>): (step: Step<Resource>)
    requires Valid(s)
  {
    var contextOption := ResolveOption(args, s.optionCtx, BROWSER_CONTEXT_OPTION).contextOption;
    var startOption := ResolveOption(args, s.optionCtx, TRACE_START_OPTION).tracingStart;
    if s.browser.None? then Step(s, Err(BrowserNotInitialized), [])
    else
      var b := s.browser.value;
      var c := BrowserContext(s.nextId, b);
      Step(s.(optionCtx := s.optionCtx[BROWSER_CONTEXT_OPTION := ContextOptionArg(contextOption)]
                                      [TRACE_START_OPTION := TracingStartArg(startOption)],
              contexts := s.contexts[b := s.contexts[b] + [c]],
              nextId := s.nextId + 1),
           Ok(ContextRes(c)),
           [NewContext(b, contextOption, c), StartTracing(c, startOption)])
  }

  function Create(s: State, resource: PlaywrightResource, args: seq<Arg>, start: StartAttempts): (step: Step<Resource>)
    requires Valid(s)
  {
    match resource
    case PLAYWRIGHT => CreatePlaywright(s, args, start)
    case BROWSER => CreateBrowser(s, args)
    case BROWSER_CONTEXT => CreateBrowserContext(s, args)
  }

  function Get(s: State, resource: PlaywrightResource): (r: Option<Resource>)
    requires Valid(s)
  {
    match resource
    case PLAYWRIGHT => if s.playwright.Some? then Some(PlaywrightRes(s.playwright.value)) else None
    case BROWSER => if s.browser.Some? then Some(BrowserRes(s.browser.value)) else None
    case BROWSER_CONTEXT =>
      if s.browser.None? || s.contexts[s.browser.value] == [] then None
      else
        var cs := s.contexts[s.browser.value];
        Some(ContextRes(cs[|cs| - 1]))
  }

  /** A context list with one context taken out. */
  function Without(cs: seq<BrowserContext>, c: BrowserContext): (r: seq<BrowserContext>)
    ensures forall x :: x in r <==> x in cs && x != c
  {
    if cs == [] then []
    else if cs[0] == c then Without(cs[1..], c)
    else [cs[0]] + Without(cs[1..], c)
  }

  /** The engine's side of releasing a resource: a closed context leaves its browser's list. */
  function Released(s: State, closed: Resource): State
  {
    match closed
    case ContextRes(c) =>
      if c.browser in s.contexts then s.(contexts := s.contexts[c.browser := Without(s.contexts[c.browser], c)])
      else s
    case _ => s
  }

  /** The bookkeeping close does before releasing: the new state and the tracing call. */
  function Untrack(s: State, closed: Resource, args: seq<Arg>): (State, seq<EngineCall>)
    requires Valid(s)
  {
    match closed
    case ContextRes(c) =>
      var stopOption := ResolveOption(args, s.optionCtx, TRACE_STOP_OPTION).tracingStop;
      (s.(optionCtx := s.optionCtx - {BROWSER_CONTEXT_OPTION}), [StopTracing(c, stopOption)])
    case BrowserRes(_) =>
      (s.(optionCtx := s.optionCtx - {BROWSER_LAUNCH_OPTION}, browser := None), [])
    case PlaywrightRes(_) =>
      (s.(optionCtx := s.optionCtx - {PLAYWRIGHT_OPTION}, playwright := None), [])
  }

  function Close(s: State, closed: Resource, args: seq<Arg>, releaseOk: bool): (step: Step<()>)
    requires Valid(s)
  {
    var (tracked, calls) := Untrack(s, closed, args);
    if releaseOk then Step(Released(tracked, closed), Ok(()), calls + [Release(closed)])
    else Step(tracked, Err(ReleaseFailed), calls + [Release(closed)])
  }
}
