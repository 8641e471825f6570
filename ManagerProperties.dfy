/**
 * What the resource manager promises, proved about the state machine of
 * module ManagerModel.
 */
module ManagerProperties {
  import opened Wrappers
  import BrowserLaunchOptions
  import PlaywrightOptions
  import opened ManagerModel

  /** Nothing is tracked before the first create. */
  lemma GetBeforeCreateIsEmpty(resource: PlaywrightResource)
    ensures Valid(INITIAL) && Get(INITIAL, resource) == None
  {
  }

  // ---- invariant ----

  /** Every create keeps the invariant. */
  lemma CreatePreservesValid(s: State, resource: PlaywrightResource, args: seq<Arg>, start: StartAttempts)
    requires Valid(s)
    ensures Valid(Create(s, resource, args, start).state)
  {
    match resource
    case PLAYWRIGHT => CreatePlaywrightPreservesValid(s, args, start);
    case BROWSER => CreateBrowserPreservesValid(s, args);
    case BROWSER_CONTEXT => CreateContextPreservesValid(s, args);
  }

  lemma CreatePlaywrightPreservesValid(s: State, args: seq<Arg>, start: StartAttempts)
    requires Valid(s)
    ensures Valid(CreatePlaywright(s, args, start).state)
  {
  }

  lemma CreateBrowserPreservesValid(s: State, args: seq<Arg>)
    requires Valid(s)
    ensures Valid(CreateBrowser(s, args).state)
  {
    var step := CreateBrowser(s, args);
    if step.state != s {
      var o := ResolveOption(args, s.optionCtx, BROWSER_LAUNCH_OPTION).launchOption;
      var b := Browser(s.nextId, s.playwright.value);
      assert step.state == s.(browser := Some(b),
                              optionCtx := s.optionCtx[BROWSER_LAUNCH_OPTION := LaunchOptionArg(o)],
                              contexts := s.contexts[b := []],
                              nextId := s.nextId + 1);
      assert StoreTyped(step.state.optionCtx);
    }
  }

  lemma CreateContextPreservesValid(s: State, args: seq<Arg>)
    requires Valid(s)
    ensures Valid(CreateBrowserContext(s, args).state)
  {
  }

  /** Every close keeps the invariant, whether or not the release succeeds. */
  lemma ClosePreservesValid(s: State, closed: Resource, args: seq<Arg>, releaseOk: bool)
    requires Valid(s)
    ensures Valid(Close(s, closed, args, releaseOk).state)
  {
    if closed.ContextRes? {
      CloseContextPreservesValid(s, closed.context, args, releaseOk);
    }
  }

  lemma CloseContextPreservesValid(s: State, c: BrowserContext, args: seq<Arg>, releaseOk: bool)
    requires Valid(s)
    ensures Valid(Close(s, ContextRes(c), args, releaseOk).state)
  {
    var tracked := Untrack(s, ContextRes(c), args).0;
    assert Valid(tracked);
  }

  // ---- reuse and flags ----

  /** With a Playwright tracked and no flag, create returns it and changes nothing. */
  lemma CreatePlaywrightReusesTracked(s: State, args: seq<Arg>, start: StartAttempts)
    requires Valid(s) && s.playwright.Some?
    requires forall i :: 0 <= i < |args| ==> !args[i].FlagArg?
    ensures CreatePlaywright(s, args, start) == Step(s, Ok(PlaywrightRes(s.playwright.value)), [])
  {
  }

  /** With a Playwright tracked, flags without NEW_PLAYWRIGHT_INSTANCE are rejected and change nothing. */
  lemma CreatePlaywrightRejectsOtherFlags(s: State, args: seq<Arg>, start: StartAttempts)
    requires Valid(s) && s.playwright.Some?
    requires FlagArg(NEW_BROWSER_INSTANCE) in args && FlagArg(NEW_PLAYWRIGHT_INSTANCE) !in args
    ensures CreatePlaywright(s, args, start) == Step(s, Err(IllegalArgument(Flags(args))), [])
  {
  }

  /**
   * A new Playwright is created when none is tracked (whatever the flags) or
   * when NEW_PLAYWRIGHT_INSTANCE is passed. Once the driver starts, it is
   * the tracked instance, the store holds exactly the option it was started
   * with, and nothing else in the store changes.
   */
  lemma CreatePlaywrightFresh(s: State, args: seq<Arg>, start: StartAttempts)
    requires Valid(s)
    requires s.playwright.None? || FlagArg(NEW_PLAYWRIGHT_INSTANCE) in args
    requires start != BothAttemptsFail
    ensures var step := CreatePlaywright(s, args, start);
      var p := Playwright(s.nextId);
      && step.result == Ok(PlaywrightRes(p))
      && (s.playwright.Some? ==> p != s.playwright.value)
      && Valid(step.state) && Get(step.state, PLAYWRIGHT) == Some(PlaywrightRes(p))
      && step.state.browser == s.browser && step.state.contexts == s.contexts
      && step.state.optionCtx == s.optionCtx[PLAYWRIGHT_OPTION := ResolveOption(args, s.optionCtx, PLAYWRIGHT_OPTION)]
      && step.calls[|step.calls| - 1]
         == CreateDriver(step.state.optionCtx[PLAYWRIGHT_OPTION].playwrightOption, Some(p))
  {
    CreatePlaywrightPreservesValid(s, args, start);
  }

  /** When the retry fails too, the failure surfaces and nothing is tracked or stored. */
  lemma CreatePlaywrightDriverFailure(s: State, args: seq<Arg>)
    requires Valid(s)
    requires s.playwright.None? || FlagArg(NEW_PLAYWRIGHT_INSTANCE) in args
    ensures var step := CreatePlaywright(s, args, BothAttemptsFail);
      && step.result == Err(DriverStartFailed)
      && step.state == s
      && |step.calls| == 3 && step.calls[1] == Sleep(5)
      && step.calls[0].CreateDriver? && step.calls[0].started == None
      && step.calls[2] == step.calls[0]
  {
  }

  /** With a Browser tracked and no flag, create returns it, even when no Playwright is tracked. */
  lemma CreateBrowserReusesTracked(s: State, args: seq<Arg>)
    requires Valid(s) && s.browser.Some?
    requires forall i :: 0 <= i < |args| ==> !args[i].FlagArg?
    ensures CreateBrowser(s, args) == Step(s, Ok(BrowserRes(s.browser.value)), [])
  {
  }

  /** With a Browser tracked, flags without NEW_BROWSER_INSTANCE are rejected and change nothing. */
  lemma CreateBrowserRejectsOtherFlags(s: State, args: seq<Arg>)
    requires Valid(s) && s.browser.Some?
    requires FlagArg(NEW_PLAYWRIGHT_INSTANCE) in args && FlagArg(NEW_BROWSER_INSTANCE) !in args
    ensures CreateBrowser(s, args) == Step(s, Err(IllegalArgument(Flags(args))), [])
  {
  }

  /** Calling create twice without flags gives the same tracked instance both times. */
  lemma CreateTwiceReturnsSame(s: State, resource: PlaywrightResource, args: seq<Arg>, start: StartAttempts, start2: StartAttempts)
    requires Valid(s) && resource != BROWSER_CONTEXT
    requires Create(s, resource, args, start).result.Ok?
    ensures var first := Create(s, resource, args, start);
      Valid(first.state) && Create(first.state, resource, [], start2) == Step(first.state, first.result, [])
  {
    CreatePreservesValid(s, resource, args, start);
  }

  // ---- upstream checks ----

  /**
   * Without a tracked Playwright, creating a new Browser fails and stores
   * nothing: an explicit Playwright argument is not used. This includes a
   * Browser still tracked after its Playwright was closed, when
   * NEW_BROWSER_INSTANCE is passed.
   */
  lemma CreateBrowserNeedsPlaywright(s: State, args: seq<Arg>)
    requires Valid(s) && s.playwright.None?
    requires s.browser.None? || FlagArg(NEW_BROWSER_INSTANCE) in args
    ensures CreateBrowser(s, args) == Step(s, Err(PlaywrightNotInitialized), [])
  {
  }

  /** Without a tracked Browser, creating a context fails and stores no option, whatever the arguments. */
  lemma CreateContextNeedsBrowser(s: State, args: seq<Arg>)
    requires Valid(s) && s.browser.None?
    ensures CreateBrowserContext(s, args) == Step(s, Err(BrowserNotInitialized), [])
  {
  }

  // ---- browser dispatch ----

  /**
   * Once past the reuse and upstream checks, the resolved selector decides:
   * a known one launches through its launcher with the translated options
   * and becomes the tracked browser, with the option stored; any other
   * fails with the slot and the store unchanged.
   */
  lemma CreateBrowserDispatch(s: State, args: seq<Arg>)
    requires Valid(s) && s.playwright.Some?
    requires s.browser.None? || FlagArg(NEW_BROWSER_INSTANCE) in args
    ensures var o := ResolveOption(args, s.optionCtx, BROWSER_LAUNCH_OPTION).launchOption;
      var step := CreateBrowser(s, args);
      var b := Browser(s.nextId, s.playwright.value);
      && (step.result.Ok? <==> o.browser in {"chromium", "chrome", "msedge", "firefox", "webkit"})
      && (step.result.Err? ==> step == Step(s, Err(UnsupportedBrowser(o.browser)), []))
      && (step.result.Ok? ==>
            && step.result == Ok(BrowserRes(b))
            && step.calls == [Launch(LauncherFor(o.browser).value, o, b)]
            && step.state.playwright == s.playwright
            && step.state.optionCtx == s.optionCtx[BROWSER_LAUNCH_OPTION := LaunchOptionArg(o)]
            && Valid(step.state)
            && Get(step.state, BROWSER) == Some(BrowserRes(b))
            && Get(step.state, BROWSER_CONTEXT) == None)
  {
    var o := ResolveOption(args, s.optionCtx, BROWSER_LAUNCH_OPTION).launchOption;
    var step := CreateBrowser(s, args);
    assert SingletonDecision(s.browser, Flags(args), NEW_BROWSER_INSTANCE) == CreateNew;
    if LauncherFor(o.browser).Some? {
      var b := Browser(s.nextId, s.playwright.value);
      assert step.state == s.(browser := Some(b),
                              optionCtx := s.optionCtx[BROWSER_LAUNCH_OPTION := LaunchOptionArg(o)],
                              contexts := s.contexts[b := []],
                              nextId := s.nextId + 1);
      CreateBrowserPreservesValid(s, args);
    } else {
      assert step == Step(s, Err(UnsupportedBrowser(o.browser)), []);
    }
  }

  /**
   * "CHROME" would get a channel from the launch option translation, but the
   * dispatch is case-sensitive, so the browser is not launched.
   */
  lemma UpperCaseChromeIsUnsupported(s: State, o: BrowserLaunchOptions.BrowserLaunchOption)
    requires Valid(s) && s.playwright.Some? && s.browser.None?
    requires o.browser == "CHROME"
    ensures BrowserLaunchOptions.ForPlaywright(o).channel == Some("CHROME")
    ensures CreateBrowser(s, [LaunchOptionArg(o)]) == Step(s, Err(UnsupportedBrowser("CHROME")), [])
  {
    BrowserLaunchOptions.ChannelNotCaseNormalised(o);
    ResolveExplicitFirst([LaunchOptionArg(o)], s.optionCtx, BROWSER_LAUNCH_OPTION, 0);
  }

  // ---- contexts ----

  /**
   * A context is always new: it is appended to the tracked browser's list,
   * which makes it what get returns; tracing starts on it after it is
   * created; both options used are stored; the slots do not change.
   */
  lemma CreateContextFresh(s: State, args: seq<Arg>)
    requires Valid(s) && s.browser.Some?
    ensures var step := CreateBrowserContext(s, args);
      var b := s.browser.value;
      var co := ResolveOption(args, s.optionCtx, BROWSER_CONTEXT_OPTION);
      var so := ResolveOption(args, s.optionCtx, TRACE_START_OPTION);
      && step.result.Ok? && step.result.value.ContextRes?
      && var c := step.result.value.context;
      && (forall b' :: b' in s.contexts ==> c !in s.contexts[b'])
      && step.state.contexts[b] == s.contexts[b] + [c]
      && Valid(step.state) && Get(step.state, BROWSER_CONTEXT) == Some(ContextRes(c))
      && step.state.playwright == s.playwright && step.state.browser == s.browser
      && step.state.optionCtx == s.optionCtx[BROWSER_CONTEXT_OPTION := co][TRACE_START_OPTION := so]
      && step.calls == [NewContext(b, co.contextOption, c), StartTracing(c, so.tracingStart)]
  {
    CreateContextPreservesValid(s, args);
  }

  /** After a create succeeds, get returns what it returned. */
  lemma CreateThenGet(s: State, resource: PlaywrightResource, args: seq<Arg>, start: StartAttempts)
    requires Valid(s)
    requires Create(s, resource, args, start).result.Ok?
    ensures var step := Create(s, resource, args, start);
      Valid(step.state) && Get(step.state, resource) == Some(step.result.value)
  {
    CreatePreservesValid(s, resource, args, start);
  }

  /** get for a context: empty without a tracked browser or with an empty list, else the last one created. */
  lemma GetContextIsLast(s: State)
    requires Valid(s)
    ensures Get(s, BROWSER_CONTEXT).None? <==> s.browser.None? || s.contexts[s.browser.value] == []
    ensures Get(s, BROWSER_CONTEXT).Some? ==>
      var cs := s.contexts[s.browser.value];
      Get(s, BROWSER_CONTEXT) == Some(ContextRes(cs[|cs| - 1])) && cs[|cs| - 1].browser == s.browser.value
  {
  }

  // ---- close ----

  /**
   * Closing a context stops tracing with the resolved stop option before
   * the release call, forgets the context option but keeps the tracing start
   * option, and leaves the slots alone.
   */
  lemma CloseContextBookkeeping(s: State, c: BrowserContext, args: seq<Arg>, releaseOk: bool)
    requires Valid(s)
    ensures var step := Close(s, ContextRes(c), args, releaseOk);
      var stop := ResolveOption(args, s.optionCtx, TRACE_STOP_OPTION).tracingStop;
      && step.calls == [StopTracing(c, stop), Release(ContextRes(c))]
      && step.state.optionCtx == s.optionCtx - {BROWSER_CONTEXT_OPTION}
      && (TRACE_START_OPTION in s.optionCtx ==> step.state.optionCtx[TRACE_START_OPTION] == s.optionCtx[TRACE_START_OPTION])
      && step.state.playwright == s.playwright && step.state.browser == s.browser
      && (step.result.Ok? <==> releaseOk)
  {
  }

  /** A released context leaves its browser's list; the other contexts stay, in order of creation. */
  lemma CloseContextLeavesList(s: State, c: BrowserContext, args: seq<Arg>)
    requires Valid(s) && c.browser in s.contexts
    ensures var step := Close(s, ContextRes(c), args, true);
      && step.state.contexts[c.browser] == Without(s.contexts[c.browser], c)
      && c !in step.state.contexts[c.browser]
      && (forall b :: b in s.contexts && b != c.browser ==> step.state.contexts[b] == s.contexts[b])
  {
  }

  /**
   * Closing any Browser forgets the launch option and clears the browser
   * slot, even if it was not the tracked one and even if the release then
   * fails; the rest of the store and the Playwright slot are kept.
   */
  lemma CloseBrowserUntracks(s: State, b: Browser, args: seq<Arg>, releaseOk: bool)
    requires Valid(s)
    ensures var step := Close(s, BrowserRes(b), args, releaseOk);
      && step.state == s.(optionCtx := s.optionCtx - {BROWSER_LAUNCH_OPTION}, browser := None)
      && Get(step.state, BROWSER) == None && Get(step.state, BROWSER_CONTEXT) == None
      && step.calls == [Release(BrowserRes(b))]
      && (step.result.Ok? <==> releaseOk)
  {
  }

  /**
   * Closing any Playwright forgets the Playwright option and clears the
   * Playwright slot, even if it was not the tracked one and even if the
   * release then fails; the browser slot is kept.
   */
  lemma ClosePlaywrightUntracks(s: State, p: Playwright, args: seq<Arg>, releaseOk: bool)
    requires Valid(s)
    ensures var step := Close(s, PlaywrightRes(p), args, releaseOk);
      && step.state == s.(optionCtx := s.optionCtx - {PLAYWRIGHT_OPTION}, playwright := None)
      && Get(step.state, PLAYWRIGHT) == None
      && step.calls == [Release(PlaywrightRes(p))]
      && (step.result.Ok? <==> releaseOk)
  {
  }

  // ---- a whole lifecycle ----

  const P0 := Playwright(0)
  const B1 := Browser(1, P0)
  const C2 := BrowserContext(2, B1)
  const DEFAULT_LAUNCH := LaunchOptionArg(BrowserLaunchOptions.Default())
  const DEFAULT_CONTEXT := ContextOptionArg(BrowserContextOption(map[]))
  const DEFAULT_START := TracingStartArg(TracingStartOption(map[]))

  /** The states of the lifecycle below, after each step. */
  const AFTER_PLAYWRIGHT := State(Some(P0), None, map[PLAYWRIGHT_OPTION := PlaywrightOptionArg(PlaywrightOptions.Default())], map[], 1)
  const AFTER_BROWSER := AFTER_PLAYWRIGHT.(browser := Some(B1),
    optionCtx := AFTER_PLAYWRIGHT.optionCtx[BROWSER_LAUNCH_OPTION := DEFAULT_LAUNCH], contexts := map[B1 := []], nextId := 2)
  const AFTER_CONTEXT := AFTER_BROWSER.(
    optionCtx := AFTER_BROWSER.optionCtx[BROWSER_CONTEXT_OPTION := DEFAULT_CONTEXT][TRACE_START_OPTION := DEFAULT_START],
    contexts := map[B1 := [C2]], nextId := 3)
  const AFTER_CLOSE_CONTEXT := AFTER_CONTEXT.(optionCtx := AFTER_CONTEXT.optionCtx - {BROWSER_CONTEXT_OPTION}, contexts := map[B1 := []])
  const AFTER_CLOSE_BROWSER := AFTER_CLOSE_CONTEXT.(optionCtx := AFTER_CLOSE_CONTEXT.optionCtx - {BROWSER_LAUNCH_OPTION}, browser := None)
  const AFTER_CLOSING := State(None, None, map[TRACE_START_OPTION := DEFAULT_START], map[B1 := []], 3)

  /** Lifecycle, first step: a Playwright from nothing, with the default option. */
  lemma LifecycleCreatePlaywright()
    ensures CreatePlaywright(INITIAL, [], FirstAttemptSucceeds).state == AFTER_PLAYWRIGHT
    ensures CreatePlaywright(INITIAL, [], FirstAttemptSucceeds).result == Ok(PlaywrightRes(P0))
  {
  }

  /** Lifecycle, second step: a Browser with the default launch option passed explicitly. */
  lemma LifecycleCreateBrowser()
    ensures Valid(AFTER_PLAYWRIGHT)
    ensures CreateBrowser(AFTER_PLAYWRIGHT, [DEFAULT_LAUNCH]).state == AFTER_BROWSER
    ensures CreateBrowser(AFTER_PLAYWRIGHT, [DEFAULT_LAUNCH]).result == Ok(BrowserRes(B1))
  {
    ResolveExplicitFirst([DEFAULT_LAUNCH], AFTER_PLAYWRIGHT.optionCtx, BROWSER_LAUNCH_OPTION, 0);
    assert Flags([DEFAULT_LAUNCH]) == [];
  }

  /** Lifecycle, what the engine is handed: a driver with the environment unset, then a headless chrome-channel launch. */
  lemma LifecycleEngineOptions()
    ensures CreatePlaywright(INITIAL, [], FirstAttemptSucceeds).calls == [CreateDriver(PlaywrightOptions.Default(), Some(P0))]
    ensures StartedWith(CreateDriver(PlaywrightOptions.Default(), Some(P0))).env == None
    ensures Valid(AFTER_PLAYWRIGHT)
    ensures CreateBrowser(AFTER_PLAYWRIGHT, [DEFAULT_LAUNCH]).calls == [Launch(Chromium, BrowserLaunchOptions.Default(), B1)]
    ensures LaunchedWith(Launch(Chromium, BrowserLaunchOptions.Default(), B1))
            == BrowserLaunchOptions.LaunchOptions(Some(true), Some(300), Some(30000), Some("chrome"))
  {
    PlaywrightOptions.DefaultForPlaywright();
    BrowserLaunchOptions.DefaultForPlaywright();
    LifecycleCreateBrowser();
  }

  /** Lifecycle, third step: a context with default options. */
  lemma LifecycleCreateContext()
    ensures Valid(AFTER_BROWSER)
    ensures CreateBrowserContext(AFTER_BROWSER, []).state == AFTER_CONTEXT
    ensures CreateBrowserContext(AFTER_BROWSER, []).result == Ok(ContextRes(C2))
  {
    assert AFTER_BROWSER.contexts[B1] + [C2] == [C2];
  }

  /** Lifecycle, with all three created: get returns each resource created. */
  lemma LifecycleGetAll()
    ensures Valid(AFTER_CONTEXT)
    ensures Get(AFTER_CONTEXT, PLAYWRIGHT) == Some(PlaywrightRes(P0))
    ensures Get(AFTER_CONTEXT, BROWSER) == Some(BrowserRes(B1))
    ensures Get(AFTER_CONTEXT, BROWSER_CONTEXT) == Some(ContextRes(C2))
  {
  }

  /** Lifecycle, closing the context: it leaves the browser's list and its option is forgotten. */
  lemma LifecycleCloseContext()
    ensures Valid(AFTER_CONTEXT)
    ensures Close(AFTER_CONTEXT, ContextRes(C2), [], true).state == AFTER_CLOSE_CONTEXT
  {
    assert Without([C2], C2) == [];
    assert AFTER_CONTEXT.contexts[B1 := []] == AFTER_CLOSE_CONTEXT.contexts;
  }

  /** Lifecycle, closing the browser: the browser slot and the launch option are cleared. */
  lemma LifecycleCloseBrowser()
    ensures Valid(AFTER_CLOSE_CONTEXT)
    ensures Close(AFTER_CLOSE_CONTEXT, BrowserRes(B1), [], true).state == AFTER_CLOSE_BROWSER
  {
  }

  /** Lifecycle, closing the Playwright: the Playwright slot and its option are cleared. */
  lemma LifecycleClosePlaywright()
    ensures Valid(AFTER_CLOSE_BROWSER)
    ensures Close(AFTER_CLOSE_BROWSER, PlaywrightRes(P0), [], true).state == AFTER_CLOSING
  {
    assert AFTER_CLOSE_BROWSER.optionCtx - {PLAYWRIGHT_OPTION} == AFTER_CLOSING.optionCtx;
  }

  /** Lifecycle, after closing: get returns nothing for any kind, and only the tracing start option stays stored. */
  lemma LifecycleGetNone()
    ensures Valid(AFTER_CLOSING)
    ensures Get(AFTER_CLOSING, PLAYWRIGHT) == None && Get(AFTER_CLOSING, BROWSER) == None
    ensures Get(AFTER_CLOSING, BROWSER_CONTEXT) == None
    ensures AFTER_CLOSING.optionCtx.Keys == {TRACE_START_OPTION}
  {
  }
}
