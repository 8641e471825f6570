/**
 * The resource manager as one registry object, used sequentially. Its
 * fields are the singleton slots, the option store and the engine's view
 * of live contexts; each operation changes them step by step and is proved
 * to do what the state machine of module ManagerModel says.
 */
module Manager {
  import opened Wrappers
  import PlaywrightOptions
  import opened ManagerModel
  import ManagerProperties

  class PlaywrightManager {
    /** The tracked Playwright connection (the Playwright singleton). */
    var playwrightSlot: Option<Playwright>
    /** The tracked Browser (the Browser singleton). */
    var browserSlot: Option<Browser>
    /** Last option used per kind. */
    var optionCtx: map<OptionKey, Arg>
    /** Engine side: the live contexts of every launched browser, oldest first. */
    var contexts: map<Browser, seq<BrowserContext>>
    /** Engine side: the number of the next handle it hands out. */
    var nextId: nat
    /** Every engine call made so far, in order. */
    ghost var calls: seq<EngineCall>

    function Model(): State
      reads this
    {
      State(playwrightSlot, browserSlot, optionCtx, contexts, nextId)
    }

    ghost predicate Valid()
      reads this
    {
      ManagerModel.Valid(Model())
    }

    constructor ()
      ensures Valid() && Model() == INITIAL && calls == []
    {
      playwrightSlot := None;
      browserSlot := None;
      optionCtx := map[];
      contexts := map[];
      nextId := 0;
      calls := [];
    }

    method Create(resource: PlaywrightResource, args: seq<Arg>, start: StartAttempts) returns (r: Result<Resource, Error>)
      requires Valid()
      modifies this
      ensures Valid()
      ensures var step := ManagerModel.Create(old(Model()), resource, args, start);
        Model() == step.state && r == step.result && calls == old(calls) + step.calls
    {
      match resource
      case PLAYWRIGHT => r := CreatePlaywright(args, start);
      case BROWSER => r := CreateBrowser(args);
      case BROWSER_CONTEXT => r := CreateBrowserContext(args);
    }

    method Get(resource: PlaywrightResource) returns (r: Option<Resource>)
      requires Valid()
      ensures r == ManagerModel.Get(Model(), resource)
    {
      match resource
      case PLAYWRIGHT =>
        r := if playwrightSlot.Some? then Some(PlaywrightRes(playwrightSlot.value)) else None;
      case BROWSER =>
        r := if browserSlot.Some? then Some(BrowserRes(browserSlot.value)) else None;
      case BROWSER_CONTEXT =>
        if browserSlot == None || contexts[browserSlot.value] == [] {
          return None;
        }
        var list := contexts[browserSlot.value];
        r := Some(ContextRes(list[|list| - 1]));
    }

    method Close(closed: Resource, args: seq<Arg>, releaseOk: bool) returns (r: Result<(), Error>)
      requires Valid()
      modifies this
      ensures Valid()
      ensures var step := ManagerModel.Close(old(Model()), closed, args, releaseOk);
        Model() == step.state && r == step.result && calls == old(calls) + step.calls
    {
      ManagerProperties.ClosePreservesValid(Model(), closed, args, releaseOk);
      match closed {
        case ContextRes(c) =>
          var tracingStopOption := ResolveOption(args, optionCtx, TRACE_STOP_OPTION).tracingStop;
          calls := calls + [StopTracing(c, tracingStopOption)];
          optionCtx := optionCtx - {BROWSER_CONTEXT_OPTION};
        case BrowserRes(_) =>
          optionCtx := optionCtx - {BROWSER_LAUNCH_OPTION};
          browserSlot := None;
        case PlaywrightRes(_) =>
          optionCtx := optionCtx - {PLAYWRIGHT_OPTION};
          playwrightSlot := None;
      }
      // the engine's close
      calls := calls + [Release(closed)];
      if !releaseOk {
        return Err(ReleaseFailed);
      }
      if closed.ContextRes? && closed.context.browser in contexts {
        var parent := closed.context.browser;
        contexts := contexts[parent := Without(contexts[parent], closed.context)];
      }
      r := Ok(());
    }

    method CreatePlaywright(args: seq<Arg>, start: StartAttempts) returns (r: Result<Resource, Error>)
      requires Valid()
      modifies this
      ensures Valid()
      ensures var step := ManagerModel.CreatePlaywright(old(Model()), args, start);
        Model() == step.state && r == step.result && calls == old(calls) + step.calls
    {
      ghost var s0 := Model();
      ghost var step := ManagerModel.CreatePlaywright(s0, args, start);
      ManagerProperties.CreatePlaywrightPreservesValid(s0, args, start);
      var argsList := Flags(args);
      ghost var decision := SingletonDecision(playwrightSlot, argsList, NEW_PLAYWRIGHT_INSTANCE);
      if playwrightSlot.Some? {
        if argsList == [] {
          assert decision == ReuseTracked;
          return Ok(PlaywrightRes(playwrightSlot.value));
        }
        if NEW_PLAYWRIGHT_INSTANCE !in argsList {
          assert decision == RejectFlags;
          return Err(IllegalArgument(argsList));
        }
      }
      assert decision == CreateNew;
      var options := ResolveOption(args, optionCtx, PLAYWRIGHT_OPTION).playwrightOption;
      var p := Playwright(nextId);
      var started := RetryOnceWithDelay(options, p, start);
      if !started {
        return Err(DriverStartFailed);
      }
      playwrightSlot := Some(p);
      nextId := nextId + 1;
      optionCtx := optionCtx[PLAYWRIGHT_OPTION := PlaywrightOptionArg(options)];
      assert Model() == step.state;
      r := Ok(PlaywrightRes(playwrightSlot.value));
    }

    /**
     * Start the driver as `p`; if that attempt fails, wait and try once more.
     * The outcome of each attempt is given by `start`.
     */
    method RetryOnceWithDelay(option: PlaywrightOptions.PlaywrightOption, p: Playwright, start: StartAttempts)
      returns (started: bool)
      modifies this`calls
      ensures started <==> start != BothAttemptsFail
      ensures calls == old(calls) + StartDriverCalls(option, p, start)
    {
      started := start == FirstAttemptSucceeds;
      calls := calls + [CreateDriver(option, if started then Some(p) else None)];
      if !started {
        calls := calls + [Sleep(RETRY_DELAY_SECONDS)];
        started := start == RetrySucceeds;
        calls := calls + [CreateDriver(option, if started then Some(p) else None)];
      }
    }

    method CreateBrowser(args: seq<Arg>) returns (r: Result<Resource, Error>)
      requires Valid()
      modifies this
      ensures Valid()
      ensures var step := ManagerModel.CreateBrowser(old(Model()), args);
        Model() == step.state && r == step.result && calls == old(calls) + step.calls
    {
      ghost var s0 := Model();
      ghost var step := ManagerModel.CreateBrowser(s0, args);
      ManagerProperties.CreateBrowserPreservesValid(s0, args);
      var argsList := Flags(args);
      ghost var decision := SingletonDecision(browserSlot, argsList, NEW_BROWSER_INSTANCE);
      if browserSlot.Some? {
        if argsList == [] {
          assert decision == ReuseTracked;
          return Ok(BrowserRes(browserSlot.value));
        }
        if NEW_BROWSER_INSTANCE !in argsList {
          assert decision == RejectFlags;
          return Err(IllegalArgument(argsList));
        }
      }
      assert decision == CreateNew;
      if playwrightSlot == None {
        return Err(PlaywrightNotInitialized);
      }
      var playwright := playwrightSlot.value;
      var options := ResolveOption(args, optionCtx, BROWSER_LAUNCH_OPTION).launchOption;
      var launcher := LauncherFor(options.browser);
      if launcher == None {
        return Err(UnsupportedBrowser(options.browser));
      }
      var browser := Browser(nextId, playwright);
      calls := calls + [Launch(launcher.value, options, browser)];
      nextId := nextId + 1;
      contexts := contexts[browser := []];
      browserSlot := Some(browser);
      optionCtx := optionCtx[BROWSER_LAUNCH_OPTION := LaunchOptionArg(options)];
      assert Model() == step.state;
      r := Ok(BrowserRes(browserSlot.value));
    }

    method CreateBrowserContext(args: seq<Arg>) returns (r: Result<Resource, Error>)
      requires Valid()
      modifies this
      ensures Valid()
      ensures var step := ManagerModel.CreateBrowserContext(old(Model()), args);
        Model() == step.state && r == step.result && calls == old(calls) + step.calls
    {
      ghost var s0 := Model();
      ghost var step := ManagerModel.CreateBrowserContext(s0, args);
      ManagerProperties.CreateContextPreservesValid(s0, args);
      var browserContextOption := ResolveOption(args, optionCtx, BROWSER_CONTEXT_OPTION).contextOption;
      var tracingStartOption := ResolveOption(args, optionCtx, TRACE_START_OPTION).tracingStart;
      if browserSlot == None {
        return Err(BrowserNotInitialized);
      }
      var browser := browserSlot.value;
      var browserCtx := BrowserContext(nextId, browser);
      nextId := nextId + 1;
      contexts := contexts[browser := contexts[browser] + [browserCtx]];
      calls := calls + [NewContext(browser, browserContextOption, browserCtx), StartTracing(browserCtx, tracingStartOption)];
      optionCtx := optionCtx[BROWSER_CONTEXT_OPTION := ContextOptionArg(browserContextOption)];
      optionCtx := optionCtx[TRACE_START_OPTION := TracingStartArg(tracingStartOption)];
      assert Model() == step.state;
      r := Ok(ContextRes(browserCtx));
    }
  }

  /** A caller's view: the lifecycle of one Playwright, Browser and context, from the contracts alone. */
  method LifecycleClient()
  {
    var manager := new PlaywrightManager();
    var none := manager.Get(BROWSER_CONTEXT);
    assert none == None;
    var p := manager.Create(PLAYWRIGHT, [], FirstAttemptSucceeds);
    assert p.Ok?;
    var again := manager.Create(PLAYWRIGHT, [], FirstAttemptSucceeds);
    assert again == p;
    var rejected := manager.Create(PLAYWRIGHT, [FlagArg(NEW_BROWSER_INSTANCE)], FirstAttemptSucceeds);
    assert rejected.Err?;
    var c := manager.Create(BROWSER_CONTEXT, [], FirstAttemptSucceeds);
    assert c == Err(BrowserNotInitialized);
  }
}
