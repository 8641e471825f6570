# Playwright resource manager, modelled in Dafny

This project models the resource manager of a Java test-automation library built on the Playwright
browser engine. The manager creates, returns and closes three tiers of resources:

- a **Playwright** driver connection;
- a **Browser** launched from that connection;
- a **BrowserContext**, an isolated sandbox created from the browser, with tracing started on it.

The manager keeps four pieces of state:

- a Playwright singleton slot and a Browser singleton slot;
- an option store (`OptionCtx`) that remembers the last option record used for each kind;
- the live context list of each browser (engine state that `get` reads);
- a ghost log of the calls made into the engine.

The engine itself is replaced by fresh abstract handles. Every engine call is recorded in order.

Files:

- `Wrappers.dfy`: `Option` and `Result`.
- `ObjUtils.dfy`: `filterFromArray` and `getFromArray` over a sequence whose elements carry a runtime class. The input is a sequence value, so neither function can modify it.
- `BrowserLaunchOption.dfy` and `PlaywrightOption.dfy`: the two option records, their builder defaults, and their `forPlaywright` translations into engine options.
- `ManagerModel.dfy`: the manager as a state machine over values. It defines the state, its invariant `Valid`, and one function per operation. Each function returns the new state, the returned value or thrown exception, and the engine calls made.
- `ManagerProperties.dfy`: what the manager promises, proved about that state machine.
- `PlaywrightManager.dfy`: the manager as a class (`Manager.PlaywrightManager`) whose fields the methods update step by step. Each method is proved to produce exactly the state, result and engine calls of the matching `ManagerModel` function.

Behaviour follows the code:

- When a Playwright or Browser is tracked and no flag is passed, `create` silently returns the tracked instance.
- Flags that do not include the matching `NEW_*_INSTANCE` throw `IllegalArgumentException`.
- Explicit Playwright or Browser arguments are accepted in the argument list but never used. The upstream check looks only at the singleton slots.
- The repository's test `testCreateMultipleResourcesAtSameTime` expects two distinct instances without flags, and expects explicit upstream arguments to be used. The code does neither, and the model follows the code. So two independent resource trees cannot be built through the manager, and the model does not claim they can.

## Model

| member | source | states |
|---|---|---|
| ObjUtils.FilterFromArray | playwright/src/main/java/org/playwright/utils/ObjUtils.java:19-24 | every element of the result has the requested class; the result is no longer than the input; an element is in the result exactly when it is in the input with that class |
| ObjUtils.FilterAppend | playwright/src/main/java/org/playwright/utils/ObjUtils.java:19-24 | filtering a concatenation is the concatenation of the filtered parts, so the input order is kept |
| ObjUtils.FilterCounts | playwright/src/main/java/org/playwright/utils/ObjUtils.java:20-23 | a matching element occurs in the result as often as in the input; a non-matching element never occurs |
| ObjUtils.FilterAllMatching | playwright/src/main/java/org/playwright/utils/ObjUtils.java:20-23 | an input whose elements all match comes back unchanged |
| ObjUtils.FilterEmptyIff | playwright/src/main/java/org/playwright/utils/ObjUtils.java:20-23 | the result is empty exactly when no element matches |
| ObjUtils.GetFromArray | playwright/src/main/java/org/playwright/utils/ObjUtils.java:33-38 | empty exactly when no element matches; when present, the value is an element of the input with the requested class |
| ObjUtils.GetFromArrayFirst | playwright/src/main/java/org/playwright/utils/ObjUtils.java:34-37 | when present, the value is the matching element with the least index |
| ObjUtils.GetIsHeadOfFilter | playwright/src/main/java/org/playwright/utils/ObjUtils.java:33-37 | getFromArray is empty when filterFromArray is empty, and otherwise is its first element |
| BrowserLaunchOptions.EqualsIgnoreCaseIffSameLowerCase | playwright/src/main/java/org/playwright/core/options/BrowserLaunchOption.java:35 | Java's equalsIgnoreCase holds exactly when the two strings have the same lower-case form (ASCII case mapping) |
| BrowserLaunchOptions.ForPlaywright | playwright/src/main/java/org/playwright/core/options/BrowserLaunchOption.java:29-40 | headless, slow motion and start timeout are copied unchanged; the channel is set, to the browser string as given, exactly when that string is "chrome" or "msedge" up to case |
| BrowserLaunchOptions.DefaultForPlaywright | playwright/src/main/java/org/playwright/core/options/BrowserLaunchOption.java:12-40 | the defaults are headless, 300 ms slow motion, browser "chrome" and a 30000 ms start timeout, and they translate to the "chrome" channel |
| BrowserLaunchOptions.ChannelNotCaseNormalised | playwright/src/main/java/org/playwright/core/options/BrowserLaunchOption.java:35-36 | "CHROME" and "MsEdge" select a channel and keep their spelling |
| BrowserLaunchOptions.NoChannelForOtherEngines | playwright/src/main/java/org/playwright/core/options/BrowserLaunchOption.java:35-37 | "chromium", "firefox" and "webkit" get no channel |
| PlaywrightOptions.ForPlaywright | playwright/src/main/java/org/playwright/core/options/PlaywrightOption.java:26-38 | the environment is unset exactly when both flags are off; with verbose logs it is the verbose environment; with debug mode only it is the debug environment |
| PlaywrightOptions.DefaultForPlaywright | playwright/src/main/java/org/playwright/core/options/PlaywrightOption.java:19-37 | both flags default to false, so the environment stays unset |
| PlaywrightOptions.DebugInspectorOnlyWithoutVerbose | playwright/src/main/java/org/playwright/core/options/PlaywrightOption.java:29-35 | PWDEBUG reaches the driver exactly when debug mode is on and verbose logs are off |
| PlaywrightOptions.VerboseReplacesDebug | playwright/src/main/java/org/playwright/core/options/PlaywrightOption.java:29-35 | with both flags on, the environment is only {DEBUG: pw:api}, because the second setEnv replaces the first |
| ManagerModel.DefaultFor | playwright/src/main/java/org/playwright/core/PlaywrightManager.java:127-134 | the default for each store key is a record of that key's option class |
| ManagerModel.ResolveOption | playwright/src/main/java/org/playwright/core/PlaywrightManager.java:166-173 | the resolved option has the key's class, and it comes from the arguments, from the store under that key, or from the default |
| ManagerModel.ResolveExplicitFirst | playwright/src/main/java/org/playwright/core/PlaywrightManager.java:127-134 | an explicit option argument wins; when several are passed, the first one wins |
| ManagerModel.ResolveStored | playwright/src/main/java/org/playwright/core/PlaywrightManager.java:188-191 | without an explicit argument, the stored value is reused |
| ManagerModel.ResolveDefault | playwright/src/main/java/org/playwright/core/PlaywrightManager.java:193-196 | with no explicit argument and nothing stored, the builder default is used |
| ManagerModel.Flags | playwright/src/main/java/org/playwright/core/PlaywrightManager.java:111 | a flag is among the extracted flags exactly when it was passed; the list is empty exactly when no flag was passed |
| ManagerModel.SingletonDecision | playwright/src/main/java/org/playwright/core/PlaywrightManager.java:114-123 | reuse exactly when an instance is tracked and no flag is passed; reject exactly when one is tracked and flags without the override are passed; create otherwise |
| ManagerModel.LauncherFor | playwright/src/main/java/org/playwright/core/PlaywrightManager.java:175-180 | "chromium", "chrome" and "msedge" go to the chromium launcher, "firefox" to firefox and "webkit" to webkit; anything else has no launcher |
| ManagerModel.SelectorIsCaseSensitive | playwright/src/main/java/org/playwright/core/PlaywrightManager.java:175-179 | selectors that differ only in case have no launcher |
| ManagerModel.Create | playwright/src/main/java/org/playwright/core/PlaywrightManager.java:52-58 | the dispatch of create on the resource kind, as a state-machine step; its properties are proved in ManagerProperties (CreatePreservesValid, CreateThenGet, CreateTwiceReturnsSame) |
| ManagerModel.CreatePlaywright | playwright/src/main/java/org/playwright/core/PlaywrightManager.java:110-143 | create(PLAYWRIGHT) as a state-machine step: flag extraction, reuse or rejection, option resolution, the retried driver start, then the slot and store updates; its properties are proved in ManagerProperties (CreatePlaywrightReusesTracked, CreatePlaywrightRejectsOtherFlags, CreatePlaywrightFresh, CreatePlaywrightDriverFailure) |
| ManagerModel.CreateBrowser | playwright/src/main/java/org/playwright/core/PlaywrightManager.java:145-185 | create(BROWSER) as a state-machine step: reuse or rejection, the upstream check, option resolution, the case-sensitive dispatch and the launch, then the slot and store updates; its properties are proved in ManagerProperties (CreateBrowserReusesTracked, CreateBrowserRejectsOtherFlags, CreateBrowserNeedsPlaywright, CreateBrowserDispatch) |
| ManagerModel.CreateBrowserContext | playwright/src/main/java/org/playwright/core/PlaywrightManager.java:187-210 | create(BROWSER_CONTEXT) as a state-machine step: both options resolved, the upstream check, newContext then tracing start, then both options stored; its properties are proved in ManagerProperties (CreateContextNeedsBrowser, CreateContextFresh) |
| ManagerModel.Get | playwright/src/main/java/org/playwright/core/PlaywrightManager.java:67-79 | get as a function of the state: the two slots, and the last context of the tracked browser; its properties are proved in ManagerProperties (GetBeforeCreateIsEmpty, GetContextIsLast, CreateThenGet) |
| ManagerModel.Untrack | playwright/src/main/java/org/playwright/core/PlaywrightManager.java:90-106 | the bookkeeping close does before the release, by kind: tracing stop and the context option, or the launch option and the browser slot, or the Playwright option and the Playwright slot |
| ManagerModel.Close | playwright/src/main/java/org/playwright/core/PlaywrightManager.java:89-107 | close as a state-machine step: the bookkeeping, then the release, which can fail; its properties are proved in ManagerProperties (ClosePreservesValid, CloseContextBookkeeping, CloseContextLeavesList, CloseBrowserUntracks, ClosePlaywrightUntracks) |
| ManagerProperties.GetBeforeCreateIsEmpty | playwright/src/test/java/org/playwright/core/PlaywrightManagerTest.java:13-18 | in the initial state, get is empty for every kind |
| ManagerProperties.CreatePreservesValid | playwright/src/main/java/org/playwright/core/PlaywrightManager.java:110-210 | every create keeps the invariant: the store is well typed, the tracked browser has a context list, and every handle is older than the next fresh one |
| ManagerProperties.CreatePlaywrightPreservesValid | playwright/src/main/java/org/playwright/core/PlaywrightManager.java:110-143 | create(PLAYWRIGHT) keeps the invariant |
| ManagerProperties.CreateBrowserPreservesValid | playwright/src/main/java/org/playwright/core/PlaywrightManager.java:145-185 | create(BROWSER) keeps the invariant |
| ManagerProperties.CreateContextPreservesValid | playwright/src/main/java/org/playwright/core/PlaywrightManager.java:187-210 | create(BROWSER_CONTEXT) keeps the invariant |
| ManagerProperties.CloseContextPreservesValid | playwright/src/main/java/org/playwright/core/PlaywrightManager.java:90-98 | closing a context keeps the invariant |
| ManagerProperties.ClosePreservesValid | playwright/src/main/java/org/playwright/core/PlaywrightManager.java:89-107 | every close keeps the invariant, whether or not the release succeeds |
| ManagerProperties.CreatePlaywrightReusesTracked | playwright/src/main/java/org/playwright/core/PlaywrightManager.java:114-118 | a tracked Playwright with no flag is returned; the state is unchanged and no engine call is made |
| ManagerProperties.CreatePlaywrightRejectsOtherFlags | playwright/src/main/java/org/playwright/core/PlaywrightManager.java:119-121 | a tracked Playwright with flags that lack NEW_PLAYWRIGHT_INSTANCE throws IllegalArgument with the flags passed, and the state is unchanged |
| ManagerProperties.CreatePlaywrightFresh | playwright/src/main/java/org/playwright/core/PlaywrightManager.java:125-142 | with nothing tracked (flags ignored) or with NEW_PLAYWRIGHT_INSTANCE, a new distinct Playwright becomes the tracked one; the store holds exactly the resolved option and nothing else changes; the driver was started with that option |
| ManagerProperties.CreatePlaywrightDriverFailure | playwright/src/main/java/org/playwright/core/PlaywrightManager.java:137-138 | when both start attempts fail, the failure surfaces after one 5-second wait, and nothing is tracked or stored |
| ManagerProperties.CreateBrowserReusesTracked | playwright/src/main/java/org/playwright/core/PlaywrightManager.java:149-153 | a tracked Browser with no flag is returned even when no Playwright is tracked; the state is unchanged |
| ManagerProperties.CreateBrowserRejectsOtherFlags | playwright/src/main/java/org/playwright/core/PlaywrightManager.java:154-156 | a tracked Browser with flags that lack NEW_BROWSER_INSTANCE throws IllegalArgument, and the state is unchanged |
| ManagerProperties.CreateTwiceReturnsSame | playwright/src/main/java/org/playwright/core/PlaywrightManager.java:114-118 | after a successful create of a Playwright or a Browser, a second create without flags returns the same instance and changes nothing |
| ManagerProperties.CreateBrowserNeedsPlaywright | playwright/src/main/java/org/playwright/core/PlaywrightManager.java:160-163 | with no Playwright tracked, create(BROWSER) throws and changes nothing whenever it gets past the reuse and flag checks: no Browser tracked, or a Browser still tracked and NEW_BROWSER_INSTANCE passed; an explicit Playwright argument does not help |
| ManagerProperties.CreateContextNeedsBrowser | playwright/src/main/java/org/playwright/core/PlaywrightManager.java:198-201 | with no Browser tracked, create(BROWSER_CONTEXT) throws for any arguments and stores no option |
| ManagerProperties.CreateBrowserDispatch | playwright/src/main/java/org/playwright/core/PlaywrightManager.java:166-184 | past the reuse and upstream checks, create succeeds exactly for the five known selectors; a known one is launched through its launcher with the resolved configuration, becomes the tracked browser, and is the option stored; an unknown one throws with nothing changed |
| ManagerProperties.UpperCaseChromeIsUnsupported | playwright/src/main/java/org/playwright/core/PlaywrightManager.java:175-179 | "CHROME" would get a channel from the launch option translation, but the case-sensitive dispatch rejects it |
| ManagerProperties.CreateContextFresh | playwright/src/main/java/org/playwright/core/PlaywrightManager.java:187-209 | a context is always new; it is appended to the tracked browser's list and so is what get returns; newContext then tracing start run with the resolved options; both options are stored; the slots do not change |
| ManagerProperties.CreateThenGet | playwright/src/test/java/org/playwright/core/PlaywrightManagerTest.java:32-34 | after any successful create, get of that kind returns the resource created |
| ManagerProperties.GetContextIsLast | playwright/src/main/java/org/playwright/core/PlaywrightManager.java:71-77 | get(BROWSER_CONTEXT) is empty exactly when no browser is tracked or its list is empty; otherwise it is the last context of the tracked browser |
| ManagerProperties.CloseContextBookkeeping | playwright/src/main/java/org/playwright/core/PlaywrightManager.java:90-98 | closing a context stops tracing with the resolved stop option before the release call; it removes only BROWSER_CONTEXT_OPTION, keeps TRACE_START_OPTION, and leaves the slots alone |
| ManagerProperties.CloseContextLeavesList | playwright/src/main/java/org/playwright/core/PlaywrightManager.java:107 | a released context leaves its browser's list, and the other browsers' lists stay as they were |
| ManagerProperties.CloseBrowserUntracks | playwright/src/main/java/org/playwright/core/PlaywrightManager.java:99-102 | closing any Browser, tracked or not, removes the launch option and clears the browser slot before the release; this holds even when the release fails |
| ManagerProperties.ClosePlaywrightUntracks | playwright/src/main/java/org/playwright/core/PlaywrightManager.java:103-106 | closing any Playwright, tracked or not, removes the Playwright option and clears the Playwright slot before the release; this holds even when the release fails |
| ManagerProperties.LifecycleCreatePlaywright | playwright/src/test/java/org/playwright/core/PlaywrightManagerTest.java:22 | from the initial state, create(PLAYWRIGHT) gives the first handle and stores the default option |
| ManagerProperties.LifecycleCreateBrowser | playwright/src/test/java/org/playwright/core/PlaywrightManagerTest.java:23 | create(BROWSER) with the default launch option launches and tracks the next handle |
| ManagerProperties.LifecycleEngineOptions | playwright/src/test/java/org/playwright/core/PlaywrightManagerTest.java:22-23 | the first driver start gets the default option, whose translation leaves the environment unset; the first launch goes to the chromium launcher with the default configuration, whose translation is headless, 300 ms slow motion, a 30000 ms timeout and the "chrome" channel |
| ManagerProperties.LifecycleCreateContext | playwright/src/test/java/org/playwright/core/PlaywrightManagerTest.java:24 | create(BROWSER_CONTEXT) after the browser gives the next handle as a context of that browser |
| ManagerProperties.LifecycleGetAll | playwright/src/test/java/org/playwright/core/PlaywrightManagerTest.java:32-34 | with all three created, get returns each of the three resources created |
| ManagerProperties.LifecycleCloseContext | playwright/src/test/java/org/playwright/core/PlaywrightManagerTest.java:37 | closing the context empties the browser's list and forgets the context option |
| ManagerProperties.LifecycleCloseBrowser | playwright/src/test/java/org/playwright/core/PlaywrightManagerTest.java:38 | closing the browser clears the browser slot and the launch option |
| ManagerProperties.LifecycleClosePlaywright | playwright/src/test/java/org/playwright/core/PlaywrightManagerTest.java:39 | closing the Playwright clears the Playwright slot and its option |
| ManagerProperties.LifecycleGetNone | playwright/src/main/java/org/playwright/core/PlaywrightManager.java:99-106 | after closing the context, the browser and the Playwright, get is empty for every kind, and only the tracing start option stays stored |
| Manager.PlaywrightManager.constructor | playwright/src/test/java/org/playwright/core/PlaywrightManagerTest.java:13-18 | a new registry tracks nothing, stores nothing and has made no engine call |
| Manager.PlaywrightManager.Create | playwright/src/main/java/org/playwright/core/PlaywrightManager.java:52-58 | dispatches on the kind; the new fields, the result and the engine calls are those of ManagerModel.Create, and the invariant is kept |
| Manager.PlaywrightManager.Get | playwright/src/main/java/org/playwright/core/PlaywrightManager.java:67-79 | returns ManagerModel.Get of the current fields and changes nothing |
| Manager.PlaywrightManager.Close | playwright/src/main/java/org/playwright/core/PlaywrightManager.java:89-107 | bookkeeping by kind, then the release; the new fields, the outcome and the engine calls are those of ManagerModel.Close |
| Manager.PlaywrightManager.CreatePlaywright | playwright/src/main/java/org/playwright/core/PlaywrightManager.java:110-143 | the reuse and flag checks, option resolution, driver start under the retry, then the slot and store updates, as in ManagerModel.CreatePlaywright |
| Manager.PlaywrightManager.RetryOnceWithDelay | playwright/src/main/java/org/playwright/core/PlaywrightManager.java:137-138 | the driver is started once, or after a failure a second time following a 5-second wait; it succeeds unless both attempts fail |
| Manager.PlaywrightManager.CreateBrowser | playwright/src/main/java/org/playwright/core/PlaywrightManager.java:145-185 | the reuse and flag checks, the upstream check, option resolution, dispatch and launch, then the slot and store updates, as in ManagerModel.CreateBrowser |
| Manager.PlaywrightManager.CreateBrowserContext | playwright/src/main/java/org/playwright/core/PlaywrightManager.java:187-210 | option resolution, the upstream check, a new context with tracing started, then both options stored, as in ManagerModel.CreateBrowserContext |

## Left out

- Engine calls (`Playwright.create`, `launch`, `newContext`, `tracing().start/stop`, `close`) are foreign code. They are abstract handles from one counter plus a ghost log of calls. A driver start or a launch is logged with the manager's option record; what the engine is handed is that record's `forPlaywright` translation (`ManagerModel.StartedWith`, `ManagerModel.LaunchedWith`). Only two failures are modelled: a driver start that fails, and a release that fails. Launch, newContext and tracing calls always succeed.
- The translations of the context and tracing options (`BrowserContextOption`, `TracingStartOption`, `TracingStopOption`) are opaque records, because their sources are not part of this model. The log records those records themselves.
- `RetryAgain.onceWithDelay` is not part of this model. It is taken to try once, and after a failure wait 5 seconds and try once more. Which attempt succeeds is an input, and the wait is only logged.
- The engine also closes a browser's contexts when the browser closes, and a connection's browsers when the connection closes. The first is not observable here: once a browser is closed its slot is cleared, and `get` reads only the tracked browser's list. The second is: after `close(playwright)` the browser launched from it stays tracked, because only the Playwright slot is cleared, and the model keeps that browser's context list as it was, so `get(BROWSER_CONTEXT)` still returns its last context. What the engine's `contexts()` of a browser whose connection has closed actually returns is not modelled.
- The engine's `contexts()` is taken to list a browser's live contexts in creation order, oldest first. This order is engine behaviour that the manager relies on in `get(BROWSER_CONTEXT)` to return the last context created; `ManagerProperties.CreateContextFresh` and `ManagerProperties.GetContextIsLast` rest on it.
- Contexts created directly on a browser, outside the manager, are not modelled.
- Writes to the option store from outside the manager are not an operation here. The lemmas hold for every well-typed store, so a stored `TRACE_STOP_OPTION` is covered.
- Logging has no behaviour and is left out.
- Process-wide static state and concurrency are left out. There is one registry object, used sequentially.
- `close` of an `AutoCloseable` that is not one of the three resources is left out.
- A `null` element in the argument array is left out. Java throws a NullPointerException there.
- `slowmo` and `browserStartTimeout` are Java doubles, modelled as whole milliseconds. The model only copies them.
- BrowserLaunchOptions.EqualsIgnoreCaseIffSameLowerCase: uses ASCII case mapping. Java's full Unicode mapping is not modelled, so "mſedge" (with U+017F, LATIN SMALL LETTER LONG S) would also match "msedge" in Java.
- The class-name check `arg.getClass().isAssignableFrom(clazz)` is modelled as class equality. Java's check also matches an argument whose runtime class is a proper supertype of the requested class. Among the classes the manager looks up, that can only be an argument whose runtime class is `java.lang.Object`, which matches every lookup and then fails the cast. The model leaves that case out.
- Arguments of classes other than the option records, the `ResourceOptionArg` flags and the three resources (a `String`, say) cannot be written as an `Arg`. The manager never looks them up, so they would only be skipped.
