/**
 * The browser launch configuration record and its translation into the
 * engine's launch options.
 */
module BrowserLaunchOptions {
  import opened Wrappers

  /**
   * The immutable launch configuration. `slowmo` and `browserStartTimeout`
   * are doubles in the source; here they are whole milliseconds that are
   * only passed through.
   */
  datatype BrowserLaunchOption = BrowserLaunchOption(
    headless: bool,
    slowmo: int,
    browser: string,
    browserStartTimeout: int)

  /** The record the builder produces when no field is set. */
  function Default(): BrowserLaunchOption
  {
    BrowserLaunchOption(headless := true, slowmo := 300, browser := "chrome", browserStartTimeout := 30000)
  }

  /** The engine's launch options: every setting starts unset. */
  datatype LaunchOptions = LaunchOptions(
    headless: Option<bool>,
    slowMo: Option<int>,
    timeout: Option<int>,
    channel: Option<string>)

  function UpperAscii(c: char): char
  {
    if 'a' <= c <= 'z' then (c as int - 32) as char else c
  }

  function LowerAscii(c: char): char
  {
    if 'A' <= c <= 'Z' then (c as int + 32) as char else c
  }

  /** Java's per-character comparison in `equalsIgnoreCase`, with ASCII case mapping. */
  predicate CharEqualsIgnoreCase(a: char, b: char)
  {
    a == b || UpperAscii(a) == UpperAscii(b) || LowerAscii(UpperAscii(a)) == LowerAscii(UpperAscii(b))
  }

  /** Java's `String.equalsIgnoreCase`: same length and pairwise equal characters up to case. */
  predicate EqualsIgnoreCase(a: string, b: string)
  {
    |a| == |b| && (a == [] || (CharEqualsIgnoreCase(a[0], b[0]) && EqualsIgnoreCase(a[1..], b[1..])))
  }

  /** The string with every ASCII capital turned into its small letter. */
  function LowerCase(s: string): (r: string)
    ensures |r| == |s| && forall i :: 0 <= i < |s| ==> r[i] == LowerAscii(s[i])
  {
    seq(|s|, i requires 0 <= i < |s| => LowerAscii(s[i]))
  }

  lemma CharEqualsIgnoreCaseIffSameLower(a: char, b: char)
    ensures CharEqualsIgnoreCase(a, b) <==> LowerAscii(a) == LowerAscii(b)
  {
  }

  /** Two strings are equal ignoring case exactly when their lower-case forms are equal. */
  lemma {:induction false} EqualsIgnoreCaseIffSameLowerCase(a: string, b: string)
    ensures EqualsIgnoreCase(a, b) <==> LowerCase(a) == LowerCase(b)
  {
    if |a| == |b| && a != [] {
      CharEqualsIgnoreCaseIffSameLower(a[0], b[0]);
      EqualsIgnoreCaseIffSameLowerCase(a[1..], b[1..]);
      assert LowerCase(a) == [LowerAscii(a[0])] + LowerCase(a[1..]);
      assert LowerCase(b) == [LowerAscii(b[0])] + LowerCase(b[1..]);
    }
  }

  /**
   * `forPlaywright`: headless, slow motion and start timeout are copied; the
   * channel is set, to the browser string as given, exactly when that string
   * is "chrome" or "msedge" up to case.
   */
  function ForPlaywright(o: BrowserLaunchOption): (r: LaunchOptions)
    ensures r.headless == Some(o.headless) && r.slowMo == Some(o.slowmo) && r.timeout == Some(o.browserStartTimeout)
    ensures r.channel == if LowerCase(o.browser) in {"chrome", "msedge"} then Some(o.browser) else None
  {
    var launchOptions := LaunchOptions(None, None, None, None)
      .(headless := Some(o.headless))
      .(slowMo := Some(o.slowmo))
      .(timeout := Some(o.browserStartTimeout));
    EqualsIgnoreCaseIffSameLowerCase("chrome", o.browser);
    EqualsIgnoreCaseIffSameLowerCase("msedge", o.browser);
    assert LowerCase("chrome") == "chrome";
    assert LowerCase("msedge") == "msedge";
    if EqualsIgnoreCase("chrome", o.browser) || EqualsIgnoreCase("msedge", o.browser) then
      launchOptions.(channel := Some(o.browser))
    else
      launchOptions
  }

  /** With the defaults the engine gets headless mode, 300 ms slow motion, a 30 s timeout and the "chrome" channel. */
  lemma DefaultForPlaywright()
    ensures Default().headless && Default().slowmo == 300 && Default().browser == "chrome"
    ensures Default().browserStartTimeout == 30000
    ensures ForPlaywright(Default()) == LaunchOptions(Some(true), Some(300), Some(30000), Some("chrome"))
  {
    assert LowerCase("chrome") == "chrome";
  }

  /** The channel keeps the spelling it was given: "CHROME" and "MsEdge" are passed on unchanged. */
  lemma ChannelNotCaseNormalised(o: BrowserLaunchOption)
    requires o.browser == "CHROME" || o.browser == "MsEdge"
    ensures ForPlaywright(o).channel == Some(o.browser)
  {
    assert LowerCase("CHROME") == "chrome";
    assert LowerCase("MsEdge") == "msedge";
  }

  /** The other engine selectors never select a channel. */
  lemma NoChannelForOtherEngines(o: BrowserLaunchOption)
    requires o.browser in {"chromium", "firefox", "webkit"}
    ensures ForPlaywright(o).channel == None
  {
    assert LowerCase("chromium") == "chromium";
    assert LowerCase("firefox") == "firefox";
    assert LowerCase("webkit") == "webkit";
  }
}
