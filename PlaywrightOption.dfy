/**
 * The driver connection configuration record and its translation into the
 * engine's create options (the environment of the driver process).
 */
module PlaywrightOptions {
  import opened Wrappers

  datatype PlaywrightOption = PlaywrightOption(enableDebugMode: bool, enableVerboseApiLogs: bool)

  /** The record the builder produces when no field is set. */
  function Default(): PlaywrightOption
  {
    PlaywrightOption(enableDebugMode := false, enableVerboseApiLogs := false)
  }

  /** The engine's create options; the environment starts unset. */
  datatype CreateOptions = CreateOptions(env: Option<map<string, string>>)

  /** Environment of debug mode: the inspector, with sources under src/test/java. */
  const DEBUG_ENV: map<string, string> := map["PWDEBUG" := "1", "PLAYWRIGHT_JAVA_SRC" := "src/test/java"]

  /** Environment of verbose API logging. */
  const VERBOSE_ENV: map<string, string> := map["DEBUG" := "pw:api"]

  /** `setEnv` replaces the whole environment. */
  function SetEnv(options: CreateOptions, env: map<string, string>): CreateOptions
  {
    options.(env := Some(env))
  }

  /**
   * `forPlaywright`: debug mode sets the debug environment, then verbose
   * logging sets its own, replacing the first.
   */
  function ForPlaywright(o: PlaywrightOption): (r: CreateOptions)
    ensures r.env.None? <==> !o.enableDebugMode && !o.enableVerboseApiLogs
    ensures o.enableVerboseApiLogs ==> r.env == Some(VERBOSE_ENV)
    ensures o.enableDebugMode && !o.enableVerboseApiLogs ==> r.env == Some(DEBUG_ENV)
  {
    var options := CreateOptions(None);
    var options := if o.enableDebugMode then SetEnv(options, DEBUG_ENV) else options;
    var options := if o.enableVerboseApiLogs then SetEnv(options, VERBOSE_ENV) else options;
    options
  }

  /** The default record leaves the environment unset. */
  lemma DefaultForPlaywright()
    ensures !Default().enableDebugMode && !Default().enableVerboseApiLogs
    ensures ForPlaywright(Default()).env == None
  {
  }

  /** The inspector variable reaches the driver only with debug mode on and verbose logging off. */
  lemma DebugInspectorOnlyWithoutVerbose(o: PlaywrightOption)
    ensures (ForPlaywright(o).env.Some? && "PWDEBUG" in ForPlaywright(o).env.value)
            <==> o.enableDebugMode && !o.enableVerboseApiLogs
  {
    assert "PWDEBUG" !in VERBOSE_ENV;
  }

  /** With both flags set, the environment is only the verbose one. */
  lemma VerboseReplacesDebug(o: PlaywrightOption)
    requires o.enableDebugMode && o.enableVerboseApiLogs
    ensures ForPlaywright(o).env == Some(map["DEBUG" := "pw:api"])
    ensures "PWDEBUG" !in ForPlaywright(o).env.value && "PLAYWRIGHT_JAVA_SRC" !in ForPlaywright(o).env.value
  {
  }
}
