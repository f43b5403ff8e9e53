/** SettingsRun: the options of a run, their defaults, and the values computed from them. */
module Settings {
  import opened Basics
  import opened Strings

  const CEST_WRAPPER_TESTS := "tests"
  const CEST_WRAPPER_RERUN_WHOLE := "cest_rerun_whole"
  const CEST_WRAPPER_RERUN_FAILED := "cest_rerun_failed"

  /** The fully qualified class name of the helper module that answers the start prompt. */
  const HELPER_MODULE_CLASS := "Paracetamol\\Module\\ParacetamolHelper"

  /** The default helper module name of a run, the class of the renamed Paracestamol
      namespace, which is not the class the run command compares the enabled modules with. */
  const DEFAULT_MODULE_NAME := "Paracestamol\\Module\\ParacestamolHelper"

  /** Every field of SettingsRun the modelled code reads or writes. The arguments and the
      codeception.yml parameters have no PHP default; they start as ''/0/[] here. `groups`
      is None while setGroups was never called; `envAsString` and `overrideAsString` are the
      caches, None until the first read. */
  datatype Config = Config(
    suite: string,
    processCount: int,
    projectName: string,
    rerunCount: int,
    env: seq<string>,
    override: seq<string>,
    delayMsec: int,
    maxRps: int,
    idleTimeoutSec: int,
    onlyTests: seq<string>,
    skipTests: seq<string>,
    immuneTests: seq<string>,
    skipReruns: seq<string>,
    runBeforeSeries: seq<string>,
    runBeforeParallel: seq<string>,
    runAfterSeries: seq<string>,
    runAfterParallel: seq<string>,
    cestWrapper: string,
    dividable: seq<string>,
    notDividableRerunWhole: seq<string>,
    notDividableRerunFailed: seq<string>,
    bulkRowsCount: int,
    testProjectPath: string,
    namespace: string,
    testsPath: string,
    outputPath: string,
    enabledModules: seq<string>,
    groups: Option<seq<string>>,
    codeceptionBinPath: string,
    codeceptionConfigPath: string,
    envAsString: Option<string>,
    overrideAsString: Option<string>,
    maxRunDuration: int,
    runOutputPath: string,
    delaySeconds: real,
    tickFrequencyUs: int,
    minTestDurationSec: Option<int>,
    maxTestDurationSec: Option<int>,
    medianTestDurationSec: Option<int>,
    moduleName: string,
    statEndpoint: string,
    switches: Switches)

  /** The on/off options of SettingsRun, kept in a record of their own. */
  datatype Switches = Switches(
    continuousRerun: bool,
    rerunWholeSeries: bool,
    serialBeforeFailsRun: bool,
    fastCestRerun: bool,
    wholeCestFailFast: bool,
    adaptiveDelay: bool,
    successfullyFetchedDurations: bool,
    moduleEnabled: bool)

  /** The property initialisers of SettingsRun. */
  const Defaults := Config(
    suite := "", processCount := 0, projectName := "", rerunCount := 0,
    env := [], override := [], delayMsec := -1, maxRps := 10, idleTimeoutSec := -1,
    onlyTests := [], skipTests := [], immuneTests := [], skipReruns := [],
    runBeforeSeries := [], runBeforeParallel := [], runAfterSeries := [], runAfterParallel := [],
    cestWrapper := CEST_WRAPPER_TESTS, dividable := [],
    notDividableRerunWhole := [], notDividableRerunFailed := [], bulkRowsCount := 500,
    testProjectPath := "", namespace := "", testsPath := "", outputPath := "", enabledModules := [],
    groups := None, codeceptionBinPath := "", codeceptionConfigPath := "", envAsString := None,
    overrideAsString := None,
    maxRunDuration := 0, runOutputPath := "", delaySeconds := -1.0, tickFrequencyUs := 0,
    minTestDurationSec := None, maxTestDurationSec := None, medianTestDurationSec := None,
    moduleName := DEFAULT_MODULE_NAME, statEndpoint := "",
    switches := Switches(
      continuousRerun := true, rerunWholeSeries := false, serialBeforeFailsRun := false,
      fastCestRerun := true, wholeCestFailFast := true, adaptiveDelay := true,
      successfullyFetchedDurations := false, moduleEnabled := false))

  /** getGroups: an empty set when groups were never set. */
  function Groups(c: Config): seq<string> {
    c.groups.GetOr([])
  }

  /** What getEnvAsString returns: the cached text, or the env list joined by ','. */
  function EnvAsString(c: Config): string {
    c.envAsString.GetOr(Join(",", c.env))
  }

  function OverrideAsString(c: Config): string {
    c.overrideAsString.GetOr(Join(",", c.override))
  }

  predicate IsCestWrapper(name: string) {
    name == CEST_WRAPPER_TESTS || name == CEST_WRAPPER_RERUN_WHOLE || name == CEST_WRAPPER_RERUN_FAILED
  }

  /** The tick period setDelayMsec computes: `ceil(m * 1000 / 5)` microseconds, 0 for m = 0. */
  function TickFrequencyUs(milliseconds: int): (r: int)
    ensures milliseconds == 0 ==> r == 0
    ensures r * 5 == milliseconds * 1000
  {
    if milliseconds == 0 then 0 else milliseconds * 200
  }

  /** The settings after setDelayMsec. */
  function WithDelay(c: Config, milliseconds: int): Config {
    c.(delayMsec := milliseconds, delaySeconds := milliseconds as real / 1000.0,
       tickFrequencyUs := TickFrequencyUs(milliseconds))
  }

  class SettingsRun {
    var cfg: Config

    constructor()
      ensures cfg == Defaults
    {
      cfg := Defaults;
    }

    /** setDelayMsec keeps the delay in milliseconds and seconds and the tick period in step. */
    method SetDelayMsec(milliseconds: int)
      modifies this
      ensures cfg == WithDelay(old(cfg), milliseconds)
      ensures cfg.delayMsec == milliseconds && cfg.delaySeconds * 1000.0 == milliseconds as real
    {
      cfg := cfg.(delayMsec := milliseconds, delaySeconds := milliseconds as real / 1000.0,
        tickFrequencyUs := TickFrequencyUs(milliseconds));
    }

    /** setCestWrapper accepts the three known wrapper names only. */
    method SetCestWrapper(cestWrapper: string) returns (r: Result<bool>)
      modifies this
      ensures IsCestWrapper(cestWrapper) ==> r.Ok? && cfg == old(cfg).(cestWrapper := cestWrapper)
      ensures !IsCestWrapper(cestWrapper) ==>
        r == Throw(UsageException("Unknown cest wrapper: " + cestWrapper)) && cfg == old(cfg)
    {
      if !IsCestWrapper(cestWrapper) {
        return Throw(UsageException("Unknown cest wrapper: " + cestWrapper));
      }
      cfg := cfg.(cestWrapper := cestWrapper);
      r := Ok(true);
    }

    /** getEnvAsString fills the cache on the first call. */
    method GetEnvAsString() returns (s: string)
      modifies this
      ensures s == EnvAsString(old(cfg))
      ensures cfg == old(cfg).(envAsString := Some(s))
    {
      if cfg.envAsString.None? {
        cfg := cfg.(envAsString := Some(Join(",", cfg.env)));
      }
      s := cfg.envAsString.value;
    }

    method GetOverrideAsString() returns (s: string)
      modifies this
      ensures s == OverrideAsString(old(cfg))
      ensures cfg == old(cfg).(overrideAsString := Some(s))
    {
      if cfg.overrideAsString.None? {
        cfg := cfg.(overrideAsString := Some(Join(",", cfg.override)));
      }
      s := cfg.overrideAsString.value;
    }

    method SetEnv(env: seq<string>)
      modifies this
      ensures cfg == old(cfg).(env := env)
    {
      cfg := cfg.(env := env);
    }

    method SetOverride(override: seq<string>)
      modifies this
      ensures cfg == old(cfg).(override := override)
    {
      cfg := cfg.(override := override);
    }

    method SetGroups(groups: seq<string>)
      modifies this
      ensures cfg == old(cfg).(groups := Some(Dedup(groups)))
    {
      cfg := cfg.(groups := Some(Dedup(groups)));
    }

    method SetSkipReruns(skipReruns: seq<string>)
      modifies this
      ensures cfg == old(cfg).(skipReruns := skipReruns)
    {
      cfg := cfg.(skipReruns := skipReruns);
    }

    method GetSkipReruns() returns (skipReruns: seq<string>)
      ensures skipReruns == cfg.skipReruns
    {
      skipReruns := cfg.skipReruns;
    }

    method SetAdaptiveDelay(value: bool)
      modifies this
      ensures cfg == old(cfg).(switches := old(cfg).switches.(adaptiveDelay := value))
    {
      cfg := cfg.(switches := cfg.switches.(adaptiveDelay := value));
    }

    method SetProjectName(projectName: string)
      modifies this
      ensures cfg == old(cfg).(projectName := projectName)
    {
      cfg := cfg.(projectName := projectName);
    }

    method SetRunOutputPath(runOutputPath: string)
      modifies this
      ensures cfg == old(cfg).(runOutputPath := runOutputPath)
    {
      cfg := cfg.(runOutputPath := runOutputPath);
    }

    method SetModuleEnabled(value: bool)
      modifies this
      ensures cfg == old(cfg).(switches := old(cfg).switches.(moduleEnabled := value))
    {
      cfg := cfg.(switches := cfg.switches.(moduleEnabled := value));
    }

    method SetModuleName(name: string)
      modifies this
      ensures cfg == old(cfg).(moduleName := name)
    {
      cfg := cfg.(moduleName := name);
    }

    method SetMaxRunDuration(maxRunDuration: int)
      modifies this
      ensures cfg == old(cfg).(maxRunDuration := maxRunDuration)
    {
      cfg := cfg.(maxRunDuration := maxRunDuration);
    }

    /** The three duration statistics statBased records. */
    method SetTestDurationStats(minSec: int, medianSec: int, maxSec: int)
      modifies this
      ensures cfg == old(cfg).(minTestDurationSec := Some(minSec), medianTestDurationSec := Some(medianSec),
        maxTestDurationSec := Some(maxSec))
    {
      cfg := cfg.(minTestDurationSec := Some(minSec), medianTestDurationSec := Some(medianSec),
        maxTestDurationSec := Some(maxSec));
    }

    method SetTestsPath(path: string)
      modifies this
      ensures cfg == old(cfg).(testsPath := path)
    {
      cfg := cfg.(testsPath := path);
    }

    method SetOutputPath(path: string)
      modifies this
      ensures cfg == old(cfg).(outputPath := path)
    {
      cfg := cfg.(outputPath := path);
    }
  }

  /** The documented defaults. */
  lemma DefaultValues()
    ensures Defaults.rerunCount == 0 && Defaults.switches.continuousRerun && Defaults.delayMsec == -1
    ensures Defaults.maxRps == 10 && Defaults.cestWrapper == CEST_WRAPPER_TESTS
    ensures Defaults.switches.fastCestRerun && Defaults.switches.wholeCestFailFast && Defaults.bulkRowsCount == 500
    ensures Defaults.switches.adaptiveDelay && !Defaults.switches.moduleEnabled && Groups(Defaults) == []
    ensures Defaults.moduleName == DEFAULT_MODULE_NAME && Defaults.moduleName != HELPER_MODULE_CLASS
  {
  }

  /** The env text is cached: once read, a later setEnv does not change what it returns. */
  lemma EnvCacheSticks(c: Config, env: seq<string>)
    ensures var read := c.(envAsString := Some(EnvAsString(c)));
      EnvAsString(read.(env := env)) == EnvAsString(c)
    ensures c.envAsString.None? ==> EnvAsString(c.(env := env)) == Join(",", env)
  {
  }

  /** The override text is cached in the same way. */
  lemma OverrideCacheSticks(c: Config, override: seq<string>)
    ensures var read := c.(overrideAsString := Some(OverrideAsString(c)));
      OverrideAsString(read.(override := override)) == OverrideAsString(c)
  {
  }

  /** The tick period is 200 microseconds per millisecond of delay. */
  lemma TickFrequencyIsTwoHundredTimes(milliseconds: int)
    ensures TickFrequencyUs(milliseconds) == 200 * milliseconds
  {
  }
}
