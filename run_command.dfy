/** The `run` console command: where paracetamol.yml is looked for, the settings it fills
    in after all options are read, and its exit status. */
module RunCommand {
  import opened Basics
  import opened Strings
  import opened Settings

  /** DIRECTORY_SEPARATOR on the systems the tool runs on. */
  const SEPARATOR := "/"
  const DEFAULT_SETTINGS_FILE := "paracetamol.yml"

  /** `substr($s, $start)` for a non-negative start. */
  function Substr(s: string, start: nat): (r: string)
    ensures start <= |s| ==> r == s[start..]
  {
    if start <= |s| then s[start..] else ""
  }

  /** Where loadParacetamolSettings looks for the settings file. The option is empty
      (PHP's `empty`): the project directory; a bare name: a name inside the project
      directory; anything with a separator: taken as given. A path that does not end in
      '.yml' is a directory holding paracetamol.yml. */
  function SettingsPath(option: string, projectPath: string): (r: string)
    ensures EndsWith(r, ".yml")
  {
    var base :=
      if IsEmptyText(option) then projectPath
      else if !Contains(option, SEPARATOR) then projectPath + SEPARATOR + option
      else option;
    if EndsWith(base, ".yml") then base else base + SEPARATOR + DEFAULT_SETTINGS_FILE
  }

  /** The settings after resolveProjectName: the suite namespace stands in for an empty
      project name. */
  function ProjectNameResolved(c: Config): Config {
    if c.projectName != "" then c else c.(projectName := c.namespace)
  }

  /** The settings after resolveAdaptiveDelay. */
  function AdaptiveDelayResolved(c: Config): Config {
    c.(switches := c.switches.(adaptiveDelay := c.delayMsec == -1))
  }

  /** The settings after resolveRunOutputPath: the codeception output path stands in for an
      empty run output path. */
  function RunOutputPathResolved(c: Config): Config {
    if c.runOutputPath != "" then c else c.(runOutputPath := c.outputPath)
  }

  /** The settings after resolveParacetamolModule, with both of its tests: the helper class
      named among the suite's modules enables the module; otherwise the same name "without
      its first slash", `substr($name, 0)`, would set the module name. */
  function ModuleResolved(c: Config): Config {
    var withoutFirstSlash := Substr(HELPER_MODULE_CLASS, 0);
    if HELPER_MODULE_CLASS in c.enabledModules then c.(switches := c.switches.(moduleEnabled := true))
    else if withoutFirstSlash in c.enabledModules then c.(moduleName := withoutFirstSlash)
    else c
  }

  /** The four resolutions `execute` applies after the options, in its order. */
  function Resolved(c: Config): Config {
    ModuleResolved(RunOutputPathResolved(AdaptiveDelayResolved(ProjectNameResolved(c))))
  }

  /** What the preparation steps of `execute` leave behind: the settings they filled in
      (run id, arguments, codeception paths and configuration, paracetamol.yml, options)
      and the exception that stopped them, if one did. */
  datatype Prepared = Prepared(cfg: Config, error: Option<Exception>)

  /** The exit status: 1 when anything was thrown, 0 otherwise. */
  function ExitCode(p: Prepared, run: Option<Exception>): int {
    if p.error.Some? || run.Some? then 1 else 0
  }

  class Run {
    const settings: SettingsRun

    constructor(settings: SettingsRun)
      ensures this.settings == settings
    {
      this.settings := settings;
    }

    /** loadParacetamolSettings: the file is read into the settings only when it exists.
        File existence and the YAML deserialisation are parameters. */
    method LoadParacetamolSettings(option: string, fileExists: string -> bool,
                                   populate: (Config, string) -> Config) returns (path: string)
      modifies settings
      ensures path == SettingsPath(option, old(settings.cfg.testProjectPath))
      ensures settings.cfg == if fileExists(path) then populate(old(settings.cfg), path) else old(settings.cfg)
    {
      path := option;
      if IsEmptyText(path) {
        path := settings.cfg.testProjectPath;
      } else if !Contains(path, SEPARATOR) {
        path := settings.cfg.testProjectPath + SEPARATOR + path;
      }
      if !EndsWith(path, ".yml") {
        path := path + SEPARATOR + DEFAULT_SETTINGS_FILE;
      }
      if !fileExists(path) {
        return;
      }
      settings.cfg := populate(settings.cfg, path);
    }

    method ResolveAdaptiveDelay()
      modifies settings
      ensures settings.cfg == AdaptiveDelayResolved(old(settings.cfg))
    {
      settings.SetAdaptiveDelay(settings.cfg.delayMsec == -1);
    }

    method ResolveProjectName()
      modifies settings
      ensures settings.cfg == ProjectNameResolved(old(settings.cfg))
    {
      if settings.cfg.projectName != "" {
        return;
      }
      settings.SetProjectName(settings.cfg.namespace);
    }

    method ResolveRunOutputPath()
      modifies settings
      ensures settings.cfg == RunOutputPathResolved(old(settings.cfg))
    {
      if settings.cfg.runOutputPath != "" {
        return;
      }
      settings.SetRunOutputPath(settings.cfg.outputPath);
    }

    /** resolveParacetamolModule. Its second test can never succeed, because the name
        "without its first slash" is the helper class name itself, which the first test has
        just found missing: the assertion states that. */
    method ResolveParacetamolModule()
      modifies settings
      ensures settings.cfg == ModuleResolved(old(settings.cfg))
    {
      var enabledModules := settings.cfg.enabledModules;
      var withoutFirstSlash := Substr(HELPER_MODULE_CLASS, 0);
      if HELPER_MODULE_CLASS in enabledModules {
        settings.SetModuleEnabled(true);
        return;
      }
      assert withoutFirstSlash !in enabledModules;
    }

    /** execute: the preparation, then the resolutions, then the run; any exception ends
        it with status 1. The run itself is a parameter: the exception the orchestrator
        throws, if any. */
    method Execute(prepared: Prepared, run: Option<Exception>) returns (code: int)
      modifies settings
      ensures code == ExitCode(prepared, run)
      ensures settings.cfg == if prepared.error.Some? then prepared.cfg else Resolved(prepared.cfg)
    {
      settings.cfg := prepared.cfg;
      if prepared.error.Some? {
        return 1;
      }
      ResolveProjectName();
      ResolveAdaptiveDelay();
      ResolveRunOutputPath();
      ResolveParacetamolModule();
      if run.Some? {
        return 1;
      }
      return 0;
    }
  }

  /** A settings file given with a separator and the '.yml' extension is used as it is. */
  lemma SettingsPathGiven(option: string, projectPath: string)
    requires !IsEmptyText(option) && Contains(option, SEPARATOR) && EndsWith(option, ".yml")
    ensures SettingsPath(option, projectPath) == option
  {
  }

  /** A bare name is looked for inside the project directory. */
  lemma SettingsPathBareName(option: string, projectPath: string)
    requires !IsEmptyText(option) && !Contains(option, SEPARATOR)
    ensures StartsWith(SettingsPath(option, projectPath), projectPath + SEPARATOR + option)
  {
    var base := projectPath + SEPARATOR + option;
    var tail := SEPARATOR + DEFAULT_SETTINGS_FILE;
    assert (base + tail)[..|base|] == base;
  }

  /** No option means the project's own paracetamol.yml. */
  lemma SettingsPathDefault(option: string, projectPath: string)
    requires IsEmptyText(option) && !EndsWith(projectPath, ".yml")
    ensures SettingsPath(option, projectPath) == projectPath + "/paracetamol.yml"
  {
    assert SEPARATOR + DEFAULT_SETTINGS_FILE == "/paracetamol.yml";
    assert projectPath + SEPARATOR + DEFAULT_SETTINGS_FILE == projectPath + (SEPARATOR + DEFAULT_SETTINGS_FILE);
  }

  /** A resolved path that holds a separator resolves to itself, whatever the project. */
  lemma {:induction false} SettingsPathStable(option: string, projectPath: string, otherProject: string)
    requires Contains(SettingsPath(option, projectPath), SEPARATOR)
    ensures SettingsPath(SettingsPath(option, projectPath), otherProject) == SettingsPath(option, projectPath)
  {
    var r := SettingsPath(option, projectPath);
    assert |r| >= 4;
  }

  /** The name "without its first slash" is the helper class name itself. */
  lemma SameHelperName()
    ensures Substr(HELPER_MODULE_CLASS, 0) == HELPER_MODULE_CLASS
  {
  }

  /** The module name is never changed: the branch meant to set it cannot fire. The module
      is enabled exactly when it already was or the helper is among the suite's modules. */
  lemma {:induction false} ModuleResolvedFields(c: Config)
    ensures ModuleResolved(c) == c.(switches := c.switches.(moduleEnabled :=
      c.switches.moduleEnabled || HELPER_MODULE_CLASS in c.enabledModules))
  {
    SameHelperName();
  }

  /** Each resolution sets only its own field, and sets it as the command promises. */
  lemma {:induction false} ResolvedFields(c: Config)
    ensures Resolved(c) == c.(
      projectName := if c.projectName != "" then c.projectName else c.namespace,
      runOutputPath := if c.runOutputPath != "" then c.runOutputPath else c.outputPath,
      switches := c.switches.(adaptiveDelay := c.delayMsec == -1,
        moduleEnabled := c.switches.moduleEnabled || HELPER_MODULE_CLASS in c.enabledModules))
  {
    var p := if c.projectName != "" then c.projectName else c.namespace;
    var o := if c.runOutputPath != "" then c.runOutputPath else c.outputPath;
    var c1 := ProjectNameResolved(c);
    assert c1 == c.(projectName := p);
    var c2 := AdaptiveDelayResolved(c1);
    var sw := c.switches.(adaptiveDelay := c.delayMsec == -1);
    assert c2 == c.(projectName := p, switches := sw);
    var c3 := RunOutputPathResolved(c2);
    assert c3 == c.(projectName := p, switches := sw, runOutputPath := o);
    ModuleResolvedFields(c3);
  }

  /** Resolving twice is resolving once. */
  lemma {:induction false} ResolvedIdempotent(c: Config)
    ensures Resolved(Resolved(c)) == Resolved(c)
  {
    ResolvedFields(c);
    ResolvedFields(Resolved(c));
  }

  /** The status is 1 exactly when something was thrown, and 0 otherwise. */
  lemma ExitCodeCases(p: Prepared, run: Option<Exception>)
    ensures ExitCode(p, run) == 0 || ExitCode(p, run) == 1
    ensures ExitCode(p, run) == 1 <==> p.error.Some? || run.Some?
  {
  }
}
