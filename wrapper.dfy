/** The leaf wrappers: a TestWrapper runs one method of a cest, a CestWrapper runs a whole
    cest. A wrapper is a value; the tables in Cluster hold the live ones. */
module Wrapper {
  import opened Basics
  import opened Strings
  import TextHelper
  import NP = TestNameParts
  import TCR = TestCaseRecord
  import TR = TestRecord
  import JLP = JsonLogParser
  import Settings
  import Delayer

  /** The prompt the helper module prints before each test of a cest. */
  const ALLOW_TEST_START_PROMPT := "Paracestamol allows start? [Y]"

  /** A log file as the wrapper finds it after the process ended. */
  datatype LogFile<L> = NoFile | Unparsable | Parsed(log: L)

  /** What one poll of a process reports: whether it still runs, whether the idle timeout
      fired, its exit status, its output so far, the time of its last output (seconds) and
      its log files. */
  datatype ProcObs = ProcObs(
    running: bool,
    idleTimedOut: bool,
    successful: bool,
    output: string,
    errorOutput: string,
    incrementalOutput: string,
    lastOutputTime: int,
    xmlLog: LogFile<seq<TCR.Record>>,
    jsonLog: Option<JLP.JsonText>)

  /** A launched process: its argv, its idle timeout, the last poll and what was written to
      its standard input. */
  datatype Proc = Proc(cmd: seq<string>, idleTimeout: Option<int>, obs: ProcObs, stdin: seq<string>)

  /** A process that has just been started. */
  function StartedObs(): ProcObs {
    ProcObs(true, false, false, "", "", "", 0, NoFile, None)
  }

  /** The fields only a CestWrapper has. */
  datatype CestState = CestState(
    groupsRunString: string,
    passed: seq<TR.Record>,
    failed: seq<TR.Record>,
    failFast: Option<bool>,
    waiting: bool,
    parsedJson: Option<JLP.TestMap>)

  datatype Kind = TestKind | CestKind(cest: CestState)

  /** AbstractCodeceptWrapper's fields. `bomblet` marks the wrappers a cluster cest creates;
      `logStamp` stands for the random log file name. */
  datatype Leaf = Leaf(
    cestName: string,
    methodName: string,
    testName: string,
    bomblet: bool,
    logStamp: nat,
    kind: Kind,
    parsedXml: Option<seq<TCR.Record>>,
    startTime: Option<int>,
    expected: Option<int>,
    actual: Option<int>,
    timedOut: bool,
    proc: Option<Proc>,
    status: string)

  predicate IsCest(l: Leaf) { l.kind.CestKind? }

  /** The constructor's identity: the method name is lower-cased, the test name keeps the
      original case. */
  function NewLeaf(cestName: string, methodName: string, bomblet: bool, stamp: nat, kind: Kind): (l: Leaf)
    ensures l.testName == cestName + ":" + methodName && l.methodName == Lower(methodName)
  {
    Leaf(cestName, Lower(methodName), cestName + ":" + methodName, bomblet, stamp, kind,
      None, None, None, None, false, None, "")
  }

  function NewTest(cestName: string, methodName: string, bomblet: bool, stamp: nat): Leaf {
    NewLeaf(cestName, methodName, bomblet, stamp, TestKind)
  }

  /** determineName: the sorted common groups joined by ',', in parentheses. */
  function CommonGroups(actualGroups: seq<string>, expectedGroups: seq<string>): seq<string> {
    SortStrings(Filter(actualGroups, expectedGroups))
  }

  function Filter(s: seq<string>, keep: seq<string>): (r: seq<string>)
    ensures forall x :: x in r <==> x in s && x in keep
  {
    if s == [] then []
    else
      var rest := Filter(s[1..], keep);
      assert forall x :: x in s <==> x == s[0] || x in s[1..];
      if s[0] in keep then [s[0]] + rest else rest
  }

  function GroupsRunString(actualGroups: seq<string>, expectedGroups: Option<seq<string>>): string {
    match expectedGroups
    case None => ""
    case Some(e) => Join(",", CommonGroups(actualGroups, e))
  }

  function DetermineName(actualGroups: seq<string>, expectedGroups: Option<seq<string>>): string {
    if expectedGroups.None? then "()" else "(" + GroupsRunString(actualGroups, expectedGroups) + ")"
  }

  function NewCest(cestName: string, actualGroups: seq<string>, expectedGroups: Option<seq<string>>,
    bomblet: bool, stamp: nat): Leaf
  {
    NewLeaf(cestName, DetermineName(actualGroups, expectedGroups), bomblet, stamp,
      CestKind(CestState(GroupsRunString(actualGroups, expectedGroups), [], [], None, false, None)))
  }

  /** toString and hash. */
  function Hash(l: Leaf): string { l.testName }

  /** equals: `other` is the hash of the other object, None when it has no hash(). */
  function Equals(l: Leaf, other: Option<string>): bool {
    other.Some? && other.value == Hash(l)
  }

  /** reset: everything about the last run is forgotten; the expected duration is kept. */
  function Reset(l: Leaf): Leaf {
    var kind := match l.kind
      case TestKind => TestKind
      case CestKind(c) => CestKind(c.(passed := [], failed := [], waiting := false));
    l.(startTime := None, actual := None, timedOut := false, proc := None, status := "",
      parsedXml := None, kind := kind)
  }

  /** __clone: a new log file name, then reset. */
  function Clone(l: Leaf, stamp: nat): Leaf {
    Reset(l.(logStamp := stamp))
  }

  function LogName(l: Leaf): string {
    NatToString(l.logStamp) + (if IsCest(l) then ".json" else ".xml")
  }

  /** The options both wrappers put after the test selector. */
  function CommonOptions(l: Leaf, cfg: Settings.Config, logFlag: string): seq<string> {
    ["--config", cfg.codeceptionConfigPath, logFlag, LogName(l), "-o", "paths: output: " + cfg.runOutputPath,
     "--no-colors", "--no-interaction", "--no-rebuild"]
  }

  function EnvOption(cfg: Settings.Config): seq<string> {
    if cfg.env != [] then ["--env", Settings.EnvAsString(cfg)] else []
  }

  function OverrideOption(cfg: Settings.Config): seq<string> {
    if cfg.override != [] then ["-o", Settings.OverrideAsString(cfg)] else []
  }

  /** TestWrapper::getCmd: the filter selects the one method. */
  function TestCmd(l: Leaf, cfg: Settings.Config): seq<string> {
    ["php", cfg.codeceptionBinPath, "run", cfg.suite, l.cestName + ":^" + l.methodName + "$"]
      + CommonOptions(l, cfg, "--xml") + EnvOption(cfg) + OverrideOption(cfg)
  }

  /** isFailFast: a bomblet cest never fails fast; otherwise the explicit flag wins over the
      whole_cest_fail_fast setting. */
  function IsFailFast(l: Leaf, cfg: Settings.Config): bool {
    if l.bomblet then false
    else match l.kind
      case CestKind(c) => c.failFast.GetOr(cfg.switches.wholeCestFailFast)
      case TestKind => cfg.switches.wholeCestFailFast
  }

  function ModuleOption(cfg: Settings.Config): seq<string> {
    if cfg.switches.moduleEnabled then ["-o", "modules: config: " + cfg.moduleName + ": pause_before_test: true"] else []
  }

  /** CestWrapper::getCmd. */
  function CestCmd(l: Leaf, c: CestState, cfg: Settings.Config): seq<string> {
    ["php", cfg.codeceptionBinPath, "run", cfg.suite, l.cestName]
      + CommonOptions(l, cfg, "--json")
      + (if IsFailFast(l, cfg) then ["--fail-fast"] else [])
      + (if !IsEmptyText(c.groupsRunString) then ["-g", c.groupsRunString] else [])
      + EnvOption(cfg) + ModuleOption(cfg) + OverrideOption(cfg)
  }

  function GetCmd(l: Leaf, cfg: Settings.Config): seq<string> {
    match l.kind
    case TestKind => TestCmd(l, cfg)
    case CestKind(c) => CestCmd(l, c, cfg)
  }

  /** start: reset, launch the command (with the idle timeout unless it is -1), note the
      start time in whole seconds. */
  function Start(l: Leaf, cfg: Settings.Config, nowMs: nat): Leaf {
    var r := Reset(l);
    var timeout := if cfg.idleTimeoutSec != -1 then Some(cfg.idleTimeoutSec) else None;
    r.(proc := Some(Proc(GetCmd(r, cfg), timeout, StartedObs(), [])), startTime := Some(nowMs / 1000))
  }

  /** What a poll did: the wrapper afterwards, isRunning's answer, and the delayer's
      next-allowed time afterwards. */
  datatype Polled = Polled(leaf: Leaf, running: bool, delayNext: real)

  /** The abstract part of isRunning: a timeout, once seen, ends the run; a finished run
      reads its log. */
  function PollProcess(l: Leaf, obs: ProcObs): (r: (Leaf, bool))
    requires l.proc.Some?
  {
    var timedOut := l.timedOut || obs.idleTimedOut;
    var running := !timedOut && obs.running;
    var l1 := l.(timedOut := timedOut, proc := Some(l.proc.value.(obs := obs)));
    if running then (l1, true)
    else (ReadLog(l1, obs), false)
  }

  /** Reading the log of a finished run: a missing file changes nothing, an unreadable one
      leaves no parsed log. */
  function ReadLog(l: Leaf, obs: ProcObs): Leaf {
    match l.kind
    case TestKind =>
      (match obs.xmlLog
       case NoFile => l
       case Unparsable => l.(parsedXml := None)
       case Parsed(cases) => l.(parsedXml := Some(cases)))
    case CestKind(c) =>
      (match obs.jsonLog
       case None => l
       case Some(text) =>
         var parsed := match JLP.Parse(text) case Ok(m) => Some(m) case Throw(_) => None;
         l.(kind := CestKind(c.(parsedJson := parsed))))
  }

  /** The text the process printed last, as long as the prompt. */
  function PromptTail(output: string): string {
    if |output| <= |ALLOW_TEST_START_PROMPT| then output
    else output[|output| - |ALLOW_TEST_START_PROMPT|..]
  }

  /** allowTestStart: the handshake with the helper module. */
  function AllowTestStart(l: Leaf, c: CestState, cfg: Settings.Config, now: Delayer.Readings, delayNext: real): Polled
    requires l.proc.Some?
  {
    if !cfg.switches.moduleEnabled || cfg.delayMsec == 0 then Polled(l, true, delayNext)
    else if !c.waiting && PromptTail(l.proc.value.obs.incrementalOutput) != ALLOW_TEST_START_PROMPT then
      Polled(l, true, delayNext)
    else
      var d := Delayer.Step(delayNext, cfg.delaySeconds, now);
      if !d.allowed then Polled(l.(kind := CestKind(c.(waiting := true))), true, d.next)
      else
        var p := l.proc.value;
        Polled(l.(kind := CestKind(c.(waiting := false)), proc := Some(p.(stdin := p.stdin + ["Y\n"]))), true, d.next)
  }

  function PassedOf(records: seq<TR.Record>): (r: seq<TR.Record>)
    ensures |r| <= |records|
  {
    if records == [] then []
    else
      var last := records[|records| - 1];
      PassedOf(records[..|records| - 1]) + (if TR.IsPassed(last) then [last] else [])
  }

  function FailedOf(records: seq<TR.Record>): (r: seq<TR.Record>)
    ensures |r| <= |records|
  {
    if records == [] then []
    else
      var last := records[|records| - 1];
      FailedOf(records[..|records| - 1]) + (if TR.IsPassed(last) then [] else [last])
  }

  /** parseFailedTests: the parsed records go to the passed list when they passed and to
      the failed list otherwise; without a log nothing is recorded. */
  function ParseFailedTests(c: CestState): CestState {
    match c.parsedJson
    case None => c
    case Some(m) =>
      var records := Values(m);
      c.(passed := c.passed + PassedOf(records), failed := c.failed + FailedOf(records))
  }

  /** isRunning, for either kind of wrapper. */
  function Poll(l: Leaf, cfg: Settings.Config, obs: ProcObs, now: Delayer.Readings, delayNext: real): Polled {
    if l.proc.None? then
      (match l.kind
       case TestKind => Polled(l, false, delayNext)
       case CestKind(c) => Polled(l.(kind := CestKind(ParseFailedTests(c))), false, delayNext))
    else
      var (l1, running) := PollProcess(l, obs);
      match l1.kind
      case TestKind => Polled(l1, running, delayNext)
      case CestKind(c) =>
        if running then AllowTestStart(l1, c, cfg, now, delayNext)
        else Polled(l1.(kind := CestKind(ParseFailedTests(c))), false, delayNext)
  }

  /** The process's own exit status; a wrapper that was never started has none. */
  predicate ProcSucceeded(l: Leaf) {
    l.proc.Some? && l.proc.value.obs.successful
  }

  function IsSuccessful(l: Leaf): bool {
    match l.kind
    case TestKind =>
      l.parsedXml.Some? && l.parsedXml.value != [] && ProcSucceeded(l) && TCR.IsPassed(l.parsedXml.value[0])
    case CestKind(c) =>
      c.parsedJson.Some? && ProcSucceeded(l) && c.failed == []
  }

  function IsTimedOut(l: Leaf): bool { l.timedOut }

  function IsMarkedSkipped(l: Leaf): bool {
    match l.kind
    case TestKind => l.parsedXml.Some? && l.parsedXml.value != [] && TCR.IsSkipped(l.parsedXml.value[0])
    case CestKind(_) => false
  }

  function Output(l: Leaf): string {
    if l.proc.Some? then l.proc.value.obs.output else ""
  }

  function ErrorOutput(l: Leaf): string {
    if l.proc.Some? then l.proc.value.obs.errorOutput else ""
  }

  function HasPassedThisRun(l: Leaf): bool {
    match l.kind
    case TestKind => false
    case CestKind(c) => c.passed != []
  }

  /** getActualDuration: unknown before the start; then last output time minus start time,
      remembered from the first call on. */
  function ActualDuration(l: Leaf): (r: (Leaf, Option<int>)) {
    if l.actual.None? && l.startTime.Some? then
      var lastOutput := if l.proc.Some? then l.proc.value.obs.lastOutputTime else 0;
      var d := lastOutput - l.startTime.value;
      (l.(actual := Some(d)), Some(d))
    else (l, l.actual)
  }

  /** TestWrapper::getStatusDescription, before memoising: the first case's message, or the
      stripped error output. */
  function TestStatus(l: Leaf): string {
    if l.parsedXml.Some? && l.parsedXml.value != [] then l.parsedXml.value[0].message
    else TextHelper.Strip(ErrorOutput(l))
  }

  /** The non-empty per-method messages of the failed records, one line each. */
  function FailureLines(cestName: string, failed: seq<TR.Record>, plain: TR.Record -> string): (r: seq<string>)
    ensures |r| <= |failed|
  {
    if failed == [] then []
    else
      var message := plain(failed[0]);
      (if message == "" then [] else [cestName + ":" + TR.GetMethod(failed[0]) + ": " + message])
        + FailureLines(cestName, failed[1..], plain)
  }

  /** CestWrapper::getStatusDescription, before memoising: timeout, then a broken run, then
      the first failure of a fail-fast run, then every failure message. `plain` is the
      record's plain-text message. */
  function CestStatus(l: Leaf, c: CestState, cfg: Settings.Config, plain: TR.Record -> string): string {
    if IsTimedOut(l) then l.cestName + ": TIMEOUT"
    else if c.parsedJson.None? then l.cestName + ": BROKEN " + TextHelper.Strip(ErrorOutput(l))
    else if c.failed != [] && IsFailFast(l, cfg) then
      l.cestName + ":" + TR.GetMethod(c.failed[0]) + " (and following)" + ": " + plain(c.failed[0])
    else if c.failed != [] then Join("\n", FailureLines(l.cestName, c.failed, plain))
    else ""
  }

  /** getStatusDescription with its memo: a non-empty description is never recomputed. */
  function StatusDescription(l: Leaf, cfg: Settings.Config, plain: TR.Record -> string): (r: (Leaf, string)) {
    if l.status != "" then (l, l.status)
    else
      var s := match l.kind
        case TestKind => TestStatus(l)
        case CestKind(c) => CestStatus(l, c, cfg, plain);
      (l.(status := s), s)
  }

  /** PHP's dirname for a relative or absolute file path. */
  function Dirname(path: string): string {
    match LastIndexOf(path, '/')
    case None => "."
    case Some(0) => "/"
    case Some(i) => path[..i]
  }

  /** getMatch: the test itself, else its cest, else its directory. */
  function GetMatch(l: Leaf, np: NP.NameParts): Option<string> {
    if NP.MatchesTest(np, l.cestName, l.methodName) then Some(l.testName)
    else if NP.MatchesCest(np, l.cestName) then Some(l.cestName)
    else if NP.PathMatches(np, Dirname(l.cestName)) then Some(Dirname(l.cestName))
    else None
  }

  predicate Matches(l: Leaf, np: NP.NameParts) {
    GetMatch(l, np).Some?
  }

  // ---------------------------------------------------------------------------------
  // Loops of the source, proved against the functions above.

  /** parseFailedTests' loop over the parsed map. */
  method ParseFailedTestsLoop(c: CestState) returns (r: CestState)
    ensures r == ParseFailedTests(c)
  {
    if c.parsedJson.None? {
      return c;
    }
    var records := Values(c.parsedJson.value);
    var passed := c.passed;
    var failed := c.failed;
    var i := 0;
    while i < |records|
      invariant 0 <= i <= |records|
      invariant passed == c.passed + PassedOf(records[..i])
      invariant failed == c.failed + FailedOf(records[..i])
    {
      assert records[..i + 1][..i] == records[..i];
      if TR.IsPassed(records[i]) {
        passed := passed + [records[i]];
      } else {
        failed := failed + [records[i]];
      }
      i := i + 1;
    }
    assert records[..i] == records;
    r := c.(passed := passed, failed := failed);
  }

  /** The message loop of getStatusDescription. */
  method FailureLinesLoop(cestName: string, failed: seq<TR.Record>, plain: TR.Record -> string)
    returns (messages: seq<string>)
    ensures messages == FailureLines(cestName, failed, plain)
  {
    messages := [];
    var i := 0;
    while i < |failed|
      invariant 0 <= i <= |failed|
      invariant messages + FailureLines(cestName, failed[i..], plain) == FailureLines(cestName, failed, plain)
    {
      assert failed[i..][1..] == failed[i + 1..];
      var message := plain(failed[i]);
      if message != "" {
        messages := messages + [cestName + ":" + TR.GetMethod(failed[i]) + ": " + message];
      }
      i := i + 1;
    }
  }

  // ---------------------------------------------------------------------------------
  // Properties.

  /** Identity keeps the method's case; the stored method name is lower-case. */
  lemma IdentityKeepsCase(cestName: string, methodName: string, stamp: nat)
    ensures var l := NewTest(cestName, methodName, false, stamp);
      Hash(l) == cestName + ":" + methodName && l.methodName == Lower(methodName)
      && Lower(l.methodName) == l.methodName
    ensures Equals(NewTest(cestName, methodName, false, stamp), Some(cestName + ":" + methodName))
    ensures !Equals(NewTest(cestName, methodName, false, stamp), None)
  {
    LowerIdempotent(methodName);
  }

  /** A cest run without expected groups is named "()"; otherwise after the sorted common
      groups, which are also the `-g` argument. */
  lemma CestName(actualGroups: seq<string>, expectedGroups: Option<seq<string>>)
    ensures expectedGroups.None? ==> DetermineName(actualGroups, expectedGroups) == "()"
    ensures expectedGroups.Some? ==>
      var common := CommonGroups(actualGroups, expectedGroups.value);
      DetermineName(actualGroups, expectedGroups) == "(" + Join(",", common) + ")"
      && SortedStrings(common)
      && (forall g :: g in common <==> g in actualGroups && g in expectedGroups.value)
  {
    if expectedGroups.Some? {
      var e := expectedGroups.value;
      var f := Filter(actualGroups, e);
      var common := CommonGroups(actualGroups, e);
      forall g ensures g in common <==> g in f {
        assert g in common <==> g in multiset(common);
        assert g in f <==> g in multiset(f);
      }
    }
  }

  /** TestWrapper's argv: the fixed head with the "cest:^method$" filter, the fixed options,
      then `--env` and `-o` pairs only for a non-empty env and override. */
  lemma TestCmdShape(l: Leaf, cfg: Settings.Config)
    ensures var cmd := TestCmd(l, cfg);
      cmd[..5] == ["php", cfg.codeceptionBinPath, "run", cfg.suite, l.cestName + ":^" + l.methodName + "$"]
      && |cmd| == 14 + (if cfg.env != [] then 2 else 0) + (if cfg.override != [] then 2 else 0)
      && (cfg.env != [] ==> cmd[14..16] == ["--env", Settings.EnvAsString(cfg)])
      && (cfg.override != [] ==> cmd[|cmd| - 2..] == ["-o", Settings.OverrideAsString(cfg)])
      && (cfg.env == [] && cfg.override == [] ==> |cmd| == 14)
  {
  }

  /** CestWrapper's argv: `--fail-fast` comes first among the optional parts exactly when the
      wrapper fails fast; the group, env, module and override parts are pairs present exactly
      when their setting is set. */
  lemma CestCmdShape(l: Leaf, c: CestState, cfg: Settings.Config)
    ensures var cmd := CestCmd(l, c, cfg);
      cmd[..5] == ["php", cfg.codeceptionBinPath, "run", cfg.suite, l.cestName]
      && |cmd| == 14 + (if IsFailFast(l, cfg) then 1 else 0)
        + (if !IsEmptyText(c.groupsRunString) then 2 else 0) + (if cfg.env != [] then 2 else 0)
        + (if cfg.switches.moduleEnabled then 2 else 0) + (if cfg.override != [] then 2 else 0)
      && (IsFailFast(l, cfg) <==> |cmd| > 14 && cmd[14] == "--fail-fast")
      && (cfg.override != [] ==> cmd[|cmd| - 2..] == ["-o", Settings.OverrideAsString(cfg)])
  {
  }

  /** A bomblet never fails fast; otherwise an explicit flag wins over the setting. */
  lemma FailFastRule(l: Leaf, cfg: Settings.Config)
    requires IsCest(l)
    ensures l.bomblet ==> !IsFailFast(l, cfg)
    ensures !l.bomblet && l.kind.cest.failFast.Some? ==> IsFailFast(l, cfg) == l.kind.cest.failFast.value
    ensures !l.bomblet && l.kind.cest.failFast.None? ==> IsFailFast(l, cfg) == cfg.switches.wholeCestFailFast
  {
  }

  /** A wrapper that was never started is not running, and polling it changes nothing but
      the (empty) record lists of a cest. */
  lemma PollNeverStarted(l: Leaf, cfg: Settings.Config, obs: ProcObs, now: Delayer.Readings, dn: real)
    requires l.proc.None? && (IsCest(l) ==> l.kind.cest.parsedJson.None?)
    ensures Poll(l, cfg, obs, now, dn) == Polled(l, false, dn)
  {
  }

  /** A timeout is sticky: once seen, every poll reports not running and keeps the flag,
      until the next start resets it. */
  lemma TimeoutSticky(l: Leaf, cfg: Settings.Config, obs: ProcObs, now: Delayer.Readings, dn: real, nowMs: nat)
    requires l.proc.Some? && l.timedOut
    ensures var p := Poll(l, cfg, obs, now, dn); !p.running && p.leaf.timedOut
    ensures !Start(l, cfg, nowMs).timedOut
  {
  }

  /** A poll that sees the idle timeout ends the run. */
  lemma TimeoutStopsRun(l: Leaf, cfg: Settings.Config, obs: ProcObs, now: Delayer.Readings, dn: real)
    requires l.proc.Some? && obs.idleTimedOut
    ensures var p := Poll(l, cfg, obs, now, dn); !p.running && IsTimedOut(p.leaf)
  {
  }

  /** The start prompt is answered only with the helper module on, a non-zero delay, the
      prompt seen (or an earlier refusal pending) and the delayer's consent; a refusal makes
      the wrapper wait, so the prompt is not looked for again. */
  lemma Handshake(l: Leaf, c: CestState, cfg: Settings.Config, now: Delayer.Readings, dn: real)
    requires l.proc.Some?
    ensures var p := AllowTestStart(l, c, cfg, now, dn);
      var asked := cfg.switches.moduleEnabled && cfg.delayMsec != 0
        && (c.waiting || PromptTail(l.proc.value.obs.incrementalOutput) == ALLOW_TEST_START_PROMPT);
      var d := Delayer.Step(dn, cfg.delaySeconds, now);
      p.running
      && (!asked ==> p.leaf == l && p.delayNext == dn)
      && (asked && d.allowed ==> p.leaf.proc.value.stdin == l.proc.value.stdin + ["Y\n"] && !p.leaf.kind.cest.waiting)
      && (asked && !d.allowed ==> p.leaf.proc == l.proc && p.leaf.kind.cest.waiting)
      && (asked ==> p.delayNext == d.next)
  {
  }

  lemma {:induction false} PassedFailedSplit(records: seq<TR.Record>)
    ensures multiset(PassedOf(records)) + multiset(FailedOf(records)) == multiset(records)
    ensures forall r :: r in PassedOf(records) ==> TR.IsPassed(r)
    ensures forall r :: r in FailedOf(records) ==> !TR.IsPassed(r)
  {
    if records != [] {
      var init := records[..|records| - 1];
      var last := records[|records| - 1];
      PassedFailedSplit(init);
      assert records == init + [last];
      assert multiset(records) == multiset(init) + multiset{last};
      if TR.IsPassed(last) {
        assert PassedOf(records) == PassedOf(init) + [last];
        assert FailedOf(records) == FailedOf(init);
      } else {
        assert PassedOf(records) == PassedOf(init);
        assert FailedOf(records) == FailedOf(init) + [last];
      }
    }
  }

  /** parseFailedTests adds every parsed record to exactly one list, passed records to the
      passed one; skipped records count as failed. */
  lemma ParseFailedTestsSplits(c: CestState)
    requires c.parsedJson.Some? && ValidMap(c.parsedJson.value)
    ensures var r := ParseFailedTests(c); var records := Values(c.parsedJson.value);
      r.passed[..|c.passed|] == c.passed && r.failed[..|c.failed|] == c.failed
      && multiset(r.passed[|c.passed|..]) + multiset(r.failed[|c.failed|..]) == multiset(records)
      && (forall x :: x in r.passed[|c.passed|..] ==> TR.IsPassed(x))
      && (forall x :: x in r.failed[|c.failed|..] ==> !TR.IsPassed(x))
  {
    var records := Values(c.parsedJson.value);
    PassedFailedSplit(records);
    var r := ParseFailedTests(c);
    assert r.passed[|c.passed|..] == PassedOf(records);
    assert r.failed[|c.failed|..] == FailedOf(records);
  }

  /** A poll keeps what kind of wrapper it is and its identity. */
  lemma PollKeepsKind(l: Leaf, cfg: Settings.Config, obs: ProcObs, now: Delayer.Readings, dn: real)
    ensures var p := Poll(l, cfg, obs, now, dn).leaf;
      IsCest(p) == IsCest(l) && p.cestName == l.cestName && Hash(p) == Hash(l) && p.expected == l.expected
  {
  }

  /** A cest succeeded iff it has a log, its process succeeded and nothing failed; a test
      iff it has a log whose first case passed and its process succeeded. */
  lemma SuccessRules(l: Leaf)
    ensures IsCest(l) ==> (IsSuccessful(l) <==>
      l.kind.cest.parsedJson.Some? && ProcSucceeded(l) && l.kind.cest.failed == [])
    ensures !IsCest(l) ==> (IsSuccessful(l) <==>
      l.parsedXml.Some? && |l.parsedXml.value| >= 1 && ProcSucceeded(l) && l.parsedXml.value[0].status == TCR.STATUS_PASS)
    ensures !IsCest(l) ==> (IsMarkedSkipped(l) <==>
      l.parsedXml.Some? && |l.parsedXml.value| >= 1 && l.parsedXml.value[0].status == TCR.STATUS_SKIPPED)
    ensures IsCest(l) ==> !IsMarkedSkipped(l)
  {
  }

  /** The actual duration is unknown before a start, then fixed by the first read. */
  lemma ActualDurationMemo(l: Leaf, cfg: Settings.Config, nowMs: nat)
    ensures l.startTime.None? && l.actual.None? ==> ActualDuration(l).1.None?
    ensures var s := Start(l, cfg, nowMs); var (s1, d) := ActualDuration(s);
      d == Some(0 - nowMs / 1000) && ActualDuration(s1) == (s1, d)
    ensures var (l1, d) := ActualDuration(l); ActualDuration(l1) == (l1, d)
  {
  }

  /** The cest's description: a timeout wins, then a broken run, then the first failure when
      failing fast, then all non-empty failure messages; a memoised one is kept. */
  lemma CestStatusPriority(l: Leaf, cfg: Settings.Config, plain: TR.Record -> string)
    requires IsCest(l) && l.status == ""
    ensures var c := l.kind.cest; var s := StatusDescription(l, cfg, plain).1;
      (IsTimedOut(l) ==> s == l.cestName + ": TIMEOUT")
      && (!IsTimedOut(l) && c.parsedJson.None? ==> s == l.cestName + ": BROKEN " + TextHelper.Strip(ErrorOutput(l)))
      && (!IsTimedOut(l) && c.parsedJson.Some? && c.failed != [] && IsFailFast(l, cfg) ==>
           s == l.cestName + ":" + TR.GetMethod(c.failed[0]) + " (and following): " + plain(c.failed[0]))
      && (!IsTimedOut(l) && c.parsedJson.Some? && c.failed == [] ==> s == "")
      && StatusDescription(l, cfg, plain).0.status == s
  {
  }

  lemma StatusMemo(l: Leaf, cfg: Settings.Config, plain: TR.Record -> string)
    requires l.status != ""
    ensures StatusDescription(l, cfg, plain) == (l, l.status)
  {
  }

  /** A test's description is its first case's message when there is one, otherwise the
      stripped error output. */
  lemma TestStatusRule(l: Leaf, cfg: Settings.Config, plain: TR.Record -> string)
    requires !IsCest(l) && l.status == ""
    ensures var s := StatusDescription(l, cfg, plain).1;
      (l.parsedXml.Some? && |l.parsedXml.value| >= 1 ==> s == l.parsedXml.value[0].message)
      && (l.parsedXml.None? ==> s == TextHelper.Strip(ErrorOutput(l)))
  {
  }

  /** The match is the test's own name for a test match, else the cest name for a cest
      match, else the directory for a path match; a wrapper matches iff there is a match. */
  lemma MatchPriority(l: Leaf, np: NP.NameParts)
    ensures NP.MatchesTest(np, l.cestName, l.methodName) ==> GetMatch(l, np) == Some(Hash(l))
    ensures !NP.MatchesTest(np, l.cestName, l.methodName) && l.cestName in np.cests ==> GetMatch(l, np) == Some(l.cestName)
    ensures Matches(l, np) <==> (NP.MatchesTest(np, l.cestName, l.methodName) || l.cestName in np.cests
      || NP.PathMatches(np, Dirname(l.cestName)))
  {
  }

  /** reset forgets the run but keeps the identity and the expected duration; a clone is
      reset the same way and has the same identity. */
  lemma ResetAndClone(l: Leaf, stamp: nat)
    ensures var r := Reset(l);
      r.startTime.None? && r.actual.None? && !r.timedOut && r.proc.None? && r.status == "" && r.parsedXml.None?
      && r.expected == l.expected && Hash(r) == Hash(l) && r.cestName == l.cestName
      && (IsCest(l) ==> IsCest(r) && r.kind.cest.passed == [] && r.kind.cest.failed == [] && !r.kind.cest.waiting)
    ensures var c := Clone(l, stamp);
      Hash(c) == Hash(l) && c.logStamp == stamp && c.expected == l.expected && c.proc.None?
  {
  }
}
