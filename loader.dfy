/** Loader: turns the parser's description of the cest files into the queue of units to run,
    applying the skip, immune, only-tests and group filters and choosing, per cest, whether
    it runs method by method, as a whole cest or as a cluster cest. */
module Loader {
  import opened Basics
  import opened Strings
  import NP = TestNameParts
  import W = Wrapper
  import U = Units
  import Settings

  /** One test method as the parser reports it, with its own groups. */
  datatype MethodData = MethodData(methodName: string, groups: seq<string>)

  /** One cest file as the parser reports it: whether parsing it failed, its class-level
      groups and, for each test class in it, the methods of that class. */
  datatype CestData = CestData(cestName: string, hasError: bool, groups: seq<string>, tests: seq<seq<MethodData>>)

  /** A loaded unit: a single test, a whole cest or a cluster cest. */
  datatype Unit = Single(leaf: W.Leaf) | WholeCest(leaf: W.Leaf) | ClusterCest(cluster: U.Cluster)

  datatype WrapperKind = PerMethod | Whole | Cluster

  function KindOf(u: Unit): WrapperKind {
    match u
    case Single(_) => PerMethod
    case WholeCest(_) => Whole
    case ClusterCest(_) => Cluster
  }

  function CestOf(u: Unit): string {
    match u
    case Single(l) => l.cestName
    case WholeCest(l) => l.cestName
    case ClusterCest(c) => c.cest.cestName
  }

  /** `matches`: a cluster cest answers for its inner cest. */
  predicate UnitMatches(u: Unit, np: NP.NameParts) {
    match u
    case Single(l) => W.Matches(l, np)
    case WholeCest(l) => W.Matches(l, np)
    case ClusterCest(c) => W.Matches(c.cest, np)
  }

  /** The six name lists the loader keeps. */
  datatype Filters = Filters(
    onlyTests: NP.NameParts,
    skipTests: NP.NameParts,
    immuneTests: NP.NameParts,
    dividableCests: NP.NameParts,
    notDividableCestsWhole: NP.NameParts,
    notDividableCestsOnlyFailed: NP.NameParts)

  const NoNames := NP.Classify([])

  const NoFilters := Filters(NoNames, NoNames, NoNames, NoNames, NoNames, NoNames)

  /** `Ds\Set::union`: the elements of `a`, then those of `b` not in `a`. */
  function Union(a: seq<string>, b: seq<string>): (r: seq<string>)
    ensures forall x :: x in r <==> x in a || x in b
  {
    Dedup(a + b)
  }

  // ---------------------------------------------------------------------------------
  // Setup.

  /** The cest part of a configured test name: up to and including ".php". Without ".php:"
      `strpos` gives false, which counts as 0, so the first four characters are taken. */
  function CestPrefix(testName: string): string {
    match IndexOf(testName, ".php:")
    case Some(p) => testName[..p + 4]
    case None => testName[..Min(4, |testName|)]
  }

  /** For a name with ".php:", the prefix is the cest file name the test lives in: it ends
      with ".php" and the name continues with ':'. */
  lemma CestPrefixRule(testName: string)
    requires Contains(testName, ".php:")
    ensures var c := CestPrefix(testName);
      EndsWith(c, ".php") && |c| < |testName| && testName[..|c|] == c && testName[|c|] == ':'
  {
    var p := IndexOf(testName, ".php:").value;
    assert IsAt(testName, ".php:", p);
    var c := testName[..p + 4];
    assert CestPrefix(testName) == c;
    var w := testName[p..p + 5];
    assert w == ".php:";
    assert c[p..] == w[..4];
    assert testName[p + 4] == w[4];
  }

  /** markCestsAsDividable: the cests of the named tests become dividable, unless the
      wrapper setting already divides everything or no test is named. */
  function MarkCests(dividable: NP.NameParts, nameParts: NP.NameParts, cestWrapper: string): NP.NameParts {
    if cestWrapper == Settings.CEST_WRAPPER_TESTS || nameParts.tests == {} then dividable
    else dividable.(cests := dividable.cests + set t | t in nameParts.tests :: CestPrefix(t))
  }

  /** getTests' setup: each list is replaced only when its setting is non-empty; only-tests
      and immune-tests mark their tests' cests as dividable. */
  function Setup(f: Filters, cfg: Settings.Config): Filters {
    SetupSelection(SetupWrappers(f, cfg), cfg)
  }

  /** The lists that choose the wrapper. */
  function SetupWrappers(f: Filters, cfg: Settings.Config): Filters {
    var f1 := if cfg.dividable != [] then f.(dividableCests := NP.Classify(cfg.dividable)) else f;
    var f2 := if cfg.notDividableRerunWhole != [] then f1.(notDividableCestsWhole := NP.Classify(cfg.notDividableRerunWhole)) else f1;
    if cfg.notDividableRerunFailed != [] then f2.(notDividableCestsOnlyFailed := NP.Classify(cfg.notDividableRerunFailed)) else f2
  }

  /** The lists that select tests. */
  function SetupSelection(f: Filters, cfg: Settings.Config): Filters {
    var f4 := if cfg.onlyTests != [] then
        var o := NP.Classify(cfg.onlyTests);
        f.(onlyTests := o, dividableCests := MarkCests(f.dividableCests, o, cfg.cestWrapper))
      else f;
    var f5 := if cfg.skipTests != [] then f4.(skipTests := NP.Classify(cfg.skipTests)) else f4;
    if cfg.immuneTests != [] then
      var i := NP.Classify(cfg.immuneTests);
      f5.(immuneTests := i, dividableCests := MarkCests(f5.dividableCests, i, cfg.cestWrapper))
    else f5
  }

  /** After the setup the skip, immune and only-tests lists are exactly the configured ones
      when configured, and a wrapper setting of 'tests' leaves the dividable cests as the
      dividable setting made them. */
  lemma SetupRule(f: Filters, cfg: Settings.Config)
    ensures var g := Setup(f, cfg);
      (cfg.onlyTests != [] ==> g.onlyTests == NP.Classify(cfg.onlyTests))
      && (cfg.onlyTests == [] ==> g.onlyTests == f.onlyTests)
      && (cfg.skipTests != [] ==> g.skipTests == NP.Classify(cfg.skipTests))
      && (cfg.skipTests == [] ==> g.skipTests == f.skipTests)
      && (cfg.immuneTests != [] ==> g.immuneTests == NP.Classify(cfg.immuneTests))
      && (cfg.immuneTests == [] ==> g.immuneTests == f.immuneTests)
      && (cfg.cestWrapper == Settings.CEST_WRAPPER_TESTS ==>
            g.dividableCests == (if cfg.dividable != [] then NP.Classify(cfg.dividable) else f.dividableCests))
  {
  }

  // ---------------------------------------------------------------------------------
  // Filtering and wrapping.

  /** notInExpectedGroups: groups were asked for and the unit has none of them. */
  function NotInExpectedGroups(actualGroups: seq<string>, expectedGroups: seq<string>): (r: bool)
    ensures r <==> expectedGroups != [] && forall g :: g in actualGroups ==> g !in expectedGroups
  {
    expectedGroups != [] && Filter(actualGroups, expectedGroups) == []
  }

  function Filter(s: seq<string>, keep: seq<string>): (r: seq<string>)
    ensures r == [] <==> forall g :: g in s ==> g !in keep
  {
    var r := W.Filter(s, keep);
    assert r != [] ==> r[0] in r;
    r
  }

  predicate ImmuneCest(f: Filters, path: string, cestName: string) {
    NP.PathMatches(f.immuneTests, path) || NP.MatchesCest(f.immuneTests, cestName)
  }

  /** loadCests' first check: a cest in skip-tests (by name or path) is dropped unless it is
      immune (by path or name); a cest that failed to parse or has no tests is dropped too. */
  predicate Dropped(f: Filters, c: CestData) {
    var path := W.Dirname(c.cestName);
    ((NP.MatchesCest(f.skipTests, c.cestName) || NP.PathMatches(f.skipTests, path)) && !ImmuneCest(f, path, c.cestName))
    || c.hasError || c.tests == []
  }

  /** loadTests' choice of wrapper: the dividable, not-dividable-whole and
      not-dividable-failed lists, in this order, else the cest_wrapper setting. */
  function Choice(f: Filters, cfg: Settings.Config, cestName: string): WrapperKind
  {
    var path := W.Dirname(cestName);
    if NP.MatchesCest(f.dividableCests, cestName) || NP.PathMatches(f.dividableCests, path) then PerMethod
    else if NP.MatchesCest(f.notDividableCestsWhole, cestName) || NP.PathMatches(f.notDividableCestsWhole, path) then Whole
    else if NP.MatchesCest(f.notDividableCestsOnlyFailed, cestName) || NP.PathMatches(f.notDividableCestsOnlyFailed, path) then Cluster
    else if cfg.cestWrapper == Settings.CEST_WRAPPER_TESTS then PerMethod
    else if cfg.cestWrapper == Settings.CEST_WRAPPER_RERUN_WHOLE then Whole
    else Cluster
  }

  /** The choice as conditions: per method iff a dividable list names the cest, or no list
      does and the setting is 'tests'; whole iff not dividable and the whole list names it,
      or no list does and the setting is 'cest_rerun_whole'; cluster otherwise. */
  lemma ChoiceRule(f: Filters, cfg: Settings.Config, cestName: string)
    ensures var r := Choice(f, cfg, cestName);
      var path := W.Dirname(cestName);
      var dividable := NP.MatchesCest(f.dividableCests, cestName) || NP.PathMatches(f.dividableCests, path);
      var whole := NP.MatchesCest(f.notDividableCestsWhole, cestName) || NP.PathMatches(f.notDividableCestsWhole, path);
      var failed := NP.MatchesCest(f.notDividableCestsOnlyFailed, cestName) || NP.PathMatches(f.notDividableCestsOnlyFailed, path);
      var listed := dividable || whole || failed;
      (r == PerMethod <==> dividable || (!listed && cfg.cestWrapper == Settings.CEST_WRAPPER_TESTS))
      && (r == Whole <==> !dividable && (whole || (!listed && cfg.cestWrapper == Settings.CEST_WRAPPER_RERUN_WHOLE)))
      && (r == Cluster <==> (!dividable && !whole
            && (failed || (!listed && cfg.cestWrapper != Settings.CEST_WRAPPER_TESTS
                                   && cfg.cestWrapper != Settings.CEST_WRAPPER_RERUN_WHOLE))))
  {
  }

  /** wrapTest: a test is dropped when skip-tests names it or it is outside the expected
      groups, unless immune-tests names its path, its cest or the test itself. */
  function WrapTest(f: Filters, expectedGroups: seq<string>, cestName: string, m: MethodData,
                    cestGroups: seq<string>): Option<Unit>
  {
    var path := W.Dirname(cestName);
    var testName := cestName + ":" + m.methodName;
    var actualGroups := Union(cestGroups, Dedup(m.groups));
    var immune := ImmuneCest(f, path, cestName) || NP.MatchesTest(f.immuneTests, testName, "");
    if NP.MatchesTest(f.skipTests, testName, "") && !immune then None
    else if NotInExpectedGroups(actualGroups, expectedGroups) && !immune then None
    else Some(Single(W.NewTest(cestName, m.methodName, false, 0)))
  }

  lemma WrapTestRule(f: Filters, expectedGroups: seq<string>, cestName: string, m: MethodData, cestGroups: seq<string>)
    ensures var r := WrapTest(f, expectedGroups, cestName, m, cestGroups);
      var testName := cestName + ":" + m.methodName;
      var immune := ImmuneCest(f, W.Dirname(cestName), cestName) || NP.MatchesTest(f.immuneTests, testName, "");
      var outside := expectedGroups != [] && forall g :: g in cestGroups + m.groups ==> g !in expectedGroups;
      (r.None? <==> (NP.MatchesTest(f.skipTests, testName, "") || outside) && !immune)
      && (r.Some? ==> r.value.Single? && r.value.leaf.testName == testName
                      && r.value.leaf.methodName == Lower(m.methodName) && CestOf(r.value) == cestName)
  {
  }

  /** The groups of a cest's methods, as one set in first-seen order. */
  function MethodGroups(methods: seq<MethodData>): seq<string> {
    if methods == [] then [] else MethodGroups(methods[..|methods| - 1]) + methods[|methods| - 1].groups
  }

  /** A whole or cluster cest's groups: the cest's own, then all its methods' groups. */
  function CestGroups(cestGroups: seq<string>, methods: seq<MethodData>): seq<string> {
    Union(cestGroups, Dedup(MethodGroups(methods)))
  }

  lemma {:induction false} MethodGroupsMembers(methods: seq<MethodData>)
    ensures forall g :: g in MethodGroups(methods) <==> exists m :: m in methods && g in m.groups
  {
    if methods != [] {
      var init := methods[..|methods| - 1];
      MethodGroupsMembers(init);
      assert methods == init + [methods[|methods| - 1]];
    }
  }

  /** wrapWholeCest and wrapClusterCest: a cest is dropped when it is outside the expected
      groups (its own and all its methods' groups), unless immune-tests names its path or
      itself. */
  function WrapCest(kind: WrapperKind, f: Filters, expectedGroups: seq<string>, cestName: string,
                    actualGroups: seq<string>): Option<Unit>
  {
    if NotInExpectedGroups(actualGroups, expectedGroups) && !ImmuneCest(f, W.Dirname(cestName), cestName) then None
    else if kind == Whole then Some(WholeCest(W.NewCest(cestName, actualGroups, Some(expectedGroups), false, 0)))
    else Some(ClusterCest(U.NewCluster(cestName, actualGroups, Some(expectedGroups), 0)))
  }

  lemma WrapCestRule(kind: WrapperKind, f: Filters, expectedGroups: seq<string>, cestName: string,
                     methods: seq<MethodData>, cestGroups: seq<string>)
    requires kind != PerMethod
    ensures var r := WrapCest(kind, f, expectedGroups, cestName, CestGroups(cestGroups, methods));
      var outside := expectedGroups != [] && (forall g :: g in cestGroups ==> g !in expectedGroups)
        && forall m, g :: m in methods && g in m.groups ==> g !in expectedGroups;
      (r.None? <==> outside && !ImmuneCest(f, W.Dirname(cestName), cestName))
      && (r.Some? ==> KindOf(r.value) == kind && CestOf(r.value) == cestName)
  {
    MethodGroupsMembers(methods);
  }

  function Optional(o: Option<Unit>): seq<Unit> {
    if o.Some? then [o.value] else []
  }

  /** wrapTests: every method of a test class through wrapTest, in order. */
  function WrapTests(f: Filters, expectedGroups: seq<string>, cestName: string, methods: seq<MethodData>,
                     cestGroups: seq<string>): seq<Unit>
  {
    if methods == [] then []
    else
      WrapTests(f, expectedGroups, cestName, methods[..|methods| - 1], cestGroups)
        + Optional(WrapTest(f, expectedGroups, cestName, methods[|methods| - 1], cestGroups))
  }

  /** The units of one test class, wrapped as the choice for its cest says. */
  function ClassUnits(f: Filters, cfg: Settings.Config, c: CestData, methods: seq<MethodData>): seq<Unit> {
    var expected := Settings.Groups(cfg);
    var cestGroups := Dedup(c.groups);
    match Choice(f, cfg, c.cestName)
    case PerMethod => WrapTests(f, expected, c.cestName, methods, cestGroups)
    case Whole => Optional(WrapCest(Whole, f, expected, c.cestName, CestGroups(cestGroups, methods)))
    case Cluster => Optional(WrapCest(Cluster, f, expected, c.cestName, CestGroups(cestGroups, methods)))
  }

  /** loadTests: each test class of the cest in turn. */
  function LoadTests(f: Filters, cfg: Settings.Config, c: CestData, classes: seq<seq<MethodData>>): seq<Unit> {
    if classes == [] then []
    else LoadTests(f, cfg, c, classes[..|classes| - 1]) + ClassUnits(f, cfg, c, classes[|classes| - 1])
  }

  function CestUnits(f: Filters, cfg: Settings.Config, c: CestData): seq<Unit> {
    if Dropped(f, c) then [] else LoadTests(f, cfg, c, c.tests)
  }

  /** loadCests: every cest in the parser's order. */
  function LoadCests(f: Filters, cfg: Settings.Config, cests: seq<CestData>): seq<Unit> {
    if cests == [] then []
    else LoadCests(f, cfg, cests[..|cests| - 1]) + CestUnits(f, cfg, cests[|cests| - 1])
  }

  /** filterByOnlyTests: with only-tests configured, the units matching only-tests or
      immune-tests, in order. */
  function FilterByOnlyTests(f: Filters, units: seq<Unit>): seq<Unit> {
    if NP.IsEmpty(f.onlyTests) then units else Kept(f, units)
  }

  function Kept(f: Filters, units: seq<Unit>): seq<Unit> {
    if units == [] then []
    else
      var u := units[|units| - 1];
      Kept(f, units[..|units| - 1]) + (if UnitMatches(u, f.onlyTests) || UnitMatches(u, f.immuneTests) then [u] else [])
  }

  /** getTests: the setup, then nothing when the parser found no cest, else the loaded units
      filtered by only-tests. */
  function GetTestsSpec(f: Filters, cfg: Settings.Config, parsed: seq<CestData>): seq<Unit> {
    var g := Setup(f, cfg);
    if parsed == [] then [] else FilterByOnlyTests(g, LoadCests(g, cfg, parsed))
  }

  // ---------------------------------------------------------------------------------
  // What the loaded queue holds.

  /** Every unit of a test class belongs to its cest and has the kind the choice made. */
  lemma {:induction false} ClassUnitsRule(f: Filters, cfg: Settings.Config, c: CestData, methods: seq<MethodData>)
    ensures forall u :: u in ClassUnits(f, cfg, c, methods) ==> CestOf(u) == c.cestName && KindOf(u) == Choice(f, cfg, c.cestName)
  {
    var expected := Settings.Groups(cfg);
    var cestGroups := Dedup(c.groups);
    match Choice(f, cfg, c.cestName)
    case PerMethod => WrapTestsRule(f, expected, c.cestName, methods, cestGroups);
    case Whole => WrapCestRule(Whole, f, expected, c.cestName, methods, cestGroups);
    case Cluster => WrapCestRule(Cluster, f, expected, c.cestName, methods, cestGroups);
  }

  lemma {:induction false} WrapTestsRule(f: Filters, expectedGroups: seq<string>, cestName: string,
                                         methods: seq<MethodData>, cestGroups: seq<string>)
    ensures forall u :: u in WrapTests(f, expectedGroups, cestName, methods, cestGroups) ==> u.Single? && CestOf(u) == cestName
    ensures |WrapTests(f, expectedGroups, cestName, methods, cestGroups)| <= |methods|
  {
    if methods != [] {
      WrapTestsRule(f, expectedGroups, cestName, methods[..|methods| - 1], cestGroups);
      WrapTestRule(f, expectedGroups, cestName, methods[|methods| - 1], cestGroups);
    }
  }

  lemma {:induction false} LoadTestsRule(f: Filters, cfg: Settings.Config, c: CestData, classes: seq<seq<MethodData>>)
    ensures forall u :: u in LoadTests(f, cfg, c, classes) ==> CestOf(u) == c.cestName && KindOf(u) == Choice(f, cfg, c.cestName)
  {
    if classes != [] {
      LoadTestsRule(f, cfg, c, classes[..|classes| - 1]);
      ClassUnitsRule(f, cfg, c, classes[|classes| - 1]);
    }
  }

  /** Every loaded unit comes from a cest that was not dropped and is wrapped as the choice
      for that cest says; a dropped cest contributes nothing. */
  lemma {:induction false} LoadCestsRule(f: Filters, cfg: Settings.Config, cests: seq<CestData>)
    ensures forall u :: u in LoadCests(f, cfg, cests) ==>
      exists c :: c in cests && !Dropped(f, c) && CestOf(u) == c.cestName && KindOf(u) == Choice(f, cfg, c.cestName)
  {
    if cests != [] {
      var init, c := cests[..|cests| - 1], cests[|cests| - 1];
      LoadCestsRule(f, cfg, init);
      if !Dropped(f, c) {
        LoadTestsRule(f, cfg, c, c.tests);
      }
      forall u | u in LoadCests(f, cfg, cests)
        ensures exists d :: d in cests && !Dropped(f, d) && CestOf(u) == d.cestName && KindOf(u) == Choice(f, cfg, d.cestName)
      {
        if u in LoadCests(f, cfg, init) {
          var d :| d in init && !Dropped(f, d) && CestOf(u) == d.cestName && KindOf(u) == Choice(f, cfg, d.cestName);
          assert d in cests;
        } else {
          assert c in cests;
        }
      }
    }
  }

  /** filterByOnlyTests is the identity without only-tests; otherwise it keeps exactly the
      units matching only-tests or immune-tests, in their order. */
  lemma {:induction false} KeptRule(f: Filters, units: seq<Unit>)
    ensures var r := Kept(f, units);
      |r| <= |units| && forall u :: u in r <==> u in units && (UnitMatches(u, f.onlyTests) || UnitMatches(u, f.immuneTests))
  {
    if units != [] {
      var init := units[..|units| - 1];
      KeptRule(f, init);
      assert units == init + [units[|units| - 1]];
    }
  }

  lemma FilterByOnlyTestsRule(f: Filters, units: seq<Unit>)
    ensures NP.IsEmpty(f.onlyTests) ==> FilterByOnlyTests(f, units) == units
    ensures !NP.IsEmpty(f.onlyTests) ==> forall u :: u in FilterByOnlyTests(f, units) <==>
      u in units && (UnitMatches(u, f.onlyTests) || UnitMatches(u, f.immuneTests))
  {
    KeptRule(f, units);
  }

  lemma DedupSnoc(s: seq<string>, x: string)
    ensures Dedup(s + [x]) == if x in Dedup(s) then Dedup(s) else Dedup(s) + [x]
  {
    assert (s + [x])[..|s|] == s;
  }

  // ---------------------------------------------------------------------------------
  // The loader object.

  class Loader {
    const settings: Settings.SettingsRun
    var onlyTests: NP.NameParts
    var skipTests: NP.NameParts
    var immuneTests: NP.NameParts
    var dividableCests: NP.NameParts
    var notDividableCestsWhole: NP.NameParts
    var notDividableCestsOnlyFailed: NP.NameParts

    function Lists(): Filters
      reads this
    {
      Filters(onlyTests, skipTests, immuneTests, dividableCests, notDividableCestsWhole, notDividableCestsOnlyFailed)
    }

    constructor(settings: Settings.SettingsRun)
      ensures this.settings == settings && Lists() == NoFilters
    {
      this.settings := settings;
      onlyTests, skipTests, immuneTests := NoNames, NoNames, NoNames;
      dividableCests, notDividableCestsWhole, notDividableCestsOnlyFailed := NoNames, NoNames, NoNames;
    }

    /** getTests, over what the parser reported. */
    method GetTests(parsed: seq<CestData>) returns (tests: seq<Unit>)
      modifies this
      ensures Lists() == Setup(old(Lists()), settings.cfg)
      ensures tests == GetTestsSpec(old(Lists()), settings.cfg, parsed)
    {
      LoadWrapperLists();
      LoadSelectionLists();
      tests := ParseTests(parsed);
    }

    method LoadWrapperLists()
      modifies this
      ensures Lists() == SetupWrappers(old(Lists()), settings.cfg)
    {
      var cfg := settings.cfg;
      if cfg.dividable != [] {
        dividableCests := NP.New(cfg.dividable);
      }
      if cfg.notDividableRerunWhole != [] {
        notDividableCestsWhole := NP.New(cfg.notDividableRerunWhole);
      }
      if cfg.notDividableRerunFailed != [] {
        notDividableCestsOnlyFailed := NP.New(cfg.notDividableRerunFailed);
      }
    }

    method LoadSelectionLists()
      modifies this
      ensures Lists() == SetupSelection(old(Lists()), settings.cfg)
    {
      var cfg := settings.cfg;
      if cfg.onlyTests != [] {
        onlyTests := NP.New(cfg.onlyTests);
        MarkCestsAsDividable(onlyTests);
      }
      if cfg.skipTests != [] {
        skipTests := NP.New(cfg.skipTests);
      }
      if cfg.immuneTests != [] {
        immuneTests := NP.New(cfg.immuneTests);
        MarkCestsAsDividable(immuneTests);
      }
    }

    /** markCestsAsDividable: adds the cest of every named test to the dividable cests. */
    method MarkCestsAsDividable(nameParts: NP.NameParts)
      modifies this
      ensures Lists() == old(Lists()).(dividableCests := MarkCests(old(dividableCests), nameParts, settings.cfg.cestWrapper))
    {
      if settings.cfg.cestWrapper == Settings.CEST_WRAPPER_TESTS || nameParts.tests == {} {
        return;
      }
      var cests := dividableCests.cests;
      var remaining := nameParts.tests;
      while remaining != {}
        invariant remaining <= nameParts.tests
        invariant cests == dividableCests.cests + set t | t in nameParts.tests - remaining :: CestPrefix(t)
        decreases |remaining|
      {
        var testName :| testName in remaining;
        ghost var done := nameParts.tests - remaining;
        assert nameParts.tests - (remaining - {testName}) == done + {testName};
        cests := cests + {CestPrefix(testName)};
        remaining := remaining - {testName};
      }
      dividableCests := dividableCests.(cests := cests);
    }

    method ParseTests(parsed: seq<CestData>) returns (tests: seq<Unit>)
      ensures tests == (if parsed == [] then [] else FilterByOnlyTests(Lists(), LoadCests(Lists(), settings.cfg, parsed)))
    {
      if |parsed| == 0 {
        return [];
      }
      var loaded := LoadCestsMethod(parsed);
      tests := FilterByOnlyTestsMethod(loaded);
    }

    method LoadCestsMethod(cests: seq<CestData>) returns (result: seq<Unit>)
      ensures result == LoadCests(Lists(), settings.cfg, cests)
    {
      result := [];
      for i := 0 to |cests|
        invariant result == LoadCests(Lists(), settings.cfg, cests[..i])
      {
        var c := cests[i];
        assert cests[..i + 1][..i] == cests[..i];
        var path := W.Dirname(c.cestName);
        var skipPath := NP.MatchesPath(skipTests, path);
        var immunePath := NP.MatchesPath(immuneTests, path);
        if (NP.MatchesCest(skipTests, c.cestName) || skipPath) && !(immunePath || NP.MatchesCest(immuneTests, c.cestName)) {
          continue;
        }
        if c.hasError || |c.tests| == 0 {
          continue;
        }
        var tests := LoadTestsMethod(c);
        result := result + tests;
      }
      assert cests[..|cests|] == cests;
    }

    method LoadTestsMethod(c: CestData) returns (result: seq<Unit>)
      ensures result == LoadTests(Lists(), settings.cfg, c, c.tests)
    {
      var expectedGroups := Settings.Groups(settings.cfg);
      var cestGroups := Dedup(c.groups);
      var choice := Choice(Lists(), settings.cfg, c.cestName);
      result := [];
      for i := 0 to |c.tests|
        invariant result == LoadTests(Lists(), settings.cfg, c, c.tests[..i])
      {
        assert c.tests[..i + 1][..i] == c.tests[..i];
        var methods := c.tests[i];
        var units: seq<Unit>;
        if choice == PerMethod {
          units := WrapTestsMethod(expectedGroups, c.cestName, methods, cestGroups);
        } else {
          var groups := CollectMethodGroups(methods);
          var actualGroups := Union(cestGroups, groups);
          var unit := WrapCest(choice, Lists(), expectedGroups, c.cestName, actualGroups);
          units := Optional(unit);
        }
        result := result + units;
      }
      assert c.tests[..|c.tests|] == c.tests;
    }

    /** collectMethodGroups: every method's groups added to one set. */
    method CollectMethodGroups(methods: seq<MethodData>) returns (result: seq<string>)
      ensures result == Dedup(MethodGroups(methods))
    {
      result := [];
      for i := 0 to |methods|
        invariant result == Dedup(MethodGroups(methods[..i]))
      {
        assert methods[..i + 1][..i] == methods[..i];
        result := AddGroups(result, MethodGroups(methods[..i]), methods[i].groups);
      }
      assert methods[..|methods|] == methods;
    }

    /** `Ds\Set::add(...$groups)`. */
    method AddGroups(groupSet: seq<string>, ghost before: seq<string>, groups: seq<string>) returns (result: seq<string>)
      requires groupSet == Dedup(before)
      ensures result == Dedup(before + groups)
    {
      result := groupSet;
      assert before + groups[..0] == before;
      for j := 0 to |groups|
        invariant result == Dedup(before + groups[..j])
      {
        assert before + groups[..j + 1] == (before + groups[..j]) + [groups[j]];
        DedupSnoc(before + groups[..j], groups[j]);
        if groups[j] !in result {
          result := result + [groups[j]];
        }
      }
      assert groups[..|groups|] == groups;
    }

    method WrapTestsMethod(expectedGroups: seq<string>, cestName: string, methods: seq<MethodData>,
                           cestGroups: seq<string>) returns (result: seq<Unit>)
      ensures result == WrapTests(Lists(), expectedGroups, cestName, methods, cestGroups)
    {
      result := [];
      for i := 0 to |methods|
        invariant result == WrapTests(Lists(), expectedGroups, cestName, methods[..i], cestGroups)
      {
        assert methods[..i + 1][..i] == methods[..i];
        var unit := WrapTest(Lists(), expectedGroups, cestName, methods[i], cestGroups);
        if unit.Some? {
          result := result + [unit.value];
        }
      }
      assert methods[..|methods|] == methods;
    }

    method FilterByOnlyTestsMethod(tests: seq<Unit>) returns (result: seq<Unit>)
      ensures result == FilterByOnlyTests(Lists(), tests)
    {
      if NP.IsEmpty(onlyTests) {
        return tests;
      }
      result := [];
      for i := 0 to |tests|
        invariant result == Kept(Lists(), tests[..i])
      {
        assert tests[..i + 1][..i] == tests[..i];
        var test := tests[i];
        if UnitMatches(test, onlyTests) || UnitMatches(test, immuneTests) {
          result := result + [test];
        }
      }
      assert tests[..|tests|] == tests;
    }
  }
}
