/** The parts of the two codeception parser traits (CodeceptionProjectParser and the older
    CodeceptionSettingsParser) that are not filesystem or library calls: the override
    options turned into YAML text, the override list stored without output paths, the env
    names, merging the env configurations, the tests path and the bounded vendor search.
    A codeception configuration is a value of an unspecified type `C`; YAML parsing, configuration merging,
    `realpath` and the filesystem are parameters. */
module CodeceptionParsers {
  import opened Basics
  import opened Strings
  import opened Settings
  import TextHelper

  /** DIRECTORY_SEPARATOR on the systems the tool runs on. */
  const SEPARATOR := "/"
  /** What an override option's keys and value are separated by. */
  const KEY_SEPARATOR := ": "
  const BAD_OVERRIDE := "override option should have config passed as \"key:value\""

  // ---------------------------------------------------------------------------------------
  // Override options as YAML text

  function Spaces(n: nat): (r: string)
    ensures |r| == n && forall i :: 0 <= i < n ==> r[i] == ' '
  {
    if n == 0 then "" else Spaces(n - 1) + " "
  }

  /** One key of an override at the indentation `ind`. */
  function KeyLine(key: string, ind: nat): string {
    Spaces(ind) + key + KEY_SEPARATOR
  }

  /** The keys of an override, each on a new line, the first indented `ind` spaces and each
      further one 2 more, each followed by ': '. */
  function KeyLines(keys: seq<string>, ind: nat): string {
    if keys == [] then "" else "\n" + KeyLine(keys[0], ind) + KeyLines(keys[1..], ind + 2)
  }

  /** One override option as YAML text: its parts split on ': ', all but the last being the
      keys, the last the value. Fewer than two parts is an error. */
  function OverrideYaml(option: string): Result<string> {
    var parts := Split(option, KEY_SEPARATOR);
    if |parts| < 2 then Throw(InvalidArgumentException(BAD_OVERRIDE))
    else Ok(KeyLines(parts[..|parts| - 1], 0) + parts[|parts| - 1])
  }

  /** The text-building loop of overrideCodeceptionConfigFromOptions for one option. */
  method BuildOverrideYaml(option: string) returns (r: Result<string>)
    ensures r == OverrideYaml(option)
  {
    var keys := Split(option, KEY_SEPARATOR);
    ghost var parts := keys;
    if |keys| < 2 {
      return Throw(InvalidArgumentException(BAD_OVERRIDE));
    }
    var value := keys[|keys| - 1];
    keys := keys[..|keys| - 1];
    ghost var allKeys := keys;
    var yaml := "";
    var ind := 0;
    while |keys| != 0
      invariant yaml + KeyLines(keys, ind) == KeyLines(allKeys, 0)
      decreases |keys|
    {
      var line := "\n" + Spaces(ind) + keys[0] + KEY_SEPARATOR;
      assert line == "\n" + KeyLine(keys[0], ind);
      assert KeyLines(keys, ind) == line + KeyLines(keys[1..], ind + 2);
      assert yaml + KeyLines(keys, ind) == (yaml + line) + KeyLines(keys[1..], ind + 2);
      yaml := yaml + line;
      keys := keys[1..];
      ind := ind + 2;
    }
    assert yaml == KeyLines(parts[..|parts| - 1], 0);
    yaml := yaml + value;
    return Ok(yaml);
  }

  /** The lines of the YAML text read back: the j-th key indented 2j spaces, the value on the
      line of the last key. */
  function Lines(keys: seq<string>, ind: nat, value: string): seq<string>
    requires keys != []
  {
    if |keys| == 1 then [KeyLine(keys[0], ind) + value]
    else [KeyLine(keys[0], ind)] + Lines(keys[1..], ind + 2, value)
  }

  /** Splitting on a one-character separator stops at its first occurrence. */
  lemma SplitAtFirst(a: string, c: char, b: string)
    requires c !in a
    ensures Split(a + [c] + b, [c]) == [a] + Split(b, [c])
  {
    var s := a + [c] + b;
    assert IsAt(s, [c], |a|);
    forall j | 0 <= j < |a| ensures !IsAt(s, [c], j) {
      assert s[j] == a[j];
    }
    assert IndexOf(s, [c]) == Some(|a|);
    assert s[..|a|] == a;
    assert s[|a| + 1..] == b;
  }

  /** A character the string lacks is in none of its parts. */
  lemma {:induction false} SplitKeepsOut(s: string, sep: string, c: char)
    requires |sep| > 0 && c !in s
    ensures forall p :: p in Split(s, sep) ==> c !in p
    decreases |s|
  {
    match IndexOf(s, sep)
    case None =>
    case Some(i) =>
      SplitKeepsOut(s[i + |sep|..], sep, c);
      assert forall k :: 0 <= k < i ==> s[..i][k] == s[k];
  }

  /** A line without a break, then a break: the line is the first part. */
  lemma SplitAfterLine(a: string, x: string)
    requires '\n' !in a
    ensures Split(a + ("\n" + x), "\n") == [a] + Split(x, "\n")
  {
    assert a + ("\n" + x) == a + ['\n'] + x;
    SplitAtFirst(a, '\n', x);
  }

  /** A string without a break is one part. */
  lemma SplitNoBreak(a: string)
    requires '\n' !in a
    ensures Split(a, "\n") == [a]
  {
    assert forall j :: IsAt(a, "\n", j) ==> a[j] == a[j..j + 1][0] == '\n';
  }

  /** A leading break makes an empty first part. */
  lemma SplitAfterBreak(x: string)
    ensures Split("\n" + x, "\n") == [""] + Split(x, "\n")
  {
    assert "\n" + x == [] + ['\n'] + x;
    SplitAtFirst([], '\n', x);
  }

  lemma ConcatAssoc(a: string, b: string, c: string, d: string)
    ensures ((a + b) + c) + d == a + ((b + c) + d)
  {
  }

  /** The text of a non-empty key list is a break, then its first key, then the rest. */
  lemma KeyLinesFirst(keys: seq<string>, ind: nat, value: string)
    requires keys != []
    ensures KeyLines(keys, ind) + value == "\n" + (KeyLine(keys[0], ind) + (KeyLines(keys[1..], ind + 2) + value))
  {
    ConcatAssoc("\n", KeyLine(keys[0], ind), KeyLines(keys[1..], ind + 2), value);
  }

  lemma {:induction false} KeyLinesRead(keys: seq<string>, ind: nat, value: string)
    requires keys != [] && '\n' !in value
    requires forall k :: k in keys ==> '\n' !in k
    ensures Split(KeyLines(keys, ind) + value, "\n") == [""] + Lines(keys, ind, value)
    decreases |keys|
  {
    var line := KeyLine(keys[0], ind);
    assert '\n' !in line;
    var rest := KeyLines(keys[1..], ind + 2) + value;
    KeyLinesFirst(keys, ind, value);
    SplitAfterBreak(line + rest);
    var whole := Split(line + rest, "\n");
    assert Split(KeyLines(keys, ind) + value, "\n") == [""] + whole;
    if |keys| == 1 {
      assert rest == value;
      assert '\n' !in line + value;
      SplitNoBreak(line + value);
    } else {
      assert keys[1] in keys;
      assert forall k :: k in keys[1..] ==> k in keys;
      KeyLinesRead(keys[1..], ind + 2, value);
      var later := Lines(keys[1..], ind + 2, value);
      assert keys[1..][0] == keys[1] && keys[1..][1..] == keys[2..];
      var x := KeyLine(keys[1], ind + 2) + (KeyLines(keys[2..], ind + 4) + value);
      KeyLinesFirst(keys[1..], ind + 2, value);
      assert rest == "\n" + x;
      SplitAfterBreak(x);
      var parts := Split(x, "\n");
      assert [""] + parts == [""] + later;
      assert parts == ([""] + parts)[1..] == ([""] + later)[1..] == later;
      SplitAfterLine(line, x);
      assert whole == [line] + later;
      assert Lines(keys, ind, value) == [line] + later;
    }
  }

  /** The round trip of the override text: with no line break in the option, the YAML text
      read line by line is an empty first line, then the keys, the j-th indented 2j spaces
      and followed by ': ', and the value after the last key; and rejoining the parts with
      ': ' gives the option back. */
  lemma OverrideYamlLines(option: string)
    requires '\n' !in option
    ensures var parts := Split(option, KEY_SEPARATOR);
      OverrideYaml(option).Ok? <==> |parts| >= 2
    ensures var parts := Split(option, KEY_SEPARATOR);
      |parts| >= 2 ==> Split(OverrideYaml(option).value, "\n") == [""] + Lines(parts[..|parts| - 1], 0, parts[|parts| - 1])
    ensures Join(KEY_SEPARATOR, Split(option, KEY_SEPARATOR)) == option
  {
    var parts := Split(option, KEY_SEPARATOR);
    SplitKeepsOut(option, KEY_SEPARATOR, '\n');
    JoinSplit(option, KEY_SEPARATOR);
    if |parts| >= 2 {
      assert forall k :: k in parts[..|parts| - 1] ==> k in parts;
      KeyLinesRead(parts[..|parts| - 1], 0, parts[|parts| - 1]);
    }
  }

  /** The YAML texts of every override option, in order, or the exception of the first
      option that is malformed or whose text the YAML parser rejects (`parses`). */
  function Patches(override: seq<string>, parses: string -> bool): Result<seq<string>> {
    if override == [] then Ok([])
    else
      match OverrideYaml(override[0])
      case Throw(e) => Throw(e)
      case Ok(text) =>
        if !parses(text) then Throw(ParseException("Overridden config can't be parsed: \n" + text + "\n"))
        else
          match Patches(override[1..], parses)
          case Throw(e) => Throw(e)
          case Ok(rest) => Ok([text] + rest)
  }

  /** `r` with `texts` in front of its value. */
  function PrefixedBy(texts: seq<string>, r: Result<seq<string>>): Result<seq<string>> {
    match r
    case Throw(e) => Throw(e)
    case Ok(rest) => Ok(texts + rest)
  }

  lemma PatchesStep(texts: seq<string>, override: seq<string>, parses: string -> bool)
    requires override != [] && Acceptable(override[0], parses)
    ensures PrefixedBy(texts, Patches(override, parses))
      == PrefixedBy(texts + [OverrideYaml(override[0]).value], Patches(override[1..], parses))
  {
    var t := OverrideYaml(override[0]).value;
    match Patches(override[1..], parses)
    case Throw(e) =>
    case Ok(rest) =>
      assert texts + ([t] + rest) == (texts + [t]) + rest;
  }

  /** The option an override is well formed and parsable. */
  predicate Acceptable(option: string, parses: string -> bool) {
    OverrideYaml(option).Ok? && parses(OverrideYaml(option).value)
  }

  /** The patches are there exactly when every option is acceptable, one text per option. */
  lemma {:induction false} PatchesOk(override: seq<string>, parses: string -> bool)
    ensures Patches(override, parses).Ok? <==> forall i :: 0 <= i < |override| ==> Acceptable(override[i], parses)
    ensures Patches(override, parses).Ok? ==>
      |Patches(override, parses).value| == |override|
      && forall i :: 0 <= i < |override| ==> Patches(override, parses).value[i] == OverrideYaml(override[i]).value
  {
    if override != [] {
      PatchesOk(override[1..], parses);
      assert forall i :: 1 <= i < |override| ==> override[1..][i - 1] == override[i];
      if Acceptable(override[0], parses) && Patches(override[1..], parses).Ok? {
        var rest := Patches(override[1..], parses).value;
        assert Patches(override, parses).value == [OverrideYaml(override[0]).value] + rest;
      }
    }
  }

  // ---------------------------------------------------------------------------------------
  // The override list stored without output paths

  /** `\s*` then 'output:' from offset j. */
  predicate OutputAfterSpaces(t: string, j: nat)
    decreases |t| - j
  {
    IsAt(t, "output:", j) || (j < |t| && TextHelper.IsSpace(t[j]) && OutputAfterSpaces(t, j + 1))
  }

  /** The option matches `/paths:\s*output:/mi`: it sets the output path. */
  predicate MentionsOutputPath(option: string) {
    var t := Lower(option);
    exists i :: 0 <= i < |t| && IsAt(t, "paths:", i) && OutputAfterSpaces(t, i + 6)
  }

  /** The override options kept for the test processes, in order. */
  function WithoutOutputPath(override: seq<string>): seq<string> {
    if override == [] then []
    else (if MentionsOutputPath(override[0]) then [] else [override[0]]) + WithoutOutputPath(override[1..])
  }

  /** getOverrideWithoutOutputPath and the filter loop of the older parser. */
  method FilterOutputPath(override: seq<string>) returns (result: seq<string>)
    ensures result == WithoutOutputPath(override)
  {
    result := [];
    var i := 0;
    while i < |override|
      invariant 0 <= i <= |override|
      invariant result + WithoutOutputPath(override[i..]) == WithoutOutputPath(override)
    {
      assert override[i..][1..] == override[i + 1..];
      if MentionsOutputPath(override[i]) {
        i := i + 1;
        continue;
      }
      result := result + [override[i]];
      i := i + 1;
    }
  }

  /** The filter keeps exactly the options that do not set the output path, each as often
      as it was given, ... */
  lemma {:induction false} WithoutOutputPathCounts(override: seq<string>, x: string)
    ensures multiset(WithoutOutputPath(override))[x] == if MentionsOutputPath(x) then 0 else multiset(override)[x]
  {
    if override != [] {
      WithoutOutputPathCounts(override[1..], x);
      assert override == [override[0]] + override[1..];
    }
  }

  /** ... in their order: it distributes over concatenation. */
  lemma {:induction false} WithoutOutputPathAppend(a: seq<string>, b: seq<string>)
    ensures WithoutOutputPath(a + b) == WithoutOutputPath(a) + WithoutOutputPath(b)
  {
    if a != [] {
      assert (a + b)[1..] == a[1..] + b;
      WithoutOutputPathAppend(a[1..], b);
    } else {
      assert a + b == b;
    }
  }

  /** 'output:' after a run of `\s` characters. */
  lemma {:induction false} OutputAfterGap(t: string, j: nat, gap: string)
    requires j + |gap| <= |t| && t[j..j + |gap|] == gap
    requires forall k :: 0 <= k < |gap| ==> TextHelper.IsSpace(gap[k])
    requires IsAt(t, "output:", j + |gap|)
    ensures OutputAfterSpaces(t, j)
    decreases |gap|
  {
    if gap != [] {
      assert t[j] == gap[0];
      assert t[j + 1..j + 1 + |gap[1..]|] == gap[1..];
      OutputAfterGap(t, j + 1, gap[1..]);
    }
  }

  lemma LowerSpaces(gap: string)
    requires forall k :: 0 <= k < |gap| ==> TextHelper.IsSpace(gap[k])
    ensures Lower(gap) == gap
  {
  }

  /** The middle of three strings sits right after the first. */
  lemma Middle(a: string, b: string, c: string)
    ensures IsAt(a + b + c, b, |a|)
    ensures a + b + c == a + (b + c)
  {
    assert (a + b + c)[|a|..|a| + |b|] == b;
  }

  /** Any option with 'paths:' and then 'output:', in any letter case and with any run of
      blanks or line breaks between them, is dropped. */
  lemma SetsOutputPath(before: string, paths: string, gap: string, output: string, after: string)
    requires Lower(paths) == "paths:" && Lower(output) == "output:"
    requires forall k :: 0 <= k < |gap| ==> TextHelper.IsSpace(gap[k])
    ensures MentionsOutputPath(before + paths + gap + output + after)
  {
    var option := before + paths + gap + output + after;
    LowerAppend(before + paths + gap + output, after);
    LowerAppend(before + paths + gap, output);
    LowerAppend(before + paths, gap);
    LowerAppend(before, paths);
    LowerSpaces(gap);
    var t := Lower(option);
    var lb, la := Lower(before), Lower(after);
    assert t == lb + "paths:" + gap + "output:" + la;
    var i := |lb|;
    Middle(lb, "paths:", gap + "output:" + la);
    Middle(lb + "paths:", gap, "output:" + la);
    Middle(lb + "paths:" + gap, "output:", la);
    assert IsAt(t, "paths:", i);
    OutputAfterGap(t, i + 6, gap);
  }

  // ---------------------------------------------------------------------------------------
  // Env names

  /** `le(a, b)` orders the strings: a total preorder. */
  ghost predicate TotalPreorder(le: (string, string) -> bool) {
    (forall a, b :: le(a, b) || le(b, a))
    && (forall a, b, c :: le(a, b) && le(b, c) ==> le(a, c))
  }

  predicate SortedBy(s: seq<string>, le: (string, string) -> bool) {
    forall i, j :: 0 <= i < j < |s| ==> le(s[i], s[j])
  }

  /** Inserts `x` after every element it does not precede strictly. */
  function InsertBy(x: string, s: seq<string>, le: (string, string) -> bool): (r: seq<string>)
    ensures multiset(r) == multiset(s) + multiset{x}
  {
    if s == [] then [x]
    else if !le(s[0], x) then [x] + s
    else
      assert s == [s[0]] + s[1..];
      [s[0]] + InsertBy(x, s[1..], le)
  }

  /** PHP's stable `sort` under the comparator `le` (for SORT_NATURAL, `strnatcmp(a, b) <= 0`). */
  function SortBy(s: seq<string>, le: (string, string) -> bool): (r: seq<string>)
    ensures multiset(r) == multiset(s)
  {
    if s == [] then []
    else
      assert s == s[..|s| - 1] + [s[|s| - 1]];
      InsertBy(s[|s| - 1], SortBy(s[..|s| - 1], le), le)
  }

  lemma {:induction false} InsertBySorted(x: string, s: seq<string>, le: (string, string) -> bool)
    requires TotalPreorder(le) && SortedBy(s, le)
    ensures SortedBy(InsertBy(x, s, le), le)
  {
    if s != [] && le(s[0], x) {
      InsertBySorted(x, s[1..], le);
      var t := InsertBy(x, s[1..], le);
      assert multiset(t) == multiset(s[1..]) + multiset{x};
      forall j | 0 <= j < |t| ensures le(s[0], t[j]) {
        assert t[j] in multiset(t);
        if t[j] != x {
          assert t[j] in multiset(s[1..]);
          var k :| 0 <= k < |s[1..]| && s[1..][k] == t[j];
          assert s[k + 1] == t[j];
        }
      }
    }
  }

  lemma {:induction false} SortBySorted(s: seq<string>, le: (string, string) -> bool)
    requires TotalPreorder(le)
    ensures SortedBy(SortBy(s, le), le)
  {
    if s != [] {
      SortBySorted(s[..|s| - 1], le);
      InsertBySorted(s[|s| - 1], SortBy(s[..|s| - 1], le), le);
    }
  }

  /** Each env option split on ',', the pieces in order. */
  function SplitEach(options: seq<string>): seq<string> {
    if options == [] then [] else Split(options[0], ",") + SplitEach(options[1..])
  }

  /** The env options a run uses: the console's when it gave any, else the settings'. */
  function EnvOptions(option: seq<string>, stored: seq<string>): seq<string> {
    if option != [] then option else stored
  }

  /** resolveEnvNames: the env options sorted naturally, split on ',' and flattened. */
  function EnvNames(option: seq<string>, stored: seq<string>, natLe: (string, string) -> bool): seq<string> {
    var envOptions := EnvOptions(option, stored);
    if envOptions == [] then [] else SplitEach(SortBy(envOptions, natLe))
  }

  lemma SplitEachStep(pieces: seq<seq<string>>, options: seq<string>, i: nat)
    requires i < |options| && Flatten(pieces) + SplitEach(options[i..]) == SplitEach(options)
    ensures Flatten(pieces + [Split(options[i], ",")]) + SplitEach(options[i + 1..]) == SplitEach(options)
  {
    var part := Split(options[i], ",");
    assert options[i..][0] == options[i] && options[i..][1..] == options[i + 1..];
    assert SplitEach(options[i..]) == part + SplitEach(options[i + 1..]);
    FlattenAppend(pieces, [part]);
    assert Flatten([part]) == part by {
      assert [part][..0] == [];
    }
    AppendAssoc(Flatten(pieces), part, SplitEach(options[i + 1..]));
  }

  lemma AppendAssoc<T>(a: seq<T>, b: seq<T>, c: seq<T>)
    ensures (a + b) + c == a + (b + c)
  {
  }

  /** The loop of resolveEnvNames (and of the older overrideCodeceptionConfigFromEnv). */
  method ResolveEnvNames(option: seq<string>, stored: seq<string>, natLe: (string, string) -> bool)
    returns (envNames: seq<string>)
    ensures envNames == EnvNames(option, stored, natLe)
  {
    var envOptions := if option != [] then option else stored;
    if envOptions == [] {
      return [];
    }
    envOptions := SortBy(envOptions, natLe);
    var pieces: seq<seq<string>> := [];
    var i := 0;
    while i < |envOptions|
      invariant 0 <= i <= |envOptions|
      invariant Flatten(pieces) + SplitEach(envOptions[i..]) == SplitEach(envOptions)
    {
      SplitEachStep(pieces, envOptions, i);
      pieces := pieces + [Split(envOptions[i], ",")];
      i := i + 1;
    }
    assert envOptions[i..] == [];
    envNames := Flatten(pieces);
  }

  lemma {:induction false} JoinConcat(sep: string, a: seq<string>, b: seq<string>)
    requires a != [] && b != []
    ensures Join(sep, a + b) == Join(sep, a) + sep + Join(sep, b)
    decreases |a|
  {
    if |a| == 1 {
      assert (a + b)[1..] == b;
    } else {
      assert (a + b)[1..] == a[1..] + b;
      JoinConcat(sep, a[1..], b);
    }
  }

  lemma {:induction false} SplitEachJoin(options: seq<string>)
    ensures Join(",", SplitEach(options)) == Join(",", options)
    ensures options != [] ==> SplitEach(options) != []
  {
    if options != [] {
      var first := Split(options[0], ",");
      JoinSplit(options[0], ",");
      SplitEachJoin(options[1..]);
      if options[1..] == [] {
        assert SplitEach(options) == first + [];
        assert first + [] == first;
      } else {
        JoinConcat(",", first, SplitEach(options[1..]));
        assert options == [options[0]] + options[1..];
        assert Join(",", options) == options[0] + "," + Join(",", options[1..]);
      }
    }
  }

  /** All env options are one environment, as if joined with ',': the names rejoined are
      the sorted options joined. The names come from the console when it gave any, and
      there are none only when there are no options. */
  lemma EnvNamesJoin(option: seq<string>, stored: seq<string>, natLe: (string, string) -> bool)
    ensures Join(",", EnvNames(option, stored, natLe)) == Join(",", SortBy(EnvOptions(option, stored), natLe))
    ensures EnvNames(option, stored, natLe) == [] <==> EnvOptions(option, stored) == []
    ensures option != [] ==> EnvOptions(option, stored) == option
  {
    SplitEachJoin(SortBy(EnvOptions(option, stored), natLe));
    if EnvOptions(option, stored) != [] {
      assert SortBy(EnvOptions(option, stored), natLe) != [] by {
        var s := EnvOptions(option, stored);
        assert s[0] in multiset(SortBy(s, natLe));
      }
    }
  }

  /** The options are taken in natural order and none is lost. */
  lemma EnvOptionsSorted(option: seq<string>, stored: seq<string>, natLe: (string, string) -> bool)
    requires TotalPreorder(natLe)
    ensures SortedBy(SortBy(EnvOptions(option, stored), natLe), natLe)
    ensures multiset(SortBy(EnvOptions(option, stored), natLe)) == multiset(EnvOptions(option, stored))
  {
    SortBySorted(EnvOptions(option, stored), natLe);
  }

  // ---------------------------------------------------------------------------------------
  // Env configurations

  /** What mergeing the named envs into a suite configuration leaves: the configuration and
      the names that were not found (each announced with a note). */
  datatype EnvMerge<C> = EnvMerge(config: C, missing: seq<string>)

  /** overrideSuiteConfigFromEnv: each env found in the suite configuration's env section is
      merged in, in order; a missing one is skipped. */
  function SuiteFromEnv<C>(suite: C, envNames: seq<string>, envsOf: C -> map<string, C>,
                           merge: (C, C) -> C): EnvMerge<C>
  {
    if envNames == [] then EnvMerge(suite, [])
    else
      var m := SuiteFromEnv(suite, envNames[..|envNames| - 1], envsOf, merge);
      var name := envNames[|envNames| - 1];
      if name in envsOf(m.config) then EnvMerge(merge(m.config, envsOf(m.config)[name]), m.missing)
      else EnvMerge(m.config, m.missing + [name])
  }

  /** overrideSuiteConfigFromEnv's merge loop. */
  method OverrideSuiteConfigFromEnv<C>(suite: C, envNames: seq<string>, envsOf: C -> map<string, C>,
                                       merge: (C, C) -> C) returns (r: EnvMerge<C>)
    ensures r == SuiteFromEnv(suite, envNames, envsOf, merge)
  {
    var suiteConfig := suite;
    var missing := [];
    var i := 0;
    while i < |envNames|
      invariant 0 <= i <= |envNames|
      invariant EnvMerge(suiteConfig, missing) == SuiteFromEnv(suite, envNames[..i], envsOf, merge)
    {
      assert envNames[..i + 1][..i] == envNames[..i];
      var envName := envNames[i];
      if envName !in envsOf(suiteConfig) {
        missing := missing + [envName];
        i := i + 1;
        continue;
      }
      suiteConfig := merge(suiteConfig, envsOf(suiteConfig)[envName]);
      i := i + 1;
    }
    assert envNames[..i] == envNames;
    r := EnvMerge(suiteConfig, missing);
  }

  /** A missing env is never an error: the names not found are exactly listed, in order,
      and when none is found the suite configuration is left as it was. */
  lemma {:induction false} SuiteFromEnvMissing<C>(suite: C, envNames: seq<string>, envsOf: C -> map<string, C>,
                                                  merge: (C, C) -> C)
    ensures forall n :: n in SuiteFromEnv(suite, envNames, envsOf, merge).missing ==> n in envNames
    ensures (forall n :: n in envNames ==> n !in envsOf(suite))
      ==> SuiteFromEnv(suite, envNames, envsOf, merge) == EnvMerge(suite, envNames)
  {
    if envNames != [] {
      var init := envNames[..|envNames| - 1];
      SuiteFromEnvMissing(suite, init, envsOf, merge);
      assert forall n :: n in init ==> n in envNames;
      assert envNames == init + [envNames[|envNames| - 1]];
    }
  }

  /** overrideCodeceptionConfigFromEnv of the older parser: every env must exist among the
      env files and must not set the output path; each is merged in, in order. */
  function ConfigFromEnv<C>(config: C, envNames: seq<string>, envs: map<string, C>,
                            setsOutputPath: C -> bool, merge: (C, C) -> C): Result<C>
  {
    if envNames == [] then Ok(config)
    else
      match ConfigFromEnv(config, envNames[..|envNames| - 1], envs, setsOutputPath, merge)
      case Throw(e) => Throw(e)
      case Ok(c) =>
        var name := envNames[|envNames| - 1];
        if name !in envs then Throw(UsageException("There is no env with name: " + name))
        else if setsOutputPath(envs[name]) then Throw(UsageException("Please remove .paths.output from the env: " + name))
        else Ok(merge(c, envs[name]))
  }

  /** The first failure is the result. */
  lemma {:induction false} ThrowPersists<C>(config: C, envNames: seq<string>, k: nat, envs: map<string, C>,
                                            setsOutputPath: C -> bool, merge: (C, C) -> C)
    requires k <= |envNames| && ConfigFromEnv(config, envNames[..k], envs, setsOutputPath, merge).Throw?
    ensures ConfigFromEnv(config, envNames, envs, setsOutputPath, merge)
      == ConfigFromEnv(config, envNames[..k], envs, setsOutputPath, merge)
    decreases |envNames| - k
  {
    if k < |envNames| {
      var longer := envNames[..k + 1];
      assert longer[..|longer| - 1] == envNames[..k];
      ThrowPersists(config, envNames, k + 1, envs, setsOutputPath, merge);
    } else {
      assert envNames[..k] == envNames;
    }
  }

  /** An env is usable when it exists and leaves the output path alone. */
  predicate Usable<C>(name: string, envs: map<string, C>, setsOutputPath: C -> bool) {
    name in envs && !setsOutputPath(envs[name])
  }

  /** The index of the first env that is not usable, or the number of envs when all are. */
  function FirstUnusable<C>(names: seq<string>, envs: map<string, C>, setsOutputPath: C -> bool): (r: nat)
    ensures r <= |names| && forall i :: 0 <= i < r ==> Usable(names[i], envs, setsOutputPath)
    ensures r < |names| ==> !Usable(names[r], envs, setsOutputPath)
  {
    if names == [] || !Usable(names[0], envs, setsOutputPath) then 0
    else 1 + FirstUnusable(names[1..], envs, setsOutputPath)
  }

  /** The outcome of the older parser's merge: on success the merged configuration; on the
      first failure its exception, with the envs before the failing one merged in. */
  ghost predicate EnvMerged<C>(config: C, names: seq<string>, envs: map<string, C>, setsOutputPath: C -> bool,
                               merge: (C, C) -> C, error: Option<Exception>, result: C)
  {
    match ConfigFromEnv(config, names, envs, setsOutputPath, merge)
    case Throw(e) => (error == Some(e)
      && Ok(result) == ConfigFromEnv(config, names[..FirstUnusable(names, envs, setsOutputPath)], envs, setsOutputPath, merge))
    case Ok(c) => error.None? && result == c
  }

  /** A usable env merges into the configuration built from the envs before it. */
  lemma EnvStep<C>(config: C, envNames: seq<string>, i: nat, envs: map<string, C>,
                   setsOutputPath: C -> bool, merge: (C, C) -> C, c: C)
    requires i < |envNames| && Usable(envNames[i], envs, setsOutputPath)
    requires ConfigFromEnv(config, envNames[..i], envs, setsOutputPath, merge) == Ok(c)
    ensures ConfigFromEnv(config, envNames[..i + 1], envs, setsOutputPath, merge) == Ok(merge(c, envs[envNames[i]]))
  {
    assert envNames[..i + 1][..i] == envNames[..i];
  }

  /** Where the merge stops: at the first unusable env, with the error about it, the envs
      before it merged in. */
  lemma EnvStop<C>(config: C, envNames: seq<string>, i: nat, envs: map<string, C>,
                   setsOutputPath: C -> bool, merge: (C, C) -> C, c: C)
    requires i < |envNames| && !Usable(envNames[i], envs, setsOutputPath)
    requires forall k :: 0 <= k < i ==> Usable(envNames[k], envs, setsOutputPath)
    requires ConfigFromEnv(config, envNames[..i], envs, setsOutputPath, merge) == Ok(c)
    ensures EnvMerged(config, envNames, envs, setsOutputPath, merge,
      Some(UsageException(if envNames[i] !in envs then "There is no env with name: " + envNames[i]
                          else "Please remove .paths.output from the env: " + envNames[i])), c)
    ensures FirstUnusable(envNames, envs, setsOutputPath) == i
    ensures ConfigFromEnv(config, envNames, envs, setsOutputPath, merge)
      == Throw(UsageException(if envNames[i] !in envs then "There is no env with name: " + envNames[i]
                              else "Please remove .paths.output from the env: " + envNames[i]))
  {
    assert envNames[..i + 1][..i] == envNames[..i];
    ThrowPersists(config, envNames, i + 1, envs, setsOutputPath, merge);
  }

  /** The older parser fails exactly when some env is unknown or sets the output path, and
      then with a UsageException. */
  lemma {:induction false} ConfigFromEnvOk<C>(config: C, envNames: seq<string>, envs: map<string, C>,
                                              setsOutputPath: C -> bool, merge: (C, C) -> C)
    ensures ConfigFromEnv(config, envNames, envs, setsOutputPath, merge).Ok?
      <==> forall i :: 0 <= i < |envNames| ==> Usable(envNames[i], envs, setsOutputPath)
    ensures ConfigFromEnv(config, envNames, envs, setsOutputPath, merge).Throw?
      ==> ConfigFromEnv(config, envNames, envs, setsOutputPath, merge).error.UsageException?
  {
    if envNames != [] {
      var init := envNames[..|envNames| - 1];
      ConfigFromEnvOk(config, init, envs, setsOutputPath, merge);
      assert forall i :: 0 <= i < |init| ==> init[i] == envNames[i];
    }
  }

  /** The tests directory setTestsPath asks realpath for: the configured tests path, with
      '.' standing for the suite's own directory. */
  function TestsSubdir(configured: string, suite: string): string {
    if configured == "." then suite else configured
  }

  /** The part of SettingsRun the parsers fill in, together with the codeception
      configuration they build. */
  class Parser<C> {
    const settings: SettingsRun
    var codeceptionConfig: C

    constructor(settings: SettingsRun, config: C)
      ensures this.settings == settings && codeceptionConfig == config
    {
      this.settings := settings;
      codeceptionConfig := config;
    }

    /** overrideCodeceptionConfigFromOptions (and setCodeceptionConfig of the newer parser):
        the override options are the console's when it gave any, else the settings'; their
        texts are parsed and merged into the configuration (`apply`), and the options are
        stored without those that set the output path. A bad option changes nothing. */
    method OverrideCodeceptionConfigFromOptions(option: seq<string>, parses: string -> bool,
                                                apply: (C, seq<string>) -> C) returns (error: Option<Exception>)
      modifies this, settings
      ensures var override := EnvOptions(option, old(settings.cfg.override));
        match Patches(override, parses)
        case Throw(e) => error == Some(e) && codeceptionConfig == old(codeceptionConfig) && settings.cfg == old(settings.cfg)
        case Ok(texts) => (error.None? && codeceptionConfig == apply(old(codeceptionConfig), texts)
          && settings.cfg == old(settings.cfg).(override := WithoutOutputPath(override)))
    {
      var override := if option != [] then option else settings.cfg.override;
      var texts := [];
      var i := 0;
      assert override[i..] == override;
      assert PrefixedBy(texts, Patches(override, parses)) == Patches(override, parses) by {
        if Patches(override, parses).Ok? {
          assert [] + Patches(override, parses).value == Patches(override, parses).value;
        }
      }
      while i < |override|
        invariant 0 <= i <= |override|
        invariant Patches(override, parses) == PrefixedBy(texts, Patches(override[i..], parses))
        invariant codeceptionConfig == old(codeceptionConfig) && settings.cfg == old(settings.cfg)
      {
        assert override[i..][0] == override[i] && override[i..][1..] == override[i + 1..];
        var yaml := BuildOverrideYaml(override[i]);
        if yaml.Throw? {
          return Some(yaml.error);
        }
        if !parses(yaml.value) {
          return Some(ParseException("Overridden config can't be parsed: \n" + yaml.value + "\n"));
        }
        PatchesStep(texts, override[i..], parses);
        texts := texts + [yaml.value];
        i := i + 1;
      }
      assert override[i..] == [];
      assert texts + [] == texts;
      codeceptionConfig := apply(codeceptionConfig, texts);
      var kept := FilterOutputPath(override);
      settings.SetOverride(kept);
      error := None;
    }

    /** overrideCodeceptionConfigFromEnv of the older parser: the env names are stored
        first, then each env file's configuration is merged in; `envs` stands for the env files
        loadEnvConfigs finds. */
    method OverrideCodeceptionConfigFromEnv(option: seq<string>, natLe: (string, string) -> bool,
                                            envs: map<string, C>, setsOutputPath: C -> bool,
                                            merge: (C, C) -> C) returns (error: Option<Exception>)
      modifies this, settings
      ensures var names := EnvNames(option, old(settings.cfg.env), natLe);
        if EnvOptions(option, old(settings.cfg.env)) == [] then
          error.None? && codeceptionConfig == old(codeceptionConfig) && settings.cfg == old(settings.cfg)
        else
          settings.cfg == old(settings.cfg).(env := names)
          && EnvMerged(old(codeceptionConfig), names, envs, setsOutputPath, merge, error, codeceptionConfig)
    {
      if EnvOptions(option, settings.cfg.env) == [] {
        return None;
      }
      var envNames := ResolveEnvNames(option, settings.cfg.env, natLe);
      settings.SetEnv(envNames);
      ghost var config0 := codeceptionConfig;
      assert config0 == old(codeceptionConfig) && envNames == EnvNames(option, old(settings.cfg.env), natLe);
      var i := 0;
      while i < |envNames|
        modifies this
        invariant 0 <= i <= |envNames|
        invariant ConfigFromEnv(config0, envNames[..i], envs, setsOutputPath, merge) == Ok(codeceptionConfig)
        invariant forall k :: 0 <= k < i ==> Usable(envNames[k], envs, setsOutputPath)
      {
        var envName := envNames[i];
        if envName !in envs {
          EnvStop(config0, envNames, i, envs, setsOutputPath, merge, codeceptionConfig);
          return Some(UsageException("There is no env with name: " + envName));
        }
        var env := envs[envName];
        if setsOutputPath(env) {
          EnvStop(config0, envNames, i, envs, setsOutputPath, merge, codeceptionConfig);
          return Some(UsageException("Please remove .paths.output from the env: " + envName));
        }
        EnvStep(config0, envNames, i, envs, setsOutputPath, merge, codeceptionConfig);
        codeceptionConfig := merge(codeceptionConfig, env);
        i := i + 1;
      }
      assert envNames[..i] == envNames;
      error := None;
      assert EnvMerged(config0, envNames, envs, setsOutputPath, merge, error, codeceptionConfig);
    }

    /** setTestsPath of the older parser: realpath of the tests directory under the project;
        a realpath failure stores '' (PHP turns `false` into ''). */
    method SetTestsPath(configuredTests: string, realpath: string -> Option<string>)
      modifies settings
      ensures settings.cfg == old(settings.cfg).(testsPath :=
        realpath(old(settings.cfg.testProjectPath) + SEPARATOR + TestsSubdir(configuredTests, old(settings.cfg.suite))).GetOr(""))
    {
      var testsSubdir := configuredTests;
      if testsSubdir == "." {
        testsSubdir := settings.cfg.suite;
      }
      var testsDir := realpath(settings.cfg.testProjectPath + SEPARATOR + testsSubdir);
      settings.SetTestsPath(testsDir.GetOr(""));
    }
  }

  /** A tests path of '.' means the suite's directory; any other is used as configured. */
  lemma TestsSubdirCases(configured: string, suite: string)
    ensures configured == "." ==> TestsSubdir(configured, suite) == suite
    ensures configured != "." ==> TestsSubdir(configured, suite) == configured
  {
  }

  // ---------------------------------------------------------------------------------------
  // Bounded vendor search

  /** The filesystem as the search sees it. */
  datatype Fs = Fs(isDir: string -> bool, fileExists: string -> bool, dirname: string -> string)

  /** findVendorPath (the same in both parsers): from `dir` upwards, at most `tries` levels,
      stopping at '/' or at a path that is not a directory, the first `<dir>/vendor` that
      exists. */
  function FindVendorPath(fs: Fs, dir: string, tries: int): Option<string>
    decreases if tries < 0 then 0 else tries
  {
    if tries <= 0 || dir == "/" || !fs.isDir(dir) then None
    else if fs.fileExists(dir + SEPARATOR + "vendor") then Some(dir + SEPARATOR + "vendor")
    else FindVendorPath(fs, fs.dirname(dir), tries - 1)
  }

  /** The k-th parent of `dir`. */
  function Ancestor(fs: Fs, dir: string, k: nat): string
    decreases k
  {
    if k == 0 then dir else Ancestor(fs, fs.dirname(dir), k - 1)
  }

  /** The search looks at `d` and goes on: a directory other than '/' without a vendor dir. */
  predicate PassesBy(fs: Fs, d: string) {
    d != "/" && fs.isDir(d) && !fs.fileExists(d + SEPARATOR + "vendor")
  }

  /** The search passes by the first k directories on the way up. */
  predicate Climbs(fs: Fs, dir: string, k: nat) {
    forall j :: 0 <= j < k ==> PassesBy(fs, Ancestor(fs, dir, j))
  }

  /** The search stops at `d` with a find. */
  predicate HasVendor(fs: Fs, d: string) {
    d != "/" && fs.isDir(d) && fs.fileExists(d + SEPARATOR + "vendor")
  }

  lemma ClimbsStep(fs: Fs, dir: string, k: nat)
    requires PassesBy(fs, dir) && Climbs(fs, fs.dirname(dir), k)
    ensures Climbs(fs, dir, k + 1)
  {
    forall j | 0 <= j < k + 1 ensures PassesBy(fs, Ancestor(fs, dir, j)) {
      if j > 0 {
        assert Ancestor(fs, dir, j) == Ancestor(fs, fs.dirname(dir), j - 1);
      }
    }
  }

  /** What the search finds is the vendor dir of a parent fewer than `tries` levels up, all
      parents below it having been passed by. */
  lemma {:induction false} FindVendorPathSound(fs: Fs, dir: string, tries: int)
    requires FindVendorPath(fs, dir, tries).Some?
    ensures exists k: nat :: (k < tries && Climbs(fs, dir, k) && HasVendor(fs, Ancestor(fs, dir, k))
      && FindVendorPath(fs, dir, tries) == Some(Ancestor(fs, dir, k) + SEPARATOR + "vendor"))
    decreases if tries < 0 then 0 else tries
  {
    if fs.fileExists(dir + SEPARATOR + "vendor") {
      assert Climbs(fs, dir, 0);
      assert Ancestor(fs, dir, 0) == dir;
    } else {
      FindVendorPathSound(fs, fs.dirname(dir), tries - 1);
      var k: nat :| k < tries - 1 && Climbs(fs, fs.dirname(dir), k) && HasVendor(fs, Ancestor(fs, fs.dirname(dir), k))
        && FindVendorPath(fs, fs.dirname(dir), tries - 1) == Some(Ancestor(fs, fs.dirname(dir), k) + SEPARATOR + "vendor");
      ClimbsStep(fs, dir, k);
      assert Ancestor(fs, dir, k + 1) == Ancestor(fs, fs.dirname(dir), k);
    }
  }

  /** And a vendor dir fewer than `tries` levels up, below which every parent is passed by,
      is found. */
  lemma {:induction false} FindVendorPathComplete(fs: Fs, dir: string, tries: int, k: nat)
    requires k < tries && Climbs(fs, dir, k) && HasVendor(fs, Ancestor(fs, dir, k))
    ensures FindVendorPath(fs, dir, tries) == Some(Ancestor(fs, dir, k) + SEPARATOR + "vendor")
    decreases k
  {
    if k > 0 {
      assert PassesBy(fs, Ancestor(fs, dir, 0));
      assert Climbs(fs, fs.dirname(dir), k - 1) by {
        forall j | 0 <= j < k - 1 ensures PassesBy(fs, Ancestor(fs, fs.dirname(dir), j)) {
          assert Ancestor(fs, dir, j + 1) == Ancestor(fs, fs.dirname(dir), j);
          assert PassesBy(fs, Ancestor(fs, dir, j + 1));
        }
      }
      FindVendorPathComplete(fs, fs.dirname(dir), tries - 1, k - 1);
    }
  }

  /** No tries left, the root, or a path that is no directory: nothing is found. */
  lemma FindVendorPathStops(fs: Fs, dir: string, tries: int)
    requires tries <= 0 || dir == "/" || !fs.isDir(dir)
    ensures FindVendorPath(fs, dir, tries).None?
  {
  }
}
