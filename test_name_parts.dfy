/** TestNameParts: configured strings classified as test names, cest files and paths. */
module TestNameParts {
  import opened Basics
  import opened Strings

  datatype NameParts = NameParts(tests: set<string>, cests: set<string>, paths: set<string>, strings: seq<string>)

  /** "file.php:Method" becomes "file.php:method": the text up to the first ".php" is kept
      as is and everything after ".php:" is lower-cased; no ".php:" gives null. */
  function NormalizeTestName(testName: string): Option<string> {
    match IndexOf(testName, ".php:")
    case None => None
    case Some(p) => Some(testName[..p + 4] + ":" + Lower(testName[p + 5..]))
  }

  lemma NormalizeNullIff(testName: string)
    ensures NormalizeTestName(testName).None? <==> !Contains(testName, ".php:")
  {
  }

  lemma {:induction false} NormalizeIdempotent(testName: string)
    requires NormalizeTestName(testName).Some?
    ensures NormalizeTestName(NormalizeTestName(testName).value) == NormalizeTestName(testName)
  {
    var p := IndexOf(testName, ".php:").value;
    var rest := testName[p + 5..];
    var r := NormalizeTestName(testName).value;
    assert testName[p..p + 5][4] == testName[p + 4] == ':';
    assert testName[..p + 4] + ":" == testName[..p + 5];
    assert r == testName[..p + 5] + Lower(rest);
    assert r[..p + 5] == testName[..p + 5];
    assert IsAt(r, ".php:", p);
    forall j | 0 <= j < p ensures !IsAt(r, ".php:", j) {
      assert !IsAt(testName, ".php:", j);
      assert r[j..j + 5] == r[..p + 5][j..j + 5] == testName[..p + 5][j..j + 5] == testName[j..j + 5];
    }
    assert IndexOf(r, ".php:") == Some(p);
    assert r[..p + 4] == testName[..p + 4];
    assert r[p + 5..] == Lower(rest);
    LowerIdempotent(rest);
  }

  /** The normalised name has the shape "<..>.php:<lower-case rest>". */
  lemma NormalizeShape(testName: string)
    requires NormalizeTestName(testName).Some?
    ensures var r := NormalizeTestName(testName).value;
      var p := IndexOf(testName, ".php:").value;
      r == testName[..p + 5] + Lower(testName[p + 5..]) && Lower(r[p + 5..]) == r[p + 5..]
  {
    var p := IndexOf(testName, ".php:").value;
    assert testName[p..p + 5][4] == testName[p + 4] == ':';
    assert testName[..p + 4] + ":" == testName[..p + 5];
    LowerIdempotent(testName[p + 5..]);
  }

  /** The classification of each string: the first set whose rule it meets. */
  function Classify(strings: seq<string>): (np: NameParts)
    ensures np.strings == strings
  {
    if strings == [] then NameParts({}, {}, {}, [])
    else
      var prev := Classify(strings[..|strings| - 1]);
      var s := strings[|strings| - 1];
      match NormalizeTestName(s)
      case Some(testName) => NameParts(prev.tests + {testName}, prev.cests, prev.paths, strings)
      case None =>
        if EndsWith(s, ".php") then NameParts(prev.tests, prev.cests + {s}, prev.paths, strings)
        else NameParts(prev.tests, prev.cests, prev.paths + {s}, strings)
  }

  /** Each string lands in exactly one set: tests if it has ".php:" (normalised), else cests
      if it ends with ".php", else paths. */
  lemma {:induction false} ClassifyMembers(strings: seq<string>)
    ensures var np := Classify(strings);
      (forall t :: t in np.tests <==> exists s :: s in strings && NormalizeTestName(s) == Some(t))
      && (forall c :: c in np.cests <==> c in strings && NormalizeTestName(c).None? && EndsWith(c, ".php"))
      && (forall c :: c in np.paths <==> c in strings && NormalizeTestName(c).None? && !EndsWith(c, ".php"))
  {
    if strings != [] {
      var init := strings[..|strings| - 1];
      ClassifyMembers(init);
      assert strings == init + [strings[|strings| - 1]];
    }
  }

  /** The three sets never share an entry: every test entry has ".php:", no other entry does. */
  lemma {:induction false} ClassesDisjoint(strings: seq<string>)
    ensures var np := Classify(strings);
      np.tests !! np.cests && np.tests !! np.paths && np.cests !! np.paths
  {
    var np := Classify(strings);
    ClassifyMembers(strings);
    forall t | t in np.tests ensures NormalizeTestName(t).Some? {
      var s :| s in strings && NormalizeTestName(s) == Some(t);
      NormalizeIdempotent(s);
    }
  }

  /** The constructor's loop over the strings. */
  method New(strings: seq<string>) returns (np: NameParts)
    ensures np == Classify(strings)
  {
    var tests: set<string> := {};
    var cests: set<string> := {};
    var paths: set<string> := {};
    var i := 0;
    while i < |strings|
      invariant 0 <= i <= |strings|
      invariant NameParts(tests, cests, paths, strings[..i]) == Classify(strings[..i])
    {
      var s := strings[i];
      assert strings[..i + 1][..i] == strings[..i];
      var testName := NormalizeTestName(s);
      if testName.Some? {
        tests := tests + {testName.value};
      } else if EndsWith(s, ".php") {
        cests := cests + {s};
      } else {
        paths := paths + {s};
      }
      i := i + 1;
    }
    assert strings[..i] == strings;
    np := NameParts(tests, cests, paths, strings);
  }

  function MatchesTest(np: NameParts, testName: string, methodName: string): bool {
    if methodName != "" then testName + ":" + Lower(methodName) in np.tests
    else
      match NormalizeTestName(testName)
      case None => false
      case Some(n) => n in np.tests
  }

  /** Without a method name, a name with no ".php:" never matches. */
  lemma MatchesTestNeedsSeparator(np: NameParts, testName: string)
    requires !Contains(testName, ".php:")
    ensures !MatchesTest(np, testName, "")
  {
  }

  function MatchesCest(np: NameParts, cestName: string): bool {
    cestName in np.cests
  }

  function IsEmpty(np: NameParts): bool {
    np.tests == {} && np.cests == {} && np.paths == {}
  }

  /** The '/'-component prefixes of a path, longest first. */
  function Subpaths(path: string): (r: seq<string>)
    ensures |r| == |Split(path, "/")|
  {
    var parts := Split(path, "/");
    seq(|parts|, i requires 0 <= i < |parts| => Join("/", parts[..|parts| - i]))
  }

  /** The configured paths contain the path or one of its '/'-component prefixes. */
  predicate PathMatches(np: NameParts, path: string) {
    var parts := Split(path, "/");
    exists k :: 1 <= k <= |parts| && Join("/", parts[..k]) in np.paths
  }

  /** getSubpaths: implode the parts, pop the last one, repeat. */
  method GetSubpaths(path: string) returns (result: seq<string>)
    ensures result == Subpaths(path)
  {
    var parts := Split(path, "/");
    if |parts| == 1 {
      JoinSplit(path, "/");
      assert parts[..1] == parts;
      return [path];
    }
    ghost var all := parts;
    result := [];
    while parts != []
      invariant |parts| + |result| == |all| && parts == all[..|parts|]
      invariant forall i :: 0 <= i < |result| ==> result[i] == Join("/", all[..|all| - i])
      decreases |parts|
    {
      assert parts == all[..|all| - |result|];
      result := result + [Join("/", parts)];
      parts := parts[..|parts| - 1];
    }
  }

  method MatchesPath(np: NameParts, path: string) returns (b: bool)
    ensures b == PathMatches(np, path)
  {
    var subpaths := GetSubpaths(path);
    ghost var n := |subpaths|;
    var i := 0;
    while i < |subpaths|
      invariant 0 <= i <= |subpaths|
      invariant forall j :: 0 <= j < i ==> subpaths[j] !in np.paths
    {
      if subpaths[i] in np.paths {
        assert Join("/", Split(path, "/")[..n - i]) in np.paths;
        return true;
      }
      i := i + 1;
    }
    b := false;
    forall k | 1 <= k <= n ensures Join("/", Split(path, "/")[..k]) !in np.paths {
      assert subpaths[n - k] == Join("/", Split(path, "/")[..k]);
    }
  }

  /** The full path is always among the candidates; a single-component path is the only one. */
  lemma {:induction false} PathMatchesItself(np: NameParts, path: string)
    ensures path in np.paths ==> PathMatches(np, path)
    ensures |Split(path, "/")| == 1 ==> (PathMatches(np, path) <==> path in np.paths)
  {
    var parts := Split(path, "/");
    JoinSplit(path, "/");
    assert parts[..|parts|] == parts;
    if |parts| == 1 {
      assert parts[..1] == parts;
    }
  }
}
