/** TextHelper::strip: `trim(preg_replace('/\s+/', ' ', $text))`. */
module TextHelper {

  /** The characters PCRE's `\s` matches without the `u` flag. */
  predicate IsSpace(c: char) {
    c == ' ' || c == '\t' || c == '\n' || c == '\r' || c as int == 11 || c as int == 12
  }

  /** The characters `trim` removes by default (note: NUL, but not form feed). */
  predicate IsTrimmed(c: char) {
    c == ' ' || c == '\t' || c == '\n' || c == '\r' || c == '\0' || c as int == 11
  }

  /** Drops the leading run of `\s` characters. */
  function DropSpaces(s: string): (r: string)
    ensures |r| <= |s| && r == s[|s| - |r|..]
    ensures r == [] || !IsSpace(r[0])
    ensures forall i :: 0 <= i < |s| - |r| ==> IsSpace(s[i])
  {
    if s != [] && IsSpace(s[0]) then DropSpaces(s[1..]) else s
  }

  /** A `\s` character shows as a space. */
  function Shown(c: char): char {
    if IsSpace(c) then ' ' else c
  }

  /** Every character in order, `\s` shown as a space, leaving out each `\s` character that
      another one follows: each maximal whitespace run is one space. */
  function SingleSpaced(s: string): string {
    if s == [] then []
    else (if IsSpace(s[0]) && |s| > 1 && IsSpace(s[1]) then [] else [Shown(s[0])]) + SingleSpaced(s[1..])
  }

  /** A whitespace run at the front is one space. */
  lemma {:induction false} SingleSpacedRun(s: string)
    requires s != [] && IsSpace(s[0])
    ensures SingleSpaced(s) == [' '] + SingleSpaced(DropSpaces(s))
    decreases |s|
  {
    if |s| > 1 && IsSpace(s[1]) {
      SingleSpacedRun(s[1..]);
    } else {
      assert DropSpaces(s[1..]) == s[1..];
    }
  }

  /** `preg_replace('/\s+/', ' ', $s)`: every maximal run of `\s` becomes one space. */
  function Collapse(s: string): (r: string)
    ensures s != [] && !IsSpace(s[0]) ==> r != [] && r[0] == s[0]
    ensures s != [] && IsSpace(s[0]) ==> r != [] && r[0] == ' '
    ensures s == [] <==> r == []
    decreases |s|
  {
    if s == [] then []
    else if IsSpace(s[0]) then [' '] + Collapse(DropSpaces(s))
    else [s[0]] + Collapse(s[1..])
  }

  /** The replacement is the single-spaced text: every character in order, each maximal
      whitespace run one space. */
  lemma {:induction false} CollapseSingleSpaced(s: string)
    ensures Collapse(s) == SingleSpaced(s)
    decreases |s|
  {
    if s != [] {
      if IsSpace(s[0]) {
        SingleSpacedRun(s);
        CollapseSingleSpaced(DropSpaces(s));
      } else {
        CollapseSingleSpaced(s[1..]);
      }
    }
  }

  function TrimLeft(s: string): (r: string)
    ensures |r| <= |s| && r == s[|s| - |r|..]
    ensures r == [] || !IsTrimmed(r[0])
    ensures forall i :: 0 <= i < |s| - |r| ==> IsTrimmed(s[i])
  {
    if s != [] && IsTrimmed(s[0]) then TrimLeft(s[1..]) else s
  }

  function TrimRight(s: string): (r: string)
    ensures |r| <= |s| && r == s[..|r|]
    ensures r == [] || !IsTrimmed(r[|r| - 1])
    ensures forall i :: |r| <= i < |s| ==> IsTrimmed(s[i])
  {
    if s != [] && IsTrimmed(s[|s| - 1]) then TrimRight(s[..|s| - 1]) else s
  }

  function Trim(s: string): string {
    TrimRight(TrimLeft(s))
  }

  function Strip(text: string): string {
    Trim(Collapse(text))
  }

  /** Whitespace appears only as single spaces. */
  predicate Clean(r: string) {
    (forall i :: 0 <= i < |r| && IsSpace(r[i]) ==> r[i] == ' ')
    && (forall i :: 0 <= i < |r| - 1 && r[i] == ' ' ==> r[i + 1] != ' ')
  }

  /** The characters of `s` that are not `\s`, in order. */
  function NonSpaces(s: string): string {
    if s == [] then [] else (if IsSpace(s[0]) then [] else [s[0]]) + NonSpaces(s[1..])
  }

  lemma {:induction false} NonSpacesAppend(a: string, b: string)
    ensures NonSpaces(a + b) == NonSpaces(a) + NonSpaces(b)
  {
    if a != [] {
      assert (a + b)[1..] == a[1..] + b;
      NonSpacesAppend(a[1..], b);
    } else {
      assert a + b == b;
    }
  }

  lemma {:induction false} NonSpacesOfSpaces(s: string)
    requires forall i :: 0 <= i < |s| ==> IsSpace(s[i])
    ensures NonSpaces(s) == []
  {
    if s != [] { NonSpacesOfSpaces(s[1..]); }
  }

  /** A clean text stays clean behind a character that is not a whitespace character other
      than a space, and that is not a space in front of a space. */
  lemma ConsClean(x: char, c: string)
    requires Clean(c) && (IsSpace(x) ==> x == ' ') && (x == ' ' ==> c == [] || c[0] != ' ')
    ensures Clean([x] + c)
  {
    var r := [x] + c;
    forall i | 0 < i < |r| ensures r[i] == c[i - 1] {
    }
  }

  lemma {:induction false} CollapseClean(s: string)
    ensures Clean(Collapse(s))
    decreases |s|
  {
    if s != [] {
      if IsSpace(s[0]) {
        var t := DropSpaces(s);
        CollapseClean(t);
        ConsClean(' ', Collapse(t));
      } else {
        CollapseClean(s[1..]);
        ConsClean(s[0], Collapse(s[1..]));
      }
    }
  }

  lemma {:induction false} CollapseNonSpaces(s: string)
    ensures NonSpaces(Collapse(s)) == NonSpaces(s)
    decreases |s|
  {
    if s == [] {
    } else if IsSpace(s[0]) {
      var t := DropSpaces(s);
      CollapseNonSpaces(t);
      var k := |s| - |t|;
      assert s == s[..k] + t;
      NonSpacesOfSpaces(s[..k]);
      NonSpacesAppend(s[..k], t);
      NonSpacesAppend([' '], Collapse(t));
    } else {
      CollapseNonSpaces(s[1..]);
      NonSpacesAppend([s[0]], Collapse(s[1..]));
    }
  }

  lemma {:induction false} CollapseOfClean(r: string)
    requires Clean(r)
    ensures Collapse(r) == r
    decreases |r|
  {
    if r != [] {
      CleanSlice(r, 1, |r|);
      assert r[1..] == [] || r[1..][0] == r[1];
      if IsSpace(r[0]) {
        assert r[0] == ' ';
        assert |r| == 1 || !IsSpace(r[1]);
        assert DropSpaces(r) == r[1..];
      }
      CollapseOfClean(r[1..]);
      assert Collapse(r) == [r[0]] + r[1..];
    }
  }

  lemma CleanSlice(r: string, i: nat, j: nat)
    requires Clean(r) && i <= j <= |r|
    ensures Clean(r[i..j])
  {
    assert forall k :: 0 <= k < j - i ==> r[i..j][k] == r[i + k];
  }

  lemma TrimOfClean(r: string)
    requires Clean(r)
    ensures Clean(Trim(r))
  {
    var l := TrimLeft(r);
    CleanSlice(r, |r| - |l|, |r|);
    CleanSlice(l, 0, |TrimRight(l)|);
  }

  /** The contents of a string no `trim` changes. */
  lemma TrimStable(r: string)
    requires r == [] || (!IsTrimmed(r[0]) && !IsTrimmed(r[|r| - 1]))
    ensures Trim(r) == r
  {
  }

  /** The result starts and ends with neither whitespace nor anything `trim` removes. */
  lemma StripEdges(text: string)
    ensures var r := Strip(text);
      r == [] || (!IsSpace(r[0]) && !IsSpace(r[|r| - 1]) && !IsTrimmed(r[0]) && !IsTrimmed(r[|r| - 1]))
  {
    var c := Collapse(text);
    CollapseClean(c);
    CollapseClean(text);
    TrimOfClean(c);
    var r := Strip(text);
    var l := TrimLeft(c);
    if r != [] {
      assert r[0] == l[0];
    }
  }

  /** Every whitespace run of the result is exactly one space. */
  lemma {:induction false} StripSingleSpaces(text: string)
    ensures Clean(Strip(text))
  {
    CollapseClean(text);
    TrimOfClean(Collapse(text));
  }

  lemma {:induction false} StripIdempotent(text: string)
    ensures Strip(Strip(text)) == Strip(text)
  {
    var r := Strip(text);
    StripSingleSpaces(text);
    StripEdges(text);
    CollapseOfClean(r);
    TrimStable(r);
  }

  /** Empty or whitespace-only input strips to the empty string. */
  lemma {:induction false} StripBlank(text: string)
    requires forall i :: 0 <= i < |text| ==> IsSpace(text[i])
    ensures Strip(text) == ""
  {
    if text != [] {
      assert DropSpaces(text) == [];
      assert Collapse(text) == [' '];
    }
  }

  lemma {:induction false} TrimLeftNonSpaces(r: string)
    requires '\0' !in r
    ensures NonSpaces(TrimLeft(r)) == NonSpaces(r) && '\0' !in TrimLeft(r)
  {
    if r != [] && IsTrimmed(r[0]) {
      assert r[0] != '\0';
      assert r == [r[0]] + r[1..];
      NonSpacesAppend([r[0]], r[1..]);
      TrimLeftNonSpaces(r[1..]);
    }
  }

  lemma {:induction false} TrimRightNonSpaces(r: string)
    requires '\0' !in r
    ensures NonSpaces(TrimRight(r)) == NonSpaces(r)
  {
    if r != [] && IsTrimmed(r[|r| - 1]) {
      var init := r[..|r| - 1];
      assert r[|r| - 1] != '\0';
      assert r == init + [r[|r| - 1]];
      NonSpacesAppend(init, [r[|r| - 1]]);
      TrimRightNonSpaces(init);
    }
  }

  lemma TrimNonSpaces(r: string)
    requires '\0' !in r
    ensures NonSpaces(Trim(r)) == NonSpaces(r)
  {
    TrimLeftNonSpaces(r);
    TrimRightNonSpaces(TrimLeft(r));
  }

  lemma {:induction false} CollapseNoNul(s: string)
    requires '\0' !in s
    ensures '\0' !in Collapse(s)
    decreases |s|
  {
    if s == [] {
    } else if IsSpace(s[0]) {
      var t := DropSpaces(s);
      CollapseNoNul(t);
    } else {
      CollapseNoNul(s[1..]);
    }
  }

  /** Without NUL characters (which `trim` also removes at the ends), the non-whitespace
      characters survive in order. */
  lemma {:induction false} StripKeepsNonSpaces(text: string)
    requires '\0' !in text
    ensures NonSpaces(Strip(text)) == NonSpaces(text)
  {
    CollapseClean(text);
    CollapseNoNul(text);
    TrimNonSpaces(Collapse(text));
    CollapseNonSpaces(text);
  }

  /** Drops the trailing run of `\s` characters. */
  function DropTrailingSpaces(s: string): (r: string)
    ensures |r| <= |s| && r == s[..|r|]
    ensures r == [] || !IsSpace(r[|r| - 1])
    ensures forall i :: |r| <= i < |s| ==> IsSpace(s[i])
  {
    if s != [] && IsSpace(s[|s| - 1]) then DropTrailingSpaces(s[..|s| - 1]) else s
  }

  /** Single-spacing splits where no whitespace run is cut in two. */
  lemma {:induction false} SingleSpacedAppend(a: string, b: string)
    requires a == [] || b == [] || !IsSpace(a[|a| - 1]) || !IsSpace(b[0])
    ensures SingleSpaced(a + b) == SingleSpaced(a) + SingleSpaced(b)
  {
    if a == [] {
      assert a + b == b;
    } else {
      assert (a + b)[0] == a[0] && (a + b)[1..] == a[1..] + b;
      if |a| > 1 {
        assert (a + b)[1] == a[1];
      }
      var h := if IsSpace(a[0]) && |a| > 1 && IsSpace(a[1]) then [] else [Shown(a[0])];
      assert SingleSpaced(a) == h + SingleSpaced(a[1..]);
      assert SingleSpaced(a + b) == h + SingleSpaced(a[1..] + b);
      SingleSpacedAppend(a[1..], b);
    }
  }

  /** A non-empty all-whitespace text is one space. */
  lemma {:induction false} SingleSpacedBlank(s: string)
    requires s != [] && forall i :: 0 <= i < |s| ==> IsSpace(s[i])
    ensures SingleSpaced(s) == [' ']
  {
    SingleSpacedRun(s);
    assert DropSpaces(s) == [];
  }

  /** Single-spacing keeps a non-whitespace first and last character. */
  lemma SingleSpacedEnds(m: string)
    requires m != [] && !IsSpace(m[0]) && !IsSpace(m[|m| - 1])
    ensures var r := SingleSpaced(m); r != [] && r[0] == m[0] && r[|r| - 1] == m[|m| - 1]
  {
    var init, last := m[..|m| - 1], m[|m| - 1];
    assert m == init + [last];
    SingleSpacedAppend(init, [last]);
    assert SingleSpaced([last]) == [last];
  }

  lemma TrimLeftPad(x: string, y: string)
    requires x == [] || x == [' ']
    requires y != [] && !IsTrimmed(y[0])
    ensures TrimLeft(x + y) == y
  {
    var s := x + y;
    if x == [] {
      assert s == y;
    } else {
      assert s[0] == ' ' && IsTrimmed(s[0]) && s[1..] == y;
      assert TrimLeft(s) == TrimLeft(y);
    }
  }

  lemma TrimRightPad(y: string, z: string)
    requires z == [] || z == [' ']
    requires y != [] && !IsTrimmed(y[|y| - 1])
    ensures TrimRight(y + z) == y
  {
    var s := y + z;
    if z == [] {
      assert s == y;
    } else {
      assert s[|s| - 1] == ' ' && IsTrimmed(s[|s| - 1]) && s[..|s| - 1] == y;
      assert TrimRight(s) == TrimRight(y);
    }
  }

  /** The text without its leading and trailing whitespace. */
  function Inner(text: string): string {
    DropTrailingSpaces(DropSpaces(text))
  }

  /** Without NUL characters (which `trim` also removes at the ends), strip is the text
      without its leading and trailing whitespace, each inner whitespace run made one space
      and every other character kept in order. */
  lemma StripShape(text: string)
    requires '\0' !in text
    ensures Strip(text) == SingleSpaced(Inner(text))
  {
    var x := DropSpaces(text);
    StripLeading(text);
    SuffixLacks('\0', text, |text| - |x|);
    StripTrailing(x);
  }

  lemma SuffixLacks(c: char, s: string, n: nat)
    requires c !in s && n <= |s|
    ensures c !in s[n..]
  {
    assert forall i :: 0 <= i < |s| - n ==> s[n..][i] == s[n + i];
  }

  /** Leading whitespace does not change strip. */
  lemma StripLeading(s: string)
    ensures Strip(s) == Strip(DropSpaces(s))
  {
    if s != [] && IsSpace(s[0]) {
      var t := DropSpaces(s);
      var ct := Collapse(t);
      assert Collapse(s) == [' '] + ct;
      assert ([' '] + ct)[1..] == ct;
      assert TrimLeft([' '] + ct) == TrimLeft(ct);
    }
  }

  /** A text that starts without whitespace strips to its single-spaced form without the
      trailing whitespace. */
  lemma StripTrailing(x: string)
    requires '\0' !in x && (x == [] || !IsSpace(x[0]))
    ensures Strip(x) == SingleSpaced(DropTrailingSpaces(x))
  {
    var m := DropTrailingSpaces(x);
    if m == [] {
      assert x == [];
    } else {
      var n := |m|;
      assert m[n - 1] == x[n - 1] && x[0] in x && x[n - 1] in x;
      StripAt(x, n);
    }
  }

  /** The split of StripTrailing at the end `n` of the last non-whitespace character. */
  lemma StripAt(x: string, n: nat)
    requires 0 < n <= |x| && !IsSpace(x[0]) && !IsSpace(x[n - 1]) && x[0] != '\0' && x[n - 1] != '\0'
    requires forall i :: n <= i < |x| ==> IsSpace(x[i])
    ensures Strip(x) == SingleSpaced(x[..n])
  {
    var m, r := x[..n], x[n..];
    assert x == m + r;
    TailSpaces(x, n);
    StripTail(m, r);
  }

  lemma TailSpaces(x: string, n: nat)
    requires n <= |x| && forall i :: n <= i < |x| ==> IsSpace(x[i])
    ensures forall i :: 0 <= i < |x| - n ==> IsSpace(x[n..][i])
  {
    assert forall i :: 0 <= i < |x| - n ==> x[n..][i] == x[n + i];
  }

  /** Trailing whitespace after a text with non-whitespace ends strips away. */
  lemma StripTail(m: string, r: string)
    requires forall i :: 0 <= i < |r| ==> IsSpace(r[i])
    requires m != [] && !IsSpace(m[0]) && !IsSpace(m[|m| - 1]) && m[0] != '\0' && m[|m| - 1] != '\0'
    ensures Strip(m + r) == SingleSpaced(m)
  {
    var sr: string := if r == [] then [] else [' '];
    if r != [] {
      SingleSpacedBlank(r);
    }
    SingleSpacedAppend(m, r);
    CollapseSingleSpaced(m + r);
    SingleSpacedEnds(m);
    TrimPadded([], SingleSpaced(m), sr);
    assert [] + (SingleSpaced(m) + sr) == SingleSpaced(m + r);
  }

  lemma TrimPadded(sl: string, sm: string, sr: string)
    requires sl == [] || sl == [' ']
    requires sr == [] || sr == [' ']
    requires sm != [] && !IsTrimmed(sm[0]) && !IsTrimmed(sm[|sm| - 1])
    ensures Trim(sl + (sm + sr)) == sm
  {
    TrimLeftPad(sl, sm + sr);
    TrimRightPad(sm, sr);
  }
}
