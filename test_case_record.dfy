/** TestCaseRecord: one <testcase> element of a JUnit XML log, read from an abstract node. */
module TestCaseRecord {
  import opened Basics
  import opened Strings
  import TextHelper

  const STATUS_PASS := "pass"
  const STATUS_FAIL := "failure"
  const STATUS_ERROR := "error"
  const STATUS_SKIPPED := "skipped"

  /** A child node of a <testcase> element. */
  datatype XmlChild = XmlChild(nodeName: string, textContent: string)

  /** What the XML reader offers at a <testcase> element: the `name` and `time` attributes,
      whether `expand()` succeeds, the child nodes, and the element's text (`readString`). */
  datatype XmlNode = XmlNode(name: Option<string>, time: Option<int>, expands: bool, children: seq<XmlChild>, text: string)

  datatype Record = Record(name: string, time: int, status: string, message: string)

  function IsPassed(r: Record): bool { r.status == STATUS_PASS }
  function IsSkipped(r: Record): bool { r.status == STATUS_SKIPPED }
  function Hash(r: Record): string { r.name }

  predicate IsStatusNode(c: XmlChild) {
    c.nodeName == STATUS_FAIL || c.nodeName == STATUS_ERROR || c.nodeName == STATUS_SKIPPED
  }

  /** Each line stripped. */
  function Stripped(lines: seq<string>): (r: seq<string>)
    ensures |r| == |lines|
  {
    seq(|lines|, i requires 0 <= i < |lines| => TextHelper.Strip(lines[i]))
  }

  /** The lines up to the first empty one. */
  function TakeNonEmpty(ss: seq<string>): (r: seq<string>)
    ensures |r| <= |ss|
  {
    if ss == [] || ss[0] == "" then [] else [ss[0]] + TakeNonEmpty(ss[1..])
  }

  /** The lines parseMessage keeps: the stripped lines up to the first empty one. */
  function KeptLines(lines: seq<string>): (r: seq<string>)
    ensures |r| <= |lines|
  {
    TakeNonEmpty(Stripped(lines))
  }

  /** parseMessage: '' for an empty (or "0") text; otherwise the first line is dropped and
      the kept lines are joined with single spaces. */
  function Message(message: string): string {
    if IsEmptyText(message) then ""
    else Join(" ", KeptLines(Split(message, "\n")[1..]))
  }

  lemma TakeNonEmptyStep(ss: seq<string>, i: nat)
    requires i < |ss|
    ensures TakeNonEmpty(ss[i..]) == if ss[i] == "" then [] else [ss[i]] + TakeNonEmpty(ss[i + 1..])
  {
    assert ss[i..][0] == ss[i];
    assert ss[i..][1..] == ss[i + 1..];
  }

  method ParseMessage(message: string) returns (result: string)
    ensures result == Message(message)
  {
    if IsEmptyText(message) {
      return "";
    }
    var lines := Split(message, "\n")[1..];
    var kept := KeepLines(lines);
    result := Join(" ", kept);
  }

  /** parseMessage's loop: stripped lines are kept until the first empty one. */
  method KeepLines(lines: seq<string>) returns (kept: seq<string>)
    ensures kept == KeptLines(lines)
  {
    ghost var ss := Stripped(lines);
    kept := [];
    var i := 0;
    while i < |lines|
      invariant 0 <= i <= |lines|
      invariant TakeNonEmpty(ss) == kept + TakeNonEmpty(ss[i..])
    {
      var trimmedLine := TextHelper.Strip(lines[i]);
      assert trimmedLine == ss[i];
      TakeNonEmptyStep(ss, i);
      if trimmedLine == "" {
        break;
      }
      AppendOne(TakeNonEmpty(ss), kept, trimmedLine, TakeNonEmpty(ss[i + 1..]));
      kept := kept + [trimmedLine];
      i := i + 1;
    }
    assert i == |lines| ==> ss[i..] == [];
  }

  lemma AppendOne(all: seq<string>, kept: seq<string>, t: string, rest: seq<string>)
    requires all == kept + ([t] + rest)
    ensures all == (kept + [t]) + rest
  {
  }

  lemma {:induction false} JoinNoNewline(parts: seq<string>)
    requires forall i :: 0 <= i < |parts| ==> '\n' !in parts[i]
    ensures '\n' !in Join(" ", parts)
  {
    if |parts| > 1 { JoinNoNewline(parts[1..]); }
  }

  lemma {:induction false} TakeNonEmptyAt(ss: seq<string>, i: nat)
    requires i < |TakeNonEmpty(ss)|
    ensures TakeNonEmpty(ss)[i] == ss[i] && ss[i] != ""
  {
    if i > 0 {
      TakeNonEmptyAt(ss[1..], i - 1);
    }
  }

  lemma {:induction false} TakeNonEmptyStop(ss: seq<string>)
    ensures var r := TakeNonEmpty(ss); |r| < |ss| ==> ss[|r|] == ""
  {
    if ss != [] && ss[0] != "" {
      TakeNonEmptyStop(ss[1..]);
    }
  }

  /** Every kept line is a stripped, non-empty line of the input. */
  lemma KeptLinesStripped(lines: seq<string>)
    ensures var r := KeptLines(lines);
      forall i :: 0 <= i < |r| ==> r[i] == TextHelper.Strip(lines[i]) && r[i] != ""
  {
    forall i | 0 <= i < |KeptLines(lines)|
      ensures KeptLines(lines)[i] == TextHelper.Strip(lines[i]) && KeptLines(lines)[i] != ""
    {
      TakeNonEmptyAt(Stripped(lines), i);
    }
  }

  /** The kept lines stop at the first line that strips to nothing. */
  lemma KeptLinesStop(lines: seq<string>)
    ensures var r := KeptLines(lines); |r| < |lines| ==> TextHelper.Strip(lines[|r|]) == ""
  {
    TakeNonEmptyStop(Stripped(lines));
  }

  /** A parsed message is a single line. */
  lemma MessageSingleLine(message: string)
    ensures '\n' !in Message(message)
  {
    if !IsEmptyText(message) {
      var lines := Split(message, "\n")[1..];
      var kept := KeptLines(lines);
      KeptLinesStripped(lines);
      forall i | 0 <= i < |kept| ensures '\n' !in kept[i] {
        TextHelper.StripSingleSpaces(lines[i]);
        assert TextHelper.Clean(kept[i]);
      }
      JoinNoNewline(kept);
    }
  }

  /** The status a node's children decide: the first failure, error or skipped child. */
  function StatusChild(children: seq<XmlChild>): (r: Option<nat>)
    ensures r.Some? ==> (r.value < |children| && IsStatusNode(children[r.value])
      && forall j :: 0 <= j < r.value ==> !IsStatusNode(children[j]))
    ensures r.None? ==> forall j :: 0 <= j < |children| ==> !IsStatusNode(children[j])
  {
    if children == [] then None
    else if IsStatusNode(children[0]) then Some(0)
    else match StatusChild(children[1..]) case None => None case Some(k) => Some(k + 1)
  }

  /** The record the constructor builds, or the exception it throws. */
  function FromNode(node: XmlNode): Result<Record> {
    if node.name.None? then Throw(LogParserException("Can't parse a test name from the record: " + node.text))
    else if !node.expands then Throw(LogParserException("Can't parse the record: " + node.text))
    else
      var name := node.name.value;
      var time := node.time.GetOr(0);
      if node.children == [] then Ok(Record(name, time, STATUS_PASS, ""))
      else
        match StatusChild(node.children)
        case None => Throw(LogParserException("Can't parse a test status from the record: " + node.text))
        case Some(i) =>
          var c := node.children[i];
          if c.nodeName == STATUS_SKIPPED then Ok(Record(name, time, STATUS_SKIPPED, ""))
          else Ok(Record(name, time, c.nodeName, Message(c.textContent)))
  }

  /** The constructor and parseStatus, whose loop returns at the first status child. */
  method New(node: XmlNode) returns (r: Result<Record>)
    ensures r == FromNode(node)
  {
    if node.name.None? {
      return Throw(LogParserException("Can't parse a test name from the record: " + node.text));
    }
    var name := node.name.value;
    var time := node.time.GetOr(0);
    if !node.expands {
      return Throw(LogParserException("Can't parse the record: " + node.text));
    }
    if node.children == [] {
      return Ok(Record(name, time, STATUS_PASS, ""));
    }
    var found := FindStatusChild(node.children);
    if found.None? {
      return Throw(LogParserException("Can't parse a test status from the record: " + node.text));
    }
    var child := node.children[found.value];
    if child.nodeName == STATUS_SKIPPED {
      return Ok(Record(name, time, STATUS_SKIPPED, ""));
    }
    var message := ParseMessage(child.textContent);
    r := Ok(Record(name, time, child.nodeName, message));
  }

  /** parseStatus' loop over the children: it stops at the first status child. */
  method FindStatusChild(children: seq<XmlChild>) returns (found: Option<nat>)
    ensures found == StatusChild(children)
  {
    var i := 0;
    while i < |children|
      invariant 0 <= i <= |children|
      invariant forall j :: 0 <= j < i ==> !IsStatusNode(children[j])
    {
      if children[i].nodeName == STATUS_FAIL || children[i].nodeName == STATUS_ERROR
        || children[i].nodeName == STATUS_SKIPPED {
        return Some(i);
      }
      i := i + 1;
    }
    found := None;
  }

  /** A missing name always raises; otherwise the time defaults to 0 and a childless node passes. */
  lemma FromNodeBasics(node: XmlNode)
    ensures node.name.None? ==> FromNode(node).Throw? && FromNode(node).error.LogParserException?
    ensures FromNode(node).Ok? ==> (FromNode(node).value.name == node.name.value
      && FromNode(node).value.time == (if node.time.Some? then node.time.value else 0))
    ensures node.name.Some? && node.expands && node.children == [] ==> FromNode(node).Ok? && IsPassed(FromNode(node).value)
  {
  }

  /** The first status child decides: failure and error carry its parsed text, skipped carries
      none; children without any of those names raise. */
  lemma {:induction false} FromNodeStatus(node: XmlNode, i: nat)
    requires node.name.Some? && node.expands
    requires i < |node.children| && IsStatusNode(node.children[i])
    requires forall j :: 0 <= j < i ==> !IsStatusNode(node.children[j])
    ensures FromNode(node).Ok? && FromNode(node).value.status == node.children[i].nodeName
    ensures FromNode(node).value.message ==
      (if node.children[i].nodeName == STATUS_SKIPPED then "" else Message(node.children[i].textContent))
  {
    var s := StatusChild(node.children);
    assert s.Some?;
    assert IsStatusNode(node.children[s.value]) && IsStatusNode(node.children[i]);
  }
}
