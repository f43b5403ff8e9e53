/** JsonLogParser: the "test" events of a Codeception JSON log, keyed by test title. */
module JsonLogParser {
  import opened Basics
  import opened TestRecord

  /** The outcome of `json_decode`: malformed text, or the decoded list of records. */
  datatype JsonText = Malformed | Decoded(records: seq<RawRecord>)

  /** The parsed log: a `Ds\Map` from titles to records. */
  type TestMap = m: OrderedMap<Record> | ValidMap(m) witness OrderedMap([], map[])

  predicate IsTestEvent(raw: RawRecord) {
    raw.event == Some("test")
  }

  /** The map parseLog builds from the records, in log order. */
  function ParseLog(log: seq<RawRecord>): (m: TestMap)
    ensures ValidMap(m)
  {
    if log == [] then EmptyMap()
    else
      var prev := ParseLog(log[..|log| - 1]);
      var raw := log[|log| - 1];
      if IsTestEvent(raw) then
        var record := FromRaw(raw);
        Put(prev, Hash(record), record)
      else prev
  }

  /** The constructor: a decoding failure is thrown, otherwise the records are parsed. */
  function Parse(json: JsonText): Result<TestMap> {
    match json
    case Malformed => Throw(JsonException)
    case Decoded(log) => Ok(ParseLog(log))
  }

  /** parseLog's loop over the decoded records. */
  method New(json: JsonText) returns (r: Result<TestMap>)
    ensures r == Parse(json)
  {
    if json.Malformed? {
      return Throw(JsonException);
    }
    var log := json.records;
    var tests: TestMap := EmptyMap();
    var i := 0;
    while i < |log|
      invariant 0 <= i <= |log|
      invariant tests == ParseLog(log[..i])
    {
      var raw := log[i];
      assert log[..i + 1][..i] == log[..i];
      var event := raw.event.GetOr("");
      if event == "test" {
        var testRecord := FromRaw(raw);
        tests := Put(tests, Hash(testRecord), testRecord);
      }
      i := i + 1;
    }
    assert log[..i] == log;
    r := Ok(tests);
  }

  /** The keys are exactly the titles of the "test" events: every other record, including
      one without an event, is ignored. */
  lemma {:induction false} ParseLogKeys(log: seq<RawRecord>)
    ensures forall k :: k in ParseLog(log).values <==>
      exists i :: 0 <= i < |log| && IsTestEvent(log[i]) && FromRaw(log[i]).test == k
  {
    if log != [] {
      var init := log[..|log| - 1];
      ParseLogKeys(init);
      forall k | k in ParseLog(log).values
        ensures exists i :: 0 <= i < |log| && IsTestEvent(log[i]) && FromRaw(log[i]).test == k
      {
        if k in ParseLog(init).values {
          var i :| 0 <= i < |init| && IsTestEvent(init[i]) && FromRaw(init[i]).test == k;
          assert log[i] == init[i];
        } else {
          assert IsTestEvent(log[|log| - 1]) && FromRaw(log[|log| - 1]).test == k;
        }
      }
      forall k | exists i :: 0 <= i < |log| && IsTestEvent(log[i]) && FromRaw(log[i]).test == k
        ensures k in ParseLog(log).values
      {
        var i :| 0 <= i < |log| && IsTestEvent(log[i]) && FromRaw(log[i]).test == k;
        if i < |init| {
          assert init[i] == log[i];
        }
      }
    }
  }

  /** A title maps to the record of its last "test" event. */
  lemma {:induction false} ParseLogLastWins(log: seq<RawRecord>, i: nat)
    requires i < |log| && IsTestEvent(log[i])
    requires forall j :: i < j < |log| && IsTestEvent(log[j]) ==> FromRaw(log[j]).test != FromRaw(log[i]).test
    ensures var k := FromRaw(log[i]).test;
      k in ParseLog(log).values && ParseLog(log).values[k] == FromRaw(log[i])
  {
    var init := log[..|log| - 1];
    if i < |log| - 1 {
      assert init[i] == log[i];
      forall j | i < j < |init| && IsTestEvent(init[j]) ensures FromRaw(init[j]).test != FromRaw(init[i]).test {
        assert init[j] == log[j];
      }
      ParseLogLastWins(init, i);
    }
  }

  /** Titles keep the place of their first "test" event. */
  lemma {:induction false} ParseLogKeyOrder(log: seq<RawRecord>, n: nat)
    requires n <= |log|
    ensures ParseLog(log[..n]).keys <= ParseLog(log).keys
    decreases |log| - n
  {
    if n < |log| {
      var next := log[..n + 1];
      assert next[..n] == log[..n];
      ParseLogKeyOrder(log, n + 1);
      assert log[..n + 1][..n] == log[..n];
    } else {
      assert log[..n] == log;
    }
  }

  /** An empty log gives an empty map; malformed text throws. */
  lemma ParseEdges(json: JsonText)
    ensures json == Decoded([]) ==> Parse(json) == Ok(EmptyMap())
    ensures json.Malformed? <==> Parse(json).Throw?
    ensures Parse(json).Throw? ==> Parse(json).error == JsonException
  {
  }
}
