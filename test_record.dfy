/** TestRecord: one "test" event of Codeception's JSON log. */
module TestRecord {
  import opened Basics
  import opened Strings

  const STATUS_PASS := "pass"
  const STATUS_FAIL := "fail"
  const STATUS_ERROR := "error"
  const STATUS_SKIPPED := "skipped"

  /** A step of a record's `trace` array. */
  datatype TraceStep = TraceStep(functionName: Option<string>)

  /** A decoded JSON record; every key may be absent. `test` is the decoded array whose
      second element is the test's title. */
  datatype RawRecord = RawRecord(
    event: Option<string>,
    test: Option<seq<string>>,
    status: Option<string>,
    time: Option<int>,
    message: Option<string>,
    trace: Option<seq<TraceStep>>)

  datatype Record = Record(test: string, status: string, time: int, message: string)

  /** `$record['test'][1] ?? ''`. */
  function TestTitle(raw: RawRecord): string {
    if raw.test.Some? && |raw.test.value| > 1 then raw.test.value[1] else ""
  }

  /** `reset($trace)['function'] ?? ''`: the first step's function, '' without steps. */
  function FirstTraceFunction(raw: RawRecord): string {
    var trace := raw.trace.GetOr([]);
    if trace == [] then "" else trace[0].functionName.GetOr("")
  }

  /** checkIfSkipped, applied by the constructor to an 'error' record. */
  function CheckIfSkipped(status: string, raw: RawRecord): string {
    if FirstTraceFunction(raw) == "markTestSkipped" then STATUS_SKIPPED else status
  }

  /** The constructor: defaults for absent keys, then an 'error' caused by markTestSkipped
      becomes 'skipped'. */
  function FromRaw(raw: RawRecord): Record {
    var status := raw.status.GetOr("");
    Record(
      TestTitle(raw),
      if status == STATUS_ERROR then CheckIfSkipped(status, raw) else status,
      raw.time.GetOr(0),
      raw.message.GetOr(""))
  }

  function IsPassed(r: Record): bool { r.status == STATUS_PASS }
  function IsSkipped(r: Record): bool { r.status == STATUS_SKIPPED }
  function Hash(r: Record): string { r.test }

  /** getMethod: the last space-separated token of the title. The source memoises it in a
      field, which is invisible here because the title never changes. */
  function GetMethod(r: Record): string {
    LastPart(r.test, " ")
  }

  /** Absent keys give '' for the title, status and message and 0 for the time. */
  lemma FromRawDefaults(raw: RawRecord)
    ensures raw.test.None? ==> FromRaw(raw).test == ""
    ensures raw.status.None? ==> FromRaw(raw).status == ""
    ensures raw.time.None? ==> FromRaw(raw).time == 0
    ensures raw.message.None? ==> FromRaw(raw).message == ""
  {
  }

  /** Only an 'error' whose first trace step is markTestSkipped changes status; every other
      record keeps the status it was logged with. */
  lemma FromRawStatus(raw: RawRecord)
    ensures var s := raw.status.GetOr("");
      FromRaw(raw).status ==
        (if s == STATUS_ERROR && FirstTraceFunction(raw) == "markTestSkipped" then STATUS_SKIPPED else s)
    ensures IsSkipped(FromRaw(raw)) <==> (raw.status == Some(STATUS_SKIPPED)
      || (raw.status == Some(STATUS_ERROR) && FirstTraceFunction(raw) == "markTestSkipped"))
  {
  }

  /** The method is the text after the last space, e.g. "NotDividableCest: Test02" gives "Test02". */
  lemma GetMethodIsLastToken(r: Record)
    ensures ' ' !in GetMethod(r)
    ensures EndsWith(r.test, GetMethod(r))
    ensures GetMethod(r) != r.test ==> EndsWith(r.test, " " + GetMethod(r))
  {
    SplitLast(r.test, " ");
    NotContainsChar(GetMethod(r), ' ');
  }
}
