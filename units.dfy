/** The units a lane runs, kept in one table so that a unit shared between several queues
    (an exploded cluster's child is both in the cluster and in a lane) is one object: a
    reference is an Id and an update in place is a table update. Here also the
    ClusterCestWrapper, which runs a whole cest first and then only its failed tests. */
module Units {
  import opened Basics
  import opened Strings
  import NP = TestNameParts
  import TR = TestRecord
  import Settings
  import opened RunnerCore
  import W = Wrapper
  import Delayer

  type Id = nat

  /** A reference to a unit: a single test or cest wrapper, or a cluster cest. */
  datatype UnitRef = LeafRef(id: Id) | ClusterRef(id: Id)

  /** The fields of a ClusterCestWrapper. `cest` is its own (bomblet) cest wrapper;
      `failedTests` refer to the bomblet test wrappers it made; the durations are whole
      seconds; `prevFailedCount` is previousRunFailedTestsCount. */
  datatype Cluster = Cluster(
    cest: W.Leaf,
    actualGroups: seq<string>,
    failedTests: seq<Id>,
    runner: Option<RunnerState<Id>>,
    output: string,
    errorOutput: string,
    status: string,
    expected: int,
    actual: int,
    hasPassedThisRun: bool,
    prevFailedCount: nat)

  /** The table of wrapper objects; `nextId` is the next unused reference. */
  datatype World = World(leaves: map<Id, W.Leaf>, clusters: map<Id, Cluster>, nextId: nat)

  /** What the outside world reports during one sweep: the clock in milliseconds, the
      readings the delayer takes if it is asked, each process's state by the id of its
      wrapper, and the plain-text message of a record. */
  datatype Env = Env(nowMs: nat, delayerClock: Delayer.Readings, obs: Id -> W.ProcObs, plain: TR.Record -> string)

  /** The clock readings (seconds) of the delayer. */
  function Now(env: Env): Delayer.Readings { env.delayerClock }

  /** Every reference in use is below `nextId`. */
  predicate GoodWorld(w: World) {
    (forall id :: id in w.leaves ==> id < w.nextId) && (forall id :: id in w.clusters ==> id < w.nextId)
  }

  const DefaultLeaf := W.NewTest("", "", false, 0)

  function GetLeaf(w: World, id: Id): W.Leaf {
    if id in w.leaves then w.leaves[id] else DefaultLeaf
  }

  function SetLeaf(w: World, id: Id, l: W.Leaf): (r: World)
    ensures GetLeaf(r, id) == l && r.clusters == w.clusters && r.nextId == w.nextId
  {
    w.(leaves := w.leaves[id := l])
  }

  /** A new bomblet test wrapper under the next free reference, its log stamp the id. */
  function AddLeaf(w: World, cestName: string, methodName: string): (r: (World, Id))
    ensures r.1 == w.nextId && r.0.nextId == w.nextId + 1 && r.0.clusters == w.clusters
    ensures GetLeaf(r.0, r.1) == W.NewTest(cestName, methodName, true, w.nextId)
    ensures forall id :: id != r.1 ==> GetLeaf(r.0, id) == GetLeaf(w, id)
    ensures GoodWorld(w) ==> GoodWorld(r.0) && r.1 !in w.leaves
  {
    var id := w.nextId;
    (World(w.leaves[id := W.NewTest(cestName, methodName, true, id)], w.clusters, id + 1), id)
  }

  // ---------------------------------------------------------------------------------
  // The leaf wrappers as lane units.

  function LeafStart(w: World, id: Id, cfg: Settings.Config, nowMs: nat): World {
    SetLeaf(w, id, W.Start(GetLeaf(w, id), cfg, nowMs))
  }

  function LeafPoll(w: World, id: Id, cfg: Settings.Config, env: Env, dn: real): PollResult<World> {
    var p := W.Poll(GetLeaf(w, id), cfg, env.obs(id), Now(env), dn);
    PollResult(SetLeaf(w, id, p.leaf), p.running, p.delayNext)
  }

  function LeafDuration(w: World, id: Id): (World, Option<int>) {
    var (l, d) := W.ActualDuration(GetLeaf(w, id));
    (SetLeaf(w, id, l), d)
  }

  function LeafOps(cfg: Settings.Config, env: Env): Ops<World, Id> {
    Ops((w, id) => LeafStart(w, id, cfg, env.nowMs),
        (w, id, dn) => LeafPoll(w, id, cfg, env, dn),
        (w, id) => W.IsSuccessful(GetLeaf(w, id)),
        (w, id) => W.IsTimedOut(GetLeaf(w, id)),
        (w, id) => W.Hash(GetLeaf(w, id)),
        (w, id) => LeafDuration(w, id))
  }

  // ---------------------------------------------------------------------------------
  // ClusterCestWrapper.

  /** The constructor: the inner cest is a bomblet cest wrapper. */
  function NewCluster(cestName: string, actualGroups: seq<string>, expectedGroups: Option<seq<string>>, stamp: nat): Cluster {
    Cluster(W.NewCest(cestName, actualGroups, expectedGroups, true, stamp), actualGroups, [], None,
      "", "", "", 0, 0, false, 0)
  }

  function ClusterReset(c: Cluster): Cluster {
    c.(output := "", errorOutput := "", status := "", runner := None, hasPassedThisRun := false, prevFailedCount := 0)
  }

  predicate IsFirstRun(c: Cluster) { c.runner.None? }

  /** start: the whole cest when no failures are remembered, else an inner runner over them. */
  function ClusterStart(c: Cluster, cfg: Settings.Config, nowMs: nat): Cluster {
    var c1 := ClusterReset(c).(prevFailedCount := |c.failedTests|);
    if c.failedTests == [] then c1.(cest := W.Start(c.cest, cfg, nowMs))
    else c1.(runner := Some(NewRunner(c.failedTests, "(RERUN)")))
  }

  /** The sum of the times of a cest's records. */
  function SumTimes(records: seq<TR.Record>): int {
    if records == [] then 0 else SumTimes(records[..|records| - 1]) + records[|records| - 1].time
  }

  /** The sum of the passed durations, a null one counting as 0. */
  function SumDurations(ds: seq<Option<int>>): int {
    if ds == [] then 0 else SumDurations(ds[..|ds| - 1]) + OrZero(ds[|ds| - 1])
  }

  function AtLeastOne(x: int): (r: int)
    ensures r >= 1 && (x > 0 ==> r == x)
  {
    if x > 0 then x else 1
  }

  /** updateActualDuration and updateExpectedDuration after the first run. */
  function AfterFirstRun(c: Cluster): Cluster
    requires W.IsCest(c.cest)
  {
    var passedTime := SumTimes(c.cest.kind.cest.passed);
    var actual := c.actual + passedTime;
    if c.cest.expected.None? then c.(actual := actual)
    else c.(actual := actual, expected := AtLeastOne(c.cest.expected.value - passedTime))
  }

  /** The same two after a rerun, from the inner runner's passed durations. */
  function AfterRerun(c: Cluster, passed: Durations): Cluster {
    var passedTime := SumDurations(Values(passed));
    var actual := c.actual + passedTime;
    if c.cest.expected.None? then c.(actual := actual)
    else c.(actual := actual, expected := AtLeastOne(c.expected - passedTime))
  }

  /** parseFailedTestRecords: one new bomblet test wrapper per failed record, pushed in
      record order. */
  function AddFailedTests(w: World, cestName: string, records: seq<TR.Record>): (r: (World, seq<Id>))
    ensures |r.1| == |records| && r.0.clusters == w.clusters
  {
    if records == [] then (w, [])
    else
      var (w1, ids) := AddFailedTests(w, cestName, records[..|records| - 1]);
      var (w2, id) := AddLeaf(w1, cestName, TR.GetMethod(records[|records| - 1]));
      (w2, ids + [id])
  }

  /** parseFailedTestRecords as written: it asks each failed record for `getName()`, an
      accessor of the XML test-case records, while the records it receives come from the JSON
      log and only know `getMethod()`; the first failed record raises an error. `None` is that
      error. */
  function AddFailedTestsAsWritten(w: World, cestName: string, records: seq<TR.Record>): (r: Option<(World, seq<Id>)>)
    ensures r.Some? ==> r.value == (w, [])
  {
    if records == [] then Some((w, [])) else None
  }

  /** The as-written step aborts exactly when the cest had a failing test, that is exactly when
      the intended step (AddFailedTests) would create a test to rerun. */
  lemma AsWrittenFailsOnFailures(w: World, cestName: string, records: seq<TR.Record>)
    ensures AddFailedTestsAsWritten(w, cestName, records).None? <==> |AddFailedTests(w, cestName, records).1| > 0
  {
  }

  datatype Collected = Collected(world: World, outputs: seq<string>, errorOutputs: seq<string>, statuses: seq<string>)

  /** The per-test strings collectStrings gathers; reading a status memoises it. */
  function Collect(w: World, ids: seq<Id>, cfg: Settings.Config, plain: TR.Record -> string): (r: Collected)
    ensures |r.outputs| == |ids| && |r.errorOutputs| == |ids| && |r.statuses| == |ids|
    ensures r.world.clusters == w.clusters && r.world.nextId == w.nextId
  {
    if ids == [] then Collected(w, [], [], [])
    else
      var prev := Collect(w, ids[..|ids| - 1], cfg, plain);
      var id := ids[|ids| - 1];
      var l := GetLeaf(prev.world, id);
      var (l1, status) := W.StatusDescription(l, cfg, plain);
      Collected(SetLeaf(prev.world, id, l1), prev.outputs + [W.Output(l)], prev.errorOutputs + [W.ErrorOutput(l)],
        prev.statuses + [W.Hash(l) + ": " + status])
  }

  function NonEmpty(s: seq<string>): (r: seq<string>)
    ensures forall x :: x in r <==> x in s && x != ""
  {
    if s == [] then []
    else
      assert forall x :: x in s <==> x == s[0] || x in s[1..];
      (if s[0] == "" then [] else [s[0]]) + NonEmpty(s[1..])
  }

  /** collectStrings: the failed tests are kept and their non-empty outputs, error outputs
      and statuses become the cluster's, one per line. */
  function CollectInto(w: World, c: Cluster, ids: seq<Id>, cfg: Settings.Config, plain: TR.Record -> string): (World, Cluster) {
    var r := Collect(w, ids, cfg, plain);
    (r.world, c.(failedTests := ids, output := Join("\n", NonEmpty(r.outputs)),
      errorOutput := Join("\n", NonEmpty(r.errorOutputs)), status := Join("\n", NonEmpty(r.statuses))))
  }

  function GetCluster(w: World, id: Id): Cluster {
    if id in w.clusters then w.clusters[id] else NewCluster("", [], None, 0)
  }

  function SetCluster(w: World, id: Id, c: Cluster): (r: World)
    ensures GetCluster(r, id) == c && r.leaves == w.leaves && r.nextId == w.nextId
  {
    w.(clusters := w.clusters[id := c])
  }

  /** The poll of a cluster in its first run (no inner runner): poll the cest; when it has
      ended, book its passed time and create a test wrapper per failed record. */
  function FirstPoll(w: World, cid: Id, cfg: Settings.Config, env: Env, dn: real): PollResult<World> {
    var c := GetCluster(w, cid);
    var p := W.Poll(c.cest, cfg, env.obs(cid), Now(env), dn);
    if p.running then PollResult(SetCluster(w, cid, c.(cest := p.leaf)), true, p.delayNext)
    else if !W.IsCest(p.leaf) then PollResult(SetCluster(w, cid, c.(cest := p.leaf)), false, p.delayNext)
    else
      var c1 := AfterFirstRun(c.(cest := p.leaf));
      var (w1, ids) := AddFailedTests(w, c.cest.cestName, p.leaf.kind.cest.failed);
      PollResult(SetCluster(w1, cid, c1.(failedTests := c1.failedTests + ids)), false, p.delayNext)
  }

  /** isRunning: the first run follows the inner cest and, when it ends, books the passed
      time and makes a test wrapper per failure; a rerun ticks the inner runner and, when
      it ends, keeps the runner's failures and books its passed durations. */
  function ClusterPoll(w: World, cid: Id, cfg: Settings.Config, env: Env, dn: real): PollResult<World> {
    var c := GetCluster(w, cid);
    match c.runner
    case None => FirstPoll(w, cid, cfg, env, dn)
    case Some(r) =>
      var t := Tick(r, w, LeafOps(cfg, env), cfg.delaySeconds, Now(env), dn);
      if t.more then PollResult(SetCluster(t.world, cid, c.(runner := Some(t.runner))), true, t.delayNext)
      else
        var c1 := c.(runner := Some(t.runner), hasPassedThisRun := t.runner.passed.keys != []);
        var (w1, c2) := CollectInto(t.world, c1, t.runner.failed, cfg, env.plain);
        PollResult(SetCluster(w1, cid, AfterRerun(c2, t.runner.passed)), false, t.delayNext)
  }

  function ClusterIsTimedOut(c: Cluster): bool {
    match c.runner
    case None => W.IsTimedOut(c.cest)
    case Some(r) => c.failedTests == [] && r.timedOut != []
  }

  function ClusterIsSuccessful(c: Cluster): bool {
    match c.runner
    case None => W.IsSuccessful(c.cest)
    case Some(r) => c.failedTests == [] && r.timedOut == []
  }

  function ClusterHasPassedThisRun(c: Cluster): bool {
    if IsFirstRun(c) then W.HasPassedThisRun(c.cest) else c.hasPassedThisRun
  }

  function ClusterExpected(c: Cluster): Option<int> {
    if IsFirstRun(c) then c.cest.expected else Some(c.expected)
  }

  function ClusterOutput(c: Cluster): string {
    if IsFirstRun(c) then W.Output(c.cest) else c.output
  }

  function ClusterErrorOutput(c: Cluster): string {
    if IsFirstRun(c) then W.ErrorOutput(c.cest) else c.errorOutput
  }

  /** getActualDuration; on the first run it is the inner cest's, which memoises. */
  function ClusterDuration(c: Cluster): (Cluster, Option<int>) {
    if IsFirstRun(c) then
      var (l, d) := W.ActualDuration(c.cest);
      (c.(cest := l), d)
    else (c, Some(c.actual))
  }

  function ClusterStatus(c: Cluster, cfg: Settings.Config, plain: TR.Record -> string): (Cluster, string) {
    if IsFirstRun(c) then
      var (l, s) := W.StatusDescription(c.cest, cfg, plain);
      (c.(cest := l), s)
    else (c, c.status)
  }

  /** isExplodable: after a rerun that left failures, when at least half of the tests it
      reran failed again. The percentage 100·failed/previous ≥ 50 is written without the
      division (see ExplodableRule). */
  function ClusterIsExplodable(c: Cluster): bool {
    c.runner.Some? && c.failedTests != [] && 2 * |c.failedTests| >= c.prevFailedCount
  }

  /** explode: a copy of the failed tests. */
  function Explode(c: Cluster): seq<Id> { c.failedTests }

  /** The loop of implode: successful children are dropped and their durations booked,
      the others kept in order. */
  datatype Imploded = Imploded(world: World, still: seq<Id>, actual: int, expected: int)

  function ImplodeLoop(w: World, ids: seq<Id>, actual: int, expected: int): Imploded {
    if ids == [] then Imploded(w, [], actual, expected)
    else
      var prev := ImplodeLoop(w, ids[..|ids| - 1], actual, expected);
      var id := ids[|ids| - 1];
      var l := GetLeaf(prev.world, id);
      if W.IsSuccessful(l) then
        var (l1, d) := W.ActualDuration(l);
        Imploded(SetLeaf(prev.world, id, l1), prev.still, prev.actual + OrZero(d), AtLeastOne(prev.expected - OrZero(d)))
      else Imploded(prev.world, prev.still + [id], prev.actual, prev.expected)
  }

  /** implode, for the cluster under `cid`. */
  function Implode(w: World, cid: Id, cfg: Settings.Config, plain: TR.Record -> string): World {
    var c := GetCluster(w, cid);
    var i := ImplodeLoop(w, c.failedTests, c.actual, c.expected);
    var (w1, c1) := CollectInto(i.world, c.(actual := i.actual, expected := i.expected), i.still, cfg, plain);
    SetCluster(w1, cid, c1)
  }

  /** __clone: reset, a clone of the inner cest, no failures; the durations are kept. */
  function ClusterClone(c: Cluster, stamp: nat): Cluster {
    ClusterReset(c).(cest := W.Clone(c.cest, stamp), failedTests := [])
  }

  // ---------------------------------------------------------------------------------
  // Any unit, as a lane of the supervisor runs it.

  function UnitName(w: World, u: UnitRef): string {
    match u
    case LeafRef(id) => W.Hash(GetLeaf(w, id))
    case ClusterRef(id) => W.Hash(GetCluster(w, id).cest)
  }

  function UnitStart(w: World, u: UnitRef, cfg: Settings.Config, nowMs: nat): World {
    match u
    case LeafRef(id) => LeafStart(w, id, cfg, nowMs)
    case ClusterRef(id) => SetCluster(w, id, ClusterStart(GetCluster(w, id), cfg, nowMs))
  }

  function UnitPoll(w: World, u: UnitRef, cfg: Settings.Config, env: Env, dn: real): PollResult<World> {
    match u
    case LeafRef(id) => LeafPoll(w, id, cfg, env, dn)
    case ClusterRef(id) => ClusterPoll(w, id, cfg, env, dn)
  }

  function UnitIsSuccessful(w: World, u: UnitRef): bool {
    match u
    case LeafRef(id) => W.IsSuccessful(GetLeaf(w, id))
    case ClusterRef(id) => ClusterIsSuccessful(GetCluster(w, id))
  }

  function UnitIsTimedOut(w: World, u: UnitRef): bool {
    match u
    case LeafRef(id) => W.IsTimedOut(GetLeaf(w, id))
    case ClusterRef(id) => ClusterIsTimedOut(GetCluster(w, id))
  }

  function UnitDuration(w: World, u: UnitRef): (World, Option<int>) {
    match u
    case LeafRef(id) => LeafDuration(w, id)
    case ClusterRef(id) =>
      var (c, d) := ClusterDuration(GetCluster(w, id));
      (SetCluster(w, id, c), d)
  }

  function UnitOps(cfg: Settings.Config, env: Env): Ops<World, UnitRef> {
    Ops((w, u) => UnitStart(w, u, cfg, env.nowMs),
        (w, u, dn) => UnitPoll(w, u, cfg, env, dn),
        (w, u) => UnitIsSuccessful(w, u),
        (w, u) => UnitIsTimedOut(w, u),
        (w, u) => UnitName(w, u),
        (w, u) => UnitDuration(w, u))
  }

  /** `instanceof CestWrapper || instanceof ClusterCestWrapper`. */
  predicate UnitIsCestLike(w: World, u: UnitRef) {
    u.ClusterRef? || W.IsCest(GetLeaf(w, u.id))
  }

  /** `instanceof IClusterBomblet`: the wrappers a cluster cest made. */
  predicate UnitIsBomblet(w: World, u: UnitRef) {
    u.LeafRef? && GetLeaf(w, u.id).bomblet
  }

  function UnitHasPassedThisRun(w: World, u: UnitRef): bool {
    match u
    case LeafRef(id) => W.HasPassedThisRun(GetLeaf(w, id))
    case ClusterRef(id) => ClusterHasPassedThisRun(GetCluster(w, id))
  }

  function UnitIsExplodable(w: World, u: UnitRef): bool {
    u.ClusterRef? && ClusterIsExplodable(GetCluster(w, u.id))
  }

  function UnitIsMarkedSkipped(w: World, u: UnitRef): bool {
    u.LeafRef? && W.IsMarkedSkipped(GetLeaf(w, u.id))
  }

  function UnitMatches(w: World, u: UnitRef, np: NP.NameParts): bool {
    match u
    case LeafRef(id) => W.Matches(GetLeaf(w, id), np)
    case ClusterRef(id) => W.Matches(GetCluster(w, id).cest, np)
  }

  function UnitExpected(w: World, u: UnitRef): Option<int> {
    match u
    case LeafRef(id) => GetLeaf(w, id).expected
    case ClusterRef(id) => ClusterExpected(GetCluster(w, id))
  }

  function UnitStatus(w: World, u: UnitRef, cfg: Settings.Config, plain: TR.Record -> string): (World, string) {
    match u
    case LeafRef(id) =>
      var (l, s) := W.StatusDescription(GetLeaf(w, id), cfg, plain);
      (SetLeaf(w, id, l), s)
    case ClusterRef(id) =>
      var (c, s) := ClusterStatus(GetCluster(w, id), cfg, plain);
      (SetCluster(w, id, c), s)
  }

  /** `clone $test`: a new object under the next free reference. */
  function UnitClone(w: World, u: UnitRef): (r: (World, UnitRef))
    ensures r.1.id == w.nextId && r.0.nextId == w.nextId + 1 && r.1.LeafRef? == u.LeafRef?
    ensures UnitName(r.0, r.1) == UnitName(w, u)
  {
    var id := w.nextId;
    match u
    case LeafRef(src) =>
      (World(w.leaves[id := W.Clone(GetLeaf(w, src), id)], w.clusters, id + 1), LeafRef(id))
    case ClusterRef(src) =>
      (World(w.leaves, w.clusters[id := ClusterClone(GetCluster(w, src), id)], id + 1), ClusterRef(id))
  }

  // ---------------------------------------------------------------------------------
  // Loops of ClusterCestWrapper, proved against the functions above.

  /** updateActualDuration's loop over the passed records. */
  method SumTimesLoop(records: seq<TR.Record>) returns (total: int)
    ensures total == SumTimes(records)
  {
    total := 0;
    var i := 0;
    while i < |records|
      invariant 0 <= i <= |records|
      invariant total == SumTimes(records[..i])
    {
      assert records[..i + 1][..i] == records[..i];
      total := total + records[i].time;
      i := i + 1;
    }
    assert records[..i] == records;
  }

  /** The runner-passed loop of updateActualDuration and updateExpectedDuration. */
  method SumDurationsLoop(ds: seq<Option<int>>) returns (total: int)
    ensures total == SumDurations(ds)
  {
    total := 0;
    var i := 0;
    while i < |ds|
      invariant 0 <= i <= |ds|
      invariant total == SumDurations(ds[..i])
    {
      assert ds[..i + 1][..i] == ds[..i];
      total := total + OrZero(ds[i]);
      i := i + 1;
    }
    assert ds[..i] == ds;
  }

  /** parseFailedTestRecords' loop. */
  method AddFailedTestsLoop(w: World, cestName: string, records: seq<TR.Record>) returns (w': World, ids: seq<Id>)
    ensures (w', ids) == AddFailedTests(w, cestName, records)
  {
    w', ids := w, [];
    var i := 0;
    while i < |records|
      invariant 0 <= i <= |records|
      invariant (w', ids) == AddFailedTests(w, cestName, records[..i])
    {
      assert records[..i + 1][..i] == records[..i];
      var r := AddLeaf(w', cestName, TR.GetMethod(records[i]));
      w' := r.0;
      ids := ids + [r.1];
      i := i + 1;
    }
    assert records[..i] == records;
  }

  /** collectStrings' loop. */
  method CollectLoop(w: World, ids: seq<Id>, cfg: Settings.Config, plain: TR.Record -> string) returns (r: Collected)
    ensures r == Collect(w, ids, cfg, plain)
  {
    r := Collected(w, [], [], []);
    var i := 0;
    while i < |ids|
      invariant 0 <= i <= |ids|
      invariant r == Collect(w, ids[..i], cfg, plain)
    {
      assert ids[..i + 1][..i] == ids[..i];
      var l := GetLeaf(r.world, ids[i]);
      var s := W.StatusDescription(l, cfg, plain);
      r := Collected(SetLeaf(r.world, ids[i], s.0), r.outputs + [W.Output(l)], r.errorOutputs + [W.ErrorOutput(l)],
        r.statuses + [W.Hash(l) + ": " + s.1]);
      i := i + 1;
    }
    assert ids[..i] == ids;
  }

  /** implode's loop. */
  method ImplodeLoopMethod(w: World, ids: seq<Id>, actual: int, expected: int) returns (r: Imploded)
    ensures r == ImplodeLoop(w, ids, actual, expected)
  {
    r := Imploded(w, [], actual, expected);
    var i := 0;
    while i < |ids|
      invariant 0 <= i <= |ids|
      invariant r == ImplodeLoop(w, ids[..i], actual, expected)
    {
      assert ids[..i + 1][..i] == ids[..i];
      var l := GetLeaf(r.world, ids[i]);
      if W.IsSuccessful(l) {
        var ld := W.ActualDuration(l);
        r := Imploded(SetLeaf(r.world, ids[i], ld.0), r.still, r.actual + OrZero(ld.1),
          AtLeastOne(r.expected - OrZero(ld.1)));
      } else {
        r := r.(still := r.still + [ids[i]]);
      }
      i := i + 1;
    }
    assert ids[..i] == ids;
  }

  // ---------------------------------------------------------------------------------
  // Properties of the cluster cest.

  /** start runs the whole cest when nothing failed before, otherwise an inner '(RERUN)'
      runner over exactly the remembered failures; either way it remembers their count. */
  lemma StartRule(c: Cluster, cfg: Settings.Config, nowMs: nat)
    ensures var s := ClusterStart(c, cfg, nowMs);
      s.prevFailedCount == |c.failedTests| && s.failedTests == c.failedTests
      && s.output == "" && s.errorOutput == "" && s.status == "" && !s.hasPassedThisRun
      && s.actual == c.actual && s.expected == c.expected
      && (c.failedTests == [] ==> IsFirstRun(s) && s.cest == W.Start(c.cest, cfg, nowMs))
      && (c.failedTests != [] ==>
            s.runner == Some(NewRunner(c.failedTests, "(RERUN)")) && s.cest == c.cest && s.prevFailedCount > 0)
  {
  }

  lemma {:induction false} SumTimesAppend(a: seq<TR.Record>, b: seq<TR.Record>)
    ensures SumTimes(a + b) == SumTimes(a) + SumTimes(b)
    decreases |b|
  {
    if b != [] {
      assert (a + b)[..|a + b| - 1] == a + b[..|b| - 1];
      SumTimesAppend(a, b[..|b| - 1]);
    } else {
      assert a + b == a;
    }
  }

  /** `ids` are the consecutive references from `base`, each a fresh bomblet test wrapper
      named after its record's method; stated from the last one back, in the order the
      creation adds them (FreshTestsAt gives it index by index). */
  predicate FreshTests(w: World, ids: seq<Id>, cestName: string, records: seq<TR.Record>, base: nat)
    decreases |ids|
  {
    |ids| == |records|
    && (ids != [] ==>
          var n := |ids| - 1;
          ids[n] == base + n && GetLeaf(w, ids[n]) == W.NewTest(cestName, TR.GetMethod(records[n]), true, base + n)
          && FreshTests(w, ids[..n], cestName, records[..n], base))
  }

  /** The `k`-th reference is `base + k`, a fresh test wrapper named after the `k`-th
      record's method. */
  lemma {:induction false} FreshTestsAt(w: World, ids: seq<Id>, cestName: string, records: seq<TR.Record>, base: nat)
    requires FreshTests(w, ids, cestName, records, base)
    ensures |ids| == |records|
    ensures forall k :: 0 <= k < |ids| ==>
      ids[k] == base + k && GetLeaf(w, ids[k]) == W.NewTest(cestName, TR.GetMethod(records[k]), true, base + k)
    decreases |ids|
  {
    if ids != [] {
      var n := |ids| - 1;
      FreshTestsAt(w, ids[..n], cestName, records[..n], base);
      forall k | 0 <= k < n
        ensures ids[k] == base + k && GetLeaf(w, ids[k]) == W.NewTest(cestName, TR.GetMethod(records[k]), true, base + k)
      {
        assert ids[..n][k] == ids[k] && records[..n][k] == records[k];
      }
    }
  }

  /** Fresh tests stay fresh tests in a world that keeps every wrapper they are among. */
  lemma {:induction false} FreshTestsKept(w: World, w1: World, ids: seq<Id>, cestName: string, records: seq<TR.Record>, base: nat)
    requires FreshTests(w, ids, cestName, records, base) && base + |ids| <= w.nextId && LeavesKept(w, w1)
    ensures FreshTests(w1, ids, cestName, records, base)
    decreases |ids|
  {
    if ids != [] {
      var n := |ids| - 1;
      FreshTestsKept(w, w1, ids[..n], cestName, records[..n], base);
      assert GetLeaf(w1, ids[n]) == GetLeaf(w, ids[n]);
    }
  }

  /** Every wrapper below `w.nextId` is as in `w`. */
  predicate LeavesKept(w: World, w1: World) {
    forall id: Id :: id < w.nextId ==> GetLeaf(w1, id) == GetLeaf(w, id)
  }

  /** The creation of the failed tests gives one fresh bomblet test wrapper per failed
      record, named after the record's method, and touches nothing else. */
  lemma {:induction false} AddFailedTestsFresh(w: World, cestName: string, records: seq<TR.Record>)
    requires GoodWorld(w)
    ensures GoodWorld(AddFailedTests(w, cestName, records).0)
    ensures AddFailedTests(w, cestName, records).0.nextId == w.nextId + |records|
    ensures FreshTests(AddFailedTests(w, cestName, records).0, AddFailedTests(w, cestName, records).1, cestName, records, w.nextId)
    ensures LeavesKept(w, AddFailedTests(w, cestName, records).0)
  {
    if records != [] {
      var init := records[..|records| - 1];
      AddFailedTestsFresh(w, cestName, init);
      var (w1, ids) := AddFailedTests(w, cestName, init);
      var (w2, id) := AddLeaf(w1, cestName, TR.GetMethod(records[|records| - 1]));
      assert AddFailedTests(w, cestName, records) == (w2, ids + [id]);
      var all := ids + [id];
      assert LeavesKept(w1, w2);
      FreshTestsKept(w1, w2, ids, cestName, init, w.nextId);
      assert all[..|ids|] == ids && records[..|ids|] == init;
    }
  }

  /** A cluster with no inner runner is in its first run, and its poll is FirstPoll. */
  lemma ClusterPollFirstRun(w: World, cid: Id, cfg: Settings.Config, env: Env, dn: real)
    requires IsFirstRun(GetCluster(w, cid))
    ensures ClusterPoll(w, cid, cfg, env, dn) == FirstPoll(w, cid, cfg, env, dn)
  {
  }

  /** The cluster state after its first run ends, as FirstPoll builds it. */
  lemma FirstRunShape(w: World, cid: Id, cfg: Settings.Config, env: Env, dn: real)
    requires GoodWorld(w)
    requires var c := GetCluster(w, cid); IsFirstRun(c) && W.IsCest(c.cest)
    requires !W.Poll(GetCluster(w, cid).cest, cfg, env.obs(cid), Now(env), dn).running
    ensures var c := GetCluster(w, cid);
      var pl := W.Poll(c.cest, cfg, env.obs(cid), Now(env), dn);
      var r := AddFailedTests(w, c.cest.cestName, pl.leaf.kind.cest.failed);
      W.IsCest(pl.leaf)
      && FirstPoll(w, cid, cfg, env, dn)
        == PollResult(SetCluster(r.0, cid, AfterFirstRun(c.(cest := pl.leaf)).(failedTests := c.failedTests + r.1)), false, pl.delayNext)
  {
    var c := GetCluster(w, cid);
    W.PollKeepsKind(c.cest, cfg, env.obs(cid), Now(env), dn);
  }

  /** When the first run ends, the cluster stops running, stays in its first-run state as
      seen from outside and books the passed records' time. */
  lemma FirstRunEnds(w: World, cid: Id, cfg: Settings.Config, env: Env, dn: real)
    requires GoodWorld(w)
    requires var c := GetCluster(w, cid); IsFirstRun(c) && W.IsCest(c.cest)
    requires !W.Poll(GetCluster(w, cid).cest, cfg, env.obs(cid), Now(env), dn).running
    ensures var c := GetCluster(w, cid);
      var leaf := W.Poll(c.cest, cfg, env.obs(cid), Now(env), dn).leaf;
      var p := FirstPoll(w, cid, cfg, env, dn); var c1 := GetCluster(p.world, cid);
      !p.running && IsFirstRun(c1) && c1.actual == c.actual + SumTimes(leaf.kind.cest.passed)
  {
    FirstRunCluster(w, cid, cfg, env, dn);
    var c := GetCluster(w, cid);
    var pl := W.Poll(c.cest, cfg, env.obs(cid), Now(env), dn);
    W.PollKeepsKind(c.cest, cfg, env.obs(cid), Now(env), dn);
    AfterFirstRunFields(c, pl.leaf, c.failedTests + AddFailedTests(w, c.cest.cestName, pl.leaf.kind.cest.failed).1);
  }

  /** When the first run ends, the cluster's expected duration becomes the cest's minus the
      passed records' time (at least 1) when the cest's is known, and stays otherwise. */
  lemma FirstRunExpected(w: World, cid: Id, cfg: Settings.Config, env: Env, dn: real)
    requires GoodWorld(w)
    requires var c := GetCluster(w, cid); IsFirstRun(c) && W.IsCest(c.cest)
    requires !W.Poll(GetCluster(w, cid).cest, cfg, env.obs(cid), Now(env), dn).running
    ensures var c := GetCluster(w, cid);
      var leaf := W.Poll(c.cest, cfg, env.obs(cid), Now(env), dn).leaf;
      var c1 := GetCluster(FirstPoll(w, cid, cfg, env, dn).world, cid);
      (c.cest.expected.Some? ==> c1.expected == AtLeastOne(c.cest.expected.value - SumTimes(leaf.kind.cest.passed)))
      && (c.cest.expected.None? ==> c1.expected == c.expected)
  {
    FirstRunCluster(w, cid, cfg, env, dn);
    var c := GetCluster(w, cid);
    var pl := W.Poll(c.cest, cfg, env.obs(cid), Now(env), dn);
    W.PollKeepsKind(c.cest, cfg, env.obs(cid), Now(env), dn);
    var c1 := GetCluster(FirstPoll(w, cid, cfg, env, dn).world, cid);
    AfterFirstRunExpected(c, pl.leaf, c1);
  }

  lemma AfterFirstRunExpected(c: Cluster, leaf: W.Leaf, c1: Cluster)
    requires W.IsCest(leaf) && leaf.expected == c.cest.expected
    requires c1.expected == AfterFirstRun(c.(cest := leaf)).expected
    ensures c.cest.expected.Some? ==> c1.expected == AtLeastOne(c.cest.expected.value - SumTimes(leaf.kind.cest.passed))
    ensures c.cest.expected.None? ==> c1.expected == c.expected
  {
  }

  /** The cluster after its first run ends, field by field. */
  lemma FirstRunCluster(w: World, cid: Id, cfg: Settings.Config, env: Env, dn: real)
    requires GoodWorld(w)
    requires var c := GetCluster(w, cid); IsFirstRun(c) && W.IsCest(c.cest)
    requires !W.Poll(GetCluster(w, cid).cest, cfg, env.obs(cid), Now(env), dn).running
    ensures var c := GetCluster(w, cid);
      var leaf := W.Poll(c.cest, cfg, env.obs(cid), Now(env), dn).leaf;
      var p := FirstPoll(w, cid, cfg, env, dn); var c1 := GetCluster(p.world, cid);
      !p.running && W.IsCest(leaf)
      && c1 == AfterFirstRun(c.(cest := leaf)).(failedTests := c.failedTests + AddFailedTests(w, c.cest.cestName, leaf.kind.cest.failed).1)
  {
    var c := GetCluster(w, cid);
    var pl := W.Poll(c.cest, cfg, env.obs(cid), Now(env), dn);
    FirstRunShape(w, cid, cfg, env, dn);
    W.PollKeepsKind(c.cest, cfg, env.obs(cid), Now(env), dn);
    var r := AddFailedTests(w, c.cest.cestName, pl.leaf.kind.cest.failed);
    var c1 := AfterFirstRun(c.(cest := pl.leaf)).(failedTests := c.failedTests + r.1);
    var p := FirstPoll(w, cid, cfg, env, dn);
    assert p == PollResult(SetCluster(r.0, cid, c1), false, pl.delayNext);
    assert GetCluster(p.world, cid) == c1;
  }

  lemma AfterFirstRunFields(c: Cluster, leaf: W.Leaf, failed: seq<Id>)
    requires W.IsCest(leaf)
    ensures var c1 := AfterFirstRun(c.(cest := leaf)).(failedTests := failed);
      c1.runner == c.runner && c1.failedTests == failed && c1.actual == c.actual + SumTimes(leaf.kind.cest.passed)
      && (leaf.expected.Some? ==> c1.expected == AtLeastOne(leaf.expected.value - SumTimes(leaf.kind.cest.passed)))
      && (leaf.expected.None? ==> c1.expected == c.expected)
  {
  }

  /** When the first run ends, the cluster remembers one new test wrapper per failed record. */
  lemma FirstRunFailed(w: World, cid: Id, cfg: Settings.Config, env: Env, dn: real)
    requires GoodWorld(w)
    requires var c := GetCluster(w, cid); IsFirstRun(c) && W.IsCest(c.cest)
    requires !W.Poll(GetCluster(w, cid).cest, cfg, env.obs(cid), Now(env), dn).running
    ensures var c := GetCluster(w, cid);
      var leaf := W.Poll(c.cest, cfg, env.obs(cid), Now(env), dn).leaf;
      var p := FirstPoll(w, cid, cfg, env, dn); var c1 := GetCluster(p.world, cid);
      |c.failedTests| <= |c1.failedTests| && c1.failedTests[..|c.failedTests|] == c.failedTests
      && FreshTests(p.world, c1.failedTests[|c.failedTests|..], c.cest.cestName, leaf.kind.cest.failed, w.nextId)
  {
    var c := GetCluster(w, cid);
    var pl := W.Poll(c.cest, cfg, env.obs(cid), Now(env), dn);
    FirstRunShape(w, cid, cfg, env, dn);
    var failed := pl.leaf.kind.cest.failed;
    AddFailedTestsFresh(w, c.cest.cestName, failed);
    var r := AddFailedTests(w, c.cest.cestName, failed);
    AfterFirstRunFields(c, pl.leaf, c.failedTests + r.1);
    var p := FirstPoll(w, cid, cfg, env, dn);
    var c1 := GetCluster(p.world, cid);
    assert c1.failedTests == c.failedTests + r.1 && p.world.leaves == r.0.leaves;
    assert c1.failedTests[|c.failedTests|..] == r.1;
    FreshTestsSameLeaves(r.0, p.world, r.1, c.cest.cestName, failed, w.nextId);
  }

  lemma {:induction false} FreshTestsSameLeaves(w: World, w1: World, ids: seq<Id>, cestName: string, records: seq<TR.Record>, base: nat)
    requires FreshTests(w, ids, cestName, records, base) && w1.leaves == w.leaves
    ensures FreshTests(w1, ids, cestName, records, base)
    decreases |ids|
  {
    if ids != [] {
      FreshTestsSameLeaves(w, w1, ids[..|ids| - 1], cestName, records[..|ids| - 1], base);
    }
  }

  /** On a rerun the cluster runs while its inner runner ticks; when the runner is done the
      cluster's failures are the runner's failures and it has passed something iff the runner
      passed something. */
  lemma RerunEnds(w: World, cid: Id, cfg: Settings.Config, env: Env, dn: real)
    requires GetCluster(w, cid).runner.Some?
    ensures var c := GetCluster(w, cid);
      var t := Tick(c.runner.value, w, LeafOps(cfg, env), cfg.delaySeconds, Now(env), dn);
      var p := ClusterPoll(w, cid, cfg, env, dn); var c1 := GetCluster(p.world, cid);
      p.running == t.more && c1.runner == Some(t.runner)
      && (t.more ==> c1.failedTests == c.failedTests)
      && (!t.more ==>
            c1.failedTests == t.runner.failed && c1.hasPassedThisRun == (t.runner.passed.keys != [])
            && c1.actual == c.actual + SumDurations(Values(t.runner.passed)))
  {
  }

  /** After a rerun: successful iff no child failed or timed out, timed out iff none failed
      but some timed out. */
  lemma RerunOutcome(c: Cluster)
    requires c.runner.Some?
    ensures ClusterIsSuccessful(c) <==> c.failedTests == [] && c.runner.value.timedOut == []
    ensures ClusterIsTimedOut(c) <==> c.failedTests == [] && c.runner.value.timedOut != []
    ensures !(ClusterIsSuccessful(c) && ClusterIsTimedOut(c))
  {
  }

  /** With a positive previous count the rule is "at least 50 percent failed again". */
  lemma ExplodableRule(c: Cluster)
    requires c.prevFailedCount > 0
    ensures ClusterIsExplodable(c) <==>
      c.runner.Some? && c.failedTests != []
      && (100 * |c.failedTests|) as real / c.prevFailedCount as real >= 50.0
  {
    var n := |c.failedTests| as real;
    var p := c.prevFailedCount as real;
    assert (100.0 * n) / p >= 50.0 <==> 100.0 * n >= 50.0 * p;
  }

  /** implode's loop keeps some of the children and touches only their wrappers. */
  lemma {:induction false} ImplodeLoopFrame(w: World, ids: seq<Id>, actual: int, expected: int)
    ensures var i := ImplodeLoop(w, ids, actual, expected);
      |i.still| <= |ids| && (forall id :: id in i.still ==> id in ids)
      && (forall id :: id !in ids ==> GetLeaf(i.world, id) == GetLeaf(w, id))
      && i.world.clusters == w.clusters && i.world.nextId == w.nextId
  {
    if ids != [] {
      var init := ids[..|ids| - 1];
      ImplodeLoopFrame(w, init, actual, expected);
      assert forall x :: x in init ==> x in ids;
    }
  }

  /** Once a child was dropped the expected duration is at least 1. */
  lemma {:induction false} ImplodeLoopExpected(w: World, ids: seq<Id>, actual: int, expected: int)
    ensures var i := ImplodeLoop(w, ids, actual, expected); i.still != ids ==> i.expected >= 1
  {
    if ids != [] {
      var init := ids[..|ids| - 1];
      ImplodeLoopExpected(w, init, actual, expected);
      ImplodeLoopFrame(w, init, actual, expected);
      var prev := ImplodeLoop(w, init, actual, expected);
      var id := ids[|ids| - 1];
      assert init + [id] == ids;
    }
  }

  /** implode keeps the children that are still unsuccessful, in order; a distinct list of
      children keeps exactly those. Successful children are dropped with their duration
      booked, and the expected duration stays at least 1 once any was dropped. */
  lemma {:induction false} ImplodeKeepsExactlyFailing(w: World, ids: seq<Id>, actual: int, expected: int)
    requires forall i, j :: 0 <= i < j < |ids| ==> ids[i] != ids[j]
    ensures var i := ImplodeLoop(w, ids, actual, expected);
      forall id :: id in i.still <==> id in ids && !W.IsSuccessful(GetLeaf(w, id))
  {
    if ids != [] {
      var init := ids[..|ids| - 1];
      ImplodeKeepsExactlyFailing(w, init, actual, expected);
      ImplodeLoopFrame(w, init, actual, expected);
      var id := ids[|ids| - 1];
      assert id !in init;
      assert forall x :: x in ids <==> x in init || x == id;
    }
  }

  /** explode leaves the cluster as it is and hands out its failed tests. */
  lemma ExplodeCopies(c: Cluster)
    ensures Explode(c) == c.failedTests
  {
  }

  /** A clone is reset and has no failures, keeps its durations and its cest's identity,
      and has a fresh inner cest. */
  lemma CloneRule(c: Cluster, stamp: nat)
    ensures var k := ClusterClone(c, stamp);
      k.failedTests == [] && IsFirstRun(k) && k.output == "" && k.errorOutput == "" && k.status == ""
      && !k.hasPassedThisRun && k.prevFailedCount == 0
      && k.actual == c.actual && k.expected == c.expected
      && W.Hash(k.cest) == W.Hash(c.cest) && k.cest.logStamp == stamp && k.cest.proc.None?
  {
  }
}
