/** RunnersSupervisor: sweeps its lanes until none is left, collects what each finished lane
    produced, reruns failures at once in continuous mode, moves backlog to a free process, and
    explodes and later implodes cluster cests. The bookkeeping is given as functions over the
    supervisor's outputs (`Outputs`), and the methods of the class are proved against them. */
module Supervisor {
  import opened Basics
  import opened RunnerCore
  import NP = TestNameParts
  import TR = TestRecord
  import Settings
  import Delayer
  import U = Units
  import W = Wrapper
  import R = Runner

  type UnitRef = U.UnitRef

  /** The supervisor's output queues, the passed map, the rerun ledger (keyed by test name)
      and the exploded cluster cests (by reference). */
  datatype Outputs = Outputs(
    failedTests: seq<UnitRef>,
    failedTestsNoRerun: seq<UnitRef>,
    timedOutTests: seq<UnitRef>,
    markedSkippedTests: seq<UnitRef>,
    passedTestsDurations: Durations,
    rerunCounts: map<string, int>,
    explodedClusterCests: seq<U.Id>)

  const NoOutputs := Outputs([], [], [], [], OrderedMap([], map[]), map[], [])

  /** rerunIsForbidden: only a non-empty skip-reruns list can forbid, by matching. */
  predicate RerunIsForbidden(w: U.World, skip: NP.NameParts, t: UnitRef) {
    !NP.IsEmpty(skip) && U.UnitMatches(w, t, skip)
  }

  datatype Split = Split(noRerun: seq<UnitRef>, rerun: seq<UnitRef>)

  /** The skip-reruns rule as a test on units. */
  function Forbidden(w: U.World, skip: NP.NameParts): UnitRef -> bool {
    t => RerunIsForbidden(w, skip, t)
  }

  /** A finished lane's failures, in order: the forbidden ones and the others. */
  function SplitFailed(forbidden: UnitRef -> bool, failed: seq<UnitRef>): Split {
    if failed == [] then Split([], [])
    else
      var s := SplitFailed(forbidden, failed[..|failed| - 1]);
      var t := failed[|failed| - 1];
      if forbidden(t) then Split(s.noRerun + [t], s.rerun) else Split(s.noRerun, s.rerun + [t])
  }

  /** The split loses and invents nothing. */
  lemma {:induction false} SplitFailedKeeps(forbidden: UnitRef -> bool, failed: seq<UnitRef>)
    ensures var r := SplitFailed(forbidden, failed);
      multiset(r.noRerun) + multiset(r.rerun) == multiset(failed)
  {
    if failed != [] {
      var init, t := failed[..|failed| - 1], failed[|failed| - 1];
      SplitFailedKeeps(forbidden, init);
      assert failed == init + [t];
    }
  }

  /** The split sorts by the rule. */
  lemma {:induction false} SplitFailedSorts(forbidden: UnitRef -> bool, failed: seq<UnitRef>)
    ensures var r := SplitFailed(forbidden, failed);
      (forall t :: t in r.noRerun ==> forbidden(t)) && (forall t :: t in r.rerun ==> !forbidden(t))
  {
    if failed != [] {
      SplitFailedSorts(forbidden, failed[..|failed| - 1]);
    }
  }

  lemma SplitFailedStep(forbidden: UnitRef -> bool, failed: seq<UnitRef>, i: nat)
    requires i < |failed|
    ensures var s := SplitFailed(forbidden, failed[..i]);
      SplitFailed(forbidden, failed[..i + 1])
        == if forbidden(failed[i]) then Split(s.noRerun + [failed[i]], s.rerun) else Split(s.noRerun, s.rerun + [failed[i]])
  {
    assert failed[..i + 1][..i] == failed[..i];
  }

  /** Puts `keys` of `from` into `into`, in order, overwriting. */
  function MergeKeys(into: Durations, from: Durations, keys: seq<string>): Durations
    requires forall k :: k in keys ==> k in from.values
  {
    if keys == [] then into
    else
      var k := keys[|keys| - 1];
      Put(MergeKeys(into, from, keys[..|keys| - 1]), k, from.values[k])
  }

  /** Merging overwrites: the merged keys carry the values of `from`, the others keep theirs. */
  lemma {:induction false} MergeKeysValues(into: Durations, from: Durations, keys: seq<string>)
    requires forall k :: k in keys ==> k in from.values
    ensures var r := MergeKeys(into, from, keys);
      (forall k :: k in r.values <==> k in into.values || k in keys)
      && (forall k :: k in keys ==> r.values[k] == from.values[k])
      && (forall k :: k in into.values && k !in keys ==> r.values[k] == into.values[k])
  {
    if keys != [] {
      MergeKeysValues(into, from, keys[..|keys| - 1]);
      assert forall x :: x in keys <==> x in keys[..|keys| - 1] || x == keys[|keys| - 1];
    }
  }

  /** saveFinishedRunnerData. The lanes of the model record no marked-skipped tests. */
  function Save(o: Outputs, w: U.World, r: RunnerState<UnitRef>, skip: NP.NameParts): Outputs {
    var s := SplitFailed(Forbidden(w, skip), r.failed);
    o.(failedTests := o.failedTests + s.rerun, failedTestsNoRerun := o.failedTestsNoRerun + s.noRerun,
       timedOutTests := o.timedOutTests + r.timedOut,
       passedTestsDurations := MergeKeys(o.passedTestsDurations, r.passed, r.passed.keys))
  }

  /** rerunCountIsExhausted: the first check of a name stores −1, and every check
      increments; the answer is whether the new count reached the rerun count. */
  function CheckExhausted(ledger: map<string, int>, name: string, rerunCount: int): (map<string, int>, bool) {
    var count := (if name in ledger then ledger[name] else -1) + 1;
    (ledger[name := count], count >= rerunCount)
  }

  /** The answers of `k` checks of the same name in a row. */
  function RepeatChecks(ledger: map<string, int>, name: string, rerunCount: int, k: nat): (r: seq<bool>)
    ensures |r| == k
    decreases k
  {
    if k == 0 then []
    else
      var (l1, exhausted) := CheckExhausted(ledger, name, rerunCount);
      [exhausted] + RepeatChecks(l1, name, rerunCount, k - 1)
  }

  function CountAdmitted(answers: seq<bool>): nat {
    if answers == [] then 0 else (if answers[0] then 0 else 1) + CountAdmitted(answers[1..])
  }

  /** explodeClusterCest's loop: every child takes over the parent's count. */
  function Inherit(ledger: map<string, int>, w: U.World, children: seq<U.Id>, count: int): map<string, int> {
    if children == [] then ledger
    else
      var id := children[|children| - 1];
      Inherit(ledger, w, children[..|children| - 1], count)[W.Hash(U.GetLeaf(w, id)) := count]
  }

  /** Every child gets the parent's count; no other entry changes. */
  lemma {:induction false} InheritValues(ledger: map<string, int>, w: U.World, children: seq<U.Id>, count: int)
    ensures var r := Inherit(ledger, w, children, count);
      (forall id :: id in children ==> W.Hash(U.GetLeaf(w, id)) in r && r[W.Hash(U.GetLeaf(w, id))] == count)
      && (forall n :: n in ledger && (forall id :: id in children ==> W.Hash(U.GetLeaf(w, id)) != n) ==>
            n in r && r[n] == ledger[n])
      && (forall n :: n in r ==> n in ledger || exists id :: id in children && W.Hash(U.GetLeaf(w, id)) == n)
  {
    if children != [] {
      var id := children[|children| - 1];
      InheritValues(ledger, w, children[..|children| - 1], count);
      assert forall x :: x in children <==> x in children[..|children| - 1] || x == id;
    }
  }

  function LeafRefs(ids: seq<U.Id>): (r: seq<UnitRef>)
    ensures |r| == |ids| && forall i :: 0 <= i < |ids| ==> r[i] == U.LeafRef(ids[i])
  {
    seq(|ids|, i requires 0 <= i < |ids| => U.LeafRef(ids[i]))
  }

  /** Outputs and the rerun queue built so far. */
  datatype Rerun = Rerun(outputs: Outputs, queue: seq<UnitRef>)

  /** One test of getTestsForRerun's loop. */
  function RerunStep(o: Outputs, queue: seq<UnitRef>, w: U.World, t: UnitRef, cfg: Settings.Config): Rerun {
    var name := U.UnitName(w, t);
    var (ledger, exhausted) := CheckExhausted(o.rerunCounts, name, cfg.rerunCount);
    var o1 := o.(rerunCounts := ledger);
    if exhausted then Rerun(o1.(failedTestsNoRerun := o1.failedTestsNoRerun + [t]), queue)
    else if U.UnitIsCestLike(w, t) && cfg.switches.fastCestRerun && !U.UnitHasPassedThisRun(w, t) then
      Rerun(o1.(failedTestsNoRerun := o1.failedTestsNoRerun + [t]), queue)
    else if U.UnitIsCestLike(w, t) && cfg.switches.fastCestRerun && U.UnitIsExplodable(w, t) then
      var children := U.Explode(U.GetCluster(w, t.id));
      Rerun(o1.(rerunCounts := Inherit(ledger, w, children, ledger[name]),
                explodedClusterCests := o1.explodedClusterCests + [t.id]),
            queue + LeafRefs(children))
    else Rerun(o1, queue + [t])
  }

  /** The loop over the drained failed tests `tests`, in order. */
  function RerunLoop(o: Outputs, w: U.World, tests: seq<UnitRef>, cfg: Settings.Config): Rerun {
    if tests == [] then Rerun(o, [])
    else
      var r := RerunLoop(o, w, tests[..|tests| - 1], cfg);
      RerunStep(r.outputs, r.queue, w, tests[|tests| - 1], cfg)
  }

  lemma RerunLoopStep(o: Outputs, w: U.World, tests: seq<UnitRef>, i: nat, cfg: Settings.Config)
    requires i < |tests|
    ensures var r := RerunLoop(o, w, tests[..i], cfg);
      RerunLoop(o, w, tests[..i + 1], cfg) == RerunStep(r.outputs, r.queue, w, tests[i], cfg)
  {
    assert tests[..i + 1][..i] == tests[..i];
  }

  /** getTestsForRerun: the failed-tests queue is drained (except by the early return). */
  function TestsForRerun(o: Outputs, w: U.World, cfg: Settings.Config): Rerun {
    if o.failedTests == [] || cfg.rerunCount == 0 then Rerun(o, [])
    else RerunLoop(o.(failedTests := []), w, o.failedTests, cfg)
  }

  /** The burden move: the first ceil(n/2) queued tests go to the new lane. */
  function BurdenShare(n: nat): nat { CeilDiv(n, 2) }

  /** implodeClusterCests' first loop, over the drained exploded clusters `ids`, in order. */
  function ImplodeEach(o: Outputs, w: U.World, ids: seq<U.Id>, cfg: Settings.Config, plain: TR.Record -> string): (Outputs, U.World) {
    if ids == [] then (o, w)
    else
      var (o1, w1) := ImplodeEach(o, w, ids[..|ids| - 1], cfg, plain);
      ImplodeOne(o1, w1, ids[|ids| - 1], cfg, plain)
  }

  /** One cluster of that loop: a successful implode books the cluster's duration under its
      name, otherwise the cluster is not rerun. */
  function ImplodeOne(o: Outputs, w: U.World, id: U.Id, cfg: Settings.Config, plain: TR.Record -> string): (Outputs, U.World) {
    var w1 := U.Implode(w, id, cfg, plain);
    if U.UnitIsSuccessful(w1, U.ClusterRef(id)) then
      var (w2, d) := U.UnitDuration(w1, U.ClusterRef(id));
      (o.(passedTestsDurations := Put(o.passedTestsDurations, U.UnitName(w1, U.ClusterRef(id)), d)), w2)
    else (o.(failedTestsNoRerun := o.failedTestsNoRerun + [U.ClusterRef(id)]), w1)
  }

  lemma ImplodeEachStep(o: Outputs, w: U.World, ids: seq<U.Id>, i: nat, cfg: Settings.Config, plain: TR.Record -> string)
    requires i < |ids|
    ensures var (o1, w1) := ImplodeEach(o, w, ids[..i], cfg, plain);
      ImplodeEach(o, w, ids[..i + 1], cfg, plain) == ImplodeOne(o1, w1, ids[i], cfg, plain)
  {
    assert ids[..i + 1][..i] == ids[..i];
  }

  /** Imploding one cluster touches only no-rerun and the passed map. */
  lemma ImplodeOneFrame(o: Outputs, w: U.World, id: U.Id, cfg: Settings.Config, plain: TR.Record -> string)
    ensures var r := ImplodeOne(o, w, id, cfg, plain).0;
      r == o.(failedTestsNoRerun := r.failedTestsNoRerun, passedTestsDurations := r.passedTestsDurations)
  {
  }

  /** The second loop: the tests a cluster made are dropped from no-rerun. */
  function WithoutBomblets(w: U.World, s: seq<UnitRef>): seq<UnitRef> {
    if s == [] then []
    else
      var t := s[|s| - 1];
      WithoutBomblets(w, s[..|s| - 1]) + (if U.UnitIsBomblet(w, t) then [] else [t])
  }

  lemma {:induction false} WithoutBombletsMembers(w: U.World, s: seq<UnitRef>)
    ensures forall t :: t in WithoutBomblets(w, s) <==> t in s && !U.UnitIsBomblet(w, t)
  {
    if s != [] {
      WithoutBombletsMembers(w, s[..|s| - 1]);
      assert forall x :: x in s <==> x in s[..|s| - 1] || x == s[|s| - 1];
    }
  }

  /** implodeClusterCests. */
  function ImplodeAll(o: Outputs, w: U.World, cfg: Settings.Config, plain: TR.Record -> string, continuousRerun: bool): (Outputs, U.World) {
    if !continuousRerun || o.explodedClusterCests == [] then (o, w)
    else
      var (o1, w1) := ImplodeEach(o.(explodedClusterCests := []), w, o.explodedClusterCests, cfg, plain);
      (o1.(failedTestsNoRerun := WithoutBomblets(w1, o1.failedTestsNoRerun)), w1)
  }

  /** findMostBurdenedRunner's choice, read after the lane `r` ticked. */
  function MoreBurdened(mb: R.Runner?, r: R.Runner, continuousRerun: bool): R.Runner?
    reads mb, r
  {
    if !continuousRerun || !r.HasTestRunning() || r.HasEmptyQueue() then mb
    else if mb == null then r
    else if mb.TestsCount() < r.TestsCount() then r
    else mb
  }

  /** A sweep's bookkeeping: when the lanes not yet touched are at the front and touching
      drops the front one, the rest stay at the front. */
  lemma FrontMoves<T>(start: seq<T>, prev: seq<T>, next: seq<T>, i: nat, n: nat)
    requires i < n <= |start| && |prev| >= n - i && prev[..n - i] == start[i..n]
    requires |next| >= |prev| - 1 && next[..|prev| - 1] == prev[1..]
    ensures |next| >= n - i - 1 && next[..n - i - 1] == start[i + 1..n]
    ensures start[..i + 1] == start[..i] + [prev[0]]
  {
    assert next[..n - i - 1] == next[..|prev| - 1][..n - i - 1];
    assert prev[0] == start[i..n][0];
  }

  /** prepareRunners: one lane per queue. */
  method PrepareRunners(delayer: Delayer.Delayer, queues: seq<seq<UnitRef>>) returns (rs: seq<R.Runner>)
    ensures |rs| == |queues|
    ensures forall i :: 0 <= i < |rs| ==> fresh(rs[i]) && rs[i].delayer == delayer && rs[i].State() == NewRunner(queues[i], "")
  {
    rs := [];
    var i := 0;
    while i < |queues|
      invariant 0 <= i <= |queues| && |rs| == i
      invariant forall j :: 0 <= j < i ==> fresh(rs[j]) && rs[j].delayer == delayer && rs[j].State() == NewRunner(queues[j], "")
    {
      var r := new R.Runner(delayer, queues[i]);
      rs := rs + [r];
      i := i + 1;
    }
  }

  class RunnersSupervisor {
    const settings: Settings.SettingsRun
    const delayer: Delayer.Delayer
    const skipRerunsForTestNames: NP.NameParts
    const continuousRerun: bool
    var runners: seq<R.Runner>
    var processCount: nat
    var failedTests: seq<UnitRef>
    var failedTestsNoRerun: seq<UnitRef>
    var timedOutTests: seq<UnitRef>
    var markedSkippedTests: seq<UnitRef>
    var passedTestsDurations: Durations
    var failedTestsRerunCounts: map<string, int>
    var mostBurdenedRunner: R.Runner?
    var explodedClusterCests: seq<U.Id>
    /** The wrapper objects the lanes run. */
    var world: U.World
    ghost var Repr: set<object>

    ghost predicate Valid()
      reads this, Repr
    {
      this in Repr && delayer in Repr && delayer.settings == settings
      && (forall r :: r in runners ==> r in Repr && r.delayer == delayer)
      && (mostBurdenedRunner != null ==> mostBurdenedRunner in Repr && mostBurdenedRunner.delayer == delayer)
    }

    function Out(): Outputs
      reads this
    {
      Outputs(failedTests, failedTestsNoRerun, timedOutTests, markedSkippedTests, passedTestsDurations,
        failedTestsRerunCounts, explodedClusterCests)
    }

    constructor(settings: Settings.SettingsRun, delayer: Delayer.Delayer, queues: seq<seq<UnitRef>>, world: U.World,
                continuousRerun: bool)
      requires delayer.settings == settings
      ensures Valid() && fresh(Repr - {delayer})
      ensures this.settings == settings && this.delayer == delayer && this.world == world
      ensures this.continuousRerun == continuousRerun
      ensures processCount == |queues| && |runners| == |queues|
      ensures forall i :: 0 <= i < |queues| ==> runners[i].State() == NewRunner(queues[i], "")
      ensures Out() == NoOutputs && mostBurdenedRunner == null
      ensures skipRerunsForTestNames == NP.Classify(settings.cfg.skipReruns)
    {
      var rs := PrepareRunners(delayer, queues);
      var skip := NP.New(settings.cfg.skipReruns);
      this.settings := settings;
      this.delayer := delayer;
      this.skipRerunsForTestNames := skip;
      this.continuousRerun := continuousRerun;
      runners := rs;
      processCount := |queues|;
      failedTests := [];
      failedTestsNoRerun := [];
      timedOutTests := [];
      markedSkippedTests := [];
      passedTestsDurations := OrderedMap([], map[]);
      failedTestsRerunCounts := map[];
      mostBurdenedRunner := null;
      explodedClusterCests := [];
      this.world := world;
      new;
      Repr := {this, delayer} + set r | r in rs;
    }

    /** run, over a finite script of sweeps (one clock and observation snapshot each). It
        stops when no lane is left, then implodes, or when the script runs out. */
    method Run(script: seq<U.Env>, plain: TR.Record -> string) returns (sweeps: nat, ghost before: Outputs, ghost worldBefore: U.World)
      requires Valid()
      modifies Repr
      ensures Valid() && fresh(Repr - old(Repr))
      ensures sweeps <= |script|
      ensures runners != [] ==> sweeps == |script|
      ensures OutputsGrow(old(Out()), before, continuousRerun)
      ensures runners != [] ==> Out() == before && world == worldBefore
      ensures runners == [] ==> (Out(), world) == ImplodeAll(before, worldBefore, settings.cfg, plain, continuousRerun)
      ensures old(timedOutTests) <= timedOutTests && (!continuousRerun ==> old(failedTests) <= failedTests)
      ensures forall k :: k in old(passedTestsDurations.values) ==> k in passedTestsDurations.values
    {
      sweeps := 0;
      while runners != [] && sweeps < |script|
        invariant Valid() && fresh(Repr - old(Repr))
        invariant sweeps <= |script|
        invariant OutputsGrow(old(Out()), Out(), continuousRerun)
        decreases |script| - sweeps
      {
        ghost var o0 := Out();
        ghost var touched := Sweep(script[sweeps]);
        OutputsGrowTrans(old(Out()), o0, Out(), continuousRerun);
        sweeps := sweeps + 1;
      }
      before, worldBefore := Out(), world;
      if runners == [] {
        ImplodeClusterCests(plain);
        ImplodeAllKeeps(before, worldBefore, settings.cfg, plain, continuousRerun);
      }
    }

    /** One round of run's loop: touch each lane present at its start, once, in queue order,
        then try to move backlog. */
    method Sweep(env: U.Env) returns (ghost touched: seq<R.Runner>)
      requires Valid()
      modifies Repr
      ensures Valid() && fresh(Repr - old(Repr))
      ensures touched == old(runners)
      ensures OutputsGrow(old(Out()), Out(), continuousRerun)
    {
      var runnersCount := |runners|;
      ghost var start := runners;
      touched := [];
      var i := 0;
      while i < runnersCount
        invariant 0 <= i <= runnersCount
        invariant Valid() && fresh(Repr - old(Repr))
        invariant |start| == runnersCount
        invariant |runners| >= runnersCount - i && runners[..runnersCount - i] == start[i..runnersCount]
        invariant touched == start[..i]
        invariant OutputsGrow(old(Out()), Out(), continuousRerun)
      {
        touched := touched + [runners[0]];
        ghost var prev, o0 := runners, Out();
        ghost var r, more := TouchRunner(env);
        FrontMoves(start, prev, runners, i, runnersCount);
        OutputsGrowTrans(old(Out()), o0, Out(), continuousRerun);
        i := i + 1;
      }
      assert start[..i] == start;
      TryTakeSomeBurden();
    }

    /** touchRunner: tick the front lane; a lane with more to do goes to the back, a finished
        one hands over its results and, in continuous mode, its rerun queue becomes a new
        '(RERUN)' lane. */
    method TouchRunner(env: U.Env) returns (ghost r: R.Runner, ghost more: bool)
      requires Valid() && runners != []
      modifies Repr
      ensures Valid() && fresh(Repr - old(Repr))
      ensures r == old(runners[0]) && (more <==> old(r.HasTestRunning() || !r.HasEmptyQueue()))
      ensures |runners| >= |old(runners)| - 1 && runners[..|old(runners)| - 1] == old(runners[1..])
      ensures more ==>
        runners == old(runners[1..]) + [r] && Out() == old(Out())
        && mostBurdenedRunner == MoreBurdened(old(mostBurdenedRunner), r, continuousRerun)
      ensures !more ==>
        Finished(r, old(Out()), old(runners[1..]), old(mostBurdenedRunner))
        && (|runners| == |old(runners)| ==> fresh(runners[|runners| - 1]))
      ensures OutputsGrow(old(Out()), Out(), continuousRerun)
    {
      var lane, more' := TickFront(env);
      r, more := lane, more';
      if more' {
        runners := runners + [lane];
        FindMostBurdenedRunner(lane);
        return;
      }
      FinishRunner(lane);
    }

    /** The first half of touchRunner: the front lane leaves the line and ticks once. */
    method TickFront(env: U.Env) returns (r: R.Runner, more: bool)
      requires Valid() && runners != []
      modifies Repr
      ensures Valid() && Repr == old(Repr)
      ensures r == old(runners[0]) && runners == old(runners[1..]) && r in Repr && r.delayer == delayer
      ensures Out() == old(Out()) && mostBurdenedRunner == old(mostBurdenedRunner)
      ensures var t := Tick(old(r.State()), old(world), U.UnitOps(settings.cfg, env), settings.cfg.delaySeconds,
                            U.Now(env), old(delayer.nextAllowedTime));
        r.State() == t.runner && world == t.world && more == t.more && delayer.nextAllowedTime == t.delayNext
      ensures more <==> old(r.HasTestRunning() || !r.HasEmptyQueue())
    {
      r := runners[0];
      runners := runners[1..];
      TickDone(r.State(), world, U.UnitOps(settings.cfg, env), settings.cfg.delaySeconds, U.Now(env),
               delayer.nextAllowedTime);
      var w';
      w', more := r.Ticking(world, env);
      world := w';
    }

    /** What touchRunner leaves after the lane `r` finished: its results are saved, and in
        continuous mode the rerun queue, when not empty, is a new '(RERUN)' lane at the back. */
    ghost predicate Finished(r: R.Runner, before: Outputs, rest: seq<R.Runner>, mb: R.Runner?)
      reads this, r, settings, runners
    {
      mostBurdenedRunner == mb && Requeued(Save(before, world, r.State(), skipRerunsForTestNames), rest)
    }

    /** The rerun part of touchRunner, from the outputs `saved` and the lanes `rest`. */
    ghost predicate Requeued(saved: Outputs, rest: seq<R.Runner>)
      reads this, settings, runners
    {
      (!continuousRerun ==> Out() == saved && runners == rest)
      && (continuousRerun ==>
            var rr := TestsForRerun(saved, world, settings.cfg);
            Out() == rr.outputs
            && (rr.queue == [] ==> runners == rest)
            && (rr.queue != [] ==>
                  |runners| == |rest| + 1 && runners[..|rest|] == rest
                  && runners[|rest|].State() == NewRunner(rr.queue, "(RERUN)")))
    }

    /** touchRunner after the lane `r` finished. */
    method FinishRunner(r: R.Runner)
      requires Valid()
      modifies this
      ensures Valid() && fresh(Repr - old(Repr)) && world == old(world)
      ensures |runners| >= |old(runners)| && runners[..|old(runners)|] == old(runners)
      ensures Finished(r, old(Out()), old(runners), old(mostBurdenedRunner))
      ensures |runners| == |old(runners)| + 1 ==> fresh(runners[|runners| - 1])
      ensures OutputsGrow(old(Out()), Out(), continuousRerun)
    {
      ghost var o0 := Out();
      SaveFinishedRunnerData(r);
      ghost var o1 := Out();
      SaveGrows(o0, world, r.State(), skipRerunsForTestNames, continuousRerun);
      RerunFailures();
      if continuousRerun {
        TestsForRerunOutputsGrow(o1, world, settings.cfg);
        OutputsGrowTrans(o0, o1, Out(), true);
      }
    }

    /** The end of touchRunner: in continuous mode the failures to rerun go to a new lane. */
    method RerunFailures()
      requires Valid()
      modifies this
      ensures Valid() && fresh(Repr - old(Repr)) && world == old(world) && mostBurdenedRunner == old(mostBurdenedRunner)
      ensures |runners| >= |old(runners)| && runners[..|old(runners)|] == old(runners)
      ensures Requeued(old(Out()), old(runners))
      ensures |runners| == |old(runners)| + 1 ==> fresh(runners[|runners| - 1])
    {
      if !continuousRerun {
        return;
      }
      var queue := GetTestsForRerun();
      if queue != [] {
        var rerunLane := AddLane(queue, "(RERUN)");
      }
    }

    /** A new lane at the back, running `queue` under the label `caption`. */
    method AddLane(queue: seq<UnitRef>, caption: string) returns (lane: R.Runner)
      requires Valid()
      modifies this
      ensures Valid() && fresh(lane) && Repr == old(Repr) + {lane}
      ensures runners == old(runners) + [lane] && lane.State() == NewRunner(queue, caption)
      ensures Out() == old(Out()) && world == old(world) && mostBurdenedRunner == old(mostBurdenedRunner)
    {
      lane := new R.Runner(delayer, queue);
      lane.SetLabel(caption);
      runners := runners + [lane];
      Repr := Repr + {lane};
    }

    method FindMostBurdenedRunner(r: R.Runner)
      requires Valid() && r in Repr && r.delayer == delayer
      modifies this
      ensures Valid() && Repr == old(Repr)
      ensures mostBurdenedRunner == MoreBurdened(old(mostBurdenedRunner), r, continuousRerun)
      ensures runners == old(runners) && Out() == old(Out()) && world == old(world)
    {
      if !continuousRerun {
        return;
      }
      if !r.HasTestRunning() || r.HasEmptyQueue() {
        return;
      }
      if mostBurdenedRunner == null {
        mostBurdenedRunner := r;
        return;
      }
      if mostBurdenedRunner.TestsCount() < r.TestsCount() {
        mostBurdenedRunner := r;
      }
    }

    /** Whether tryTakeSomeBurden moves tests. */
    predicate TakesBurden()
      reads this, mostBurdenedRunner
    {
      continuousRerun && mostBurdenedRunner != null && mostBurdenedRunner.HasTestRunning()
      && !mostBurdenedRunner.HasEmptyQueue() && |runners| < processCount
    }

    /** tryTakeSomeBurden: with a free process, the first half (rounded up) of the tracked
        lane's queue moves to a new lane with the same label. */
    method TryTakeSomeBurden()
      requires Valid()
      modifies Repr
      ensures Valid() && fresh(Repr - old(Repr))
      ensures Out() == old(Out()) && world == old(world) && mostBurdenedRunner == old(mostBurdenedRunner)
      ensures !old(TakesBurden()) ==>
        (runners == old(runners)
         && (mostBurdenedRunner != null ==> mostBurdenedRunner.State() == old(mostBurdenedRunner.State())))
      ensures old(TakesBurden()) ==>
        var mb := mostBurdenedRunner; var q := old(mb.queue); var k := BurdenShare(|q|);
        mb.State() == old(mb.State()).(queue := q[k..])
        && |runners| == |old(runners)| + 1 && runners[..|old(runners)|] == old(runners)
        && fresh(runners[|old(runners)|])
        && runners[|old(runners)|].State() == NewRunner(q[..k], old(mb.runLabel))
    {
      if !TakesBurden() {
        return;
      }
      var mb := mostBurdenedRunner;
      var testsToTake := BurdenShare(mb.TestsCount());
      ghost var q := mb.queue;
      var queue: seq<UnitRef> := [];
      var i := 0;
      while i < testsToTake
        invariant 0 <= i <= testsToTake <= |q|
        invariant queue == q[..i] && mb.State() == old(mb.State()).(queue := q[i..])
        invariant Valid() && Repr == old(Repr) && runners == old(runners) && Out() == old(Out()) && world == old(world)
        invariant mostBurdenedRunner == mb
      {
        var test := mb.PopQueue();
        queue := queue + [test];
        assert q[..i + 1] == q[..i] + [q[i]];
        assert q[i + 1..] == q[i..][1..];
        i := i + 1;
      }
      var lane := AddLane(queue, mb.runLabel);
    }

    /** saveFinishedRunnerData for the finished lane `r`. */
    method SaveFinishedRunnerData(r: R.Runner)
      requires Valid()
      modifies this
      ensures Valid() && Repr == old(Repr)
      ensures Out() == Save(old(Out()), world, r.State(), skipRerunsForTestNames)
      ensures runners == old(runners) && world == old(world) && mostBurdenedRunner == old(mostBurdenedRunner)
    {
      SaveFailed(r.failedTests);
      SaveTimedOut(r.timedOutTests);
      SavePassed(r.passedTestsDuration);
    }

    /** The first loop of saveFinishedRunnerData. */
    method SaveFailed(failed: seq<UnitRef>)
      modifies this
      ensures var s := SplitFailed(Forbidden(world, skipRerunsForTestNames), failed);
        Out() == old(Out()).(failedTests := old(failedTests) + s.rerun, failedTestsNoRerun := old(failedTestsNoRerun) + s.noRerun)
      ensures runners == old(runners) && world == old(world) && mostBurdenedRunner == old(mostBurdenedRunner)
      ensures Repr == old(Repr)
    {
      var i := 0;
      while i < |failed|
        invariant 0 <= i <= |failed|
        invariant var s := SplitFailed(Forbidden(world, skipRerunsForTestNames), failed[..i]);
          failedTests == old(failedTests) + s.rerun && failedTestsNoRerun == old(failedTestsNoRerun) + s.noRerun
        invariant timedOutTests == old(timedOutTests) && markedSkippedTests == old(markedSkippedTests)
        invariant passedTestsDurations == old(passedTestsDurations) && failedTestsRerunCounts == old(failedTestsRerunCounts)
        invariant explodedClusterCests == old(explodedClusterCests)
        invariant runners == old(runners) && world == old(world) && mostBurdenedRunner == old(mostBurdenedRunner)
        invariant Repr == old(Repr)
      {
        SplitFailedStep(Forbidden(world, skipRerunsForTestNames), failed, i);
        var forbidden := RerunIsForbiddenMethod(failed[i]);
        if forbidden {
          failedTestsNoRerun := failedTestsNoRerun + [failed[i]];
        } else {
          failedTests := failedTests + [failed[i]];
        }
        i := i + 1;
      }
      assert failed[..i] == failed;
    }

    /** The second loop of saveFinishedRunnerData. */
    method SaveTimedOut(timedOut: seq<UnitRef>)
      modifies this
      ensures Out() == old(Out()).(timedOutTests := old(timedOutTests) + timedOut)
      ensures runners == old(runners) && world == old(world) && mostBurdenedRunner == old(mostBurdenedRunner)
      ensures Repr == old(Repr)
    {
      var j := 0;
      while j < |timedOut|
        invariant 0 <= j <= |timedOut|
        invariant Out() == old(Out()).(timedOutTests := old(timedOutTests) + timedOut[..j])
        invariant runners == old(runners) && world == old(world) && mostBurdenedRunner == old(mostBurdenedRunner)
        invariant Repr == old(Repr)
      {
        assert timedOut[..j + 1] == timedOut[..j] + [timedOut[j]];
        timedOutTests := timedOutTests + [timedOut[j]];
        j := j + 1;
      }
      assert timedOut[..j] == timedOut;
    }

    /** The third loop of saveFinishedRunnerData: put, so a later value wins. */
    method SavePassed(passed: Durations)
      modifies this
      ensures Out() == old(Out()).(passedTestsDurations := MergeKeys(old(passedTestsDurations), passed, passed.keys))
      ensures runners == old(runners) && world == old(world) && mostBurdenedRunner == old(mostBurdenedRunner)
      ensures Repr == old(Repr)
    {
      var k := 0;
      while k < |passed.keys|
        invariant 0 <= k <= |passed.keys|
        invariant Out() == old(Out()).(passedTestsDurations := MergeKeys(old(passedTestsDurations), passed, passed.keys[..k]))
        invariant runners == old(runners) && world == old(world) && mostBurdenedRunner == old(mostBurdenedRunner)
        invariant Repr == old(Repr)
      {
        assert passed.keys[..k + 1][..k] == passed.keys[..k];
        passedTestsDurations := Put(passedTestsDurations, passed.keys[k], passed.values[passed.keys[k]]);
        k := k + 1;
      }
      assert passed.keys[..k] == passed.keys;
    }

    method RerunIsForbiddenMethod(t: UnitRef) returns (forbidden: bool)
      ensures forbidden == RerunIsForbidden(world, skipRerunsForTestNames, t)
    {
      if NP.IsEmpty(skipRerunsForTestNames) {
        return false;
      }
      forbidden := U.UnitMatches(world, t, skipRerunsForTestNames);
    }

    /** getTestsForRerun: drains the failed tests into no-rerun, the rerun queue, or (for an
        explodable cluster) its children. */
    method GetTestsForRerun() returns (result: seq<UnitRef>)
      requires Valid()
      modifies this
      ensures Valid() && Repr == old(Repr)
      ensures Rerun(Out(), result) == TestsForRerun(old(Out()), world, settings.cfg)
      ensures runners == old(runners) && world == old(world) && mostBurdenedRunner == old(mostBurdenedRunner)
    {
      result := [];
      if failedTests == [] || settings.cfg.rerunCount == 0 {
        return;
      }
      var tests := failedTests;
      failedTests := [];
      result := RerunAll(tests);
    }

    /** getTestsForRerun's loop over the drained failed tests `tests`. */
    method RerunAll(tests: seq<UnitRef>) returns (result: seq<UnitRef>)
      modifies this
      ensures Repr == old(Repr)
      ensures Rerun(Out(), result) == RerunLoop(old(Out()), world, tests, settings.cfg)
      ensures runners == old(runners) && world == old(world) && mostBurdenedRunner == old(mostBurdenedRunner)
    {
      result := [];
      var i := 0;
      while i < |tests|
        invariant 0 <= i <= |tests|
        invariant Repr == old(Repr)
        invariant Rerun(Out(), result) == RerunLoop(old(Out()), world, tests[..i], settings.cfg)
        invariant runners == old(runners) && world == old(world) && mostBurdenedRunner == old(mostBurdenedRunner)
      {
        RerunLoopStep(old(Out()), world, tests, i, settings.cfg);
        result := RerunOne(tests[i], result);
        i := i + 1;
      }
      assert tests[..i] == tests;
    }

    /** The body of getTestsForRerun's loop, for `test`; `queue` is what the loop has
        gathered so far. */
    method RerunOne(test: UnitRef, queue: seq<UnitRef>) returns (queue': seq<UnitRef>)
      modifies this
      ensures Repr == old(Repr)
      ensures Rerun(Out(), queue') == RerunStep(old(Out()), queue, world, test, settings.cfg)
      ensures runners == old(runners) && world == old(world) && mostBurdenedRunner == old(mostBurdenedRunner)
    {
      queue' := queue;
      var exhausted := RerunCountIsExhausted(test);
      if exhausted {
        failedTestsNoRerun := failedTestsNoRerun + [test];
      } else if U.UnitIsCestLike(world, test) && settings.cfg.switches.fastCestRerun && !U.UnitHasPassedThisRun(world, test) {
        failedTestsNoRerun := failedTestsNoRerun + [test];
      } else if U.UnitIsCestLike(world, test) && settings.cfg.switches.fastCestRerun && U.UnitIsExplodable(world, test) {
        var children := ExplodeClusterCest(test.id);
        queue' := queue' + LeafRefs(children);
      } else {
        queue' := queue' + [test];
      }
    }

    /** rerunCountIsExhausted. */
    method RerunCountIsExhausted(t: UnitRef) returns (exhausted: bool)
      modifies this
      ensures (failedTestsRerunCounts, exhausted)
        == CheckExhausted(old(failedTestsRerunCounts), U.UnitName(world, t), settings.cfg.rerunCount)
      ensures Out() == old(Out()).(rerunCounts := failedTestsRerunCounts)
      ensures runners == old(runners) && world == old(world) && mostBurdenedRunner == old(mostBurdenedRunner)
      ensures Repr == old(Repr)
    {
      var name := U.UnitName(world, t);
      var rerunCount := (if name in failedTestsRerunCounts then failedTestsRerunCounts[name] else -1) + 1;
      failedTestsRerunCounts := failedTestsRerunCounts[name := rerunCount];
      exhausted := rerunCount >= settings.cfg.rerunCount;
    }

    /** explodeClusterCest: the cluster's failed tests, each inheriting the cluster's count;
        the cluster is remembered for the implode. */
    method ExplodeClusterCest(id: U.Id) returns (children: seq<U.Id>)
      requires U.UnitName(world, U.ClusterRef(id)) in failedTestsRerunCounts
      modifies this
      ensures runners == old(runners) && world == old(world) && mostBurdenedRunner == old(mostBurdenedRunner)
      ensures Repr == old(Repr)
      ensures children == U.Explode(U.GetCluster(world, id))
      ensures var count := old(failedTestsRerunCounts)[U.UnitName(world, U.ClusterRef(id))];
        Out() == old(Out()).(rerunCounts := Inherit(old(failedTestsRerunCounts), world, children, count),
                             explodedClusterCests := old(explodedClusterCests) + [id])
    {
      var count := failedTestsRerunCounts[U.UnitName(world, U.ClusterRef(id))];
      children := U.Explode(U.GetCluster(world, id));
      var i := 0;
      while i < |children|
        invariant 0 <= i <= |children|
        invariant failedTestsRerunCounts == Inherit(old(failedTestsRerunCounts), world, children[..i], count)
        invariant Out() == old(Out()).(rerunCounts := failedTestsRerunCounts)
        invariant runners == old(runners) && world == old(world) && mostBurdenedRunner == old(mostBurdenedRunner)
        invariant Repr == old(Repr)
      {
        assert children[..i + 1][..i] == children[..i];
        failedTestsRerunCounts := failedTestsRerunCounts[W.Hash(U.GetLeaf(world, children[i])) := count];
        i := i + 1;
      }
      assert children[..i] == children;
      explodedClusterCests := explodedClusterCests + [id];
    }

    /** implodeClusterCests. */
    method ImplodeClusterCests(plain: TR.Record -> string)
      requires Valid()
      modifies this
      ensures Valid() && Repr == old(Repr)
      ensures (Out(), world) == ImplodeAll(old(Out()), old(world), settings.cfg, plain, continuousRerun)
      ensures runners == old(runners) && mostBurdenedRunner == old(mostBurdenedRunner)
    {
      if !continuousRerun || explodedClusterCests == [] {
        return;
      }
      ImplodeExploded(plain);
      DropBomblets();
    }

    /** The first loop of implodeClusterCests. */
    method ImplodeExploded(plain: TR.Record -> string)
      modifies this
      ensures (Out(), world) == ImplodeEach(old(Out()).(explodedClusterCests := []), old(world), old(explodedClusterCests), settings.cfg, plain)
      ensures runners == old(runners) && mostBurdenedRunner == old(mostBurdenedRunner) && Repr == old(Repr)
    {
      var ids := explodedClusterCests;
      explodedClusterCests := [];
      var i := 0;
      while i < |ids|
        invariant 0 <= i <= |ids|
        invariant (Out(), world) == ImplodeEach(old(Out()).(explodedClusterCests := []), old(world), ids[..i], settings.cfg, plain)
        invariant runners == old(runners) && mostBurdenedRunner == old(mostBurdenedRunner) && Repr == old(Repr)
      {
        ImplodeEachStep(old(Out()).(explodedClusterCests := []), old(world), ids, i, settings.cfg, plain);
        ImplodeCluster(ids[i], plain);
        i := i + 1;
      }
      assert ids[..i] == ids;
    }

    /** The body of that loop, for the cluster `id`. */
    method ImplodeCluster(id: U.Id, plain: TR.Record -> string)
      modifies this
      ensures (Out(), world) == ImplodeOne(old(Out()), old(world), id, settings.cfg, plain)
      ensures runners == old(runners) && mostBurdenedRunner == old(mostBurdenedRunner) && Repr == old(Repr)
    {
      world := U.Implode(world, id, settings.cfg, plain);
      if U.UnitIsSuccessful(world, U.ClusterRef(id)) {
        var name := U.UnitName(world, U.ClusterRef(id));
        var wd := U.UnitDuration(world, U.ClusterRef(id));
        world := wd.0;
        passedTestsDurations := Put(passedTestsDurations, name, wd.1);
      } else {
        failedTestsNoRerun := failedTestsNoRerun + [U.ClusterRef(id)];
      }
    }

    /** The second loop of implodeClusterCests. */
    method DropBomblets()
      modifies this
      ensures Out() == old(Out()).(failedTestsNoRerun := WithoutBomblets(world, old(failedTestsNoRerun)))
      ensures world == old(world) && runners == old(runners) && mostBurdenedRunner == old(mostBurdenedRunner)
      ensures Repr == old(Repr)
    {
      var noRerun := failedTestsNoRerun;
      var filtered: seq<UnitRef> := [];
      var i := 0;
      while i < |noRerun|
        invariant 0 <= i <= |noRerun|
        invariant filtered == WithoutBomblets(world, noRerun[..i])
      {
        assert noRerun[..i + 1][..i] == noRerun[..i];
        if !U.UnitIsBomblet(world, noRerun[i]) {
          filtered := filtered + [noRerun[i]];
        }
        i := i + 1;
      }
      assert noRerun[..i] == noRerun;
      failedTestsNoRerun := filtered;
    }
  }

  // ---------------------------------------------------------------------------------
  // Properties of the bookkeeping.

  lemma {:induction false} RepeatChecksFrom(ledger: map<string, int>, name: string, rerunCount: int, k: nat, start: int)
    requires start == (if name in ledger then ledger[name] else -1) + 1
    ensures forall i :: 0 <= i < k ==> RepeatChecks(ledger, name, rerunCount, k)[i] == (start + i >= rerunCount)
    ensures CountAdmitted(RepeatChecks(ledger, name, rerunCount, k)) == Max(0, Min(k, rerunCount - start))
    decreases k
  {
    if k > 0 {
      var (l1, e) := CheckExhausted(ledger, name, rerunCount);
      RepeatChecksFrom(l1, name, rerunCount, k - 1, start + 1);
      var rest := RepeatChecks(l1, name, rerunCount, k - 1);
      assert RepeatChecks(ledger, name, rerunCount, k) == [e] + rest;
      assert forall i :: 1 <= i < k ==> RepeatChecks(ledger, name, rerunCount, k)[i] == rest[i - 1];
    }
  }

  /** The ledger: the i-th check of a name never checked before answers "exhausted" iff
      i ≥ rerunCount, so a test is admitted for rerun at most rerunCount times. */
  lemma LedgerAdmitsAtMostRerunCount(ledger: map<string, int>, name: string, rerunCount: int, k: nat)
    requires name !in ledger
    ensures forall i :: 0 <= i < k ==> RepeatChecks(ledger, name, rerunCount, k)[i] == (i >= rerunCount)
    ensures CountAdmitted(RepeatChecks(ledger, name, rerunCount, k)) == Max(0, Min(k, rerunCount))
  {
    RepeatChecksFrom(ledger, name, rerunCount, k, 0);
  }

  /** A check touches only the entry of the checked name. */
  lemma CheckTouchesOnlyItsName(ledger: map<string, int>, name: string, other: string, rerunCount: int)
    requires other != name
    ensures var l := CheckExhausted(ledger, name, rerunCount).0;
      (other in l <==> other in ledger) && (other in ledger ==> l[other] == ledger[other])
  {
  }

  /** saveFinishedRunnerData loses and invents nothing: every failure of the lane is in
      exactly one of the two failure queues, forbidden ones in no-rerun; timed-out tests are
      appended; the passed durations are merged, the lane's value winning. */
  lemma SaveRoutes(o: Outputs, w: U.World, r: RunnerState<UnitRef>, skip: NP.NameParts)
    ensures var s := Save(o, w, r, skip);
      multiset(s.failedTests) + multiset(s.failedTestsNoRerun)
        == multiset(o.failedTests) + multiset(o.failedTestsNoRerun) + multiset(r.failed)
      && s.failedTests[..|o.failedTests|] == o.failedTests
      && s.failedTestsNoRerun[..|o.failedTestsNoRerun|] == o.failedTestsNoRerun
      && (forall t :: t in s.failedTestsNoRerun[|o.failedTestsNoRerun|..] ==> RerunIsForbidden(w, skip, t))
      && (forall t :: t in s.failedTests[|o.failedTests|..] ==> !RerunIsForbidden(w, skip, t))
      && s.timedOutTests == o.timedOutTests + r.timedOut && s.markedSkippedTests == o.markedSkippedTests
      && (forall k :: k in s.passedTestsDurations.values <==> k in o.passedTestsDurations.values || k in r.passed.values)
      && (forall k :: k in r.passed.values ==> s.passedTestsDurations.values[k] == r.passed.values[k])
      && s.rerunCounts == o.rerunCounts && s.explodedClusterCests == o.explodedClusterCests
  {
    var sp := SplitFailed(Forbidden(w, skip), r.failed);
    SplitFailedKeeps(Forbidden(w, skip), r.failed);
    SplitFailedSorts(Forbidden(w, skip), r.failed);
    MergeKeysValues(o.passedTestsDurations, r.passed, r.passed.keys);
    assert s1: Save(o, w, r, skip).failedTests[|o.failedTests|..] == sp.rerun;
    assert s2: Save(o, w, r, skip).failedTestsNoRerun[|o.failedTestsNoRerun|..] == sp.noRerun;
  }

  /** getTestsForRerun returns nothing and leaves every output as it is when there are no
      failures or reruns are off. */
  lemma NoRerunLeavesFailures(o: Outputs, w: U.World, cfg: Settings.Config)
    requires o.failedTests == [] || cfg.rerunCount == 0
    ensures TestsForRerun(o, w, cfg) == Rerun(o, [])
  {
  }

  /** One test of getTestsForRerun goes to exactly one of four places: no-rerun when
      exhausted; no-rerun when a cest or cluster passed nothing this run under fast cest
      rerun; its children (the cluster being remembered) when an explodable cluster; else
      the rerun queue. */
  lemma RerunStepRoutes(o: Outputs, queue: seq<UnitRef>, w: U.World, t: UnitRef, cfg: Settings.Config)
    ensures var r := RerunStep(o, queue, w, t, cfg);
      var name := U.UnitName(w, t);
      var (ledger, exhausted) := CheckExhausted(o.rerunCounts, name, cfg.rerunCount);
      var cestRule := U.UnitIsCestLike(w, t) && cfg.switches.fastCestRerun;
      r.outputs.failedTests == o.failedTests && r.outputs.timedOutTests == o.timedOutTests
      && r.outputs.passedTestsDurations == o.passedTestsDurations
      && (exhausted || (cestRule && !U.UnitHasPassedThisRun(w, t)) ==>
            r.outputs.failedTestsNoRerun == o.failedTestsNoRerun + [t] && r.queue == queue
            && r.outputs.explodedClusterCests == o.explodedClusterCests && r.outputs.rerunCounts == ledger)
      && (!exhausted && cestRule && U.UnitHasPassedThisRun(w, t) && U.UnitIsExplodable(w, t) ==>
            var children := U.Explode(U.GetCluster(w, t.id));
            r.queue == queue + LeafRefs(children) && r.outputs.failedTestsNoRerun == o.failedTestsNoRerun
            && r.outputs.explodedClusterCests == o.explodedClusterCests + [t.id]
            && r.outputs.rerunCounts == Inherit(ledger, w, children, ledger[name]))
      && (!exhausted && !(cestRule && (!U.UnitHasPassedThisRun(w, t) || U.UnitIsExplodable(w, t))) ==>
            r.queue == queue + [t] && r.outputs.failedTestsNoRerun == o.failedTestsNoRerun
            && r.outputs.explodedClusterCests == o.explodedClusterCests && r.outputs.rerunCounts == ledger)
  {
  }

  lemma PrefixMembers<T>(a: seq<T>, b: seq<T>)
    requires a <= b
    ensures forall x :: x in a ==> x in b
  {
    assert forall i :: 0 <= i < |a| ==> a[i] == b[i];
  }

  /** One step only appends: to no-rerun, to the queue, or to the exploded clusters; and
      the test lands in one of them. */
  lemma RerunStepGrows(o: Outputs, queue: seq<UnitRef>, w: U.World, t: UnitRef, cfg: Settings.Config)
    ensures var r := RerunStep(o, queue, w, t, cfg);
      r.outputs.failedTests == o.failedTests && r.outputs.timedOutTests == o.timedOutTests
      && r.outputs.passedTestsDurations == o.passedTestsDurations && r.outputs.markedSkippedTests == o.markedSkippedTests
      && o.failedTestsNoRerun <= r.outputs.failedTestsNoRerun && queue <= r.queue
      && o.explodedClusterCests <= r.outputs.explodedClusterCests
      && (t in r.outputs.failedTestsNoRerun || t in r.queue || (t.ClusterRef? && t.id in r.outputs.explodedClusterCests))
  {
  }

  /** The loop leaves failed, timed-out and passed as they are and only appends. */
  lemma {:induction false} RerunLoopKeeps(o: Outputs, w: U.World, tests: seq<UnitRef>, cfg: Settings.Config)
    ensures var r := RerunLoop(o, w, tests, cfg);
      r.outputs.failedTests == o.failedTests && r.outputs.timedOutTests == o.timedOutTests
      && r.outputs.passedTestsDurations == o.passedTestsDurations
      && o.failedTestsNoRerun <= r.outputs.failedTestsNoRerun && o.explodedClusterCests <= r.outputs.explodedClusterCests
  {
    if tests != [] {
      RerunLoopKeeps(o, w, tests[..|tests| - 1], cfg);
      var r0 := RerunLoop(o, w, tests[..|tests| - 1], cfg);
      RerunStepGrows(r0.outputs, r0.queue, w, tests[|tests| - 1], cfg);
    }
  }

  /** Where a test of the loop may be found. */
  ghost predicate Routed(r: Rerun, t: UnitRef) {
    t in r.outputs.failedTestsNoRerun || t in r.queue || (t.ClusterRef? && t.id in r.outputs.explodedClusterCests)
  }

  /** The loop accounts for each drained test: it is in no-rerun, in the queue, or is a
      remembered exploded cluster. */
  lemma {:induction false} RerunLoopRoutes(o: Outputs, w: U.World, tests: seq<UnitRef>, cfg: Settings.Config)
    ensures forall t :: t in tests ==> Routed(RerunLoop(o, w, tests, cfg), t)
  {
    if tests != [] {
      var init := tests[..|tests| - 1];
      var t := tests[|tests| - 1];
      RerunLoopRoutes(o, w, init, cfg);
      var r0 := RerunLoop(o, w, init, cfg);
      var r := RerunStep(r0.outputs, r0.queue, w, t, cfg);
      RerunStepGrows(r0.outputs, r0.queue, w, t, cfg);
      RoutedStep(r0, r, tests);
    }
  }

  /** One step of RerunLoopRoutes, on the queues alone. */
  lemma RoutedStep(r0: Rerun, r: Rerun, tests: seq<UnitRef>)
    requires tests != [] && forall x :: x in tests[..|tests| - 1] ==> Routed(r0, x)
    requires r0.outputs.failedTestsNoRerun <= r.outputs.failedTestsNoRerun && r0.queue <= r.queue
    requires r0.outputs.explodedClusterCests <= r.outputs.explodedClusterCests
    requires Routed(r, tests[|tests| - 1])
    ensures forall x :: x in tests ==> Routed(r, x)
  {
    PrefixMembers(r0.outputs.failedTestsNoRerun, r.outputs.failedTestsNoRerun);
    PrefixMembers(r0.queue, r.queue);
    PrefixMembers(r0.outputs.explodedClusterCests, r.outputs.explodedClusterCests);
    assert tests == tests[..|tests| - 1] + [tests[|tests| - 1]];
    forall x | x in tests
      ensures Routed(r, x)
    {
      if x in tests[..|tests| - 1] {
        assert Routed(r0, x);
      }
    }
  }

  /** getTestsForRerun drains the failed tests and routes every one of them. */
  lemma TestsForRerunRoutes(o: Outputs, w: U.World, cfg: Settings.Config)
    ensures var r := TestsForRerun(o, w, cfg);
      (o.failedTests != [] && cfg.rerunCount != 0 ==> r.outputs.failedTests == [])
      && o.failedTestsNoRerun <= r.outputs.failedTestsNoRerun
      && r.outputs.timedOutTests == o.timedOutTests && r.outputs.passedTestsDurations == o.passedTestsDurations
      && (cfg.rerunCount != 0 ==> forall t :: t in o.failedTests ==> Routed(r, t))
  {
    if o.failedTests != [] && cfg.rerunCount != 0 {
      RerunLoopKeeps(o.(failedTests := []), w, o.failedTests, cfg);
      RerunLoopRoutes(o.(failedTests := []), w, o.failedTests, cfg);
    }
  }

  /** The burden move keeps every test: the new lane takes the front ceil(n/2), the old lane
      keeps the rest in order, and it takes at least one. */
  lemma BurdenKeepsTests<T>(q: seq<T>)
    requires q != []
    ensures var k := BurdenShare(|q|); q[..k] + q[k..] == q && 1 <= k <= |q| && |q[k..]| <= |q| / 2
  {
  }

  /** Imploding one cluster either books it as passed or appends it to no-rerun. */
  lemma ImplodeOneGrows(o: Outputs, w: U.World, id: U.Id, cfg: Settings.Config, plain: TR.Record -> string)
    ensures var r := ImplodeOne(o, w, id, cfg, plain).0;
      r.explodedClusterCests == o.explodedClusterCests && r.failedTests == o.failedTests
      && r.timedOutTests == o.timedOutTests
      && (r.failedTestsNoRerun == o.failedTestsNoRerun || r.failedTestsNoRerun == o.failedTestsNoRerun + [U.ClusterRef(id)])
      && (forall k :: k in o.passedTestsDurations.values ==> k in r.passedTestsDurations.values)
  {
  }

  /** The loop keeps failed, timed-out and exploded as they are, only appends to no-rerun
      and only adds passed names. */
  lemma {:induction false} ImplodeEachKeeps(o: Outputs, w: U.World, ids: seq<U.Id>, cfg: Settings.Config, plain: TR.Record -> string)
    ensures var r := ImplodeEach(o, w, ids, cfg, plain).0;
      r.explodedClusterCests == o.explodedClusterCests && r.failedTests == o.failedTests
      && r.timedOutTests == o.timedOutTests && o.failedTestsNoRerun <= r.failedTestsNoRerun
      && (forall k :: k in o.passedTestsDurations.values ==> k in r.passedTestsDurations.values)
  {
    if ids != [] {
      ImplodeEachKeeps(o, w, ids[..|ids| - 1], cfg, plain);
      var p := ImplodeEach(o, w, ids[..|ids| - 1], cfg, plain);
      ImplodeOneGrows(p.0, p.1, ids[|ids| - 1], cfg, plain);
    }
  }

  /** What the loop adds to no-rerun are clusters it imploded. */
  lemma {:induction false} ImplodeEachAdds(o: Outputs, w: U.World, ids: seq<U.Id>, cfg: Settings.Config, plain: TR.Record -> string)
    ensures var r := ImplodeEach(o, w, ids, cfg, plain).0;
      forall t :: t in r.failedTestsNoRerun && t !in o.failedTestsNoRerun ==> t.ClusterRef? && t.id in ids
  {
    if ids != [] {
      var init := ids[..|ids| - 1];
      var id := ids[|ids| - 1];
      ImplodeEachAdds(o, w, init, cfg, plain);
      var p := ImplodeEach(o, w, init, cfg, plain);
      ImplodeOneGrows(p.0, p.1, id, cfg, plain);
      AddsStep(o.failedTestsNoRerun, p.0.failedTestsNoRerun, ImplodeOne(p.0, p.1, id, cfg, plain).0.failedTestsNoRerun, ids);
    }
  }

  /** One step of ImplodeEachAdds, on the queues alone. */
  lemma AddsStep(before: seq<UnitRef>, mid: seq<UnitRef>, after: seq<UnitRef>, ids: seq<U.Id>)
    requires ids != [] && forall t :: t in mid && t !in before ==> t.ClusterRef? && t.id in ids[..|ids| - 1]
    requires after == mid || after == mid + [U.ClusterRef(ids[|ids| - 1])]
    ensures forall t :: t in after && t !in before ==> t.ClusterRef? && t.id in ids
  {
  }

  /** After implodeClusterCests no test made by a cluster is left in no-rerun, every earlier
      no-rerun entry that is not such a test is kept, and what it adds are exploded clusters
      that are still failing. */
  lemma ImplodeAllRoutes(o: Outputs, w: U.World, cfg: Settings.Config, plain: TR.Record -> string)
    requires o.explodedClusterCests != []
    ensures var (o1, w1) := ImplodeAll(o, w, cfg, plain, true);
      o1.explodedClusterCests == [] && o1.failedTests == o.failedTests && o1.timedOutTests == o.timedOutTests
      && (forall t :: t in o1.failedTestsNoRerun ==> !U.UnitIsBomblet(w1, t))
      && (forall t :: t in o.failedTestsNoRerun && !U.UnitIsBomblet(w1, t) ==> t in o1.failedTestsNoRerun)
      && (forall t :: t in o1.failedTestsNoRerun && t !in o.failedTestsNoRerun ==> t.ClusterRef? && t.id in o.explodedClusterCests)
  {
    var (oe, we) := ImplodeEach(o.(explodedClusterCests := []), w, o.explodedClusterCests, cfg, plain);
    ImplodeEachKeeps(o.(explodedClusterCests := []), w, o.explodedClusterCests, cfg, plain);
    ImplodeEachAdds(o.(explodedClusterCests := []), w, o.explodedClusterCests, cfg, plain);
    WithoutBombletsMembers(we, oe.failedTestsNoRerun);
    PrefixMembers(o.failedTestsNoRerun, oe.failedTestsNoRerun);
  }
  /** What the sweeps may do to the outputs: the timed-out tests, the tests not to rerun and
      the exploded clusters are only appended to, the passed names and the names the rerun
      ledger counts only grow, nothing is marked skipped, and outside continuous mode the
      failed tests are only appended to as well (in that mode getTestsForRerun drains them). */
  predicate OutputsGrow(o: Outputs, o1: Outputs, continuous: bool) {
    o.timedOutTests <= o1.timedOutTests && o.failedTestsNoRerun <= o1.failedTestsNoRerun
    && o.explodedClusterCests <= o1.explodedClusterCests && o1.markedSkippedTests == o.markedSkippedTests
    && (forall k :: k in o.passedTestsDurations.values ==> k in o1.passedTestsDurations.values)
    && (forall n :: n in o.rerunCounts ==> n in o1.rerunCounts)
    && (!continuous ==> o.failedTests <= o1.failedTests)
  }

  lemma OutputsGrowTrans(o0: Outputs, o1: Outputs, o2: Outputs, continuous: bool)
    requires OutputsGrow(o0, o1, continuous) && OutputsGrow(o1, o2, continuous)
    ensures OutputsGrow(o0, o2, continuous)
  {
  }

  /** saveFinishedRunnerData only appends and adds names. */
  lemma SaveGrows(o: Outputs, w: U.World, r: RunnerState<UnitRef>, skip: NP.NameParts, continuous: bool)
    ensures OutputsGrow(o, Save(o, w, r, skip), continuous)
  {
    SaveRoutes(o, w, r, skip);
  }

  /** The children's counts are set, every other name stays counted. */
  lemma {:induction false} InheritKeeps(ledger: map<string, int>, w: U.World, children: seq<U.Id>, count: int)
    ensures forall n :: n in ledger ==> n in Inherit(ledger, w, children, count)
  {
    if children != [] {
      InheritKeeps(ledger, w, children[..|children| - 1], count);
    }
  }

  /** One test of getTestsForRerun only appends and adds names. */
  lemma RerunStepOutputsGrow(o: Outputs, queue: seq<UnitRef>, w: U.World, t: UnitRef, cfg: Settings.Config)
    ensures OutputsGrow(o, RerunStep(o, queue, w, t, cfg).outputs, true)
  {
    RerunStepGrows(o, queue, w, t, cfg);
    var name := U.UnitName(w, t);
    var ledger := CheckExhausted(o.rerunCounts, name, cfg.rerunCount).0;
    InheritKeeps(ledger, w, U.Explode(U.GetCluster(w, t.id)), ledger[name]);
  }

  lemma {:induction false} RerunLoopOutputsGrow(o: Outputs, w: U.World, tests: seq<UnitRef>, cfg: Settings.Config)
    ensures OutputsGrow(o, RerunLoop(o, w, tests, cfg).outputs, true)
  {
    if tests != [] {
      RerunLoopOutputsGrow(o, w, tests[..|tests| - 1], cfg);
      var r0 := RerunLoop(o, w, tests[..|tests| - 1], cfg);
      RerunStepOutputsGrow(r0.outputs, r0.queue, w, tests[|tests| - 1], cfg);
      OutputsGrowTrans(o, r0.outputs, RerunLoop(o, w, tests, cfg).outputs, true);
    }
  }

  /** getTestsForRerun only appends and adds names, apart from draining the failed tests. */
  lemma TestsForRerunOutputsGrow(o: Outputs, w: U.World, cfg: Settings.Config)
    ensures OutputsGrow(o, TestsForRerun(o, w, cfg).outputs, true)
  {
    if o.failedTests != [] && cfg.rerunCount != 0 {
      RerunLoopOutputsGrow(o.(failedTests := []), w, o.failedTests, cfg);
      OutputsGrowTrans(o, o.(failedTests := []), TestsForRerun(o, w, cfg).outputs, true);
    }
  }

  /** implodeClusterCests keeps the failed and timed-out tests and only adds passed names. */
  lemma ImplodeAllKeeps(o: Outputs, w: U.World, cfg: Settings.Config, plain: TR.Record -> string, continuous: bool)
    ensures var o1 := ImplodeAll(o, w, cfg, plain, continuous).0;
      o1.failedTests == o.failedTests && o1.timedOutTests == o.timedOutTests
      && (forall k :: k in o.passedTestsDurations.values ==> k in o1.passedTestsDurations.values)
  {
    if continuous && o.explodedClusterCests != [] {
      ImplodeEachKeeps(o.(explodedClusterCests := []), w, o.explodedClusterCests, cfg, plain);
    }
  }
}
