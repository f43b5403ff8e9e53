/** The run orchestrator, ParacestamolRun, and its older form ParacetamolRun. It buckets the
    loaded tests into five phases, runs the two serial phases on one lane and the three
    parallel phases on partitioned queues, reruns what failed, sends durations to the
    statistics endpoint and prints the sorted failure report. The supervisors it starts are
    a parameter (`supervise`). Each spec function is what one PHP method does; the methods
    of the class are proved against them and the lemmas state what the functions promise. */
module ParacestamolRun {
  import opened Basics
  import opened Strings
  import NP = TestNameParts
  import Settings
  import P = Partitioner
  import RunnerCore

  type Durations = RunnerCore.Durations
  type Config = Settings.Config

  /** Paracestamol is the current orchestrator; Paracetamol the older one. */
  datatype Variant = Paracestamol | Paracetamol

  datatype Phase = BeforeSeries | BeforeParallel | Main | AfterParallel | AfterSeries

  /** The position of a phase in the order execute runs them. */
  function PhaseIndex(p: Phase): nat {
    match p
    case BeforeSeries => 0
    case BeforeParallel => 1
    case Main => 2
    case AfterParallel => 3
    case AfterSeries => 4
  }

  /** What the orchestrator asks of a test wrapper: getMatch, whether it is a TestWrapper,
      its name (`(string) $test`), getStatusDescription, its expected and actual durations,
      and `clone`. */
  datatype TestOps<!T> = TestOps(
    getMatch: (T, NP.NameParts) -> Option<string>,
    isTestWrapper: T -> bool,
    name: T -> string,
    status: T -> string,
    expected: T -> Option<int>,
    actual: T -> Option<int>,
    clone: T -> T)

  /** What a supervisor leaves behind: its failed, no-rerun and timed-out tests and the
      durations of the tests that passed. */
  datatype Outcome<T> = Outcome(failed: seq<T>, noRerun: seq<T>, timedOut: seq<T>, passed: Durations)

  /** A supervisor built on the queues and run to the end: the run's number in the whole
      execution, the queues, continuous mode and the settings it reads. */
  type Supervise<!T> = (nat, seq<seq<T>>, bool, Config) -> Outcome<T>

  /** How partitionInQueues turns the settings and the tests into queues and new settings. */
  type Partition<!T> = (Config, seq<T>) -> Partitioned<T>

  /** What a run depends on: the variant, the wrappers' operations, the supervisors and the
      partition (always PartitionOf of the variant; the loop lemmas only need Lawful). */
  datatype Ctx<!T> = Ctx(variant: Variant, ops: TestOps<T>, supervise: Supervise<T>, partition: Partition<T>)

  /** The observable state: the settings, the phase of every supervisor run so far, the
      duration maps sent to the statistics endpoint and the printed report lines. */
  datatype St = St(cfg: Config, runs: seq<Phase>, sent: seq<Durations>, printed: seq<string>)

  /** One supervisor run: the queues it was given and what it left. */
  datatype Pass<T> = Pass(queues: seq<seq<T>>, outcome: Outcome<T>)

  /** A rerun loop's end: the state, the tests it hands back (or what it threw) and its
      passes in order. */
  datatype Run<T> = Run(st: St, result: Result<seq<T>>, passes: seq<Pass<T>>)

  function Repeat(p: Phase, n: nat): (r: seq<Phase>)
    ensures |r| == n && forall i :: 0 <= i < n ==> r[i] == p
  {
    seq(n, i => p)
  }

  /** The options no step of a run changes. */
  predicate SameOptions(a: Config, b: Config) {
    a.processCount == b.processCount && a.rerunCount == b.rerunCount
    && a.switches.continuousRerun == b.switches.continuousRerun && a.switches.rerunWholeSeries == b.switches.rerunWholeSeries
    && a.switches.serialBeforeFailsRun == b.switches.serialBeforeFailsRun && a.switches.adaptiveDelay == b.switches.adaptiveDelay
    && a.maxRps == b.maxRps && a.statEndpoint == b.statEndpoint
    && a.switches.successfullyFetchedDurations == b.switches.successfullyFetchedDurations
  }

  // ---------------------------------------------------------------------------------
  // sendTestsDurations, partitionInQueues, setAdaptiveDelay.

  /** sendTestsDurations: nothing without an endpoint (`empty` also holds for "0") or with
      an empty map. */
  function Send(st: St, d: Durations): St {
    if IsEmptyText(st.cfg.statEndpoint) || |d.keys| == 0 then st else st.(sent := st.sent + [d])
  }

  /** Which partition partitionInQueues asks for: statBased needs fetched durations, and the
      current variant also more tests than processes. */
  predicate UsesStatBased(v: Variant, cfg: Config, count: nat) {
    cfg.switches.successfullyFetchedDurations && (v == Paracetamol || count > cfg.processCount)
  }

  datatype Partitioned<T> = Partitioned(queues: Result<seq<seq<T>>>, cfg: Config)

  /** partitionInQueues: statBased over the expected durations, or simple. */
  function PartitionSpec<T>(v: Variant, cfg: Config, tests: seq<T>, expected: T -> Option<int>): Partitioned<T> {
    if UsesStatBased(v, cfg, |tests|) then
      var o := P.StatBasedSpec(tests, cfg.processCount, expected);
      Partitioned(o.result, P.Recorded(cfg, o))
    else
      Partitioned(P.SimpleSpec(tests, cfg.processCount), cfg.(maxRunDuration := 0))
  }

  function PartitionOf<T>(v: Variant, expected: T -> Option<int>): Partition<T> {
    (cfg: Config, tests: seq<T>) => PartitionSpec(v, cfg, tests, expected)
  }

  /** The two facts about a partition the rerun loops rely on: it changes no option, and
      with a positive process count its queues hold exactly the tests. */
  ghost predicate Lawful<T(!new)>(x: Ctx<T>) {
    forall cfg: Config, tests: seq<T> ::
      SameOptions(cfg, x.partition(cfg, tests).cfg)
      && (cfg.processCount > 0 && x.partition(cfg, tests).queues.Ok? ==>
            multiset(Flatten(x.partition(cfg, tests).queues.value)) == multiset(tests))
  }

  lemma RecordedKeeps<T>(cfg: Config, o: P.StatOutcome<T>)
    ensures SameOptions(cfg, P.Recorded(cfg, o))
  {
  }

  /** Partitioning changes no option. */
  lemma PartitionOptions<T>(v: Variant, cfg: Config, tests: seq<T>, expected: T -> Option<int>)
    ensures SameOptions(cfg, PartitionSpec(v, cfg, tests, expected).cfg)
  {
    if UsesStatBased(v, cfg, |tests|) {
      RecordedKeeps(cfg, P.StatBasedSpec(tests, cfg.processCount, expected));
    }
  }

  /** With a positive process count the queues hold exactly the tests. */
  lemma PartitionKeeps<T>(v: Variant, cfg: Config, tests: seq<T>, expected: T -> Option<int>)
    ensures var p := PartitionSpec(v, cfg, tests, expected);
      cfg.processCount > 0 && p.queues.Ok? ==> multiset(Flatten(p.queues.value)) == multiset(tests)
  {
    if UsesStatBased(v, cfg, |tests|) {
      P.StatBasedQueues(tests, cfg.processCount, expected);
    } else {
      P.SimpleRule(tests, cfg.processCount);
    }
  }

  lemma {:induction false} MulAtLeast(m: nat, b: nat)
    requires m >= 1
    ensures m * b >= b
  {
    if m > 1 {
      MulAtLeast(m - 1, b);
      assert m * b == (m - 1) * b + b;
    }
  }

  lemma CeilDivOne(a: nat, b: nat)
    requires 0 < a <= b
    ensures CeilDiv(a, b) == 1
  {
    var r := CeilDiv(a, b);
    if r != 1 {
      MulAtLeast(r - 1, b);
    }
  }

  /** With no more tests than processes the current variant gives each test a process of
      its own and records no run duration. */
  lemma PartitionOwnProcess<T>(cfg: Config, tests: seq<T>, expected: T -> Option<int>)
    requires 0 < |tests| <= cfg.processCount
    ensures var p := PartitionSpec(Paracestamol, cfg, tests, expected);
      p.queues.Ok? && p.cfg.maxRunDuration == 0
      && forall i :: 0 <= i < |p.queues.value| ==> |p.queues.value[i]| <= 1
  {
    P.SimpleRule(tests, cfg.processCount);
    CeilDivOne(|tests|, cfg.processCount);
  }

  /** The older variant with fetched durations refuses a test without one. */
  lemma PartitionRefuses<T>(cfg: Config, tests: seq<T>, expected: T -> Option<int>)
    requires cfg.switches.successfullyFetchedDurations && !P.Known(tests, expected)
    ensures PartitionSpec(Paracetamol, cfg, tests, expected).queues == Throw(UsageException(P.NO_DURATION))
  {
    P.StatBasedFails(tests, cfg.processCount, expected);
  }

  /** The partition the orchestrator uses is lawful. */
  lemma PartitionOfLawful<T(!new)>(v: Variant, ops: TestOps<T>, supervise: Supervise<T>)
    ensures Lawful(Ctx(v, ops, supervise, PartitionOf(v, ops.expected)))
  {
    var x := Ctx(v, ops, supervise, PartitionOf(v, ops.expected));
    forall cfg: Config, tests: seq<T>
      ensures SameOptions(cfg, x.partition(cfg, tests).cfg)
      ensures cfg.processCount > 0 && x.partition(cfg, tests).queues.Ok? ==>
            multiset(Flatten(x.partition(cfg, tests).queues.value)) == multiset(tests)
    {
      PartitionOptions(v, cfg, tests, ops.expected);
      PartitionKeeps(v, cfg, tests, ops.expected);
    }
  }

  /** PHP's `floor($a / $b)` on integers, for a divisor that is not zero. */
  function FloorDiv(a: int, b: int): int
    requires b != 0
  {
    if b > 0 then a / b else (-a) / (-b)
  }

  /** The floor: the largest `r` with `r * b` not above `a` (for a positive divisor) or not
      below it (for a negative one). */
  lemma FloorDivRule(a: int, b: int)
    requires b != 0
    ensures b > 0 ==> FloorDiv(a, b) * b <= a < (FloorDiv(a, b) + 1) * b
    ensures b < 0 ==> FloorDiv(a, b) * b >= a > (FloorDiv(a, b) + 1) * b
  {
    var r := FloorDiv(a, b);
    if b > 0 {
      assert a == b * r + a % b;
    } else {
      assert -a == (-b) * r + (-a) % (-b);
    }
  }

  /** setAdaptiveDelay: off, nothing changes; on, the delay becomes
      floor(1000 / min(processCount, maxRps)) milliseconds, and a zero divisor throws. */
  function AdaptiveDelaySpec(cfg: Config): Result<Config> {
    if !cfg.switches.adaptiveDelay then Ok(cfg)
    else
      var rps := Min(cfg.processCount, cfg.maxRps);
      if rps == 0 then Throw(DivisionByZeroError)
      else Ok(Settings.WithDelay(cfg, FloorDiv(1000, rps)))
  }

  /** With a positive number of requests per second the delay spreads 1000 ms over them:
      `rps` delays fit in a second and one more would not; the options stay. */
  lemma AdaptiveDelayRule(cfg: Config)
    ensures AdaptiveDelaySpec(cfg).Throw? <==> cfg.switches.adaptiveDelay && Min(cfg.processCount, cfg.maxRps) == 0
    ensures AdaptiveDelaySpec(cfg).Ok? ==> SameOptions(cfg, AdaptiveDelaySpec(cfg).value)
    ensures var rps := Min(cfg.processCount, cfg.maxRps);
      cfg.switches.adaptiveDelay && rps > 0 ==>
        var d := AdaptiveDelaySpec(cfg).value.delayMsec;
        d * rps <= 1000 < (d + 1) * rps && AdaptiveDelaySpec(cfg).value.delaySeconds * 1000.0 == d as real
  {
    var rps := Min(cfg.processCount, cfg.maxRps);
    if cfg.switches.adaptiveDelay && rps != 0 {
      FloorDivRule(1000, rps);
    }
  }

  // ---------------------------------------------------------------------------------
  // runInParallel.

  /** runInParallel's loop from pass `i` on: stop after `count` passes or when nothing is
      left; a pass partitions (a throw ends the run), sets the adaptive delay, runs a
      supervisor, sends the passed durations and keeps the no-rerun and timed-out tests. */
  function ParallelLoop<T>(x: Ctx<T>, phase: Phase, continuous: bool, count: int, st: St,
                           tests: seq<T>, noRerun: seq<T>, i: nat): Run<T>
    decreases count - i
  {
    if i >= count || tests == [] then Run(st, Ok(tests + noRerun), [])
    else
      var p := x.partition(st.cfg, tests);
      if p.queues.Throw? then Run(st.(cfg := p.cfg), Throw(p.queues.error), [])
      else
        var d := AdaptiveDelaySpec(p.cfg);
        if d.Throw? then Run(st.(cfg := p.cfg), Throw(d.error), [])
        else
          var o := x.supervise(|st.runs|, p.queues.value, continuous, d.value);
          var next := Send(st.(cfg := d.value, runs := st.runs + [phase]), o.passed);
          var r := ParallelLoop(x, phase, continuous, count, next, o.failed, noRerun + o.noRerun + o.timedOut, i + 1);
          r.(passes := [Pass(p.queues.value, o)] + r.passes)
  }

  /** Two runs end alike: the same result and the same state. */
  ghost predicate SameEnd<T>(a: Run<T>, b: Run<T>) {
    a.result == b.result && a.st == b.st
  }

  /** The number of passes a rerun loop may make: one in continuous mode (the supervisor
      reruns on its own), else runCount. */
  function ParallelCount(runCount: int, continuous: bool): int {
    if continuous then 1 else runCount
  }

  function RunInParallelSpec<T>(x: Ctx<T>, phase: Phase, tests: seq<T>, runCount: int, continuous: bool, st: St): Run<T> {
    if tests == [] then Run(st, Ok(tests), [])
    else ParallelLoop(x, phase, continuous, ParallelCount(runCount, continuous), st, tests, [], 0)
  }

  /** The tests a loop holds after its passes: the last pass's failures. */
  function LastFailed<T>(tests: seq<T>, passes: seq<Pass<T>>): seq<T> {
    if passes == [] then tests else passes[|passes| - 1].outcome.failed
  }

  /** The no-rerun and timed-out tests of the passes, in pass order. */
  function Leftovers<T>(passes: seq<Pass<T>>): seq<T> {
    if passes == [] then [] else passes[0].outcome.noRerun + passes[0].outcome.timedOut + Leftovers(passes[1..])
  }

  lemma Regroup<T>(a: seq<T>, n: seq<T>, b: seq<T>, c: seq<T>, l: seq<T>)
    ensures a + (n + b + c) + l == a + n + (b + c + l)
  {
  }

  lemma LeftoversCons<T>(p: Pass<T>, ps: seq<Pass<T>>)
    ensures Leftovers([p] + ps) == p.outcome.noRerun + p.outcome.timedOut + Leftovers(ps)
    ensures LastFailed(p.outcome.failed, ps) == LastFailed([], [p] + ps)
  {
    assert ([p] + ps)[1..] == ps;
  }

  /** The tests pass `k` starts from. */
  function PassInput<T>(tests: seq<T>, passes: seq<Pass<T>>, k: nat): seq<T>
    requires k <= |passes|
  {
    if k == 0 then tests else passes[k - 1].outcome.failed
  }

  /** No pass starts from an empty list. */
  predicate EveryStartNonEmpty<T>(tests: seq<T>, passes: seq<Pass<T>>) {
    forall k :: 0 <= k < |passes| ==> PassInput(tests, passes, k) != []
  }

  /** The queues of every pass hold exactly the tests it starts from. */
  ghost predicate QueuesHoldStarts<T>(tests: seq<T>, passes: seq<Pass<T>>) {
    forall k :: 0 <= k < |passes| ==> multiset(Flatten(passes[k].queues)) == multiset(PassInput(tests, passes, k))
  }

  lemma QueuesHoldStartsCons<T>(tests: seq<T>, p: Pass<T>, ps: seq<Pass<T>>)
    requires multiset(Flatten(p.queues)) == multiset(tests) && QueuesHoldStarts(p.outcome.failed, ps)
    ensures QueuesHoldStarts(tests, [p] + ps)
  {
    var all := [p] + ps;
    forall k | 0 <= k < |all| ensures multiset(Flatten(all[k].queues)) == multiset(PassInput(tests, all, k)) {
      if k > 0 {
        assert PassInput(tests, all, k) == PassInput(p.outcome.failed, ps, k - 1);
        assert all[k] == ps[k - 1];
      }
    }
  }

  /** At most `count - i` passes. */
  lemma {:induction false} ParallelLoopCount<T>(x: Ctx<T>, phase: Phase, continuous: bool, count: int, st: St,
                                                tests: seq<T>, noRerun: seq<T>, i: nat)
    ensures |ParallelLoop(x, phase, continuous, count, st, tests, noRerun, i).passes|
      <= (if count > i then count - i else 0)
    decreases count - i
  {
    if i < count && tests != [] {
      var p := x.partition(st.cfg, tests);
      if p.queues.Ok? {
        var d := AdaptiveDelaySpec(p.cfg);
        if d.Ok? {
          var o := x.supervise(|st.runs|, p.queues.value, continuous, d.value);
          var next := Send(st.(cfg := d.value, runs := st.runs + [phase]), o.passed);
          ParallelLoopCount(x, phase, continuous, count, next, o.failed, noRerun + o.noRerun + o.timedOut, i + 1);
        }
      }
    }
  }

  /** Each pass is one supervisor run of the phase, and nothing is printed. */
  lemma {:induction false} ParallelLoopRuns<T>(x: Ctx<T>, phase: Phase, continuous: bool, count: int, st: St,
                                               tests: seq<T>, noRerun: seq<T>, i: nat)
    ensures var r := ParallelLoop(x, phase, continuous, count, st, tests, noRerun, i);
      r.st.runs == st.runs + Repeat(phase, |r.passes|) && r.st.printed == st.printed
    decreases count - i
  {
    if i < count && tests != [] {
      var p := x.partition(st.cfg, tests);
      if p.queues.Ok? {
        var d := AdaptiveDelaySpec(p.cfg);
        if d.Ok? {
          var o := x.supervise(|st.runs|, p.queues.value, continuous, d.value);
          var next := Send(st.(cfg := d.value, runs := st.runs + [phase]), o.passed);
          ParallelLoopRuns(x, phase, continuous, count, next, o.failed, noRerun + o.noRerun + o.timedOut, i + 1);
          var r := ParallelLoop(x, phase, continuous, count, next, o.failed, noRerun + o.noRerun + o.timedOut, i + 1);
          assert Repeat(phase, |r.passes| + 1) == [phase] + Repeat(phase, |r.passes|);
        }
      }
    }
  }

  /** A lawful partition and the adaptive delay leave the options as they were. */
  lemma {:induction false} ParallelLoopOptions<T(!new)>(x: Ctx<T>, phase: Phase, continuous: bool, count: int, st: St,
                                                  tests: seq<T>, noRerun: seq<T>, i: nat)
    requires Lawful(x)
    ensures SameOptions(st.cfg, ParallelLoop(x, phase, continuous, count, st, tests, noRerun, i).st.cfg)
    decreases count - i
  {
    if i < count && tests != [] {
      var p := x.partition(st.cfg, tests);
      assert SameOptions(st.cfg, p.cfg);
      if p.queues.Ok? {
        var d := AdaptiveDelaySpec(p.cfg);
        AdaptiveDelayRule(p.cfg);
        if d.Ok? {
          var o := x.supervise(|st.runs|, p.queues.value, continuous, d.value);
          var next := Send(st.(cfg := d.value, runs := st.runs + [phase]), o.passed);
          ParallelLoopOptions(x, phase, continuous, count, next, o.failed, noRerun + o.noRerun + o.timedOut, i + 1);
        }
      }
    }
  }

  /** The loop hands back the last failures, then every no-rerun and timed-out test. */
  lemma {:induction false} ParallelLoopResult<T>(x: Ctx<T>, phase: Phase, continuous: bool, count: int, st: St,
                                                 tests: seq<T>, noRerun: seq<T>, i: nat)
    ensures var r := ParallelLoop(x, phase, continuous, count, st, tests, noRerun, i);
      r.result.Ok? ==> r.result.value == LastFailed(tests, r.passes) + noRerun + Leftovers(r.passes)
    decreases count - i
  {
    if i < count && tests != [] {
      var p := x.partition(st.cfg, tests);
      if p.queues.Ok? {
        var d := AdaptiveDelaySpec(p.cfg);
        if d.Ok? {
          var o := x.supervise(|st.runs|, p.queues.value, continuous, d.value);
          var next := Send(st.(cfg := d.value, runs := st.runs + [phase]), o.passed);
          var rest := noRerun + o.noRerun + o.timedOut;
          ParallelLoopResult(x, phase, continuous, count, next, o.failed, rest, i + 1);
          var r := ParallelLoop(x, phase, continuous, count, next, o.failed, rest, i + 1);
          var pass := Pass(p.queues.value, o);
          var all := ParallelLoop(x, phase, continuous, count, st, tests, noRerun, i);
          assert all == r.(passes := [pass] + r.passes);
          LeftoversCons(pass, r.passes);
          assert LastFailed(tests, [pass] + r.passes) == LastFailed(o.failed, r.passes);
          if r.result.Ok? {
            Regroup(LastFailed(o.failed, r.passes), noRerun, o.noRerun, o.timedOut, Leftovers(r.passes));
          }
        }
      }
    }
  }

  /** A loop that hands tests back stops before its last allowed pass only when no
      failure is left. */
  lemma {:induction false} ParallelLoopStops<T>(x: Ctx<T>, phase: Phase, continuous: bool, count: int, st: St,
                                                tests: seq<T>, noRerun: seq<T>, i: nat)
    ensures var r := ParallelLoop(x, phase, continuous, count, st, tests, noRerun, i);
      r.result.Ok? && i + |r.passes| < count ==> LastFailed(tests, r.passes) == []
    decreases count - i
  {
    if i < count && tests != [] {
      var p := x.partition(st.cfg, tests);
      if p.queues.Ok? {
        var d := AdaptiveDelaySpec(p.cfg);
        if d.Ok? {
          var o := x.supervise(|st.runs|, p.queues.value, continuous, d.value);
          var next := Send(st.(cfg := d.value, runs := st.runs + [phase]), o.passed);
          var rest := noRerun + o.noRerun + o.timedOut;
          ParallelLoopStops(x, phase, continuous, count, next, o.failed, rest, i + 1);
          var r := ParallelLoop(x, phase, continuous, count, next, o.failed, rest, i + 1);
          var pass := Pass(p.queues.value, o);
          LeftoversCons(pass, r.passes);
          assert LastFailed(tests, [pass] + r.passes) == LastFailed(o.failed, r.passes);
        }
      }
    }
  }

  /** Pass `k` starts from the previous pass's failures (the input for the first), and that
      is never empty. */
  lemma {:induction false} ParallelLoopStarts<T>(x: Ctx<T>, phase: Phase, continuous: bool, count: int, st: St,
                                                 tests: seq<T>, noRerun: seq<T>, i: nat)
    ensures EveryStartNonEmpty(tests, ParallelLoop(x, phase, continuous, count, st, tests, noRerun, i).passes)
    decreases count - i
  {
    if i < count && tests != [] {
      var p := x.partition(st.cfg, tests);
      if p.queues.Ok? {
        var d := AdaptiveDelaySpec(p.cfg);
        if d.Ok? {
          var o := x.supervise(|st.runs|, p.queues.value, continuous, d.value);
          var next := Send(st.(cfg := d.value, runs := st.runs + [phase]), o.passed);
          var rest := noRerun + o.noRerun + o.timedOut;
          ParallelLoopStarts(x, phase, continuous, count, next, o.failed, rest, i + 1);
          var r := ParallelLoop(x, phase, continuous, count, next, o.failed, rest, i + 1);
          var all := ParallelLoop(x, phase, continuous, count, st, tests, noRerun, i);
          assert all.passes == [Pass(p.queues.value, o)] + r.passes;
          forall k | 0 <= k < |all.passes|
            ensures PassInput(tests, all.passes, k) != []
          {
            if k > 0 {
              assert PassInput(tests, all.passes, k) == PassInput(o.failed, r.passes, k - 1);
              assert PassInput(o.failed, r.passes, k - 1) != [];
            }
          }
        }
      }
    }
  }

  /** With a positive process count and a lawful partition, the queues of every pass hold
      exactly the tests it starts from. */
  lemma {:induction false} ParallelLoopQueues<T(!new)>(x: Ctx<T>, phase: Phase, continuous: bool, count: int, st: St,
                                                     tests: seq<T>, noRerun: seq<T>, i: nat)
    requires Lawful(x) && st.cfg.processCount > 0
    ensures QueuesHoldStarts(tests, ParallelLoop(x, phase, continuous, count, st, tests, noRerun, i).passes)
    decreases count - i
  {
    if i < count && tests != [] {
      var p := x.partition(st.cfg, tests);
      assert SameOptions(st.cfg, p.cfg);
      if p.queues.Ok? {
        var d := AdaptiveDelaySpec(p.cfg);
        AdaptiveDelayRule(p.cfg);
        if d.Ok? {
          var o := x.supervise(|st.runs|, p.queues.value, continuous, d.value);
          var next := Send(st.(cfg := d.value, runs := st.runs + [phase]), o.passed);
          var rest := noRerun + o.noRerun + o.timedOut;
          ParallelLoopQueues(x, phase, continuous, count, next, o.failed, rest, i + 1);
          var r := ParallelLoop(x, phase, continuous, count, next, o.failed, rest, i + 1);
          QueuesHoldStartsCons(tests, Pass(p.queues.value, o), r.passes);
        }
      }
    }
  }

  /** runInParallel hands an empty input back untouched; otherwise it makes at most
      runCount passes (one in continuous mode), all of this phase. */
  lemma RunInParallelShape<T>(x: Ctx<T>, phase: Phase, tests: seq<T>, runCount: int, continuous: bool, st: St)
    ensures var r := RunInParallelSpec(x, phase, tests, runCount, continuous, st);
      var count := ParallelCount(runCount, continuous);
      (tests == [] ==> r == Run(st, Ok([]), []))
      && |r.passes| <= (if count > 0 then count else 0)
      && (continuous ==> |r.passes| <= 1)
      && r.st.runs == st.runs + Repeat(phase, |r.passes|) && r.st.printed == st.printed
  {
    if tests != [] {
      var count := ParallelCount(runCount, continuous);
      ParallelLoopCount(x, phase, continuous, count, st, tests, [], 0);
      ParallelLoopRuns(x, phase, continuous, count, st, tests, [], 0);
    }
  }

  /** runInParallel returns the last failures followed by every no-rerun and timed-out
      test, and stops early only when no failure is left. */
  lemma RunInParallelResult<T>(x: Ctx<T>, phase: Phase, tests: seq<T>, runCount: int, continuous: bool, st: St)
    ensures var r := RunInParallelSpec(x, phase, tests, runCount, continuous, st);
      var count := ParallelCount(runCount, continuous);
      (r.result.Ok? ==> r.result.value == LastFailed(tests, r.passes) + Leftovers(r.passes))
      && (r.result.Ok? && |r.passes| < count ==> LastFailed(tests, r.passes) == [])
  {
    if tests != [] {
      var count := ParallelCount(runCount, continuous);
      ParallelLoopResult(x, phase, continuous, count, st, tests, [], 0);
      ParallelLoopStops(x, phase, continuous, count, st, tests, [], 0);
      var r := ParallelLoop(x, phase, continuous, count, st, tests, [], 0);
      var last := LastFailed(tests, r.passes);
      assert last + [] == last;
    }
  }

  /** With a lawful partition runInParallel keeps the options. */
  lemma RunInParallelOptions<T(!new)>(x: Ctx<T>, phase: Phase, tests: seq<T>, runCount: int, continuous: bool, st: St)
    requires Lawful(x)
    ensures SameOptions(st.cfg, RunInParallelSpec(x, phase, tests, runCount, continuous, st).st.cfg)
  {
    if tests != [] {
      ParallelLoopOptions(x, phase, continuous, ParallelCount(runCount, continuous), st, tests, [], 0);
    }
  }

  // ---------------------------------------------------------------------------------
  // runInSeries and cloneQueue.

  /** `clone` of every test, in order. */
  function Clones<T>(ops: TestOps<T>, tests: seq<T>): (r: seq<T>)
    ensures |r| == |tests| && forall i :: 0 <= i < |tests| ==> r[i] == ops.clone(tests[i])
  {
    seq(|tests|, i requires 0 <= i < |tests| => ops.clone(tests[i]))
  }

  /** What a serial pass leaves to rerun: with rerun-whole-series, any failure makes it the
      fresh clones of the whole pass; otherwise the failures. */
  function SeriesNext<T>(whole: bool, ops: TestOps<T>, input: seq<T>, o: Outcome<T>): seq<T> {
    if whole && o.failed != [] then Clones(ops, input) else o.failed
  }

  /** runInSeries' loop from pass `i` on: one lane, no continuous rerun, no partition. */
  function SeriesLoop<T>(x: Ctx<T>, phase: Phase, count: int, st: St, tests: seq<T>, noRerun: seq<T>, i: nat): Run<T>
    decreases count - i
  {
    if i >= count || tests == [] then Run(st, Ok(tests + noRerun), [])
    else
      var o := x.supervise(|st.runs|, [tests], false, st.cfg);
      var next := Send(st.(runs := st.runs + [phase]), o.passed);
      var r := SeriesLoop(x, phase, count, next, SeriesNext(st.cfg.switches.rerunWholeSeries, x.ops, tests, o),
                          noRerun + o.noRerun + o.timedOut, i + 1);
      r.(passes := [Pass([tests], o)] + r.passes)
  }

  /** The current variant forces a one-second delay before a serial run when the delay is
      adaptive. */
  function SeriesConfig(v: Variant, cfg: Config): Config {
    if v == Paracestamol && cfg.switches.adaptiveDelay then Settings.WithDelay(cfg, 1000) else cfg
  }

  function RunInSeriesSpec<T>(x: Ctx<T>, phase: Phase, tests: seq<T>, runCount: int, st: St): Run<T> {
    if tests == [] then Run(st, Ok(tests), [])
    else SeriesLoop(x, phase, runCount, st.(cfg := SeriesConfig(x.variant, st.cfg)), tests, [], 0)
  }

  /** Every pass runs one lane. */
  predicate OneLane<T>(passes: seq<Pass<T>>) {
    forall k :: 0 <= k < |passes| ==> |passes[k].queues| == 1
  }

  /** The first one-lane pass runs over the input and each later one over what the
      previous left to rerun. */
  ghost predicate SerialChain<T>(whole: bool, ops: TestOps<T>, tests: seq<T>, passes: seq<Pass<T>>)
    requires OneLane(passes)
  {
    (passes != [] ==> passes[0].queues[0] == tests)
    && forall k :: 0 < k < |passes| ==>
         passes[k].queues[0] == SeriesNext(whole, ops, passes[k - 1].queues[0], passes[k - 1].outcome)
  }

  /** What the series rerun hands back after its passes. */
  function SeriesLast<T>(whole: bool, ops: TestOps<T>, tests: seq<T>, passes: seq<Pass<T>>): seq<T>
    requires OneLane(passes)
  {
    if passes == [] then tests
    else SeriesNext(whole, ops, passes[|passes| - 1].queues[0], passes[|passes| - 1].outcome)
  }

  lemma {:induction false} SeriesLoopShape<T>(x: Ctx<T>, phase: Phase, count: int, st: St, tests: seq<T>, noRerun: seq<T>, i: nat)
    ensures var r := SeriesLoop(x, phase, count, st, tests, noRerun, i);
      r.result.Ok?
      && |r.passes| <= (if count > i then count - i else 0)
      && r.st.runs == st.runs + Repeat(phase, |r.passes|)
      && r.st.cfg == st.cfg && r.st.printed == st.printed
      && OneLane(r.passes)
    decreases count - i
  {
    if i < count && tests != [] {
      var o := x.supervise(|st.runs|, [tests], false, st.cfg);
      var next := Send(st.(runs := st.runs + [phase]), o.passed);
      var n := SeriesNext(st.cfg.switches.rerunWholeSeries, x.ops, tests, o);
      SeriesLoopShape(x, phase, count, next, n, noRerun + o.noRerun + o.timedOut, i + 1);
      var r := SeriesLoop(x, phase, count, next, n, noRerun + o.noRerun + o.timedOut, i + 1);
      assert Repeat(phase, |r.passes| + 1) == [phase] + Repeat(phase, |r.passes|);
    }
  }

  /** Every serial pass runs one lane: the input first, then what the previous pass left to
      rerun. */
  lemma {:induction false} SeriesLoopInputs<T>(x: Ctx<T>, phase: Phase, count: int, st: St, tests: seq<T>, noRerun: seq<T>, i: nat)
    ensures var r := SeriesLoop(x, phase, count, st, tests, noRerun, i);
      OneLane(r.passes) && SerialChain(st.cfg.switches.rerunWholeSeries, x.ops, tests, r.passes)
    decreases count - i
  {
    SeriesLoopShape(x, phase, count, st, tests, noRerun, i);
    if i < count && tests != [] {
      var whole := st.cfg.switches.rerunWholeSeries;
      var o := x.supervise(|st.runs|, [tests], false, st.cfg);
      var next := Send(st.(runs := st.runs + [phase]), o.passed);
      var n := SeriesNext(whole, x.ops, tests, o);
      var rest := noRerun + o.noRerun + o.timedOut;
      SeriesLoopInputs(x, phase, count, next, n, rest, i + 1);
      var r := SeriesLoop(x, phase, count, next, n, rest, i + 1);
      var all := SeriesLoop(x, phase, count, st, tests, noRerun, i);
      assert all.passes == [Pass([tests], o)] + r.passes;
      assert next.cfg == st.cfg;
      forall k | 0 < k < |all.passes|
        ensures all.passes[k] == r.passes[k - 1]
      {
      }
    }
  }

  /** The result is what the last pass left, then every no-rerun and timed-out test; the
      loop stops early only when nothing is left to rerun. */
  lemma {:induction false} SeriesLoopResult<T>(x: Ctx<T>, phase: Phase, count: int, st: St, tests: seq<T>, noRerun: seq<T>, i: nat)
    ensures OneLane(SeriesLoop(x, phase, count, st, tests, noRerun, i).passes)
    ensures var r := SeriesLoop(x, phase, count, st, tests, noRerun, i);
      r.result == Ok(SeriesLast(st.cfg.switches.rerunWholeSeries, x.ops, tests, r.passes) + noRerun + Leftovers(r.passes))
    ensures var r := SeriesLoop(x, phase, count, st, tests, noRerun, i);
      i + |r.passes| < count ==> SeriesLast(st.cfg.switches.rerunWholeSeries, x.ops, tests, r.passes) == []
    decreases count - i
  {
    SeriesLoopShape(x, phase, count, st, tests, noRerun, i);
    if i < count && tests != [] {
      var whole := st.cfg.switches.rerunWholeSeries;
      var o := x.supervise(|st.runs|, [tests], false, st.cfg);
      var next := Send(st.(runs := st.runs + [phase]), o.passed);
      var n := SeriesNext(whole, x.ops, tests, o);
      var rest := noRerun + o.noRerun + o.timedOut;
      SeriesLoopResult(x, phase, count, next, n, rest, i + 1);
      var r := SeriesLoop(x, phase, count, next, n, rest, i + 1);
      var pass := Pass([tests], o);
      var all := SeriesLoop(x, phase, count, st, tests, noRerun, i);
      assert all == r.(passes := [pass] + r.passes);
      assert next.cfg == st.cfg;
      LeftoversCons(pass, r.passes);
      assert SeriesLast(whole, x.ops, tests, all.passes) == SeriesLast(whole, x.ops, n, r.passes);
      Regroup(SeriesLast(whole, x.ops, n, r.passes), noRerun, o.noRerun, o.timedOut, Leftovers(r.passes));
    } else {
      var all := SeriesLoop(x, phase, count, st, tests, noRerun, i);
      assert tests + noRerun + Leftovers(all.passes) == tests + noRerun;
    }
  }

  /** runInSeries hands an empty input back untouched and never throws; it makes at most
      runCount one-lane passes of the phase and changes no option. */
  lemma RunInSeriesShape<T>(x: Ctx<T>, phase: Phase, tests: seq<T>, runCount: int, st: St)
    ensures var r := RunInSeriesSpec(x, phase, tests, runCount, st);
      (tests == [] ==> r == Run(st, Ok([]), []))
      && r.result.Ok?
      && |r.passes| <= (if runCount > 0 then runCount else 0)
      && r.st.runs == st.runs + Repeat(phase, |r.passes|)
      && SameOptions(st.cfg, r.st.cfg) && r.st.printed == st.printed
  {
    if tests != [] {
      var st0 := st.(cfg := SeriesConfig(x.variant, st.cfg));
      SeriesLoopShape(x, phase, runCount, st0, tests, [], 0);
    }
  }

  /** The first serial pass runs over the input and each later one over what the previous
      left to rerun (with rerun-whole-series: fresh clones of the whole previous pass);
      the result is what the last pass left, then every no-rerun and timed-out test, and
      the loop stops early only when nothing is left to rerun. */
  lemma RunInSeriesResult<T>(x: Ctx<T>, phase: Phase, tests: seq<T>, runCount: int, st: St)
    ensures var r := RunInSeriesSpec(x, phase, tests, runCount, st);
      var whole := st.cfg.switches.rerunWholeSeries;
      OneLane(r.passes) && SerialChain(whole, x.ops, tests, r.passes)
      && r.result == Ok(SeriesLast(whole, x.ops, tests, r.passes) + Leftovers(r.passes))
      && (|r.passes| < runCount ==> SeriesLast(whole, x.ops, tests, r.passes) == [])
  {
    if tests != [] {
      var st0 := st.(cfg := SeriesConfig(x.variant, st.cfg));
      SeriesLoopInputs(x, phase, runCount, st0, tests, [], 0);
      SeriesLoopResult(x, phase, runCount, st0, tests, [], 0);
      var r := SeriesLoop(x, phase, runCount, st0, tests, [], 0);
      assert st0.cfg.switches == st.cfg.switches;
      var last := SeriesLast(st.cfg.switches.rerunWholeSeries, x.ops, tests, r.passes);
      assert last + [] == last;
    } else {
      assert tests + Leftovers<T>([]) == tests;
    }
  }

  // ---------------------------------------------------------------------------------
  // partitionInBeforeAfterGroups.

  /** The four configured group lists as TestNameParts. */
  datatype Names = Names(beforeSeries: NP.NameParts, beforeParallel: NP.NameParts,
                         afterParallel: NP.NameParts, afterSeries: NP.NameParts)

  function NamesOf(cfg: Config): Names {
    Names(NP.Classify(cfg.runBeforeSeries), NP.Classify(cfg.runBeforeParallel),
          NP.Classify(cfg.runAfterParallel), NP.Classify(cfg.runAfterSeries))
  }

  /** The first list the test matches, in the order before-series, before-parallel,
      after-parallel, after-series; main when it matches none. */
  function PhaseOf<T>(ops: TestOps<T>, g: Names, t: T): Phase {
    if ops.getMatch(t, g.beforeSeries).Some? then BeforeSeries
    else if ops.getMatch(t, g.beforeParallel).Some? then BeforeParallel
    else if ops.getMatch(t, g.afterParallel).Some? then AfterParallel
    else if ops.getMatch(t, g.afterSeries).Some? then AfterSeries
    else Main
  }

  /** The bucket of a phase: its tests in their order. */
  function InPhase<T>(ops: TestOps<T>, g: Names, tests: seq<T>, p: Phase): seq<T> {
    if tests == [] then []
    else
      var rest := InPhase(ops, g, tests[..|tests| - 1], p);
      if PhaseOf(ops, g, tests[|tests| - 1]) == p then rest + [tests[|tests| - 1]] else rest
  }

  /** Every test lands in exactly one bucket: the five buckets together are the input. */
  lemma {:induction false} BucketsCover<T>(ops: TestOps<T>, g: Names, tests: seq<T>)
    ensures multiset(InPhase(ops, g, tests, BeforeSeries)) + multiset(InPhase(ops, g, tests, BeforeParallel))
      + multiset(InPhase(ops, g, tests, Main)) + multiset(InPhase(ops, g, tests, AfterParallel))
      + multiset(InPhase(ops, g, tests, AfterSeries)) == multiset(tests)
  {
    if tests != [] {
      var init := tests[..|tests| - 1];
      BucketsCover(ops, g, init);
      assert tests == init + [tests[|tests| - 1]];
    }
  }

  /** A bucket holds exactly the tests whose first match is its phase. */
  lemma {:induction false} InPhaseMembers<T>(ops: TestOps<T>, g: Names, tests: seq<T>, p: Phase)
    ensures forall t :: t in InPhase(ops, g, tests, p) <==> t in tests && PhaseOf(ops, g, t) == p
  {
    if tests != [] {
      var init := tests[..|tests| - 1];
      InPhaseMembers(ops, g, init, p);
      assert tests == init + [tests[|tests| - 1]];
    }
  }

  /** Bucketing keeps the order: the bucket of a concatenation is the concatenation of the
      buckets. */
  lemma {:induction false} InPhaseAppend<T>(ops: TestOps<T>, g: Names, a: seq<T>, b: seq<T>, p: Phase)
    ensures InPhase(ops, g, a + b, p) == InPhase(ops, g, a, p) + InPhase(ops, g, b, p)
  {
    if b == [] {
      assert a + b == a;
    } else {
      var init := b[..|b| - 1];
      InPhaseAppend(ops, g, a, init, p);
      assert (a + b)[..|a + b| - 1] == a + init;
    }
  }

  // ---------------------------------------------------------------------------------
  // sortByTestNameParts.

  /** array_flip's answer for `s`: the last position of `s` among the strings, if any. */
  function LastPosition(strings: seq<string>, s: string): (r: Option<nat>)
    ensures r.Some? ==> (r.value < |strings| && strings[r.value] == s
      && forall j :: r.value < j < |strings| ==> strings[j] != s)
    ensures r.None? <==> s !in strings
  {
    if strings == [] then None
    else if strings[|strings| - 1] == s then Some(|strings| - 1)
    else LastPosition(strings[..|strings| - 1], s)
  }

  /** An entry of the PHP array the sort builds: its key (None is the key "" that a null
      offset stands for) and the test. */
  datatype Slot<T> = Slot(key: Option<nat>, test: T)

  /** The position of a test's match; a missing match or position is a null offset. */
  function KeyOf<T>(ops: TestOps<T>, parts: NP.NameParts, t: T): Option<nat> {
    LastPosition(parts.strings, ops.getMatch(t, parts).GetOr(""))
  }

  /** ksort with SORT_NUMERIC reads the key "" as 0. */
  function SortKey(k: Option<nat>): nat {
    k.GetOr(0)
  }

  /** `$result[$key] = $test`: an existing key keeps its place and takes the new test; a new
      key is appended. */
  function Assign<T>(a: seq<Slot<T>>, k: Option<nat>, t: T): seq<Slot<T>> {
    if a == [] then [Slot(k, t)]
    else if a[0].key == k then [Slot(k, t)] + a[1..]
    else [a[0]] + Assign(a[1..], k, t)
  }

  /** The array sortByTestNameParts' loop builds, as written. */
  function Keyed<T>(ops: TestOps<T>, parts: NP.NameParts, tests: seq<T>): seq<Slot<T>> {
    if tests == [] then []
    else
      var t := tests[|tests| - 1];
      Assign(Keyed(ops, parts, tests[..|tests| - 1]), KeyOf(ops, parts, t), t)
  }

  /** A stable insertion: the entry goes after every entry whose key is not greater. */
  function InsertSlot<T>(x: Slot<T>, s: seq<Slot<T>>): (r: seq<Slot<T>>)
    ensures |r| == |s| + 1
  {
    if s == [] then [x]
    else if SortKey(x.key) < SortKey(s[0].key) then [x] + s
    else [s[0]] + InsertSlot(x, s[1..])
  }

  /** PHP 8's stable ksort with SORT_NUMERIC. */
  function SortSlots<T>(s: seq<Slot<T>>): (r: seq<Slot<T>>)
    ensures |r| == |s|
  {
    if s == [] then [] else InsertSlot(s[|s| - 1], SortSlots(s[..|s| - 1]))
  }

  function Tests<T>(s: seq<Slot<T>>): (r: seq<T>)
    ensures |r| == |s| && forall i :: 0 <= i < |s| ==> r[i] == s[i].test
  {
    seq(|s|, i requires 0 <= i < |s| => s[i].test)
  }

  predicate SlotsSorted<T>(s: seq<Slot<T>>) {
    forall i, j :: 0 <= i < j < |s| ==> SortKey(s[i].key) <= SortKey(s[j].key)
  }

  /** sortByTestNameParts as written: tests with the same key overwrite each other. */
  function SortAsWritten<T>(ops: TestOps<T>, parts: NP.NameParts, tests: seq<T>): seq<T> {
    Tests(SortSlots(Keyed(ops, parts, tests)))
  }

  /** Every test with its key, none overwritten. */
  function Slots<T>(ops: TestOps<T>, parts: NP.NameParts, tests: seq<T>): (r: seq<Slot<T>>)
    ensures |r| == |tests| && forall i :: 0 <= i < |tests| ==> r[i] == Slot(KeyOf(ops, parts, tests[i]), tests[i])
  {
    seq(|tests|, i requires 0 <= i < |tests| => Slot(KeyOf(ops, parts, tests[i]), tests[i]))
  }

  /** sortByTestNameParts as intended: every test, ordered by the position of its match,
      tests of the same position in their order. */
  function SortByPosition<T>(ops: TestOps<T>, parts: NP.NameParts, tests: seq<T>): seq<T> {
    Tests(SortSlots(Slots(ops, parts, tests)))
  }

  /** Two tests that match the same configured string: the code as written keeps only the
      second. */
  lemma SortAsWrittenDropsTests()
    ensures var ops := TestOps((t: int, np: NP.NameParts) => Some("tests/api/UserCest.php"), t => false, t => "",
                               t => "", t => None, t => None, t => t);
      var parts := NP.NameParts({}, {"tests/api/UserCest.php"}, {}, ["tests/api/UserCest.php"]);
      SortAsWritten(ops, parts, [1, 2]) == [2] && multiset(SortByPosition(ops, parts, [1, 2])) == multiset{1, 2}
  {
    var ops := TestOps((t: int, np: NP.NameParts) => Some("tests/api/UserCest.php"), t => false, t => "",
                       t => "", t => None, t => None, t => t);
    var parts := NP.NameParts({}, {"tests/api/UserCest.php"}, {}, ["tests/api/UserCest.php"]);
    assert KeyOf(ops, parts, 1) == Some(0) && KeyOf(ops, parts, 2) == Some(0);
    assert [1, 2][..1] == [1];
    assert Keyed(ops, parts, [1]) == [Slot(Some(0), 1)];
    assert Keyed(ops, parts, [1, 2]) == [Slot(Some(0), 2)];
    SortByPositionRule(ops, parts, [1, 2]);
  }

  lemma TestsCons<T>(x: Slot<T>, s: seq<Slot<T>>)
    ensures Tests([x] + s) == [x.test] + Tests(s)
  {
  }

  lemma TestsSnoc<T>(s: seq<Slot<T>>, x: Slot<T>)
    ensures Tests(s + [x]) == Tests(s) + [x.test]
  {
  }

  /** Insertion adds exactly the entry. */
  lemma {:induction false} InsertSlotMultiset<T>(x: Slot<T>, s: seq<Slot<T>>)
    ensures multiset(InsertSlot(x, s)) == multiset(s) + multiset{x}
  {
    if s != [] && SortKey(x.key) >= SortKey(s[0].key) {
      InsertSlotMultiset(x, s[1..]);
      assert s == [s[0]] + s[1..];
    }
  }

  /** And so exactly its test. */
  lemma {:induction false} InsertSlotTests<T>(x: Slot<T>, s: seq<Slot<T>>)
    ensures multiset(Tests(InsertSlot(x, s))) == multiset(Tests(s)) + multiset{x.test}
  {
    if s == [] {
    } else if SortKey(x.key) < SortKey(s[0].key) {
      TestsCons(x, s);
    } else {
      InsertSlotTests(x, s[1..]);
      assert s == [s[0]] + s[1..];
      TestsCons(s[0], s[1..]);
      TestsCons(s[0], InsertSlot(x, s[1..]));
    }
  }

  /** Every key of `s` is at least `k`. */
  predicate KeysFrom<T>(k: nat, s: seq<Slot<T>>) {
    forall i :: 0 <= i < |s| ==> k <= SortKey(s[i].key)
  }

  /** Insertion keeps a lower bound that the new entry also meets. */
  lemma {:induction false} InsertSlotFrom<T>(k: nat, x: Slot<T>, s: seq<Slot<T>>)
    requires KeysFrom(k, s) && k <= SortKey(x.key)
    ensures KeysFrom(k, InsertSlot(x, s))
  {
    if s != [] && SortKey(x.key) >= SortKey(s[0].key) {
      InsertSlotFrom(k, x, s[1..]);
      assert InsertSlot(x, s) == [s[0]] + InsertSlot(x, s[1..]);
    }
  }

  lemma ConsSorted<T>(a: Slot<T>, t: seq<Slot<T>>)
    requires SlotsSorted(t) && KeysFrom(SortKey(a.key), t)
    ensures SlotsSorted([a] + t)
  {
    var r := [a] + t;
    forall i, j | 0 <= i < j < |r| ensures SortKey(r[i].key) <= SortKey(r[j].key) {
      assert r[j] == t[j - 1];
      if i > 0 {
        assert r[i] == t[i - 1];
      }
    }
  }

  /** Insertion keeps the keys in order. */
  lemma {:induction false} InsertSlotSorted<T>(x: Slot<T>, s: seq<Slot<T>>)
    requires SlotsSorted(s)
    ensures SlotsSorted(InsertSlot(x, s))
  {
    if s == [] {
    } else if SortKey(x.key) < SortKey(s[0].key) {
      ConsSorted(x, s);
    } else {
      InsertSlotSorted(x, s[1..]);
      assert KeysFrom(SortKey(s[0].key), s[1..]);
      InsertSlotFrom(SortKey(s[0].key), x, s[1..]);
      ConsSorted(s[0], InsertSlot(x, s[1..]));
    }
  }

  /** The stable sort is a permutation, of the entries and of their tests, and orders the
      keys. */
  lemma {:induction false} SortSlotsRule<T>(s: seq<Slot<T>>)
    ensures multiset(SortSlots(s)) == multiset(s) && SlotsSorted(SortSlots(s))
    ensures multiset(Tests(SortSlots(s))) == multiset(Tests(s))
  {
    if s != [] {
      var init := s[..|s| - 1];
      SortSlotsRule(init);
      InsertSlotMultiset(s[|s| - 1], SortSlots(init));
      InsertSlotTests(s[|s| - 1], SortSlots(init));
      InsertSlotSorted(s[|s| - 1], SortSlots(init));
      assert s == init + [s[|s| - 1]];
      TestsSnoc(init, s[|s| - 1]);
    }
  }

  /** The intended sort keeps every test, once each, and orders them by the position of
      their match. */
  lemma SortByPositionRule<T>(ops: TestOps<T>, parts: NP.NameParts, tests: seq<T>)
    ensures multiset(SortByPosition(ops, parts, tests)) == multiset(tests)
    ensures var r := SortByPosition(ops, parts, tests);
      forall i, j :: 0 <= i < j < |r| ==> SortKey(KeyOf(ops, parts, r[i])) <= SortKey(KeyOf(ops, parts, r[j]))
    ensures var r := SortByPosition(ops, parts, tests);
      forall i, j :: (0 <= i < |r| && 0 <= j < |r| && ops.getMatch(r[i], parts).GetOr("") !in parts.strings
        && SortKey(KeyOf(ops, parts, r[j])) > 0) ==> i < j
  {
    var s := Slots(ops, parts, tests);
    SortSlotsRule(s);
    var sorted := SortSlots(s);
    forall e | e in sorted ensures e.key == KeyOf(ops, parts, e.test) {
      assert e in multiset(s);
    }
    assert Tests(s) == tests;
    var r := Tests(sorted);
    assert forall i, j :: 0 <= i < j < |r| ==> SortKey(KeyOf(ops, parts, r[i])) <= SortKey(KeyOf(ops, parts, r[j]));
    UnmatchedFirst(ops, parts, r);
  }

  /** In tests ordered by position, one whose match is none of the strings, which has the
      position 0, comes before every test of a later position. */
  lemma UnmatchedFirst<T>(ops: TestOps<T>, parts: NP.NameParts, r: seq<T>)
    requires forall i, j :: 0 <= i < j < |r| ==> SortKey(KeyOf(ops, parts, r[i])) <= SortKey(KeyOf(ops, parts, r[j]))
    ensures forall i, j :: (0 <= i < |r| && 0 <= j < |r| && ops.getMatch(r[i], parts).GetOr("") !in parts.strings
      && SortKey(KeyOf(ops, parts, r[j])) > 0) ==> i < j
  {
    forall i, j | 0 <= i < |r| && 0 <= j < |r| && ops.getMatch(r[i], parts).GetOr("") !in parts.strings
      && SortKey(KeyOf(ops, parts, r[j])) > 0
      ensures i < j
    {
      assert KeyOf(ops, parts, r[i]) == None;
    }
  }

  /** Test `i` is the last of `tests` with its key: no later test overwrites it. */
  predicate LastOfKey<T>(ops: TestOps<T>, parts: NP.NameParts, tests: seq<T>, i: nat) {
    i < |tests| && forall j :: i < j < |tests| ==> KeyOf(ops, parts, tests[j]) != KeyOf(ops, parts, tests[i])
  }

  predicate DistinctKeys<T>(s: seq<Slot<T>>) {
    forall a, b :: 0 <= a < b < |s| ==> s[a].key != s[b].key
  }

  /** `s` holds, under its own key, exactly the tests that no later test overwrites. */
  ghost predicate Survivors<T>(ops: TestOps<T>, parts: NP.NameParts, tests: seq<T>, s: seq<Slot<T>>) {
    (forall e :: e in s ==>
       (e.key == KeyOf(ops, parts, e.test)
        && exists i :: 0 <= i < |tests| && tests[i] == e.test && LastOfKey(ops, parts, tests, i)))
    && (forall i :: 0 <= i < |tests| && LastOfKey(ops, parts, tests, i) ==> Slot(KeyOf(ops, parts, tests[i]), tests[i]) in s)
  }

  /** Past the first entry of an array with distinct keys: distinct keys, none the first's. */
  lemma DistinctTail<T>(a: seq<Slot<T>>)
    requires a != [] && DistinctKeys(a)
    ensures DistinctKeys(a[1..]) && forall e :: e in a[1..] ==> e.key != a[0].key
  {
    forall x, y | 0 <= x < y < |a[1..]| ensures a[1..][x].key != a[1..][y].key {
      assert a[1..][x] == a[x + 1] && a[1..][y] == a[y + 1];
    }
    forall e | e in a[1..] ensures e.key != a[0].key {
      var m :| 0 <= m < |a[1..]| && a[1..][m] == e;
      assert a[m + 1] == e;
    }
  }

  /** An entry in front of an array with distinct keys, none of them its own. */
  lemma DistinctCons<T>(x: Slot<T>, a: seq<Slot<T>>)
    requires DistinctKeys(a) && forall e :: e in a ==> e.key != x.key
    ensures DistinctKeys([x] + a)
  {
    var r := [x] + a;
    forall i, j | 0 <= i < j < |r| ensures r[i].key != r[j].key {
      assert r[j] == a[j - 1];
      if i > 0 {
        assert r[i] == a[i - 1];
      }
    }
  }

  /** An assignment holds the new entry and otherwise entries it had. */
  lemma {:induction false} AssignMembers<T>(a: seq<Slot<T>>, k: Option<nat>, t: T)
    ensures Slot(k, t) in Assign(a, k, t)
    ensures forall e :: e in Assign(a, k, t) ==> e == Slot(k, t) || e in a
    ensures forall e :: e in a && e.key != k ==> e in Assign(a, k, t)
  {
    if a != [] && a[0].key != k {
      AssignMembers(a[1..], k, t);
      assert Assign(a, k, t) == [a[0]] + Assign(a[1..], k, t);
      assert a == [a[0]] + a[1..];
    }
  }

  /** An assignment puts the test under its key, replacing the entry of that key if any. */
  lemma {:induction false} AssignRule<T>(a: seq<Slot<T>>, k: Option<nat>, t: T)
    requires DistinctKeys(a)
    ensures forall e :: e in Assign(a, k, t) ==> e == Slot(k, t) || (e in a && e.key != k)
    ensures Slot(k, t) in Assign(a, k, t)
    ensures forall e :: e in a && e.key != k ==> e in Assign(a, k, t)
    ensures DistinctKeys(Assign(a, k, t))
  {
    AssignMembers(a, k, t);
    if a != [] {
      DistinctTail(a);
      if a[0].key == k {
        assert Assign(a, k, t) == [Slot(k, t)] + a[1..];
        DistinctCons(Slot(k, t), a[1..]);
      } else {
        AssignRule(a[1..], k, t);
        var rest := Assign(a[1..], k, t);
        assert Assign(a, k, t) == [a[0]] + rest;
        DistinctCons(a[0], rest);
      }
    }
  }

  /** The array the loop builds holds one entry per key, the last test of that key. */
  lemma {:induction false} KeyedRule<T>(ops: TestOps<T>, parts: NP.NameParts, tests: seq<T>)
    ensures DistinctKeys(Keyed(ops, parts, tests)) && Survivors(ops, parts, tests, Keyed(ops, parts, tests))
  {
    if tests != [] {
      var init := tests[..|tests| - 1];
      var t := tests[|tests| - 1];
      KeyedRule(ops, parts, init);
      var s0 := Keyed(ops, parts, init);
      AssignRule(s0, KeyOf(ops, parts, t), t);
      assert tests == init + [t];
      SurvivorsStepKept(ops, parts, init, t, s0);
      SurvivorsStepAll(ops, parts, init, t, s0);
    }
  }

  /** After one more assignment every entry is still a test that no later test overwrites. */
  lemma SurvivorsStepKept<T>(ops: TestOps<T>, parts: NP.NameParts, init: seq<T>, t: T, s0: seq<Slot<T>>)
    requires DistinctKeys(s0) && Survivors(ops, parts, init, s0)
    ensures var tests := init + [t]; var s := Assign(s0, KeyOf(ops, parts, t), t);
      forall e :: e in s ==>
        (e.key == KeyOf(ops, parts, e.test)
         && exists i :: 0 <= i < |tests| && tests[i] == e.test && LastOfKey(ops, parts, tests, i))
  {
    var tests := init + [t];
    var k := KeyOf(ops, parts, t);
    AssignRule(s0, k, t);
    var s := Assign(s0, k, t);
    forall e | e in s
      ensures e.key == KeyOf(ops, parts, e.test)
      ensures exists i :: 0 <= i < |tests| && tests[i] == e.test && LastOfKey(ops, parts, tests, i)
    {
      if e == Slot(k, t) {
        assert tests[|init|] == t && LastOfKey(ops, parts, tests, |init|);
      } else {
        var i :| 0 <= i < |init| && init[i] == e.test && LastOfKey(ops, parts, init, i);
        assert tests[i] == init[i];
        forall j | i < j < |tests| ensures KeyOf(ops, parts, tests[j]) != KeyOf(ops, parts, tests[i]) {
          if j < |init| {
            assert tests[j] == init[j];
          }
        }
        assert LastOfKey(ops, parts, tests, i);
      }
    }
  }

  /** After one more assignment every test that no later test overwrites has its entry. */
  lemma SurvivorsStepAll<T>(ops: TestOps<T>, parts: NP.NameParts, init: seq<T>, t: T, s0: seq<Slot<T>>)
    requires DistinctKeys(s0) && Survivors(ops, parts, init, s0)
    ensures var tests := init + [t]; var s := Assign(s0, KeyOf(ops, parts, t), t);
      forall i :: 0 <= i < |tests| && LastOfKey(ops, parts, tests, i) ==> Slot(KeyOf(ops, parts, tests[i]), tests[i]) in s
  {
    var tests := init + [t];
    var k := KeyOf(ops, parts, t);
    AssignRule(s0, k, t);
    var s := Assign(s0, k, t);
    forall i | 0 <= i < |tests| && LastOfKey(ops, parts, tests, i)
      ensures Slot(KeyOf(ops, parts, tests[i]), tests[i]) in s
    {
      if i < |init| {
        assert tests[i] == init[i];
        forall j | i < j < |init| ensures KeyOf(ops, parts, init[j]) != KeyOf(ops, parts, init[i]) {
          assert tests[j] == init[j];
        }
        assert LastOfKey(ops, parts, init, i);
        assert tests[|init|] == t;
      }
    }
  }

  /** Insertion of an entry whose key is new keeps the keys distinct. */
  lemma {:induction false} InsertSlotDistinct<T>(x: Slot<T>, s: seq<Slot<T>>)
    requires DistinctKeys(s) && forall e :: e in s ==> e.key != x.key
    ensures DistinctKeys(InsertSlot(x, s))
  {
    if s != [] && SortKey(x.key) >= SortKey(s[0].key) {
      var rest := InsertSlot(x, s[1..]);
      assert DistinctKeys(s[1..]) by {
        forall a, b | 0 <= a < b < |s[1..]| ensures s[1..][a].key != s[1..][b].key {
          assert s[1..][a] == s[a + 1] && s[1..][b] == s[b + 1];
        }
      }
      InsertSlotDistinct(x, s[1..]);
      InsertSlotMultiset(x, s[1..]);
      var r := [s[0]] + rest;
      assert InsertSlot(x, s) == r;
      forall a, b | 0 <= a < b < |r| ensures r[a].key != r[b].key {
        assert r[b] == rest[b - 1];
        if a == 0 {
          assert r[b] in multiset(s[1..]) + multiset{x};
          if r[b] != x {
            var m :| 0 <= m < |s[1..]| && s[1..][m] == r[b];
            assert s[m + 1] == r[b];
          }
        } else {
          assert r[a] == rest[a - 1];
        }
      }
    } else if s != [] {
      var r := [x] + s;
      forall a, b | 0 <= a < b < |r| ensures r[a].key != r[b].key {
        assert r[b] == s[b - 1];
        if a > 0 {
          assert r[a] == s[a - 1];
        }
      }
    }
  }

  /** The sort moves entries, so the keys stay distinct. */
  lemma {:induction false} SortSlotsDistinct<T>(s: seq<Slot<T>>)
    requires DistinctKeys(s)
    ensures DistinctKeys(SortSlots(s))
  {
    if s != [] {
      var init := s[..|s| - 1];
      var x := s[|s| - 1];
      assert DistinctKeys(init) by {
        forall a, b | 0 <= a < b < |init| ensures init[a].key != init[b].key {
          assert init[a] == s[a] && init[b] == s[b];
        }
      }
      SortSlotsDistinct(init);
      SortSlotsRule(init);
      forall e | e in SortSlots(init) ensures e.key != x.key {
        assert e in multiset(init);
        var m :| 0 <= m < |init| && init[m] == e;
        assert s[m] == e;
      }
      InsertSlotDistinct(x, SortSlots(init));
    }
  }

  /** sortByTestNameParts as written keeps exactly the last test of each key (a position, or
      the key "" of a test without one), one per key, in the order of the positions. */
  lemma SortAsWrittenRule<T>(ops: TestOps<T>, parts: NP.NameParts, tests: seq<T>)
    ensures var r := SortAsWritten(ops, parts, tests);
      forall i :: 0 <= i < |tests| && LastOfKey(ops, parts, tests, i) ==> tests[i] in r
    ensures var r := SortAsWritten(ops, parts, tests);
      forall x :: x in r ==> exists i :: 0 <= i < |tests| && tests[i] == x && LastOfKey(ops, parts, tests, i)
    ensures var r := SortAsWritten(ops, parts, tests);
      forall i, j :: 0 <= i < j < |r| ==>
        KeyOf(ops, parts, r[i]) != KeyOf(ops, parts, r[j]) && SortKey(KeyOf(ops, parts, r[i])) <= SortKey(KeyOf(ops, parts, r[j]))
  {
    var k := Keyed(ops, parts, tests);
    KeyedRule(ops, parts, tests);
    SortSlotsRule(k);
    SortSlotsDistinct(k);
    var sorted := SortSlots(k);
    SurvivorsPermuted(ops, parts, tests, k, sorted);
    assert Tests(sorted) == SortAsWritten(ops, parts, tests);
    SurvivorTests(ops, parts, tests, sorted);
    SurvivorsOrdered(ops, parts, tests, sorted);
  }

  /** Survivors is about the entries, not their order. */
  lemma SurvivorsPermuted<T>(ops: TestOps<T>, parts: NP.NameParts, tests: seq<T>, a: seq<Slot<T>>, b: seq<Slot<T>>)
    requires Survivors(ops, parts, tests, a) && multiset(a) == multiset(b)
    ensures Survivors(ops, parts, tests, b)
  {
    forall e | e in b ensures e in a {
      assert e in multiset(a);
    }
    forall e | e in a ensures e in b {
      assert e in multiset(b);
    }
  }

  /** The tests of the surviving entries are exactly the tests no later test overwrites. */
  lemma SurvivorTests<T>(ops: TestOps<T>, parts: NP.NameParts, tests: seq<T>, s: seq<Slot<T>>)
    requires Survivors(ops, parts, tests, s)
    ensures forall i :: 0 <= i < |tests| && LastOfKey(ops, parts, tests, i) ==> tests[i] in Tests(s)
    ensures forall x :: x in Tests(s) ==> exists i :: 0 <= i < |tests| && tests[i] == x && LastOfKey(ops, parts, tests, i)
  {
    var r := Tests(s);
    forall i | 0 <= i < |tests| && LastOfKey(ops, parts, tests, i) ensures tests[i] in r {
      var m :| 0 <= m < |s| && s[m] == Slot(KeyOf(ops, parts, tests[i]), tests[i]);
      assert r[m] == tests[i];
    }
    forall x | x in r ensures exists i :: 0 <= i < |tests| && tests[i] == x && LastOfKey(ops, parts, tests, i) {
      var m :| 0 <= m < |r| && r[m] == x;
      assert s[m] in s;
    }
  }

  /** Sorted surviving entries give one test per key, in the order of the keys. */
  lemma SurvivorsOrdered<T>(ops: TestOps<T>, parts: NP.NameParts, tests: seq<T>, s: seq<Slot<T>>)
    requires Survivors(ops, parts, tests, s) && DistinctKeys(s) && SlotsSorted(s)
    ensures var r := Tests(s);
      forall i, j :: 0 <= i < j < |r| ==>
        KeyOf(ops, parts, r[i]) != KeyOf(ops, parts, r[j]) && SortKey(KeyOf(ops, parts, r[i])) <= SortKey(KeyOf(ops, parts, r[j]))
  {
    var r := Tests(s);
    forall i, j | 0 <= i < j < |r|
      ensures KeyOf(ops, parts, r[i]) != KeyOf(ops, parts, r[j])
      ensures SortKey(KeyOf(ops, parts, r[i])) <= SortKey(KeyOf(ops, parts, r[j]))
    {
      assert s[i] in s && s[j] in s;
    }
  }

  /** Two tests of "tests/api" under the configured path "tests": the match is the tests'
      whole directory, which is none of the configured strings, so as written both land under
      the key "" and only the second is kept. */
  lemma SortAsWrittenDropsUnmatched()
    ensures var ops := TestOps((t: int, np: NP.NameParts) => Some("tests/api"), t => false, t => "",
                               t => "", t => None, t => None, t => t);
      var parts := NP.NameParts({}, {}, {"tests"}, ["tests"]);
      SortAsWritten(ops, parts, [1, 2]) == [2] && multiset(SortByPosition(ops, parts, [1, 2])) == multiset{1, 2}
  {
    var ops := TestOps((t: int, np: NP.NameParts) => Some("tests/api"), t => false, t => "",
                       t => "", t => None, t => None, t => t);
    var parts := NP.NameParts({}, {}, {"tests"}, ["tests"]);
    assert KeyOf(ops, parts, 1) == None && KeyOf(ops, parts, 2) == None;
    assert [1, 2][..1] == [1];
    assert Keyed(ops, parts, [1]) == [Slot(None, 1)];
    assert Keyed(ops, parts, [1, 2]) == [Slot(None, 2)];
    SortByPositionRule(ops, parts, [1, 2]);
  }

  // ---------------------------------------------------------------------------------
  // processFailedTests, printFailReport, sendNeverPassedTestsDurations.

  /** A report record: a TestWrapper is of type 'test', any other wrapper 'cest'. */
  datatype ReportRecord = ReportRecord(isTest: bool, name: string, message: string)

  const LINE_LIMIT := 96
  const KEPT_LENGTH := 92

  /** A line longer than 96 characters becomes its first 92 and " ...". */
  function TrimLine(line: string): string {
    if |line| > LINE_LIMIT then line[..KEPT_LENGTH] + " ..." else line
  }

  /** A trimmed line is at most 96 characters long, it is the line exactly when that
      already was, and a shortened one keeps the line's first 92 characters. */
  lemma TrimLineRule(line: string)
    ensures |TrimLine(line)| <= LINE_LIMIT
    ensures TrimLine(line) == line <==> |line| <= LINE_LIMIT
    ensures |line| > LINE_LIMIT ==> TrimLine(line)[..KEPT_LENGTH] == line[..KEPT_LENGTH]
  {
  }

  /** The message split at PHP_EOL ("\n"), each line trimmed. */
  function MessageLines(message: string): (r: seq<string>)
    ensures |r| >= 1
  {
    var lines := Split(message, "\n");
    seq(|lines|, i requires 0 <= i < |lines| => TrimLine(lines[i]))
  }

  /** A test record gives "name: first line"; a cest record all of its lines. */
  function RecordLines(r: ReportRecord): seq<string> {
    var lines := MessageLines(r.message);
    if r.isTest then [r.name + ": " + lines[0]] else lines
  }

  function RawLines(report: seq<ReportRecord>): seq<string> {
    if report == [] then [] else RawLines(report[..|report| - 1]) + RecordLines(report[|report| - 1])
  }

  /** printFailReport's lines: nothing for an empty report, else every record's lines
      sorted as strings. */
  function FailReport(report: seq<ReportRecord>): seq<string> {
    if report == [] then [] else SortStrings(RawLines(report))
  }

  /** Each line comes from a record: a test record's line starts with its name and ": ",
      every other line is at most 96 characters long. */
  lemma {:induction false} RawLinesFrom(report: seq<ReportRecord>)
    ensures report != [] ==> RawLines(report) != []
    ensures forall l :: l in RawLines(report) ==>
      |l| <= LINE_LIMIT || exists r :: r in report && r.isTest && StartsWith(l, r.name + ": ")
  {
    if report != [] {
      var init, last := report[..|report| - 1], report[|report| - 1];
      RawLinesFrom(init);
      var lines := MessageLines(last.message);
      forall l | l in RecordLines(last)
        ensures |l| <= LINE_LIMIT || (last.isTest && StartsWith(l, last.name + ": "))
      {
        if !last.isTest {
          var k :| 0 <= k < |lines| && lines[k] == l;
          TrimLineRule(Split(last.message, "\n")[k]);
        } else {
          assert l == last.name + ": " + lines[0];
          assert l[..|last.name + ": "|] == last.name + ": ";
        }
      }
      forall l | l in RawLines(report)
        ensures |l| <= LINE_LIMIT || exists r :: r in report && r.isTest && StartsWith(l, r.name + ": ")
      {
        if l in RawLines(init) {
          if |l| > LINE_LIMIT {
            var r :| r in init && r.isTest && StartsWith(l, r.name + ": ");
            assert r in report;
          }
        } else {
          assert l in RecordLines(last);
          assert last in report;
        }
      }
    }
  }

  /** The report is sorted, holds every record's lines and nothing else, is empty only for
      an empty report, and only test lines may exceed 96 characters. */
  lemma FailReportRule(report: seq<ReportRecord>)
    ensures var r := FailReport(report);
      SortedStrings(r) && multiset(r) == multiset(RawLines(report))
      && (r == [] <==> report == [])
      && forall l :: l in r ==> |l| <= LINE_LIMIT || exists t :: t in report && t.isTest && StartsWith(l, t.name + ": ")
  {
    RawLinesFrom(report);
    var r := FailReport(report);
    forall l | l in r
      ensures |l| <= LINE_LIMIT || exists t :: t in report && t.isTest && StartsWith(l, t.name + ": ")
    {
      assert l in multiset(r);
      assert l in multiset(RawLines(report));
    }
    if report != [] {
      assert |r| == |RawLines(report)| by {
        assert |multiset(r)| == |multiset(RawLines(report))|;
      }
    }
  }

  function RecordOf<T>(ops: TestOps<T>, t: T): ReportRecord {
    ReportRecord(ops.isTestWrapper(t), ops.name(t), ops.status(t))
  }

  /** processFailedTests' report: one record per failed test, in order. */
  function Records<T>(ops: TestOps<T>, tests: seq<T>): (r: seq<ReportRecord>)
    ensures |r| == |tests| && forall i :: 0 <= i < |tests| ==> r[i] == RecordOf(ops, tests[i])
  {
    seq(|tests|, i requires 0 <= i < |tests| => RecordOf(ops, tests[i]))
  }

  /** The durations of the failed tests that never passed: a test with no expected
      duration and a known actual one, under its name (a later test of the same name
      wins). */
  function NeverPassed<T>(ops: TestOps<T>, tests: seq<T>): (r: Durations) {
    if tests == [] then EmptyMap()
    else
      var d := NeverPassed(ops, tests[..|tests| - 1]);
      var t := tests[|tests| - 1];
      if ops.expected(t).Some? || ops.actual(t).None? then d else Put(d, ops.name(t), ops.actual(t))
  }

  /** Some failed test of the name has no expected and a known actual duration. */
  ghost predicate NeverPassedName<T>(ops: TestOps<T>, tests: seq<T>, k: string) {
    exists t :: t in tests && ops.expected(t).None? && ops.actual(t).Some? && ops.name(t) == k
  }

  /** A name is sent exactly when some failed test of that name never passed. */
  lemma {:induction false} NeverPassedKeys<T>(ops: TestOps<T>, tests: seq<T>)
    ensures forall k :: k in NeverPassed(ops, tests).values <==> NeverPassedName(ops, tests, k)
  {
    if tests != [] {
      var init, t := tests[..|tests| - 1], tests[|tests| - 1];
      NeverPassedKeys(ops, init);
      assert tests == init + [t];
      var d := NeverPassed(ops, tests);
      forall k ensures k in d.values <==> NeverPassedName(ops, tests, k) {
        if NeverPassedName(ops, init, k) {
          var u :| u in init && ops.expected(u).None? && ops.actual(u).Some? && ops.name(u) == k;
          assert u in tests;
        }
        if NeverPassedName(ops, tests, k) {
          var u :| u in tests && ops.expected(u).None? && ops.actual(u).Some? && ops.name(u) == k;
          if u != t {
            assert u in init;
          }
        }
      }
    }
  }

  /** What is sent under a name is the known actual duration of one such test. */
  lemma {:induction false} NeverPassedValues<T>(ops: TestOps<T>, tests: seq<T>)
    ensures forall k :: k in NeverPassed(ops, tests).values ==>
      exists t :: t in tests && ops.expected(t).None? && ops.name(t) == k
        && NeverPassed(ops, tests).values[k] == ops.actual(t) && ops.actual(t).Some?
  {
    if tests != [] {
      var init, t := tests[..|tests| - 1], tests[|tests| - 1];
      NeverPassedValues(ops, init);
      assert tests == init + [t];
      var d0 := NeverPassed(ops, init);
      var d := NeverPassed(ops, tests);
      forall k | k in d.values
        ensures exists u :: u in tests && ops.expected(u).None? && ops.name(u) == k && d.values[k] == ops.actual(u) && ops.actual(u).Some?
      {
        if ops.expected(t).None? && ops.actual(t).Some? && k == ops.name(t) {
          assert t in tests;
        } else {
          var u :| u in init && ops.expected(u).None? && ops.name(u) == k && d0.values[k] == ops.actual(u) && ops.actual(u).Some?;
          assert u in tests;
        }
      }
    }
  }

  /** processFailedTests: the report of every test of every queue, then the durations of
      those that never passed. */
  function ProcessSpec<T>(ops: TestOps<T>, queues: seq<seq<T>>, st: St): St {
    var failed := Flatten(queues);
    Send(st.(printed := st.printed + FailReport(Records(ops, failed))), NeverPassed(ops, failed))
  }

  // ---------------------------------------------------------------------------------
  // execute.

  /** The phases run so far: their state, the result of each, or what one threw. */
  datatype Stage<T> = Stage(st: St, results: seq<seq<T>>, error: Option<Exception>)

  function ParallelStage<T>(x: Ctx<T>, phase: Phase, tests: seq<T>, runCount: int, s: Stage<T>): Stage<T> {
    if s.error.Some? then s
    else
      var r := RunInParallelSpec(x, phase, tests, runCount, s.st.cfg.switches.continuousRerun, s.st);
      if r.result.Throw? then Stage(r.st, s.results, Some(r.result.error))
      else Stage(r.st, s.results + [r.result.value], None)
  }

  function SeriesStage<T>(x: Ctx<T>, phase: Phase, tests: seq<T>, runCount: int, s: Stage<T>): Stage<T> {
    if s.error.Some? then s
    else
      var r := RunInSeriesSpec(x, phase, tests, runCount, s.st);
      if r.result.Throw? then Stage(r.st, s.results, Some(r.result.error))
      else Stage(r.st, s.results + [r.result.value], None)
  }

  /** The five buckets, the serial ones sorted by the position of their match. */
  datatype Buckets<T> = Buckets(beforeSeries: seq<T>, beforeParallel: seq<T>, main: seq<T>,
                                afterParallel: seq<T>, afterSeries: seq<T>)

  function BucketsOf<T>(ops: TestOps<T>, cfg: Config, tests: seq<T>): Buckets<T> {
    var g := NamesOf(cfg);
    Buckets(SortByPosition(ops, g.beforeSeries, InPhase(ops, g, tests, BeforeSeries)),
            InPhase(ops, g, tests, BeforeParallel), InPhase(ops, g, tests, Main),
            InPhase(ops, g, tests, AfterParallel),
            SortByPosition(ops, g.afterSeries, InPhase(ops, g, tests, AfterSeries)))
  }

  datatype Final = Final(st: St, error: Option<Exception>)

  const REBUILD_FAILED := "Can't rebuild the codeception actor"

  /** The three parallel phases. */
  function ParallelPhases<T>(x: Ctx<T>, b: Buckets<T>, runCount: int, s: Stage<T>): Stage<T> {
    ParallelStage(x, AfterParallel, b.afterParallel, runCount,
      ParallelStage(x, Main, b.main, runCount,
        ParallelStage(x, BeforeParallel, b.beforeParallel, runCount, s)))
  }

  /** The phases after the serial-before one. */
  function RestSpec<T>(x: Ctx<T>, b: Buckets<T>, runCount: int, s: Stage<T>): Stage<T> {
    SeriesStage(x, AfterSeries, b.afterSeries, runCount, ParallelPhases(x, b, runCount, s))
  }

  /** The end of execute once the four later phases ran: what one threw, or the report. */
  function Finish<T>(ops: TestOps<T>, s: Stage<T>): Final {
    if s.error.Some? then Final(s.st, s.error) else Final(ProcessSpec(ops, s.results, s.st), None)
  }

  /** execute once the serial-before phase ran and left `r0`. */
  function ExecuteRest<T>(x: Ctx<T>, b: Buckets<T>, runCount: int, r0: Run<T>): Final {
    if r0.result.Throw? then Final(r0.st, Some(r0.result.error))
    else if r0.st.cfg.switches.serialBeforeFailsRun && r0.result.value != [] then
      Final(ProcessSpec(x.ops, [r0.result.value], r0.st), Some(SerialBeforeFailedException))
    else Finish(x.ops, RestSpec(x, b, runCount, Stage(r0.st, [r0.result.value], None)))
  }

  /** execute over the loaded tests (with their fetched durations); `rebuilt` is whether
      rebuilding the actor succeeded. */
  function ExecuteSpec<T>(x: Ctx<T>, rebuilt: bool, tests: seq<T>, st: St): Final {
    if x.variant == Paracestamol && !rebuilt then Final(st, Some(GeneralException(REBUILD_FAILED)))
    else
      var b := BucketsOf(x.ops, st.cfg, tests);
      var runCount := 1 + st.cfg.rerunCount;
      ExecuteRest(x, b, runCount, RunInSeriesSpec(x, BeforeSeries, b.beforeSeries, runCount, st))
  }

  /** The phases of the runs, in execute's order. */
  predicate InOrder(runs: seq<Phase>) {
    forall i, j :: 0 <= i < j < |runs| ==> PhaseIndex(runs[i]) <= PhaseIndex(runs[j])
  }

  /** The runs a stage chain adds, phase by phase. */
  predicate Grows(before: seq<Phase>, after: seq<Phase>, phase: Phase, bound: int) {
    exists n: nat :: n <= Max(bound, 0) && after == before + Repeat(phase, n)
  }

  lemma ParallelStageRule<T(!new)>(x: Ctx<T>, phase: Phase, tests: seq<T>, runCount: int, s: Stage<T>)
    requires Lawful(x)
    ensures var s' := ParallelStage(x, phase, tests, runCount, s);
      SameOptions(s.st.cfg, s'.st.cfg) && s'.st.printed == s.st.printed
      && Grows(s.st.runs, s'.st.runs, phase, ParallelCount(runCount, s.st.cfg.switches.continuousRerun))
      && (s'.error.None? ==> s.error.None? && |s'.results| == |s.results| + 1)
  {
    if s.error.Some? {
      assert s.st.runs == s.st.runs + Repeat(phase, 0);
    } else {
      RunInParallelShape(x, phase, tests, runCount, s.st.cfg.switches.continuousRerun, s.st);
      RunInParallelOptions(x, phase, tests, runCount, s.st.cfg.switches.continuousRerun, s.st);
      var r := RunInParallelSpec(x, phase, tests, runCount, s.st.cfg.switches.continuousRerun, s.st);
      assert |r.passes| <= Max(ParallelCount(runCount, s.st.cfg.switches.continuousRerun), 0);
    }
  }

  lemma SeriesStageRule<T>(x: Ctx<T>, phase: Phase, tests: seq<T>, runCount: int, s: Stage<T>)
    ensures var s' := SeriesStage(x, phase, tests, runCount, s);
      SameOptions(s.st.cfg, s'.st.cfg) && s'.st.printed == s.st.printed
      && Grows(s.st.runs, s'.st.runs, phase, runCount)
      && s'.error == s.error
      && (s'.error.None? ==> |s'.results| == |s.results| + 1)
  {
    if s.error.Some? {
      assert s.st.runs == s.st.runs + Repeat(phase, 0);
    } else {
      RunInSeriesShape(x, phase, tests, runCount, s.st);
      var r := RunInSeriesSpec(x, phase, tests, runCount, s.st);
      assert |r.passes| <= Max(runCount, 0);
    }
  }

  /** A rebuild failure of the current variant stops execute before any run. */
  lemma ExecuteRebuildFails<T>(x: Ctx<T>, tests: seq<T>, st: St)
    requires x.variant == Paracestamol
    ensures ExecuteSpec(x, false, tests, st) == Final(st, Some(GeneralException(REBUILD_FAILED)))
  {
  }

  /** With serial-before-fails-run, a failure left by the serial-before phase ends execute
      after the report of that phase alone, with no other phase run. */
  lemma ExecuteSerialBeforeFails<T>(x: Ctx<T>, rebuilt: bool, tests: seq<T>, st: St)
    requires x.variant == Paracetamol || rebuilt
    ensures var b := BucketsOf(x.ops, st.cfg, tests);
      var r0 := RunInSeriesSpec(x, BeforeSeries, b.beforeSeries, 1 + st.cfg.rerunCount, st);
      var f := ExecuteSpec(x, rebuilt, tests, st);
      st.cfg.switches.serialBeforeFailsRun && r0.result.Ok? && r0.result.value != [] ==>
        f.error == Some(SerialBeforeFailedException)
        && f.st.printed == st.printed + FailReport(Records(x.ops, r0.result.value))
        && forall i :: |st.runs| <= i < |f.st.runs| ==> f.st.runs[i] == BeforeSeries
  {
    var b := BucketsOf(x.ops, st.cfg, tests);
    RunInSeriesShape(x, BeforeSeries, b.beforeSeries, 1 + st.cfg.rerunCount, st);
    var r0 := RunInSeriesSpec(x, BeforeSeries, b.beforeSeries, 1 + st.cfg.rerunCount, st);
    assert Flatten([r0.result.value]) == r0.result.value by {
      assert [r0.result.value][..0] == [];
    }
  }

  /** How many supervisor runs each phase of execute started. */
  datatype PhaseCounts = PhaseCounts(beforeSeries: nat, beforeParallel: nat, main: nat, afterParallel: nat, afterSeries: nat)

  /** Each serial phase ran at most `serial` times and each parallel one at most `parallel`. */
  predicate Within(n: PhaseCounts, serial: int, parallel: int) {
    n.beforeSeries <= Max(serial, 0) && n.beforeParallel <= Max(parallel, 0) && n.main <= Max(parallel, 0)
    && n.afterParallel <= Max(parallel, 0) && n.afterSeries <= Max(serial, 0)
  }

  /** The runs after `before`, phase by phase. */
  function Layout(before: seq<Phase>, n: PhaseCounts): seq<Phase> {
    before + Repeat(BeforeSeries, n.beforeSeries) + Repeat(BeforeParallel, n.beforeParallel) + Repeat(Main, n.main)
           + Repeat(AfterParallel, n.afterParallel) + Repeat(AfterSeries, n.afterSeries)
  }

  /** `after` extends `before` phase by phase within the bounds. */
  ghost predicate Phased(before: seq<Phase>, after: seq<Phase>, serial: int, parallel: int) {
    exists n :: Within(n, serial, parallel) && after == Layout(before, n)
  }

  /** The same, with no serial-before run. */
  ghost predicate Onward(before: seq<Phase>, after: seq<Phase>, serial: int, parallel: int) {
    exists n :: Within(n, serial, parallel) && n.beforeSeries == 0 && after == Layout(before, n)
  }

  lemma OnwardBy(before: seq<Phase>, serial: int, parallel: int, b: nat, c: nat, d: nat, e: nat)
    requires b <= Max(parallel, 0) && c <= Max(parallel, 0) && d <= Max(parallel, 0) && e <= Max(serial, 0)
    ensures Onward(before, before + Repeat(BeforeParallel, b) + Repeat(Main, c) + Repeat(AfterParallel, d) + Repeat(AfterSeries, e),
                   serial, parallel)
  {
    var n := PhaseCounts(0, b, c, d, e);
    assert Repeat(BeforeSeries, 0) == [];
    assert Within(n, serial, parallel);
    assert Layout(before, n) == before + Repeat(BeforeParallel, b) + Repeat(Main, c) + Repeat(AfterParallel, d) + Repeat(AfterSeries, e);
  }

  /** No run at all. */
  lemma PhasedNone(before: seq<Phase>, serial: int, parallel: int)
    ensures Phased(before, before, serial, parallel)
  {
    PhasedSerial(before, serial, parallel, 0);
    assert before + Repeat(BeforeSeries, 0) == before;
  }

  /** Only serial-before runs, at most `serial` of them. */
  lemma PhasedSerial(before: seq<Phase>, serial: int, parallel: int, a: nat)
    requires a <= Max(serial, 0)
    ensures Phased(before, before + Repeat(BeforeSeries, a), serial, parallel)
  {
    var n := PhaseCounts(a, 0, 0, 0, 0);
    assert forall p :: Repeat(p, 0) == [];
    assert Within(n, serial, parallel) && Layout(before, n) == before + Repeat(BeforeSeries, a);
  }

  /** Serial-before runs followed by the later phases lay the runs out phase by phase. */
  lemma PhasedJoin(before: seq<Phase>, mid: seq<Phase>, after: seq<Phase>, serial: int, parallel: int, a: nat)
    requires a <= Max(serial, 0) && mid == before + Repeat(BeforeSeries, a)
    requires Onward(mid, after, serial, parallel)
    ensures Phased(before, after, serial, parallel)
  {
    var n :| Within(n, serial, parallel) && n.beforeSeries == 0 && after == Layout(mid, n);
    assert Repeat(BeforeSeries, 0) == [];
    assert Within(n.(beforeSeries := a), serial, parallel) && after == Layout(before, n.(beforeSeries := a));
  }

  /** The phases after serial-before add their runs in order, each within its bound. */
  lemma RestPhases<T(!new)>(x: Ctx<T>, bk: Buckets<T>, runCount: int, s0: Stage<T>)
    requires Lawful(x)
    ensures Onward(s0.st.runs, RestSpec(x, bk, runCount, s0).st.runs, runCount,
                   ParallelCount(runCount, s0.st.cfg.switches.continuousRerun))
  {
    var pc := ParallelCount(runCount, s0.st.cfg.switches.continuousRerun);
    var s1 := ParallelStage(x, BeforeParallel, bk.beforeParallel, runCount, s0);
    ParallelStageRule(x, BeforeParallel, bk.beforeParallel, runCount, s0);
    var s2 := ParallelStage(x, Main, bk.main, runCount, s1);
    ParallelStageRule(x, Main, bk.main, runCount, s1);
    var s3 := ParallelStage(x, AfterParallel, bk.afterParallel, runCount, s2);
    ParallelStageRule(x, AfterParallel, bk.afterParallel, runCount, s2);
    var s4 := SeriesStage(x, AfterSeries, bk.afterSeries, runCount, s3);
    SeriesStageRule(x, AfterSeries, bk.afterSeries, runCount, s3);
    var b: nat :| b <= Max(pc, 0) && s1.st.runs == s0.st.runs + Repeat(BeforeParallel, b);
    var c: nat :| c <= Max(pc, 0) && s2.st.runs == s1.st.runs + Repeat(Main, c);
    var d: nat :| d <= Max(pc, 0) && s3.st.runs == s2.st.runs + Repeat(AfterParallel, d);
    var e: nat :| e <= Max(runCount, 0) && s4.st.runs == s3.st.runs + Repeat(AfterSeries, e);
    OnwardBy(s0.st.runs, runCount, pc, b, c, d, e);
  }

  /** process leaves the runs alone. */
  lemma ProcessRuns<T>(ops: TestOps<T>, queues: seq<seq<T>>, st: St)
    ensures ProcessSpec(ops, queues, st).runs == st.runs
  {
  }

  /** execute runs its supervisors phase by phase in order (series-before, parallel-before,
      main, parallel-after, series-after): at most runCount = 1 + rerunCount runs of each
      serial phase and of each parallel one, one in continuous mode. */
  lemma ExecutePhases<T(!new)>(x: Ctx<T>, rebuilt: bool, tests: seq<T>, st: St)
    requires Lawful(x)
    ensures Phased(st.runs, ExecuteSpec(x, rebuilt, tests, st).st.runs, 1 + st.cfg.rerunCount,
                   ParallelCount(1 + st.cfg.rerunCount, st.cfg.switches.continuousRerun))
  {
    var f := ExecuteSpec(x, rebuilt, tests, st);
    var runCount := 1 + st.cfg.rerunCount;
    var pc := ParallelCount(runCount, st.cfg.switches.continuousRerun);
    if x.variant == Paracestamol && !rebuilt {
      PhasedNone(st.runs, runCount, pc);
    } else {
      var bk := BucketsOf(x.ops, st.cfg, tests);
      RunInSeriesShape(x, BeforeSeries, bk.beforeSeries, runCount, st);
      var r0 := RunInSeriesSpec(x, BeforeSeries, bk.beforeSeries, runCount, st);
      var s0 := Stage(r0.st, [r0.result.value], None);
      var s := RestSpec(x, bk, runCount, s0);
      if r0.st.cfg.switches.serialBeforeFailsRun && r0.result.value != [] {
        ProcessRuns(x.ops, [r0.result.value], r0.st);
        PhasedSerial(st.runs, runCount, pc, |r0.passes|);
      } else {
        RestPhases(x, bk, runCount, s0);
        ProcessRuns(x.ops, s.results, s.st);
        assert f.st.runs == s.st.runs;
        PhasedJoin(st.runs, s0.st.runs, f.st.runs, runCount, pc, |r0.passes|);
      }
    }
  }

  /** The runs appended after runs that never go past `p`. */
  predicate UpTo(runs: seq<Phase>, p: Phase) {
    forall i :: 0 <= i < |runs| ==> PhaseIndex(runs[i]) <= PhaseIndex(p)
  }

  lemma AppendInOrder(runs: seq<Phase>, p: Phase, q: Phase, n: nat)
    requires InOrder(runs) && UpTo(runs, p) && PhaseIndex(p) <= PhaseIndex(q)
    ensures InOrder(runs + Repeat(q, n)) && UpTo(runs + Repeat(q, n), q)
  {
  }

  /** Runs laid out phase by phase after serial-before ones never step back a phase. */
  lemma LayoutInOrder(before: seq<Phase>, n: PhaseCounts)
    requires forall i :: 0 <= i < |before| ==> before[i] == BeforeSeries
    ensures InOrder(Layout(before, n))
  {
    var r0 := before + Repeat(BeforeSeries, n.beforeSeries);
    AppendInOrder(before, BeforeSeries, BeforeSeries, n.beforeSeries);
    var r1 := r0 + Repeat(BeforeParallel, n.beforeParallel);
    AppendInOrder(r0, BeforeSeries, BeforeParallel, n.beforeParallel);
    var r2 := r1 + Repeat(Main, n.main);
    AppendInOrder(r1, BeforeParallel, Main, n.main);
    var r3 := r2 + Repeat(AfterParallel, n.afterParallel);
    AppendInOrder(r2, Main, AfterParallel, n.afterParallel);
    AppendInOrder(r3, AfterParallel, AfterSeries, n.afterSeries);
  }

  /** So the phases of the runs never step back. */
  lemma ExecuteInOrder<T(!new)>(x: Ctx<T>, rebuilt: bool, tests: seq<T>, st: St)
    requires Lawful(x)
    requires forall i :: 0 <= i < |st.runs| ==> st.runs[i] == BeforeSeries
    ensures InOrder(ExecuteSpec(x, rebuilt, tests, st).st.runs)
  {
    ExecutePhases(x, rebuilt, tests, st);
    var n :| Within(n, 1 + st.cfg.rerunCount, ParallelCount(1 + st.cfg.rerunCount, st.cfg.switches.continuousRerun))
      && ExecuteSpec(x, rebuilt, tests, st).st.runs == Layout(st.runs, n);
    LayoutInOrder(st.runs, n);
  }

  // ---------------------------------------------------------------------------------
  // The orchestrator object.

  class Orchestrator<T(!new)> {
    const variant: Variant
    /** The run's settings, shared with the partitioner. */
    const settings: Settings.SettingsRun
    const divider: P.Partitioner
    const ops: TestOps<T>
    /** The supervisor factory and a supervisor's run. */
    const supervise: Supervise<T>
    /** What partitionInQueues computes, as a function of the settings and the tests. */
    ghost const partition: Partition<T>
    /** The phase of every supervisor run so far. */
    var runs: seq<Phase>
    /** The duration maps sent to the statistics endpoint. */
    var sent: seq<Durations>
    /** The lines printed by printFailReport. */
    var printed: seq<string>

    function State(): St
      reads this, settings
    {
      St(settings.cfg, runs, sent, printed)
    }

    ghost function Context(): Ctx<T> {
      Ctx(variant, ops, supervise, partition)
    }

    /** `partition` is partitionInQueues: statBased or simple as the variant and the
        settings choose. */
    ghost predicate Wired() {
      forall cfg: Config, tests: seq<T> {:trigger PartitionSpec(variant, cfg, tests, ops.expected)} ::
        partition(cfg, tests) == PartitionSpec(variant, cfg, tests, ops.expected)
    }

    constructor(variant: Variant, settings: Settings.SettingsRun, divider: P.Partitioner,
                ops: TestOps<T>, supervise: Supervise<T>)
      requires divider.settings == settings
      ensures this.variant == variant && this.settings == settings && this.divider == divider
      ensures this.ops == ops && this.supervise == supervise
      ensures runs == [] && sent == [] && printed == []
      ensures partition == PartitionOf(variant, ops.expected) && Wired()
    {
      this.variant := variant;
      this.settings := settings;
      this.divider := divider;
      this.ops := ops;
      this.supervise := supervise;
      this.partition := PartitionOf(variant, ops.expected);
      runs := [];
      sent := [];
      printed := [];
    }

    /** sendTestsDurations. */
    method SendTestsDurations(testNameToDuration: Durations)
      modifies this
      ensures State() == Send(old(State()), testNameToDuration)
    {
      if IsEmptyText(settings.cfg.statEndpoint) {
        return;
      }
      if |testNameToDuration.keys| == 0 {
        return;
      }
      sent := sent + [testNameToDuration];
    }

    /** partitionInQueues. */
    method PartitionInQueues(tests: seq<T>) returns (r: Result<seq<seq<T>>>)
      requires divider.settings == settings
      modifies settings
      ensures var p := PartitionSpec(variant, old(settings.cfg), tests, ops.expected);
        r == p.queues && settings.cfg == p.cfg
    {
      if settings.cfg.switches.successfullyFetchedDurations && (variant == Paracetamol || |tests| > settings.cfg.processCount) {
        var noted;
        r, noted := divider.StatBased(tests, ops.expected);
      } else {
        r := divider.Simple(tests);
      }
    }

    /** setAdaptiveDelay; a zero divisor is thrown back as the error. */
    method SetAdaptiveDelay() returns (error: Option<Exception>)
      modifies settings
      ensures var d := AdaptiveDelaySpec(old(settings.cfg));
        (d.Throw? ==> error == Some(d.error) && settings.cfg == old(settings.cfg))
        && (d.Ok? ==> error.None? && settings.cfg == d.value)
    {
      if !settings.cfg.switches.adaptiveDelay {
        return None;
      }
      var rps := Min(settings.cfg.processCount, settings.cfg.maxRps);
      if rps == 0 {
        return Some(DivisionByZeroError);
      }
      var rpsDelay := FloorDiv(1000, rps);
      settings.SetDelayMsec(rpsDelay);
      error := None;
    }

    /** runInParallel. */
    method RunInParallel(phase: Phase, tests: seq<T>, runCount: int, continuousRerun: bool) returns (r: Result<seq<T>>)
      requires divider.settings == settings && Wired()
      modifies this, settings
      ensures var run := RunInParallelSpec(Context(), phase, tests, runCount, continuousRerun, old(State()));
        r == run.result && State() == run.st
    {
      if |tests| == 0 {
        return Ok(tests);
      }
      var count := ParallelCount(runCount, continuousRerun);
      r := ParallelPasses(phase, continuousRerun, count, tests);
    }

    /** runInParallel's loop: passes over the failed tests of the pass before, until
        `count` passes are made or nothing failed; a throw ends the loop. */
    method ParallelPasses(phase: Phase, continuous: bool, count: int, tests: seq<T>) returns (r: Result<seq<T>>)
      requires divider.settings == settings && Wired()
      modifies this, settings
      ensures var run := ParallelLoop(Context(), phase, continuous, count, old(State()), tests, [], 0);
        r == run.result && State() == run.st
    {
      ghost var x := Context();
      ghost var spec := ParallelLoop(x, phase, continuous, count, State(), tests, [], 0);
      var current := tests;
      var testsNoRerun := [];
      var i: nat := 0;
      while i < count && |current| != 0
        invariant x == Context()
        invariant SameEnd(ParallelLoop(x, phase, continuous, count, State(), current, testsNoRerun, i), spec)
        decreases count - i
      {
        var error, failed, rest := ParallelPass(phase, continuous, count, current, testsNoRerun, i);
        if error.Some? {
          return Throw(error.value);
        }
        testsNoRerun := rest;
        current := failed;
        i := i + 1;
      }
      r := Ok(current + testsNoRerun);
    }

    /** One pass of runInParallel's loop: partition, set the adaptive delay, run a
        supervisor over the queues and send the passed durations; it returns what it
        threw, or the failed tests and the no-rerun and timed-out ones so far. */
    method ParallelPass(phase: Phase, continuous: bool, count: int, current: seq<T>, noRerun: seq<T>, i: nat)
      returns (error: Option<Exception>, failed: seq<T>, rest: seq<T>)
      requires divider.settings == settings && Wired() && i < count && current != []
      modifies this, settings
      ensures var run := ParallelLoop(Context(), phase, continuous, count, old(State()), current, noRerun, i);
        if error.Some? then run.result == Throw(error.value) && run.st == State()
        else SameEnd(run, ParallelLoop(Context(), phase, continuous, count, State(), failed, rest, i + 1))
    {
      failed, rest := [], [];
      var queues := PartitionInQueues(current);
      if queues.Throw? {
        return Some(queues.error), failed, rest;
      }
      error := SetAdaptiveDelay();
      if error.Some? {
        return;
      }
      var o := supervise(|runs|, queues.value, continuous, settings.cfg);
      runs := runs + [phase];
      SendTestsDurations(o.passed);
      rest := noRerun + o.noRerun + o.timedOut;
      failed := o.failed;
    }

    /** cloneQueue: the queue as it was and a clone of each of its tests. */
    method CloneQueue(queue: seq<T>) returns (original: seq<T>, clone: seq<T>)
      ensures original == queue
      ensures |clone| == |queue| && forall i :: 0 <= i < |queue| ==> clone[i] == ops.clone(queue[i])
    {
      original, clone := [], [];
      for i := 0 to |queue|
        invariant original == queue[..i]
        invariant |clone| == i && forall j :: 0 <= j < i ==> clone[j] == ops.clone(queue[j])
      {
        original := original + [queue[i]];
        clone := clone + [ops.clone(queue[i])];
      }
    }

    /** runInSeries. */
    method RunInSeries(phase: Phase, tests: seq<T>, runCount: int) returns (r: seq<T>)
      modifies this, settings
      ensures var run := RunInSeriesSpec(Context(), phase, tests, runCount, old(State()));
        run.result == Ok(r) && State() == run.st
    {
      if |tests| == 0 {
        return tests;
      }
      if variant == Paracestamol && settings.cfg.switches.adaptiveDelay {
        settings.SetDelayMsec(1000);
      }
      assert State() == old(State()).(cfg := SeriesConfig(variant, old(settings.cfg)));
      ghost var x := Context();
      ghost var spec := SeriesLoop(x, phase, runCount, State(), tests, [], 0);
      var current := tests;
      var testsNoRerun := [];
      var i: nat := 0;
      while i < runCount && |current| != 0
        invariant x == Context()
        invariant SameEnd(SeriesLoop(x, phase, runCount, State(), current, testsNoRerun, i), spec)
        decreases runCount - i
      {
        current, testsNoRerun := SeriesPass(phase, runCount, current, testsNoRerun, i);
        i := i + 1;
      }
      r := current + testsNoRerun;
    }

    /** One pass of runInSeries' loop: with rerun-whole-series the queue is cloned first; one
        supervisor runs it as a single lane and the passed durations are sent; it returns
        what is left to rerun and the no-rerun and timed-out tests so far. */
    method SeriesPass(phase: Phase, count: int, current: seq<T>, noRerun: seq<T>, i: nat)
      returns (next: seq<T>, rest: seq<T>)
      requires i < count && current != []
      modifies this
      ensures SameEnd(SeriesLoop(Context(), phase, count, old(State()), current, noRerun, i),
                      SeriesLoop(Context(), phase, count, State(), next, rest, i + 1))
    {
      var input := current;
      var clonedTests := [];
      if settings.cfg.switches.rerunWholeSeries {
        input, clonedTests := CloneQueue(current);
      }
      var o := supervise(|runs|, [input], false, settings.cfg);
      runs := runs + [phase];
      SendTestsDurations(o.passed);
      rest := noRerun + o.noRerun + o.timedOut;
      next := o.failed;
      if settings.cfg.switches.rerunWholeSeries && |next| != 0 {
        next := clonedTests;
      }
      assert next == SeriesNext(settings.cfg.switches.rerunWholeSeries, ops, current, o);
    }

    /** partitionInBeforeAfterGroups. */
    method PartitionInBeforeAfterGroups(tests: seq<T>)
      returns (runBeforeInSeries: seq<T>, runBeforeInParallel: seq<T>, runMain: seq<T>,
               runAfterInParallel: seq<T>, runAfterInSeries: seq<T>)
      ensures var g := NamesOf(settings.cfg);
        runBeforeInSeries == InPhase(ops, g, tests, BeforeSeries)
        && runBeforeInParallel == InPhase(ops, g, tests, BeforeParallel)
        && runMain == InPhase(ops, g, tests, Main)
        && runAfterInParallel == InPhase(ops, g, tests, AfterParallel)
        && runAfterInSeries == InPhase(ops, g, tests, AfterSeries)
    {
      runBeforeInSeries, runBeforeInParallel, runMain, runAfterInParallel, runAfterInSeries := [], [], [], [], [];
      var namesOfBeforeInSeries := NP.New(settings.cfg.runBeforeSeries);
      var namesOfBeforeInParallel := NP.New(settings.cfg.runBeforeParallel);
      var namesOfAfterInParallel := NP.New(settings.cfg.runAfterParallel);
      var namesOfAfterInSeries := NP.New(settings.cfg.runAfterSeries);
      ghost var g := NamesOf(settings.cfg);
      assert g == Names(namesOfBeforeInSeries, namesOfBeforeInParallel, namesOfAfterInParallel, namesOfAfterInSeries);
      for i := 0 to |tests|
        invariant runBeforeInSeries == InPhase(ops, g, tests[..i], BeforeSeries)
        invariant runBeforeInParallel == InPhase(ops, g, tests[..i], BeforeParallel)
        invariant runMain == InPhase(ops, g, tests[..i], Main)
        invariant runAfterInParallel == InPhase(ops, g, tests[..i], AfterParallel)
        invariant runAfterInSeries == InPhase(ops, g, tests[..i], AfterSeries)
      {
        var test := tests[i];
        assert tests[..i + 1][..i] == tests[..i];
        if ops.getMatch(test, namesOfBeforeInSeries).Some? {
          runBeforeInSeries := runBeforeInSeries + [test];
        } else if ops.getMatch(test, namesOfBeforeInParallel).Some? {
          runBeforeInParallel := runBeforeInParallel + [test];
        } else if ops.getMatch(test, namesOfAfterInParallel).Some? {
          runAfterInParallel := runAfterInParallel + [test];
        } else if ops.getMatch(test, namesOfAfterInSeries).Some? {
          runAfterInSeries := runAfterInSeries + [test];
        } else {
          runMain := runMain + [test];
        }
      }
      assert tests[..|tests|] == tests;
    }

    /** sortByTestNameParts, with every test kept (see SortAsWritten for the code as
        written). */
    method SortByTestNameParts(tests: seq<T>, parts: NP.NameParts) returns (r: seq<T>)
      ensures r == SortByPosition(ops, parts, tests)
    {
      var result: seq<Slot<T>> := [];
      for i := 0 to |tests|
        invariant result == Slots(ops, parts, tests[..i])
      {
        var name := ops.getMatch(tests[i], parts);
        var position := LastPosition(parts.strings, name.GetOr(""));
        result := result + [Slot(position, tests[i])];
      }
      assert tests[..|tests|] == tests;
      r := Tests(SortSlots(result));
    }

    /** printFailReport. */
    method PrintFailReport(report: seq<ReportRecord>)
      modifies this
      ensures printed == old(printed) + FailReport(report)
      ensures runs == old(runs) && sent == old(sent)
    {
      if |report| == 0 {
        return;
      }
      var logLines := [];
      for i := 0 to |report|
        invariant logLines == RawLines(report[..i])
      {
        var record := report[i];
        var messageLines := MessageLines(record.message);
        if record.isTest {
          logLines := logLines + [record.name + ": " + messageLines[0]];
        } else {
          logLines := logLines + messageLines;
        }
        assert report[..i + 1][..i] == report[..i];
      }
      assert report[..|report|] == report;
      printed := printed + SortStrings(logLines);
    }

    /** sendNeverPassedTestsDurations. */
    method SendNeverPassedTestsDurations(failedTests: seq<T>)
      modifies this
      ensures State() == Send(old(State()), NeverPassed(ops, failedTests))
    {
      var failedTestsDurations: Durations := EmptyMap();
      for i := 0 to |failedTests|
        invariant failedTestsDurations == NeverPassed(ops, failedTests[..i])
      {
        var test := failedTests[i];
        assert failedTests[..i + 1][..i] == failedTests[..i];
        if ops.expected(test).Some? {
          continue;
        }
        if ops.actual(test).None? {
          continue;
        }
        failedTestsDurations := Put(failedTestsDurations, ops.name(test), ops.actual(test));
      }
      assert failedTests[..|failedTests|] == failedTests;
      SendTestsDurations(failedTestsDurations);
    }

    /** processFailedTests (saveFailReport writes a file and is not modelled). */
    method ProcessFailedTests(queues: seq<seq<T>>)
      modifies this
      ensures State() == ProcessSpec(ops, queues, old(State()))
    {
      var report := [];
      var failedTests := [];
      for i := 0 to |queues|
        invariant failedTests == Flatten(queues[..i]) && report == Records(ops, failedTests)
      {
        assert queues[..i + 1][..i] == queues[..i];
        for j := 0 to |queues[i]|
          invariant failedTests == Flatten(queues[..i]) + queues[i][..j] && report == Records(ops, failedTests)
        {
          var test := queues[i][j];
          assert queues[i][..j + 1] == queues[i][..j] + [test];
          report := report + [RecordOf(ops, test)];
          failedTests := failedTests + [test];
        }
        assert queues[i][..|queues[i]|] == queues[i];
      }
      assert queues[..|queues|] == queues;
      PrintFailReport(report);
      SendNeverPassedTestsDurations(failedTests);
    }

    /** execute, from the loaded tests (their expected durations already fetched) and the
        outcome of rebuilding the actor; it returns what it throws. */
    method Execute(tests: seq<T>, rebuilt: bool) returns (error: Option<Exception>)
      requires divider.settings == settings && Wired()
      modifies this, settings
      ensures var f := ExecuteSpec(Context(), rebuilt, tests, old(State()));
        error == f.error && State() == f.st
    {
      if variant == Paracestamol && !rebuilt {
        return Some(GeneralException(REBUILD_FAILED));
      }
      ghost var st0 := State();
      var b := GroupTests(tests);
      var runCount := 1 + settings.cfg.rerunCount;
      assert ExecuteSpec(Context(), rebuilt, tests, st0)
        == ExecuteRest(Context(), b, runCount, RunInSeriesSpec(Context(), BeforeSeries, b.beforeSeries, runCount, st0));
      error := RunGrouped(b, runCount);
    }

    /** execute once the tests are grouped: the serial-before phase, which may end the run
        when it leaves failures behind, then the rest. */
    method RunGrouped(b: Buckets<T>, runCount: int) returns (error: Option<Exception>)
      requires divider.settings == settings && Wired()
      modifies this, settings
      ensures var f := ExecuteRest(Context(), b, runCount,
          RunInSeriesSpec(Context(), BeforeSeries, b.beforeSeries, runCount, old(State())));
        error == f.error && State() == f.st
    {
      ghost var st0 := State();
      var series := RunInSeries(BeforeSeries, b.beforeSeries, runCount);
      ghost var r0 := RunInSeriesSpec(Context(), BeforeSeries, b.beforeSeries, runCount, st0);
      assert r0.result == Ok(series) && State() == r0.st;
      var failedTests := [series];
      if settings.cfg.switches.serialBeforeFailsRun && |series| != 0 {
        ProcessFailedTests(failedTests);
        return Some(SerialBeforeFailedException);
      }
      error := RunRest(b, runCount, failedTests);
    }

    /** execute's grouping: the five buckets, the serial ones sorted by the position of
        their match. */
    method GroupTests(tests: seq<T>) returns (b: Buckets<T>)
      ensures b == BucketsOf(ops, settings.cfg, tests)
    {
      var runBeforeInSeries, runBeforeInParallel, runMain, runAfterInParallel, runAfterInSeries :=
        PartitionInBeforeAfterGroups(tests);
      var namesOfBeforeInSeries := NP.New(settings.cfg.runBeforeSeries);
      runBeforeInSeries := SortByTestNameParts(runBeforeInSeries, namesOfBeforeInSeries);
      var namesOfAfterInSeries := NP.New(settings.cfg.runAfterSeries);
      runAfterInSeries := SortByTestNameParts(runAfterInSeries, namesOfAfterInSeries);
      b := Buckets(runBeforeInSeries, runBeforeInParallel, runMain, runAfterInParallel, runAfterInSeries);
    }

    /** The four phases after the serial-before one, then the report. */
    method RunRest(b: Buckets<T>, runCount: int, failedTests: seq<seq<T>>) returns (error: Option<Exception>)
      requires divider.settings == settings && Wired()
      modifies this, settings
      ensures var f := Finish(ops, RestSpec(Context(), b, runCount, Stage(old(State()), failedTests, None)));
        error == f.error && State() == f.st
    {
      ghost var s0 := Stage(State(), failedTests, None);
      var results;
      error, results := RunParallelPhases(b, runCount, failedTests);
      ghost var s3 := ParallelPhases(Context(), b, runCount, s0);
      if error.Some? {
        assert SeriesStage(Context(), AfterSeries, b.afterSeries, runCount, s3) == s3;
        return;
      }
      var series := RunInSeries(AfterSeries, b.afterSeries, runCount);
      ghost var s4 := SeriesStage(Context(), AfterSeries, b.afterSeries, runCount, s3);
      assert s4 == Stage(State(), results + [series], None);
      ProcessFailedTests(results + [series]);
    }

    /** The three parallel phases, each result appended to `failedTests`. */
    method RunParallelPhases(b: Buckets<T>, runCount: int, failedTests: seq<seq<T>>)
      returns (error: Option<Exception>, results: seq<seq<T>>)
      requires divider.settings == settings && Wired()
      modifies this, settings
      ensures var s := ParallelPhases(Context(), b, runCount, Stage(old(State()), failedTests, None));
        error == s.error && State() == s.st && (error.None? ==> results == s.results)
    {
      ghost var x := Context();
      ghost var s0 := Stage(State(), failedTests, None);
      results := failedTests;
      var before := RunInParallel(BeforeParallel, b.beforeParallel, runCount, settings.cfg.switches.continuousRerun);
      ghost var s1 := ParallelStage(x, BeforeParallel, b.beforeParallel, runCount, s0);
      if before.Throw? {
        assert s1 == Stage(State(), failedTests, Some(before.error));
        return Some(before.error), results;
      }
      assert s1 == Stage(State(), failedTests + [before.value], None);
      var main := RunInParallel(Main, b.main, runCount, settings.cfg.switches.continuousRerun);
      ghost var s2 := ParallelStage(x, Main, b.main, runCount, s1);
      if main.Throw? {
        assert s2 == Stage(State(), s1.results, Some(main.error));
        return Some(main.error), results;
      }
      assert s2 == Stage(State(), s1.results + [main.value], None);
      var after := RunInParallel(AfterParallel, b.afterParallel, runCount, settings.cfg.switches.continuousRerun);
      ghost var s3 := ParallelStage(x, AfterParallel, b.afterParallel, runCount, s2);
      if after.Throw? {
        return Some(after.error), results;
      }
      results := failedTests + [before.value, main.value, after.value];
      assert s3 == Stage(State(), results, None);
      error := None;
    }
  }
}
