/** Runner: one lane of the supervisor, a queue of units run one at a time. Its ticking is
    the generic state machine of RunnerCore over the lane units of Units. */
module Runner {
  import opened Basics
  import opened RunnerCore
  import Delayer
  import U = Units

  class Runner {
    const delayer: Delayer.Delayer
    var queue: seq<U.UnitRef>
    var currentTest: Option<U.UnitRef>
    var failedTests: seq<U.UnitRef>
    var timedOutTests: seq<U.UnitRef>
    var passedTestsDuration: Durations
    var runLabel: string

    /** The lane's fields as one value. */
    function State(): RunnerState<U.UnitRef>
      reads this
    {
      RunnerState(queue, currentTest, failedTests, timedOutTests, passedTestsDuration, runLabel)
    }

    constructor(delayer: Delayer.Delayer, queue: seq<U.UnitRef>)
      ensures this.delayer == delayer && State() == NewRunner(queue, "")
    {
      this.delayer := delayer;
      this.queue := queue;
      currentTest := None;
      failedTests := [];
      timedOutTests := [];
      passedTestsDuration := OrderedMap([], map[]);
      runLabel := "";
    }

    /** ticking, one call, against the clock and process observations of `env`. The
        delayer is shared by every lane; a poll of a cest may consult it too, and the pure
        poll hands its next-allowed time back. */
    method Ticking(w: U.World, env: U.Env) returns (w': U.World, more: bool)
      modifies this, delayer
      ensures var t := Tick(old(State()), w, U.UnitOps(delayer.settings.cfg, env), delayer.settings.cfg.delaySeconds,
                            U.Now(env), old(delayer.nextAllowedTime));
        State() == t.runner && w' == t.world && more == t.more && delayer.nextAllowedTime == t.delayNext
    {
      var cfg := delayer.settings.cfg;
      if currentTest.None? {
        if queue == [] {
          return w, false;
        }
        var allowed := delayer.AllowsTestStart(U.Now(env));
        w' := w;
        if allowed {
          currentTest := Some(queue[0]);
          queue := queue[1..];
          w' := U.UnitStart(w, currentTest.value, cfg, env.nowMs);
        }
        return w', true;
      }
      var test := currentTest.value;
      var p := U.UnitPoll(w, test, cfg, env, delayer.nextAllowedTime);
      delayer.nextAllowedTime := p.delayNext;
      w' := p.world;
      if p.running {
        return w', true;
      }
      if U.UnitIsSuccessful(w', test) {
        var d := U.UnitDuration(w', test);
        w' := d.0;
        passedTestsDuration := Put(passedTestsDuration, U.UnitName(w', test), d.1);
        currentTest := None;
        return w', true;
      }
      if U.UnitIsTimedOut(w', test) {
        timedOutTests := timedOutTests + [test];
      } else {
        failedTests := failedTests + [test];
      }
      currentTest := None;
      more := true;
    }

    predicate HasTestRunning()
      reads this
    {
      currentTest.Some?
    }

    predicate HasEmptyQueue()
      reads this
    {
      queue == []
    }

    function TestsCount(): nat
      reads this
    {
      |queue|
    }

    /** Takes the head of the queue. */
    method PopQueue() returns (test: U.UnitRef)
      requires queue != []
      modifies this
      ensures test == old(queue[0]) && State() == old(State()).(queue := old(queue[1..]))
    {
      test := queue[0];
      queue := queue[1..];
    }

    method SetLabel(runLabel: string)
      modifies this
      ensures State() == old(State()).(runLabel := runLabel)
    {
      this.runLabel := runLabel;
    }
  }
}
