/** The state machine of one lane (Runner::ticking), generic in the kind of unit it runs `T`
    and in the store `W` that holds the units' state. What a unit does when started or
    polled is passed in as `Ops`, so the same machine serves the supervisor's lanes and a
    cluster cest's inner rerun runner. */
module RunnerCore {
  import opened Basics
  import Delayer

  /** The passed-tests map: test name to actual duration (null when unknown). */
  type Durations = m: OrderedMap<Option<int>> | ValidMap(m) witness OrderedMap([], map[])

  /** The fields of a Runner: the queue, the test in flight and the three outputs. */
  datatype RunnerState<T> = RunnerState(
    queue: seq<T>,
    current: Option<T>,
    failed: seq<T>,
    timedOut: seq<T>,
    passed: Durations,
    runLabel: string)

  function NewRunner<T>(queue: seq<T>, caption: string): (r: RunnerState<T>)
    ensures r.queue == queue && r.current.None? && r.failed == [] && r.timedOut == []
    ensures r.passed.keys == [] && r.runLabel == caption
  {
    RunnerState(queue, None, [], [], OrderedMap([], map[]), caption)
  }

  /** The accessors the supervisor uses. */
  predicate HasTestRunning<T>(r: RunnerState<T>) { r.current.Some? }

  predicate HasEmptyQueue<T>(r: RunnerState<T>) { r.queue == [] }

  function TestsCount<T>(r: RunnerState<T>): nat { |r.queue| }

  /** What a poll of a unit reports: the store afterwards, whether the unit still runs, and
      the delayer's next-allowed time afterwards. */
  datatype PollResult<W> = PollResult(world: W, running: bool, delayNext: real)

  /** What a lane needs from its units. */
  datatype Ops<!W, !T> = Ops(
    start: (W, T) -> W,
    poll: (W, T, real) -> PollResult<W>,
    successful: (W, T) -> bool,
    timedOut: (W, T) -> bool,
    name: (W, T) -> string,
    duration: (W, T) -> (W, Option<int>))

  /** One call of ticking: the lane afterwards, the store afterwards, the answer and the
      delayer's next-allowed time afterwards. */
  datatype Ticked<W, T> = Ticked(runner: RunnerState<T>, world: W, more: bool, delayNext: real)

  /** Classification of a finished unit: a pass is stored under its name, a failure goes to
      timed-out or failed, and the lane becomes idle. */
  function Classify<W, T>(r: RunnerState<T>, w: W, ops: Ops<W, T>, t: T, dn: real): Ticked<W, T> {
    if ops.successful(w, t) then
      var (w1, d) := ops.duration(w, t);
      Ticked(r.(current := None, passed := Put(r.passed, ops.name(w1, t), d)), w1, true, dn)
    else if ops.timedOut(w, t) then
      Ticked(r.(current := None, timedOut := r.timedOut + [t]), w, true, dn)
    else
      Ticked(r.(current := None, failed := r.failed + [t]), w, true, dn)
  }

  /** Runner::ticking at clock reading `now` (seconds) with start delay `delay`. */
  function Tick<W, T>(r: RunnerState<T>, w: W, ops: Ops<W, T>, delay: real, now: Delayer.Readings, dn: real): Ticked<W, T> {
    match r.current
    case None =>
      if r.queue == [] then Ticked(r, w, false, dn)
      else
        var d := Delayer.Step(dn, delay, now);
        if d.allowed then
          Ticked(r.(queue := r.queue[1..], current := Some(r.queue[0])), ops.start(w, r.queue[0]), true, d.next)
        else Ticked(r, w, true, d.next)
    case Some(t) =>
      var p := ops.poll(w, t, dn);
      if p.running then Ticked(r, p.world, true, p.delayNext)
      else Classify(r, p.world, ops, t, p.delayNext)
  }

  /** The outputs of a lane, those that hold units. */
  ghost predicate SameOutputs<T>(a: RunnerState<T>, b: RunnerState<T>) {
    a.failed == b.failed && a.timedOut == b.timedOut && a.passed == b.passed && a.runLabel == b.runLabel
  }

  // ---------------------------------------------------------------------------------
  // Properties of ticking.

  /** The lane is done exactly when nothing is running and the queue is empty; then
      nothing changes. */
  lemma TickDone<W, T>(r: RunnerState<T>, w: W, ops: Ops<W, T>, delay: real, now: Delayer.Readings, dn: real)
    ensures !Tick(r, w, ops, delay, now, dn).more <==> r.current.None? && r.queue == []
    ensures r.current.None? && r.queue == [] ==> Tick(r, w, ops, delay, now, dn) == Ticked(r, w, false, dn)
  {
  }

  /** An idle lane starts the head of its queue when the delayer allows and otherwise
      leaves the queue alone; the delayer is asked exactly once. */
  lemma TickStart<W, T>(r: RunnerState<T>, w: W, ops: Ops<W, T>, delay: real, now: Delayer.Readings, dn: real)
    requires r.current.None? && r.queue != []
    ensures var t := Tick(r, w, ops, delay, now, dn); var d := Delayer.Step(dn, delay, now);
      t.more && t.delayNext == d.next && SameOutputs(t.runner, r)
      && (d.allowed ==> t.runner.current == Some(r.queue[0]) && t.runner.queue == r.queue[1..]
                        && t.world == ops.start(w, r.queue[0]))
      && (!d.allowed ==> t.runner == r && t.world == w)
  {
  }

  /** While the current unit runs, the lane reports more work and its outputs stay the same. */
  lemma TickRunning<W, T>(r: RunnerState<T>, w: W, ops: Ops<W, T>, delay: real, now: Delayer.Readings, dn: real)
    requires r.current.Some? && ops.poll(w, r.current.value, dn).running
    ensures var t := Tick(r, w, ops, delay, now, dn);
      t.more && t.runner == r && t.world == ops.poll(w, r.current.value, dn).world
  {
  }

  /** A finished unit lands in exactly one output, success checked before timeout: passed
      under its name with its duration (a later pass of the same name overwrites), else
      timed out, else failed; and the lane becomes idle with its queue untouched. */
  lemma TickFinished<W, T>(r: RunnerState<T>, w: W, ops: Ops<W, T>, delay: real, now: Delayer.Readings, dn: real)
    requires r.current.Some? && !ops.poll(w, r.current.value, dn).running
    ensures var c := r.current.value; var p := ops.poll(w, c, dn); var t := Tick(r, w, ops, delay, now, dn);
      t.more && t.runner.current.None? && t.runner.queue == r.queue && t.runner.runLabel == r.runLabel
      && t.delayNext == p.delayNext
      && (ops.successful(p.world, c) ==>
            var (w1, d) := ops.duration(p.world, c);
            t.runner.failed == r.failed && t.runner.timedOut == r.timedOut
            && t.runner.passed.values == r.passed.values[ops.name(w1, c) := d] && t.world == w1)
      && (!ops.successful(p.world, c) && ops.timedOut(p.world, c) ==>
            t.runner.timedOut == r.timedOut + [c] && t.runner.failed == r.failed && t.runner.passed == r.passed)
      && (!ops.successful(p.world, c) && !ops.timedOut(p.world, c) ==>
            t.runner.failed == r.failed + [c] && t.runner.timedOut == r.timedOut && t.runner.passed == r.passed)
  {
  }

  /** Units still waiting or in flight, in the order they will finish: the lane runs one
      unit at a time in FIFO order. */
  function Pending<T>(r: RunnerState<T>): seq<T> {
    (if r.current.Some? then [r.current.value] else []) + r.queue
  }

  /** Each tick either keeps the pending units or moves the first one out, to the end of
      exactly one of the outputs (or, for a pass, under its name into the passed map). */
  lemma {:induction false} TickPending<W, T>(r: RunnerState<T>, w: W, ops: Ops<W, T>, delay: real, now: Delayer.Readings, dn: real)
    ensures var t := Tick(r, w, ops, delay, now, dn);
      Pending(t.runner) == Pending(r)
      || (Pending(r) != [] && Pending(t.runner) == Pending(r)[1..]
          && t.runner.current.None? && r.current == Some(Pending(r)[0])
          && ((t.runner.failed == r.failed + [Pending(r)[0]] && t.runner.timedOut == r.timedOut)
              || (t.runner.timedOut == r.timedOut + [Pending(r)[0]] && t.runner.failed == r.failed)
              || (t.runner.failed == r.failed && t.runner.timedOut == r.timedOut
                  && ops.name(t.world, Pending(r)[0]) in t.runner.passed.values)))
  {
    match r.current
    case None =>
      if r.queue != [] {
        var t := Tick(r, w, ops, delay, now, dn);
        if Delayer.Step(dn, delay, now).allowed {
          assert Pending(t.runner) == [r.queue[0]] + r.queue[1..] == r.queue;
        }
      }
    case Some(c) =>
      assert Pending(r)[0] == c && Pending(r)[1..] == r.queue;
  }
}
