/** The Partitioner: it splits the tests of a run into one queue per process, by count
    (simple) or by expected duration (statBased), and records what it computed in the
    run's settings. A test is of any type `T`; `duration` gives its expected duration in
    whole seconds, None while none was fetched. */
module Partitioner {
  import opened Basics
  import opened Strings
  import Settings
  import PA = PartitionAlgorithms
  import KK = KarmarkarKarp

  const NO_DURATION := "Fetch expected durations for tests before partition them"

  // ---------------------------------------------------------------------------------
  // simple

  /** `count` queues of the tests in order, each taking up to `len` of them from the front. */
  function Chunks<T>(tests: seq<T>, len: nat, count: nat): seq<seq<T>>
    decreases count
  {
    if count == 0 then []
    else
      var n := if |tests| < len then |tests| else len;
      [tests[..n]] + Chunks(tests[n..], len, count - 1)
  }

  /** simple: `ceil(n / processCount)` tests per queue, the queues filled in turn. A zero
      process count is a division by zero; a negative one gives no queue at all. */
  function SimpleSpec<T>(tests: seq<T>, processCount: int): Result<seq<seq<T>>> {
    if processCount == 0 then Throw(DivisionByZeroError)
    else if processCount < 0 then Ok([])
    else Ok(Chunks(tests, CeilDiv(|tests|, processCount), processCount))
  }

  lemma FlattenCons<T>(x: seq<T>, rest: seq<seq<T>>)
    ensures Flatten([x] + rest) == x + Flatten(rest)
  {
    FlattenAppend([x], rest);
    assert Flatten([x]) == Flatten([x][..0]) + [x][0];
  }

  /** The chunks: `count` of them, none longer than `len`. */
  lemma {:induction false} ChunksSizes<T>(tests: seq<T>, len: nat, count: nat)
    ensures var r := Chunks(tests, len, count);
      |r| == count && forall i :: 0 <= i < count ==> |r[i]| <= len
    decreases count
  {
    if count > 0 {
      var n := if |tests| < len then |tests| else len;
      ChunksSizes(tests[n..], len, count - 1);
      var rest := Chunks(tests[n..], len, count - 1);
      assert Chunks(tests, len, count) == [tests[..n]] + rest;
    }
  }

  /** Every chunk before a non-empty one is full. */
  lemma {:induction false} ChunksFull<T>(tests: seq<T>, len: nat, count: nat)
    ensures var r := Chunks(tests, len, count);
      forall i, j :: 0 <= i < j < |r| && r[j] != [] ==> |r[i]| == len
    decreases count
  {
    if count > 0 {
      var n := if |tests| < len then |tests| else len;
      var rest := Chunks(tests[n..], len, count - 1);
      ChunksFull(tests[n..], len, count - 1);
      ChunksSizes(tests[n..], len, count - 1);
      var r := Chunks(tests, len, count);
      assert r == [tests[..n]] + rest;
      forall i, j | 0 <= i < j < |r| && r[j] != []
        ensures |r[i]| == len
      {
        if i == 0 {
          assert rest[j - 1] != [];
          if tests[n..] == [] {
            EmptyChunks(tests[n..], len, count - 1);
          }
        } else {
          assert rest[i - 1] == r[i] && rest[j - 1] == r[j];
        }
      }
    }
  }

  /** No input, only empty chunks. */
  lemma {:induction false} EmptyChunks<T>(e: seq<T>, len: nat, count: nat)
    requires e == []
    ensures forall i :: 0 <= i < |Chunks(e, len, count)| ==> Chunks(e, len, count)[i] == []
    decreases count
  {
    if count > 0 {
      EmptyChunks(e, len, count - 1);
      assert e[0..] == e;
      assert Chunks(e, len, count) == [e] + Chunks(e, len, count - 1);
    }
  }

  /** Read in turn, the chunks are the whole input when it fits. */
  lemma {:induction false} ChunksFlatten<T>(tests: seq<T>, len: nat, count: nat)
    requires |tests| <= len * count
    ensures Flatten(Chunks(tests, len, count)) == tests
    decreases count
  {
    if count > 0 {
      var n := if |tests| < len then |tests| else len;
      assert len * count == len * (count - 1) + len;
      ChunksFlatten(tests[n..], len, count - 1);
      FlattenCons(tests[..n], Chunks(tests[n..], len, count - 1));
      assert tests == tests[..n] + tests[n..];
    }
  }

  /** simple fails only on a zero process count; otherwise it gives one queue per process,
      none longer than the ceiling, each queue full before a later one gets a test, and
      the queues read in turn are the tests in their order. */
  lemma SimpleRule<T>(tests: seq<T>, processCount: int)
    ensures SimpleSpec(tests, processCount).Throw? <==> processCount == 0
    ensures processCount < 0 ==> SimpleSpec(tests, processCount) == Ok([])
    ensures processCount > 0 ==>
      var r, len := SimpleSpec(tests, processCount).value, CeilDiv(|tests|, processCount);
      |r| == processCount
      && (forall i :: 0 <= i < |r| ==> |r[i]| <= len)
      && (forall i, j :: 0 <= i < j < |r| && r[j] != [] ==> |r[i]| == len)
      && Flatten(r) == tests
  {
    if processCount > 0 {
      var len := CeilDiv(|tests|, processCount);
      ChunksSizes(tests, len, processCount);
      ChunksFull(tests, len, processCount);
      ChunksFlatten(tests, len, processCount);
    }
  }

  // ---------------------------------------------------------------------------------
  // Sorting the durations (Vector::sort, ascending).

  predicate SortedInts(s: seq<int>) {
    forall i, j :: 0 <= i < j < |s| ==> s[i] <= s[j]
  }

  function InsertInt(x: int, s: seq<int>): (r: seq<int>)
    ensures |r| == |s| + 1
  {
    if s == [] || x <= s[0] then [x] + s else [s[0]] + InsertInt(x, s[1..])
  }

  /** The durations in ascending order. Any sorting algorithm gives the same sequence, the
      sorted permutation being unique. */
  function SortInts(s: seq<int>): (r: seq<int>)
    ensures |r| == |s|
  {
    if s == [] then [] else InsertInt(s[|s| - 1], SortInts(s[..|s| - 1]))
  }

  lemma {:induction false} InsertIntMass(x: int, s: seq<int>)
    ensures multiset(InsertInt(x, s)) == multiset(s) + multiset{x}
  {
    if s != [] && x > s[0] {
      InsertIntMass(x, s[1..]);
      assert s == [s[0]] + s[1..];
    }
  }

  lemma InsertIntFirst(x: int, s: seq<int>)
    ensures InsertInt(x, s)[0] == x || (s != [] && InsertInt(x, s)[0] == s[0])
  {
  }

  lemma {:induction false} InsertIntSorted(x: int, s: seq<int>)
    requires SortedInts(s)
    ensures SortedInts(InsertInt(x, s))
  {
    if s != [] && x > s[0] {
      var s' := s[1..];
      assert SortedInts(s') by {
        forall i, j | 0 <= i < j < |s'|
          ensures s'[i] <= s'[j]
        {
          assert s'[i] == s[i + 1] && s'[j] == s[j + 1];
        }
      }
      var r' := InsertInt(x, s');
      InsertIntSorted(x, s');
      InsertIntFirst(x, s');
      assert s' != [] ==> s[0] <= s'[0];
      assert s[0] <= r'[0];
      var r := InsertInt(x, s);
      assert r == [s[0]] + r';
      ConsSorted(s[0], r');
    }
  }

  lemma ConsSorted(x: int, s: seq<int>)
    requires SortedInts(s) && s != [] && x <= s[0]
    ensures SortedInts([x] + s)
  {
    var r := [x] + s;
    forall i, j | 0 <= i < j < |r|
      ensures r[i] <= r[j]
    {
      if i == 0 {
        assert r[j] == s[j - 1];
        assert s[0] <= s[j - 1];
      } else {
        assert r[i] == s[i - 1] && r[j] == s[j - 1];
      }
    }
  }

  /** Sorting yields an ascending permutation of the durations. */
  lemma {:induction false} SortIntsRule(s: seq<int>)
    ensures SortedInts(SortInts(s)) && multiset(SortInts(s)) == multiset(s)
  {
    if s != [] {
      SortIntsRule(s[..|s| - 1]);
      InsertIntSorted(s[|s| - 1], SortInts(s[..|s| - 1]));
      InsertIntMass(s[|s| - 1], SortInts(s[..|s| - 1]));
      assert s == s[..|s| - 1] + [s[|s| - 1]];
    }
  }

  // ---------------------------------------------------------------------------------
  // smartPartition

  /** What smartPartition returns: the greedy algorithm's vectors, or Karmarkar–Karp's
      stacks (each listed bottom first). */
  datatype Partition = Vectors(lanes: seq<seq<int>>) | Stacks(lanes: seq<seq<int>>)

  function SmartPartitionSpec(vector: seq<int>, k: int): Result<Partition> {
    var c := PA.Choice(|vector|, k);
    if c.Throw? then Throw(c.error)
    else if c.value == PA.KarmarkarKarp then AsStacks(KK.Spec(vector, k))
    else AsVectors(PA.GreedySpec(vector, k))
  }

  function AsStacks(r: Result<seq<seq<int>>>): Result<Partition> {
    if r.Throw? then Throw(r.error) else Ok(Stacks(r.value))
  }

  function AsVectors(r: Result<seq<seq<int>>>): Result<Partition> {
    if r.Throw? then Throw(r.error) else Ok(Vectors(r.value))
  }

  /** Every lane reversed. */
  function ReverseEach(lanes: seq<seq<int>>): (r: seq<seq<int>>)
    ensures |r| == |lanes|
  {
    if lanes == [] then [] else ReverseEach(lanes[..|lanes| - 1]) + [Reverse(lanes[|lanes| - 1])]
  }

  /** The order in which statBased's foreach reads the lanes: a vector front to back, a
      stack from its top. */
  function Traversal(p: Partition): (r: seq<seq<int>>)
    ensures |r| == |p.lanes|
  {
    match p
    case Vectors(lanes) => lanes
    case Stacks(lanes) => ReverseEach(lanes)
  }

  lemma {:induction false} ReverseEachMass(lanes: seq<seq<int>>)
    ensures multiset(Flatten(ReverseEach(lanes))) == multiset(Flatten(lanes))
  {
    if lanes != [] {
      var init, last := lanes[..|lanes| - 1], lanes[|lanes| - 1];
      ReverseEachMass(init);
      KK.ReverseMultiset(last);
      var r := ReverseEach(lanes);
      assert r[..|r| - 1] == ReverseEach(init);
    }
  }

  /** Reading a partition in traversal order yields its values. */
  lemma TraversalMass(p: Partition)
    ensures multiset(Flatten(Traversal(p))) == multiset(Flatten(p.lanes))
  {
    if p.Stacks? {
      ReverseEachMass(p.lanes);
    }
  }

  /** smartPartition fails on too many values, and on values with no lane; otherwise it
      gives k lanes (when there are at least k values) holding exactly the values. */
  lemma SmartPartitionRule(vector: seq<int>, k: int)
    ensures var r := SmartPartitionSpec(vector, k);
      (r.Throw? <==> |vector| > PA.MAX_VALUES || (k <= 0 && vector != []))
      && (|vector| > PA.MAX_VALUES ==> r.Throw? && r.error.UsageException?)
      && (r.Ok? ==> multiset(Flatten(Traversal(r.value))) == multiset(vector)
                    && (k <= |vector| ==> |r.value.lanes| == Max(k, 0)))
  {
    PA.ChoiceRule(|vector|, k);
    var c := PA.Choice(|vector|, k);
    var r := SmartPartitionSpec(vector, k);
    if c == Ok(PA.KarmarkarKarp) {
      KK.Partitions(vector, k);
    } else if c.Ok? {
      PA.GreedyFails(vector, k);
      PA.GreedyPartitions(vector, k);
    }
    if r.Ok? {
      TraversalMass(r.value);
    }
  }

  // ---------------------------------------------------------------------------------
  // notifyAboutLongTest

  /** The scan of notifyAboutLongTest: among the queues that hold exactly one test, the
      first test of the longest expected duration. */
  function Longest<T>(queues: seq<seq<T>>, duration: T -> Option<int>): Option<T> {
    if queues == [] then None
    else
      var m := Longest(queues[..|queues| - 1], duration);
      var q := queues[|queues| - 1];
      if |q| != 1 then m
      else if m.None? || OrZero(duration(m.value)) < OrZero(duration(q[0])) then Some(q[0])
      else m
  }

  /** The test the note names: none unless some queue holds exactly one test and some
      other queue does not. */
  function LongTest<T>(queues: seq<seq<T>>, duration: T -> Option<int>): Option<T> {
    if forall i :: 0 <= i < |queues| ==> |queues[i]| == 1 then None else Longest(queues, duration)
  }

  /** Queue `i` holds one test; no single-test queue has a longer one, and every earlier
      single-test queue a shorter one. */
  ghost predicate FirstLongest<T>(queues: seq<seq<T>>, duration: T -> Option<int>, i: int) {
    0 <= i < |queues| && |queues[i]| == 1
    && (forall j :: 0 <= j < |queues| && |queues[j]| == 1 ==>
          OrZero(duration(queues[j][0])) <= OrZero(duration(queues[i][0])))
    && (forall j :: 0 <= j < i && |queues[j]| == 1 ==>
          OrZero(duration(queues[j][0])) < OrZero(duration(queues[i][0])))
  }

  lemma {:induction false} LongestRule<T>(queues: seq<seq<T>>, duration: T -> Option<int>)
    ensures Longest(queues, duration).None? <==> forall i :: 0 <= i < |queues| ==> |queues[i]| != 1
    ensures Longest(queues, duration).Some? ==>
      exists i :: FirstLongest(queues, duration, i) && queues[i][0] == Longest(queues, duration).value
  {
    if queues != [] {
      var init, q := queues[..|queues| - 1], queues[|queues| - 1];
      LongestRule(init, duration);
      var m := Longest(init, duration);
      var n := |init|;
      assert forall j :: 0 <= j < n ==> queues[j] == init[j];
      if |q| == 1 && (m.None? || OrZero(duration(m.value)) < OrZero(duration(q[0]))) {
        if m.Some? {
          var i :| FirstLongest(init, duration, i) && init[i][0] == m.value;
        }
        assert FirstLongest(queues, duration, n);
      } else if m.Some? {
        var i :| FirstLongest(init, duration, i) && init[i][0] == m.value;
        assert FirstLongest(queues, duration, i);
      }
    }
  }

  /** The note is given exactly when there is a single-test queue and a queue that is not
      one; it names the first single test of the longest expected duration. */
  lemma LongTestRule<T>(queues: seq<seq<T>>, duration: T -> Option<int>)
    ensures LongTest(queues, duration).Some? <==>
      (exists i :: 0 <= i < |queues| && |queues[i]| == 1) && (exists i :: 0 <= i < |queues| && |queues[i]| != 1)
    ensures LongTest(queues, duration).Some? ==>
      exists i :: FirstLongest(queues, duration, i) && queues[i][0] == LongTest(queues, duration).value
  {
    LongestRule(queues, duration);
  }

  // ---------------------------------------------------------------------------------
  // statBased

  /** Every test has an expected duration. */
  predicate Known<T>(s: seq<T>, duration: T -> Option<int>) {
    forall i :: 0 <= i < |s| ==> duration(s[i]).Some?
  }

  /** The expected durations of the tests in order. */
  function Expected<T>(s: seq<T>, duration: T -> Option<int>): (r: seq<int>)
    ensures |r| == |s| && forall i :: 0 <= i < |s| ==> r[i] == OrZero(duration(s[i]))
  {
    seq(|s|, i requires 0 <= i < |s| => OrZero(duration(s[i])))
  }

  lemma ExpectedAppend<T>(a: seq<T>, b: seq<T>, duration: T -> Option<int>)
    ensures Expected(a + b, duration) == Expected(a, duration) + Expected(b, duration)
  {
    assert forall i :: 0 <= i < |a| + |b| ==>
      Expected(a + b, duration)[i] == (Expected(a, duration) + Expected(b, duration))[i];
  }

  /** The first loop of statBased: the durations in test order, and per duration a queue of
      the tests having it, in test order; a test without an expected duration stops it. */
  function Collect<T>(tests: seq<T>, duration: T -> Option<int>): Result<(seq<int>, map<int, seq<T>>)> {
    if tests == [] then Ok(([], map[]))
    else
      var c := Collect(tests[..|tests| - 1], duration);
      var t := tests[|tests| - 1];
      if c.Throw? then c
      else if duration(t).None? then Throw(UsageException(NO_DURATION))
      else
        var d, b := duration(t).value, c.value.1;
        Ok((c.value.0 + [d], b[d := (if d in b then b[d] else []) + [t]]))
  }

  /** The tests of `s` whose expected duration is `d`, in order. */
  function WithDuration<T>(s: seq<T>, duration: T -> Option<int>, d: int): seq<T> {
    if s == [] then []
    else
      WithDuration(s[..|s| - 1], duration, d)
      + (if duration(s[|s| - 1]) == Some(d) then [s[|s| - 1]] else [])
  }

  lemma WithDurationSnoc<T>(s: seq<T>, x: T, duration: T -> Option<int>, d: int)
    ensures WithDuration(s + [x], duration, d)
      == WithDuration(s, duration, d) + (if duration(x) == Some(d) then [x] else [])
  {
    assert (s + [x])[..|s|] == s;
  }

  lemma {:induction false} WithDurationHave<T>(s: seq<T>, duration: T -> Option<int>, d: int)
    ensures forall t :: t in WithDuration(s, duration, d) ==> duration(t) == Some(d)
  {
    if s != [] {
      WithDurationHave(s[..|s| - 1], duration, d);
    }
  }

  /** As many tests have duration `d` as there are `d`s among the durations. */
  lemma {:induction false} WithDurationCount<T>(s: seq<T>, duration: T -> Option<int>, d: int)
    requires Known(s, duration)
    ensures |WithDuration(s, duration, d)| == multiset(Expected(s, duration))[d]
  {
    if s != [] {
      var init, x := s[..|s| - 1], s[|s| - 1];
      WithDurationCount(init, duration, d);
      assert s == init + [x];
      ExpectedAppend(init, [x], duration);
    }
  }

  /** Selecting a test's duration keeps every copy of it. */
  lemma {:induction false} WithDurationKeeps<T>(s: seq<T>, duration: T -> Option<int>, t: T)
    requires duration(t).Some?
    ensures multiset(WithDuration(s, duration, duration(t).value))[t] == multiset(s)[t]
  {
    if s != [] {
      var init, x := s[..|s| - 1], s[|s| - 1];
      WithDurationKeeps(init, duration, t);
      assert s == init + [x];
    }
  }

  /** The duration queues of the first loop: each holds the tests of its duration, and
      every duration of a test has one. */
  ghost predicate Buckets<T>(tests: seq<T>, duration: T -> Option<int>, b: map<int, seq<T>>) {
    (forall d :: d in b ==> b[d] == WithDuration(tests, duration, d))
    && (forall d :: d !in b ==> WithDuration(tests, duration, d) == [])
  }

  /** The first loop succeeds exactly when every test has an expected duration; it lists
      them, and each duration's queue holds exactly the tests of that duration. */
  lemma {:induction false} CollectRule<T>(tests: seq<T>, duration: T -> Option<int>)
    ensures Collect(tests, duration).Ok? <==> Known(tests, duration)
    ensures Collect(tests, duration).Throw? ==> Collect(tests, duration).error == UsageException(NO_DURATION)
    ensures var c := Collect(tests, duration);
      c.Ok? ==> c.value.0 == Expected(tests, duration) && Buckets(tests, duration, c.value.1)
  {
    if tests != [] {
      var init, t := tests[..|tests| - 1], tests[|tests| - 1];
      CollectRule(init, duration);
      assert tests == init + [t];
      var c := Collect(init, duration);
      if c.Ok? && duration(t).Some? {
        var dt, b := duration(t).value, c.value.1;
        var b' := b[dt := (if dt in b then b[dt] else []) + [t]];
        ExpectedAppend(init, [t], duration);
        forall d
          ensures d in b' ==> b'[d] == WithDuration(tests, duration, d)
          ensures d !in b' ==> WithDuration(tests, duration, d) == []
        {
          WithDurationSnoc(init, t, duration, d);
        }
      }
    }
  }

  /** A failure in a prefix is the failure of the whole loop. */
  lemma {:induction false} CollectThrows<T>(tests: seq<T>, duration: T -> Option<int>, i: nat)
    requires i <= |tests| && Collect(tests[..i], duration).Throw?
    ensures Collect(tests, duration) == Collect(tests[..i], duration)
    decreases |tests| - i
  {
    if i == |tests| {
      assert tests[..i] == tests;
    } else {
      assert tests[..i + 1][..i] == tests[..i];
      CollectThrows(tests, duration, i + 1);
    }
  }

  /** Filling one queue: each duration of the lane takes the front test of its queue; a
      missing duration is Map::get's error, an empty queue Queue::pop's. */
  function PopTests<T>(lane: seq<int>, b: map<int, seq<T>>): Result<(seq<T>, map<int, seq<T>>)>
    decreases |lane|
  {
    if lane == [] then Ok(([], b))
    else
      var d := lane[0];
      if d !in b then Throw(OutOfBoundsException)
      else if b[d] == [] then Throw(UnderflowException)
      else
        var rest := PopTests(lane[1..], b[d := b[d][1..]]);
        if rest.Throw? then rest else Ok(([b[d][0]] + rest.value.0, rest.value.1))
  }

  /** Filling the queues lane by lane. */
  function PopLanes<T>(lanes: seq<seq<int>>, b: map<int, seq<T>>): Result<seq<seq<T>>>
    decreases |lanes|
  {
    if lanes == [] then Ok([])
    else
      var first := PopTests(lanes[0], b);
      if first.Throw? then Throw(first.error)
      else
        var rest := PopLanes(lanes[1..], first.value.1);
        if rest.Throw? then rest else Ok([first.value.0] + rest.value)
  }

  /** Every queue has a test for each time its duration is still to come. */
  ghost predicate Enough<T>(lane: seq<int>, b: map<int, seq<T>>) {
    forall d :: d in multiset(lane) ==> d in b && multiset(lane)[d] <= |b[d]|
  }

  /** Every test in a duration's queue has that duration. */
  ghost predicate Tagged<T>(b: map<int, seq<T>>, duration: T -> Option<int>) {
    forall d, t :: d in b && t in b[d] ==> duration(t) == Some(d)
  }

  /** The tests of `q` have the durations listed in `lane`. */
  ghost predicate HasDurations<T>(q: seq<T>, lane: seq<int>, duration: T -> Option<int>) {
    |q| == |lane| && forall j :: 0 <= j < |q| ==> duration(q[j]) == Some(lane[j])
  }

  /** The tests of `q` at the places where `lane` holds `d`. */
  function Select<T>(q: seq<T>, lane: seq<int>, d: int): seq<T>
    decreases |q|
  {
    if q == [] || lane == [] then []
    else (if lane[0] == d then [q[0]] else []) + Select(q[1..], lane[1..], d)
  }

  lemma EnoughStep<T>(lane: seq<int>, b: map<int, seq<T>>)
    requires lane != [] && Enough(lane, b)
    ensures lane[0] in b && b[lane[0]] != []
    ensures Enough(lane[1..], b[lane[0] := b[lane[0]][1..]])
  {
    var d := lane[0];
    assert lane == [d] + lane[1..];
    assert d in multiset(lane);
    var b' := b[d := b[d][1..]];
    forall d' | d' in multiset(lane[1..])
      ensures d' in b' && multiset(lane[1..])[d'] <= |b'[d']|
    {
      assert d' in multiset(lane);
    }
  }

  /** Filling a queue succeeds when every duration has enough tests left; the queues keep
      their durations. */
  lemma {:induction false} PopTestsOk<T>(lane: seq<int>, b: map<int, seq<T>>)
    requires Enough(lane, b)
    ensures PopTests(lane, b).Ok? && |PopTests(lane, b).value.0| == |lane|
    ensures PopTests(lane, b).Ok? ==> PopTests(lane, b).value.1.Keys == b.Keys
    decreases |lane|
  {
    if lane != [] {
      EnoughStep(lane, b);
      PopTestsOk(lane[1..], b[lane[0] := b[lane[0]][1..]]);
    }
  }

  /** Filling a queue takes, from each duration's queue, its front tests, one per time the
      lane lists that duration. */
  lemma {:induction false} PopTestsKey<T>(lane: seq<int>, b: map<int, seq<T>>, d: int)
    requires PopTests(lane, b).Ok? && d in b
    ensures var r := PopTests(lane, b).value;
      d in r.1 && b[d] == Select(r.0, lane, d) + r.1[d]
    decreases |lane|
  {
    if lane != [] {
      var d0 := lane[0];
      var b' := b[d0 := b[d0][1..]];
      PopTestsKey(lane[1..], b', d);
      if d0 == d {
        assert b[d] == [b[d][0]] + b'[d];
      }
    }
  }

  /** Each test taken has the duration the lane lists at its place. */
  lemma {:induction false} PopTestsTagged<T>(lane: seq<int>, b: map<int, seq<T>>, duration: T -> Option<int>)
    requires PopTests(lane, b).Ok? && Tagged(b, duration)
    ensures var r := PopTests(lane, b).value;
      HasDurations(r.0, lane, duration) && Tagged(r.1, duration)
    decreases |lane|
  {
    if lane != [] {
      var d0 := lane[0];
      var b' := b[d0 := b[d0][1..]];
      assert b[d0][0] in b[d0];
      forall d, t | d in b' && t in b'[d]
        ensures duration(t) == Some(d)
      {
        if d == d0 {
          assert t in b[d0];
        }
      }
      PopTestsTagged(lane[1..], b', duration);
    }
  }

  /** Filling from two lanes one after the other is filling from their concatenation. */
  lemma {:induction false} PopTestsAppend<T>(a: seq<int>, c: seq<int>, b: map<int, seq<T>>)
    requires PopTests(a + c, b).Ok?
    ensures PopTests(a, b).Ok? && PopTests(c, PopTests(a, b).value.1).Ok?
    ensures var ra := PopTests(a, b).value; var rc := PopTests(c, ra.1).value;
      PopTests(a + c, b).value == (ra.0 + rc.0, rc.1)
    decreases |a|
  {
    if a == [] {
      assert a + c == c;
      var rc := PopTests(c, b).value;
      assert PopTests(a, b).value.0 + rc.0 == rc.0;
    } else {
      var d := a[0];
      assert (a + c)[0] == d && (a + c)[1..] == a[1..] + c;
      var b' := b[d := b[d][1..]];
      PopTestsAppend(a[1..], c, b');
      var x, ra' := b[d][0], PopTests(a[1..], b').value;
      var rc := PopTests(c, ra'.1).value;
      assert [x] + (ra'.0 + rc.0) == ([x] + ra'.0) + rc.0;
    }
  }

  /** Filling the queues therefore takes the tests the concatenated lanes take. */
  lemma {:induction false} PopLanesFlat<T>(lanes: seq<seq<int>>, b: map<int, seq<T>>)
    requires PopTests(Flatten(lanes), b).Ok?
    ensures PopLanes(lanes, b).Ok? && |PopLanes(lanes, b).value| == |lanes|
    ensures Flatten(PopLanes(lanes, b).value) == PopTests(Flatten(lanes), b).value.0
    decreases |lanes|
  {
    if lanes != [] {
      var first, rest := lanes[0], lanes[1..];
      assert lanes == [first] + rest;
      FlattenCons(first, rest);
      PopTestsAppend(first, Flatten(rest), b);
      var b1 := PopTests(first, b).value.1;
      PopLanesFlat(rest, b1);
      FlattenCons(PopTests(first, b).value.0, PopLanes(rest, b1).value);
    }
  }

  /** Each queue has its lane's durations. */
  lemma {:induction false} PopLanesTagged<T>(lanes: seq<seq<int>>, b: map<int, seq<T>>, duration: T -> Option<int>)
    requires PopLanes(lanes, b).Ok? && Tagged(b, duration)
    ensures var r := PopLanes(lanes, b).value;
      |r| == |lanes| && forall i :: 0 <= i < |lanes| ==> HasDurations(r[i], lanes[i], duration)
    decreases |lanes|
  {
    if lanes != [] {
      var p := PopTests(lanes[0], b);
      PopTestsTagged(lanes[0], b, duration);
      PopLanesTagged(lanes[1..], p.value.1, duration);
    }
  }

  lemma {:induction false} SelectCount<T>(q: seq<T>, lane: seq<int>, d: int)
    requires |q| == |lane|
    ensures |Select(q, lane, d)| == multiset(lane)[d]
    decreases |q|
  {
    if q != [] {
      SelectCount(q[1..], lane[1..], d);
      assert lane == [lane[0]] + lane[1..];
    }
  }

  /** Selecting the places of a test's duration keeps every copy of the test. */
  lemma {:induction false} SelectKeeps<T>(q: seq<T>, lane: seq<int>, duration: T -> Option<int>, t: T)
    requires HasDurations(q, lane, duration) && duration(t).Some?
    ensures multiset(Select(q, lane, duration(t).value))[t] == multiset(q)[t]
    decreases |q|
  {
    if q != [] {
      assert HasDurations(q[1..], lane[1..], duration) by {
        assert forall j :: 0 <= j < |q| - 1 ==> q[1..][j] == q[j + 1] && lane[1..][j] == lane[j + 1];
      }
      SelectKeeps(q[1..], lane[1..], duration, t);
      assert q == [q[0]] + q[1..];
    }
  }

  /** The durations of statBased's lanes are the tests' durations, so the duration queues
      have enough tests. */
  lemma EnoughAll<T>(tests: seq<T>, duration: T -> Option<int>, b: map<int, seq<T>>, lanes: seq<seq<int>>)
    requires Known(tests, duration) && Buckets(tests, duration, b)
    requires multiset(Flatten(lanes)) == multiset(Expected(tests, duration))
    ensures Enough(Flatten(lanes), b)
  {
    forall d | d in multiset(Flatten(lanes))
      ensures d in b && multiset(Flatten(lanes))[d] <= |b[d]|
    {
      WithDurationCount(tests, duration, d);
    }
  }

  lemma BucketsTagged<T>(tests: seq<T>, duration: T -> Option<int>, b: map<int, seq<T>>)
    requires Buckets(tests, duration, b)
    ensures Tagged(b, duration)
  {
    forall d | d in b
      ensures forall t :: t in b[d] ==> duration(t) == Some(d)
    {
      WithDurationHave(tests, duration, d);
    }
  }

  /** The tests taken along all the lanes are the tests, when the lanes hold their durations. */
  lemma TakenAll<T>(tests: seq<T>, duration: T -> Option<int>, b: map<int, seq<T>>, all: seq<int>, q: seq<T>)
    requires Known(tests, duration) && Buckets(tests, duration, b)
    requires multiset(all) == multiset(Expected(tests, duration))
    requires PopTests(all, b).Ok? && q == PopTests(all, b).value.0 && HasDurations(q, all, duration)
    ensures multiset(q) == multiset(tests)
  {
    forall t
      ensures multiset(q)[t] == multiset(tests)[t]
    {
      TakenCount(tests, duration, b, all, q, t);
    }
  }

  lemma TakenCount<T>(tests: seq<T>, duration: T -> Option<int>, b: map<int, seq<T>>, all: seq<int>, q: seq<T>, t: T)
    requires Known(tests, duration) && Buckets(tests, duration, b)
    requires multiset(all) == multiset(Expected(tests, duration))
    requires PopTests(all, b).Ok? && q == PopTests(all, b).value.0 && HasDurations(q, all, duration)
    ensures multiset(q)[t] == multiset(tests)[t]
  {
    if duration(t).None? {
      TakenUnknown(tests, duration, q, all, t);
    } else {
      var d := duration(t).value;
      WithDurationCount(tests, duration, d);
      WithDurationKeeps(tests, duration, t);
      SelectKeeps(q, all, duration, t);
      SelectCount(q, all, d);
      if d in b {
        PopTestsKey(all, b, d);
        assert Select(q, all, d) == b[d];
      }
    }
  }

  /** A test without a duration is neither among the tests nor among those taken. */
  lemma TakenUnknown<T>(tests: seq<T>, duration: T -> Option<int>, q: seq<T>, all: seq<int>, t: T)
    requires Known(tests, duration) && HasDurations(q, all, duration) && duration(t).None?
    ensures multiset(q)[t] == 0 && multiset(tests)[t] == 0
  {
    assert t !in tests;
    forall j | 0 <= j < |q|
      ensures q[j] != t
    {
      assert duration(q[j]) == Some(all[j]);
    }
  }

  /** statBased's queues: one per lane, each with its lane's durations, and together
      exactly the tests. */
  lemma QueuesRule<T>(tests: seq<T>, duration: T -> Option<int>, b: map<int, seq<T>>, lanes: seq<seq<int>>)
    requires Known(tests, duration) && Buckets(tests, duration, b)
    requires multiset(Flatten(lanes)) == multiset(Expected(tests, duration))
    ensures var r := PopLanes(lanes, b);
      r.Ok? && |r.value| == |lanes|
      && (forall i :: 0 <= i < |lanes| ==> Expected(r.value[i], duration) == lanes[i])
      && multiset(Flatten(r.value)) == multiset(tests)
  {
    var all := Flatten(lanes);
    EnoughAll(tests, duration, b, lanes);
    PopTestsOk(all, b);
    BucketsTagged(tests, duration, b);
    PopTestsTagged(all, b, duration);
    TakenAll(tests, duration, b, all, PopTests(all, b).value.0);
    PopLanesFlat(lanes, b);
    PopLanesTagged(lanes, b, duration);
    var r := PopLanes(lanes, b).value;
    forall i | 0 <= i < |lanes|
      ensures Expected(r[i], duration) == lanes[i]
    {
      assert HasDurations(r[i], lanes[i], duration);
    }
  }

  /** The queues' expected totals are the lane totals, and the largest is MaxRun. */
  lemma QueuesTotals<T>(tests: seq<T>, duration: T -> Option<int>, b: map<int, seq<T>>, lanes: seq<seq<int>>)
    requires Known(tests, duration) && Buckets(tests, duration, b)
    requires multiset(Flatten(lanes)) == multiset(Expected(tests, duration))
    ensures var r := PopLanes(lanes, b);
      r.Ok? && |r.value| == |lanes| && multiset(Flatten(r.value)) == multiset(tests)
      && (forall i :: 0 <= i < |r.value| ==> Sum(Expected(r.value[i], duration)) <= MaxRun(lanes))
      && (MaxRun(lanes) == 0 || exists i :: 0 <= i < |r.value| && Sum(Expected(r.value[i], duration)) == MaxRun(lanes))
  {
    QueuesRule(tests, duration, b, lanes);
    MaxRunRule(lanes);
  }

  /** The longest lane total, or 0: statBased's running maximum starts at 0. */
  function MaxRun(lanes: seq<seq<int>>): int {
    if lanes == [] then 0 else Max(MaxRun(lanes[..|lanes| - 1]), Sum(lanes[|lanes| - 1]))
  }

  /** The recorded run duration is the largest lane total (0 when none is positive). */
  lemma {:induction false} MaxRunRule(lanes: seq<seq<int>>)
    ensures MaxRun(lanes) >= 0
    ensures forall i :: 0 <= i < |lanes| ==> Sum(lanes[i]) <= MaxRun(lanes)
    ensures MaxRun(lanes) == 0 || exists i :: 0 <= i < |lanes| && Sum(lanes[i]) == MaxRun(lanes)
  {
    if lanes != [] {
      var init := lanes[..|lanes| - 1];
      MaxRunRule(init);
      assert forall i :: 0 <= i < |init| ==> lanes[i] == init[i];
    }
  }

  /** The minimum, median and maximum expected durations statBased records. */
  datatype Stats = Stats(minSec: int, medianSec: int, maxSec: int)

  /** The first, middle (at index n div 2) and last of the sorted durations. */
  function StatsOf(sorted: seq<int>): Stats
    requires sorted != []
  {
    Stats(sorted[0], sorted[|sorted| / 2], sorted[|sorted| - 1])
  }

  /** What statBased leaves behind: its result, the statistics and the run duration it
      recorded (None where it threw before), and the test its note names. */
  datatype StatOutcome<T> = StatOutcome(result: Result<seq<seq<T>>>, stats: Option<Stats>,
                                        maxRunDuration: Option<int>, noted: Option<T>)

  /** statBased: the durations and their queues, Vector::first's error on no test, the
      statistics of the sorted durations, smartPartition over min(processCount, n) lanes,
      then one queue per lane, read in traversal order. */
  function StatBasedSpec<T>(tests: seq<T>, processCount: int, duration: T -> Option<int>): StatOutcome<T> {
    var c := Collect(tests, duration);
    if c.Throw? then StatOutcome(Throw(c.error), None, None, None)
    else
      var durations, buckets := c.value.0, c.value.1;
      if durations == [] then StatOutcome(Throw(UnderflowException), None, None, None)
      else
        var sorted := SortInts(durations);
        var stats := StatsOf(sorted);
        var p := SmartPartitionSpec(sorted, Min(processCount, |tests|));
        if p.Throw? then StatOutcome(Throw(p.error), Some(stats), None, None)
        else
          var lanes := Traversal(p.value);
          var q := PopLanes(lanes, buckets);
          if q.Throw? then StatOutcome(Throw(q.error), Some(stats), None, None)
          else StatOutcome(Ok(q.value), Some(stats), Some(MaxRun(lanes)), LongTest(q.value, duration))
  }

  /** The settings after statBased. */
  function Recorded<T>(cfg: Settings.Config, o: StatOutcome<T>): Settings.Config {
    var c := if o.stats.None? then cfg else
      cfg.(minTestDurationSec := Some(o.stats.value.minSec), medianTestDurationSec := Some(o.stats.value.medianSec),
           maxTestDurationSec := Some(o.stats.value.maxSec));
    if o.maxRunDuration.None? then c else c.(maxRunDuration := o.maxRunDuration.value)
  }

  /** statBased fails exactly when a test has no expected duration, there is no test, there
      are too many, or the process count is not positive. */
  lemma StatBasedFails<T>(tests: seq<T>, processCount: int, duration: T -> Option<int>)
    ensures var o := StatBasedSpec(tests, processCount, duration);
      o.result.Throw? <==> !Known(tests, duration) || tests == [] || |tests| > PA.MAX_VALUES || processCount <= 0
    ensures !Known(tests, duration) ==>
      StatBasedSpec(tests, processCount, duration).result == Throw(UsageException(NO_DURATION))
  {
    CollectRule(tests, duration);
    var c := Collect(tests, duration);
    if c.Ok? && c.value.0 != [] {
      var sorted := SortInts(c.value.0);
      SortIntsRule(c.value.0);
      var k := Min(processCount, |tests|);
      SmartPartitionRule(sorted, k);
      var p := SmartPartitionSpec(sorted, k);
      if p.Ok? {
        QueuesRule(tests, duration, c.value.1, Traversal(p.value));
      }
    }
  }

  /** statBased gives min(processCount, n) queues that hold exactly the tests; each queue's
      expected total is at most the recorded run duration, which is the largest total. */
  lemma StatBasedQueues<T>(tests: seq<T>, processCount: int, duration: T -> Option<int>)
    ensures var o := StatBasedSpec(tests, processCount, duration);
      o.result.Ok? ==>
        var queues := o.result.value;
        |queues| == Min(processCount, |tests|)
        && multiset(Flatten(queues)) == multiset(tests)
        && o.maxRunDuration.Some?
        && (forall i :: 0 <= i < |queues| ==> Sum(Expected(queues[i], duration)) <= o.maxRunDuration.value)
        && (o.maxRunDuration.value == 0
            || exists i :: 0 <= i < |queues| && Sum(Expected(queues[i], duration)) == o.maxRunDuration.value)
  {
    CollectRule(tests, duration);
    var c := Collect(tests, duration);
    if c.Ok? && c.value.0 != [] {
      var sorted := SortInts(c.value.0);
      SortIntsRule(c.value.0);
      var k := Min(processCount, |tests|);
      SmartPartitionRule(sorted, k);
      var p := SmartPartitionSpec(sorted, k);
      if p.Ok? {
        QueuesTotals(tests, duration, c.value.1, Traversal(p.value));
      }
    }
  }

  /** The statistics are recorded exactly when every test has a duration and there is one;
      they are those of the sorted durations. */
  lemma StatBasedStats<T>(tests: seq<T>, processCount: int, duration: T -> Option<int>)
    ensures var o := StatBasedSpec(tests, processCount, duration);
      o.stats.Some? <==> Known(tests, duration) && tests != []
    ensures var o := StatBasedSpec(tests, processCount, duration);
      o.stats.Some? ==> o.stats.value == StatsOf(SortInts(Expected(tests, duration)))
  {
    CollectRule(tests, duration);
  }

  /** Of the sorted durations, the first is the smallest duration, the last the largest,
      and the middle one the duration at index n div 2 of their ascending order. */
  lemma StatsRule(e: seq<int>)
    requires e != []
    ensures var st := StatsOf(SortInts(e));
      (forall i :: 0 <= i < |e| ==> st.minSec <= e[i] <= st.maxSec)
      && st.minSec in e && st.maxSec in e && st.medianSec in e
      && exists s :: SortedInts(s) && multiset(s) == multiset(e) && s[|s| / 2] == st.medianSec
  {
    StatsBounds(e, SortInts(e));
    StatsMedian(e, SortInts(e));
  }

  lemma StatsBounds(e: seq<int>, s: seq<int>)
    requires e != [] && s == SortInts(e)
    ensures (forall i :: 0 <= i < |e| ==> s[0] <= e[i] <= s[|s| - 1]) && s[0] in e && s[|s| - 1] in e
  {
    SortIntsRule(e);
    forall i | 0 <= i < |e|
      ensures s[0] <= e[i] <= s[|s| - 1]
    {
      assert e[i] in multiset(s);
    }
    assert s[0] in multiset(s) && s[|s| - 1] in multiset(s);
  }

  lemma StatsMedian(e: seq<int>, s: seq<int>)
    requires e != [] && s == SortInts(e)
    ensures StatsOf(s).medianSec in e
    ensures exists s' :: SortedInts(s') && multiset(s') == multiset(e) && s'[|s'| / 2] == StatsOf(s).medianSec
  {
    SortIntsRule(e);
    assert s[|s| / 2] in multiset(s);
  }

  // ---------------------------------------------------------------------------------
  // The Partitioner object.

  /** A result with the tests `q` put in front of the queue it holds. */
  function InFront<T>(q: seq<T>, r: Result<(seq<T>, map<int, seq<T>>)>): Result<(seq<T>, map<int, seq<T>>)> {
    if r.Throw? then r else Ok((q + r.value.0, r.value.1))
  }

  /** A result with the queues `done` put before the queues it holds. */
  function Before<T>(done: seq<seq<T>>, r: Result<seq<seq<T>>>): Result<seq<seq<T>>> {
    if r.Throw? then r else Ok(done + r.value)
  }

  lemma PopTestsFails<T>(lane: seq<int>, b: map<int, seq<T>>)
    requires lane != [] && (lane[0] !in b || b[lane[0]] == [])
    ensures PopTests(lane, b) == Throw(if lane[0] !in b then OutOfBoundsException else UnderflowException)
  {
  }

  /** One more test taken by FillQueue's loop. */
  lemma PopTestsNext<T>(lane: seq<int>, j: nat, m: map<int, seq<T>>, queue: seq<T>)
    requires j < |lane| && lane[j] in m && m[lane[j]] != []
    ensures var d := lane[j];
      InFront(queue, PopTests(lane[j..], m))
      == InFront(queue + [m[d][0]], PopTests(lane[j + 1..], m[d := m[d][1..]]))
  {
    var d := lane[j];
    assert lane[j..][0] == d && lane[j..][1..] == lane[j + 1..];
    var next := PopTests(lane[j + 1..], m[d := m[d][1..]]);
    assert PopTests(lane[j..], m) == InFront([m[d][0]], next);
    assert next.Ok? ==> queue + ([m[d][0]] + next.value.0) == (queue + [m[d][0]]) + next.value.0;
  }

  lemma SumNext(s: seq<int>, j: nat)
    requires j < |s|
    ensures Sum(s[..j + 1]) == Sum(s[..j]) + s[j]
  {
    assert s[..j + 1][..j] == s[..j];
  }

  class Partitioner {
    /** The run's settings: the partitioner reads the process count and records its
        statistics there. */
    const settings: Settings.SettingsRun

    constructor(settings: Settings.SettingsRun)
      ensures this.settings == settings
    {
      this.settings := settings;
    }

    /** simple: records a zero run duration, then deals the tests out in order,
        `ceil(n / processCount)` to a queue. */
    method Simple<T>(tests: seq<T>) returns (r: Result<seq<seq<T>>>)
      modifies settings
      ensures r == SimpleSpec(tests, old(settings.cfg.processCount))
      ensures settings.cfg == old(settings.cfg).(maxRunDuration := 0)
    {
      settings.SetMaxRunDuration(0);
      var processCount := settings.cfg.processCount;
      if processCount == 0 {
        return Throw(DivisionByZeroError);
      }
      var queueLength := if processCount > 0 then CeilDiv(|tests|, processCount) else 0;
      var rest := tests;
      var result: seq<seq<T>> := [];
      var i := 0;
      while i < processCount
        invariant processCount > 0 ==>
          0 <= i <= processCount
          && result + Chunks(rest, queueLength, processCount - i) == Chunks(tests, queueLength, processCount)
        invariant processCount < 0 ==> i == 0 && result == []
        invariant settings.cfg == old(settings.cfg).(maxRunDuration := 0)
      {
        ghost var start := rest;
        var queue;
        queue, rest := TakeQueue(rest, queueLength);
        assert Chunks(start, queueLength, processCount - i)
          == [queue] + Chunks(rest, queueLength, processCount - i - 1);
        result := result + [queue];
        i := i + 1;
      }
      if processCount > 0 {
        assert i == processCount && Chunks(rest, queueLength, 0) == [];
        assert result + [] == result;
        assert result == Chunks(tests, queueLength, processCount);
      }
      r := Ok(result);
    }

    /** The inner loop of simple: up to `queueLength` tests from the front. */
    method TakeQueue<T>(tests: seq<T>, queueLength: nat) returns (queue: seq<T>, rest: seq<T>)
      ensures var n := if |tests| < queueLength then |tests| else queueLength;
        queue == tests[..n] && rest == tests[n..]
    {
      queue := [];
      rest := tests;
      var j := 0;
      while j < queueLength
        invariant 0 <= j <= queueLength && j <= |tests| && queue == tests[..j] && rest == tests[j..]
      {
        if |rest| == 0 {
          break;
        }
        queue := queue + [rest[0]];
        rest := rest[1..];
        j := j + 1;
      }
    }

    /** statBased: the queues by expected duration, with the statistics and the run
        duration recorded in the settings and the long-test note's test. */
    method StatBased<T>(tests: seq<T>, duration: T -> Option<int>) returns (r: Result<seq<seq<T>>>, noted: Option<T>)
      modifies settings
      ensures var o := StatBasedSpec(tests, old(settings.cfg.processCount), duration);
        r == o.result && noted == o.noted && settings.cfg == Recorded(old(settings.cfg), o)
    {
      var testCount := |tests|;
      var collected := CollectDurations(tests, duration);
      if collected.Throw? {
        return Throw(collected.error), None;
      }
      var durations, durationToTestName := collected.value.0, collected.value.1;
      if |durations| == 0 {
        return Throw(UnderflowException), None;
      }
      var sorted := SortInts(durations);
      settings.SetTestDurationStats(sorted[0], sorted[|sorted| / 2], sorted[|sorted| - 1]);
      var partitioned := SmartPartition(sorted, Min(settings.cfg.processCount, testCount));
      if partitioned.Throw? {
        return Throw(partitioned.error), None;
      }
      var lanes := Traversal(partitioned.value);
      var filled, maxRunDuration := FillQueues(lanes, durationToTestName);
      if filled.Throw? {
        return Throw(filled.error), None;
      }
      settings.SetMaxRunDuration(maxRunDuration);
      noted := NotifyAboutLongTest(filled.value, duration);
      r := Ok(filled.value);
    }

    /** statBased's first loop. */
    method CollectDurations<T>(tests: seq<T>, duration: T -> Option<int>)
      returns (r: Result<(seq<int>, map<int, seq<T>>)>)
      ensures r == Collect(tests, duration)
    {
      var durations: seq<int> := [];
      var durationToTestName: map<int, seq<T>> := map[];
      var i := 0;
      while i < |tests|
        invariant 0 <= i <= |tests| && Collect(tests[..i], duration) == Ok((durations, durationToTestName))
      {
        var test := tests[i];
        var d := duration(test);
        assert tests[..i + 1][..i] == tests[..i] && tests[..i + 1][i] == test;
        if d.None? {
          CollectThrows(tests, duration, i + 1);
          return Throw(UsageException(NO_DURATION));
        }
        ghost var expected := durationToTestName[d.value :=
          (if d.value in durationToTestName then durationToTestName[d.value] else []) + [test]];
        assert Collect(tests[..i + 1], duration) == Ok((durations + [d.value], expected));
        if d.value !in durationToTestName {
          durationToTestName := durationToTestName[d.value := []];
        }
        durationToTestName := durationToTestName[d.value := durationToTestName[d.value] + [test]];
        assert durationToTestName == expected;
        durations := durations + [d.value];
        i := i + 1;
      }
      assert tests[..i] == tests;
      r := Ok((durations, durationToTestName));
    }

    /** statBased's second loop: a queue per lane, and the largest lane total. */
    method FillQueues<T>(lanes: seq<seq<int>>, durationToTestName: map<int, seq<T>>)
      returns (r: Result<seq<seq<T>>>, maxRunDuration: int)
      ensures r == PopLanes(lanes, durationToTestName)
      ensures r.Ok? ==> maxRunDuration == MaxRun(lanes)
    {
      var result: seq<seq<T>> := [];
      maxRunDuration := 0;
      var m := durationToTestName;
      var i := 0;
      assert lanes[0..] == lanes;
      assert PopLanes(lanes, m).Ok? ==> result + PopLanes(lanes, m).value == PopLanes(lanes, m).value;
      while i < |lanes|
        invariant 0 <= i <= |lanes|
        invariant PopLanes(lanes, durationToTestName) == Before(result, PopLanes(lanes[i..], m))
        invariant maxRunDuration == MaxRun(lanes[..i])
      {
        assert lanes[i..][0] == lanes[i] && lanes[i..][1..] == lanes[i + 1..];
        var filled, totalRunDuration := FillQueue(lanes[i], m);
        if filled.Throw? {
          assert PopLanes(lanes[i..], m) == Throw(filled.error);
          return Throw(filled.error), maxRunDuration;
        }
        ghost var next := PopLanes(lanes[i + 1..], filled.value.1);
        assert PopLanes(lanes[i..], m) == Before([filled.value.0], next);
        assert next.Ok? ==> result + ([filled.value.0] + next.value) == (result + [filled.value.0]) + next.value;
        result := result + [filled.value.0];
        m := filled.value.1;
        assert lanes[..i + 1][..i] == lanes[..i];
        maxRunDuration := if maxRunDuration > totalRunDuration then maxRunDuration else totalRunDuration;
        i := i + 1;
      }
      assert lanes[..i] == lanes && lanes[i..] == [] && result + [] == result;
      r := Ok(result);
    }

    /** One queue of statBased's second loop, with its lane total. */
    method FillQueue<T>(lane: seq<int>, b: map<int, seq<T>>) returns (r: Result<(seq<T>, map<int, seq<T>>)>, totalRunDuration: int)
      ensures r == PopTests(lane, b)
      ensures r.Ok? ==> totalRunDuration == Sum(lane)
    {
      var queue: seq<T> := [];
      var m := b;
      totalRunDuration := 0;
      var j := 0;
      assert lane[0..] == lane;
      assert PopTests(lane, b).Ok? ==> queue + PopTests(lane, b).value.0 == PopTests(lane, b).value.0;
      while j < |lane|
        invariant 0 <= j <= |lane|
        invariant PopTests(lane, b) == InFront(queue, PopTests(lane[j..], m))
        invariant totalRunDuration == Sum(lane[..j])
      {
        var d := lane[j];
        if d !in m || |m[d]| == 0 {
          PopTestsFails(lane[j..], m);
          return PopTests(lane[j..], m), totalRunDuration;
        }
        var x := m[d][0];
        PopTestsNext(lane, j, m, queue);
        queue := queue + [x];
        m := m[d := m[d][1..]];
        SumNext(lane, j);
        totalRunDuration := totalRunDuration + d;
        j := j + 1;
      }
      assert lane[..j] == lane && lane[j..] == [] && queue + [] == queue;
      r := Ok((queue, m));
    }

    /** smartPartition: too many values are refused; from the threshold on Karmarkar–Karp
        is used, below it the greedy algorithm. */
    method SmartPartition(vector: seq<int>, k: int) returns (r: Result<Partition>)
      ensures r == SmartPartitionSpec(vector, k)
    {
      var length := |vector|;
      if length > PA.MAX_VALUES {
        return Throw(UsageException("Partitioning of " + NatToString(length) + " tests will take too much time and RAM to be useful"));
      }
      var threshold := k * 18000 - 256000;
      if threshold > 0 && length >= threshold {
        var stacks := KK.KarmarkarKarpMethod(vector, k);
        return AsStacks(stacks);
      }
      var vectors := PA.GreedyMethod(vector, k);
      r := AsVectors(vectors);
    }

    /** notifyAboutLongTest: the test its note names, if it gives one. */
    method NotifyAboutLongTest<T>(queues: seq<seq<T>>, duration: T -> Option<int>) returns (noted: Option<T>)
      ensures noted == LongTest(queues, duration)
    {
      var queuesWithOnlyOneTest: seq<seq<T>> := [];
      var shouldNotify := false;
      var i := 0;
      while i < |queues|
        invariant 0 <= i <= |queues|
        invariant Longest(queuesWithOnlyOneTest, duration) == Longest(queues[..i], duration)
        invariant (|queuesWithOnlyOneTest| == 0) <==> forall j :: 0 <= j < i ==> |queues[j]| != 1
        invariant shouldNotify <==> exists j :: 0 <= j < i && |queues[j]| != 1
        invariant forall j :: 0 <= j < |queuesWithOnlyOneTest| ==> |queuesWithOnlyOneTest[j]| == 1
      {
        assert queues[..i + 1][..i] == queues[..i] && queues[..i + 1][i] == queues[i];
        if |queues[i]| != 1 {
          shouldNotify := true;
        } else {
          assert (queuesWithOnlyOneTest + [queues[i]])[..|queuesWithOnlyOneTest|] == queuesWithOnlyOneTest;
          queuesWithOnlyOneTest := queuesWithOnlyOneTest + [queues[i]];
        }
        i := i + 1;
      }
      assert queues[..i] == queues;
      LongestRule(queues, duration);
      if |queuesWithOnlyOneTest| == 0 {
        return None;
      }
      if !shouldNotify {
        return None;
      }
      var testWithLongestDuration: Option<T> := None;
      var j := 0;
      while j < |queuesWithOnlyOneTest|
        invariant 0 <= j <= |queuesWithOnlyOneTest|
        invariant testWithLongestDuration == Longest(queuesWithOnlyOneTest[..j], duration)
      {
        var test := queuesWithOnlyOneTest[j][0];
        assert queuesWithOnlyOneTest[..j + 1][..j] == queuesWithOnlyOneTest[..j];
        if testWithLongestDuration.None? {
          testWithLongestDuration := Some(test);
        } else if OrZero(duration(testWithLongestDuration.value)) < OrZero(duration(test)) {
          testWithLongestDuration := Some(test);
        }
        j := j + 1;
      }
      assert queuesWithOnlyOneTest[..j] == queuesWithOnlyOneTest;
      noted := testWithLongestDuration;
    }
  }
}
