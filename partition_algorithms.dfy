/** The number-partitioning algorithms behind statBased: smartPartition's choice, the
    greedy algorithm and the k-way Karmarkar–Karp largest-differencing method. They work on
    the expected durations (whole seconds) of the tests. */
module PartitionAlgorithms {
  import opened Basics
  import opened Strings
  import PQ = PriorityQueues

  /** More values than this are refused. */
  const MAX_VALUES := 4096000

  datatype Algorithm = Greedy | KarmarkarKarp

  /** smartPartition's choice for `length` values and `k` parts. */
  function Choice(length: nat, k: int): Result<Algorithm> {
    if length > MAX_VALUES then
      Throw(UsageException("Partitioning of " + NatToString(length) + " tests will take too much time and RAM to be useful"))
    else
      var threshold := k * 18000 - 256000;
      if threshold > 0 && length >= threshold then Ok(KarmarkarKarp) else Ok(Greedy)
  }

  /** Karmarkar–Karp is used exactly when the threshold is positive and reached; so with at
      most 14 parts the greedy algorithm is always used. */
  lemma ChoiceRule(length: nat, k: int)
    ensures Choice(length, k).Throw? <==> length > MAX_VALUES
    ensures length <= MAX_VALUES ==>
      (Choice(length, k) == Ok(KarmarkarKarp) <==> k * 18000 - 256000 > 0 && length >= k * 18000 - 256000)
    ensures length <= MAX_VALUES && k <= 14 ==> Choice(length, k) == Ok(Greedy)
  {
  }

  // ---------------------------------------------------------------------------------
  // Greedy.

  /** The lanes of a greedy run: each lane's values with priority −(their sum). */
  type Heap = seq<PQ.Entry<seq<int>>>

  function EmptyLanes(k: nat): (r: Heap)
    ensures |r| == k && forall i :: 0 <= i < k ==> r[i] == PQ.Entry([], 0)
  {
    seq(k, i => PQ.Entry([], 0))
  }

  /** One value of greedy's loop: it goes to the lane popped first. */
  function GreedyStep(heap: Heap, number: int): (r: Heap)
    requires heap != []
  {
    var lane := heap[0].value + [number];
    PQ.Push(heap[1..], lane, -Sum(lane))
  }

  /** greedy's loop: the values are popped from the end; popping an empty priority queue
      throws. */
  function GreedyLoop(heap: Heap, vector: seq<int>): Result<Heap>
    decreases |vector|
  {
    if vector == [] then Ok(heap)
    else if heap == [] then Throw(UnderflowException)
    else GreedyLoop(GreedyStep(heap, vector[|vector| - 1]), vector[..|vector| - 1])
  }

  /** greedy: `k` empty lanes, then the loop; the lanes in the order the queue pops them. */
  function GreedySpec(vector: seq<int>, k: int): Result<seq<seq<int>>> {
    var r := GreedyLoop(EmptyLanes(if k < 0 then 0 else k), vector);
    if r.Throw? then Throw(r.error) else Ok(PQ.Values(r.value))
  }

  /** The values held by a heap. */
  function Mass(heap: Heap): multiset<int> {
    if heap == [] then multiset{} else multiset(heap[0].value) + Mass(heap[1..])
  }

  /** The mass is the multiset of the flattened lanes. */
  lemma {:induction false} MassFlatten(heap: Heap)
    ensures Mass(heap) == multiset(Flatten(PQ.Values(heap)))
  {
    if heap != [] {
      MassFlatten(heap[1..]);
      assert PQ.Values(heap) == [heap[0].value] + PQ.Values(heap[1..]);
      FlattenAppend([heap[0].value], PQ.Values(heap[1..]));
      assert Flatten([heap[0].value]) == Flatten([]) + [heap[0].value][0];
    }
  }

  /** The lanes are in pop order and each lane's priority is minus its sum. */
  predicate Balanced(heap: Heap) {
    PQ.Ordered(heap) && forall i :: 0 <= i < |heap| ==> heap[i].priority == -Sum(heap[i].value)
  }

  /** The lane a greedy step extends is one whose sum is the smallest. */
  lemma GreedyStepSmallest(heap: Heap)
    requires heap != [] && Balanced(heap)
    ensures forall e :: e in heap ==> Sum(heap[0].value) <= Sum(e.value)
  {
  }

  lemma SumSnoc(s: seq<int>, x: int)
    ensures Sum(s + [x]) == Sum(s) + x
  {
    assert (s + [x])[..|s|] == s;
  }

  /** Pushing a lane with priority minus its sum keeps a heap balanced. */
  lemma PushBalanced(q: Heap, lane: seq<int>)
    requires Balanced(q)
    ensures Balanced(PQ.Push(q, lane, -Sum(lane)))
  {
    PQ.PushOrdered(q, lane, -Sum(lane));
    PQ.PushPlace(q, lane, -Sum(lane));
  }

  /** Pushing a lane adds exactly its values. */
  lemma {:induction false} PushMass(q: Heap, lane: seq<int>, p: int)
    ensures Mass(PQ.Push(q, lane, p)) == Mass(q) + multiset(lane)
  {
    if q != [] && q[0].priority >= p {
      PushMass(q[1..], lane, p);
    }
  }

  /** A greedy step keeps the lanes balanced and their number. */
  lemma GreedyStepBalanced(heap: Heap, number: int)
    requires heap != [] && Balanced(heap)
    ensures var r := GreedyStep(heap, number); Balanced(r) && |r| == |heap|
  {
    PushBalanced(heap[1..], heap[0].value + [number]);
  }

  /** A greedy step adds exactly its value. */
  lemma GreedyStepMass(heap: Heap, number: int)
    requires heap != []
    ensures Mass(GreedyStep(heap, number)) == Mass(heap) + multiset{number}
  {
    var first, rest := heap[0].value, heap[1..];
    var lane := first + [number];
    var r := PQ.Push(rest, lane, -Sum(lane));
    assert GreedyStep(heap, number) == r;
    PushMass(rest, lane, -Sum(lane));
    assert multiset(lane) == multiset(first) + multiset{number};
    assert Mass(heap) == multiset(first) + Mass(rest);
    Regroup(Mass(r), Mass(rest), multiset(lane), multiset(first), multiset{number}, Mass(heap));
  }

  lemma Regroup(after: multiset<int>, rest: multiset<int>, lane: multiset<int>, first: multiset<int>,
                added: multiset<int>, before: multiset<int>)
    requires after == rest + lane && lane == first + added && before == first + rest
    ensures after == before + added
  {
  }

  /** The loop fails exactly when a value is left and there is no lane, and it keeps the
      number of lanes and their balance. */
  lemma {:induction false} GreedyLoopShape(heap: Heap, vector: seq<int>)
    requires Balanced(heap)
    ensures var r := GreedyLoop(heap, vector);
      (r.Throw? <==> heap == [] && vector != []) && (r.Ok? ==> |r.value| == |heap| && Balanced(r.value))
    decreases |vector|
  {
    if vector != [] && heap != [] {
      var x := vector[|vector| - 1];
      GreedyStepBalanced(heap, x);
      GreedyLoopShape(GreedyStep(heap, x), vector[..|vector| - 1]);
    }
  }

  /** The loop adds every value. */
  lemma {:induction false} GreedyLoopMass(heap: Heap, vector: seq<int>)
    ensures var r := GreedyLoop(heap, vector); r.Ok? ==> Mass(r.value) == Mass(heap) + multiset(vector)
    decreases |vector|
  {
    if vector != [] && heap != [] {
      var init, x := vector[..|vector| - 1], vector[|vector| - 1];
      var next := GreedyStep(heap, x);
      GreedyStepMass(heap, x);
      GreedyLoopMass(next, init);
      assert vector == init + [x];
      assert multiset(vector) == multiset(init) + multiset{x};
    }
  }

  lemma {:induction false} EmptyLanesRule(k: nat)
    ensures Balanced(EmptyLanes(k)) && Mass(EmptyLanes(k)) == multiset{}
  {
    if k > 0 {
      EmptyLanesRule(k - 1);
      assert EmptyLanes(k)[1..] == EmptyLanes(k - 1);
    }
  }

  /** greedy fails only when there are values but no lane. */
  lemma GreedyFails(vector: seq<int>, k: int)
    ensures GreedySpec(vector, k).Throw? <==> k <= 0 && vector != []
  {
    EmptyLanesRule(if k < 0 then 0 else k);
    GreedyLoopShape(EmptyLanes(if k < 0 then 0 else k), vector);
  }

  /** greedy returns `k` lanes holding exactly the input values. */
  lemma GreedyPartitions(vector: seq<int>, k: int)
    ensures var r := GreedySpec(vector, k);
      r.Ok? ==> |r.value| == (if k < 0 then 0 else k) && multiset(Flatten(r.value)) == multiset(vector)
  {
    var e := EmptyLanes(if k < 0 then 0 else k);
    EmptyLanesRule(|e|);
    GreedyLoopShape(e, vector);
    GreedyLoopMass(e, vector);
    var r := GreedyLoop(e, vector);
    if r.Ok? {
      MassFlatten(r.value);
    }
  }

  /** greedy's lanes come in increasing order of their sums. */
  lemma GreedySorted(vector: seq<int>, k: int)
    ensures var r := GreedySpec(vector, k);
      r.Ok? ==> forall i, j :: 0 <= i < j < |r.value| ==> Sum(r.value[i]) <= Sum(r.value[j])
  {
    var e := EmptyLanes(if k < 0 then 0 else k);
    EmptyLanesRule(|e|);
    GreedyLoopShape(e, vector);
    var r := GreedyLoop(e, vector);
    if r.Ok? {
      var h := r.value;
      var lanes := PQ.Values(h);
      forall i, j | 0 <= i < j < |lanes|
        ensures Sum(lanes[i]) <= Sum(lanes[j])
      {
        assert h[i].priority >= h[j].priority;
      }
    }
  }

  /** greedy, with its priority queue held in a local sequence. */
  method GreedyMethod(vector: seq<int>, k: int) returns (r: Result<seq<seq<int>>>)
    ensures r == GreedySpec(vector, k)
  {
    var heap := EmptyLanesMethod(k);
    var v := vector;
    while v != []
      invariant GreedyLoop(heap, v) == GreedyLoop(EmptyLanes(if k < 0 then 0 else k), vector)
      decreases |v|
    {
      if heap == [] {
        return Throw(UnderflowException);
      }
      ghost var before := heap;
      var number := v[|v| - 1];
      assert GreedyLoop(before, v) == GreedyLoop(GreedyStep(before, number), v[..|v| - 1]);
      v := v[..|v| - 1];
      var smallestSumVector := heap[0].value;
      heap := heap[1..];
      smallestSumVector := smallestSumVector + [number];
      var sum := Sum(smallestSumVector);
      heap := PQ.Push(heap, smallestSumVector, -sum);
      assert heap == GreedyStep(before, number);
    }
    assert GreedyLoop(heap, v) == Ok(heap);
    r := Ok(PQ.Values(heap));
  }

  /** greedy's first loop: `k` empty lanes pushed with priority 0. */
  method EmptyLanesMethod(k: int) returns (heap: Heap)
    ensures heap == EmptyLanes(if k < 0 then 0 else k)
  {
    heap := [];
    var i := 0;
    while i < k
      invariant 0 <= i && (k >= 0 ==> i <= k) && (k < 0 ==> i == 0) && heap == EmptyLanes(i)
    {
      assert PQ.CountAtLeast(heap, 0) == |heap| by {
        AllAtLeast(heap, 0);
      }
      PQ.PushPlace(heap, [], 0);
      heap := PQ.Push(heap, [], 0);
      i := i + 1;
    }
  }

  lemma {:induction false} AllAtLeast<V>(q: seq<PQ.Entry<V>>, p: int)
    requires forall i :: 0 <= i < |q| ==> q[i].priority >= p
    ensures PQ.CountAtLeast(q, p) == |q|
  {
    if q != [] {
      AllAtLeast(q[1..], p);
    }
  }
}
