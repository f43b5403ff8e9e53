/** The k-way Karmarkar–Karp largest-differencing method of the partitioner. Every value
    gets an id; a priority queue holds tuples of at most k ids, the tuple with the largest
    difference first; each round merges the two front tuples, the i-th id of the first with
    the (k−1−i)-th of the second, until one tuple is left. The ids' values live in a map of
    stacks and their sums in a second map. */
module KarmarkarKarp {
  import opened Basics
  import PQ = PriorityQueues
  import PA = PartitionAlgorithms

  /** PHP_INT_MIN, the first id. */
  const FIRST_ID := -0x8000_0000_0000_0000

  type Heap = PA.Heap

  /** The algorithm's three structures: the heap of id tuples, idToNumbers (each stack
      bottom first) and idToSum. */
  datatype State = State(heap: Heap, numbers: map<int, seq<int>>, sums: map<int, int>)

  /** The per-round sum buckets, kept merged: ids in decreasing order of their sums, equal
      sums in the order they were recorded, which is what krsort followed by array_merge
      produces. */
  datatype Merge = Merge(buckets: seq<PQ.Entry<int>>, numbers: map<int, seq<int>>, sums: map<int, int>)

  function Numbers(m: map<int, seq<int>>, id: int): seq<int> {
    if id in m then m[id] else []
  }

  function SumOf(m: map<int, int>, id: int): int {
    if id in m then m[id] else 0
  }

  /** The loading loop: the values are popped from the end; each gets the next id, a
      one-value stack, its sum and a one-id tuple whose priority is the value. */
  function Load(vector: seq<int>, id: int, st: State): (r: State)
    ensures |r.heap| == |st.heap| + |vector|
    decreases |vector|
  {
    if vector == [] then st
    else
      var x := vector[|vector| - 1];
      Load(vector[..|vector| - 1], id + 1, LoadOne(st, id, x))
  }

  /** The state after loading value `x` under id `id`. */
  function LoadOne(st: State, id: int, x: int): State {
    State(PQ.Push(st.heap, [id], x), st.numbers[id := [x]], st.sums[id := x])
  }

  /** Position `i` of a round's merge of tuples `a` and `b`: an id present on one side only
      moves to the buckets; two ids merge, the second one's stack popped onto the first's
      and its entries removed. */
  function MergeStep(a: seq<int>, b: seq<int>, k: int, i: int, m: Merge): Merge
    requires 0 <= i < k
  {
    var rev := k - 1 - i;
    var hasA, hasB := i < |a|, rev < |b|;
    if !hasA && !hasB then m
    else if !hasA || !hasB then Move(m, if hasA then a[i] else b[rev])
    else Combine(m, a[i], b[rev])
  }

  /** An id without a partner goes to the bucket of its sum. */
  function Move(m: Merge, id: int): Merge {
    m.(buckets := PQ.Push(m.buckets, id, SumOf(m.sums, id)))
  }

  /** `bk`'s stack is popped onto `ai`'s, `ai` takes both sums and goes to the bucket of the
      new sum, and `bk` is removed from both maps. */
  function Combine(m: Merge, ai: int, bk: int): Merge {
    Merge(PQ.Push(m.buckets, ai, SumOf(m.sums, ai) + SumOf(m.sums, bk)),
          MergedNumbers(m.numbers, ai, bk),
          MergedSums(m.sums, ai, bk))
  }

  /** The stacks after `bk`'s stack is popped onto `ai`'s. */
  function MergedNumbers(n: map<int, seq<int>>, ai: int, bk: int): map<int, seq<int>> {
    n[ai := Numbers(n, ai) + Reverse(Numbers(n, bk))] - {bk}
  }

  /** The sums after `ai` takes `bk`'s sum. */
  function MergedSums(s: map<int, int>, ai: int, bk: int): map<int, int> {
    s[ai := SumOf(s, ai) + SumOf(s, bk)] - {bk}
  }

  /** The merge loop over the positions i, ..., k − 1. */
  function MergeLoop(a: seq<int>, b: seq<int>, k: int, i: int, m: Merge): Merge
    requires 0 <= i
    decreases k - i
  {
    if i >= k then m else MergeLoop(a, b, k, i + 1, MergeStep(a, b, k, i, m))
  }

  /** The new tuple's priority: its largest sum minus its k-th sum, or minus 0 when it has
      fewer than k ids. */
  function Difference(ids: seq<int>, sums: map<int, int>, k: int): int {
    (if ids == [] then 0 else SumOf(sums, ids[0])) - (if 0 <= k - 1 < |ids| then SumOf(sums, ids[k - 1]) else 0)
  }

  /** The merge of a round's two front tuples. */
  function RoundMerge(st: State, k: int): Merge
    requires |st.heap| >= 2
  {
    MergeLoop(st.heap[0].value, st.heap[1].value, k, 0, Merge([], st.numbers, st.sums))
  }

  /** One round: the two front tuples are popped and their merge is pushed. */
  function Round(st: State, k: int): (r: State)
    requires |st.heap| >= 2
    ensures |r.heap| == |st.heap| - 1
  {
    var m := RoundMerge(st, k);
    var merged := PQ.Values(m.buckets);
    State(PQ.Push(st.heap[2..], merged, Difference(merged, m.sums, k)), m.numbers, m.sums)
  }

  /** The rounds, while more than one tuple is left; each removes one. */
  function Rounds(st: State, k: int): (r: State)
    ensures |r.heap| == if |st.heap| <= 1 then |st.heap| else 1
    decreases |st.heap|
  {
    if |st.heap| <= 1 then st else Rounds(Round(st, k), k)
  }

  /** karmarkarKarp: the stacks of the last tuple's ids; popping the empty heap throws. */
  function Spec(vector: seq<int>, k: int): Result<seq<seq<int>>> {
    var st := Rounds(Load(vector, FIRST_ID, State([], map[], map[])), k);
    if st.heap == [] then Throw(UnderflowException)
    else
      var last := st.heap[0].value;
      Ok(Stacks(last, st.numbers))
  }

  /** The stacks of the ids `ids`, each bottom first. */
  function Stacks(ids: seq<int>, numbers: map<int, seq<int>>): (r: seq<seq<int>>)
    ensures |r| == |ids| && forall j :: 0 <= j < |ids| ==> r[j] == Numbers(numbers, ids[j])
  {
    if ids == [] then [] else [Numbers(numbers, ids[0])] + Stacks(ids[1..], numbers)
  }

  // ---------------------------------------------------------------------------------
  // The invariant.

  /** The values of the ids `ids`. */
  function MassIds(ids: seq<int>, numbers: map<int, seq<int>>): multiset<int> {
    if ids == [] then multiset{} else multiset(Numbers(numbers, ids[0])) + MassIds(ids[1..], numbers)
  }

  /** The values of every tuple of the heap. */
  function HeapValues(heap: Heap, numbers: map<int, seq<int>>): multiset<int> {
    if heap == [] then multiset{} else MassIds(heap[0].value, numbers) + HeapValues(heap[1..], numbers)
  }

  /** Each live id occurs once and has both entries, and each tuple holds between 1 and k
      ids, as many as k or its number of values allows. */
  ghost predicate Inv(st: State, k: int) {
    var live := PA.Mass(st.heap);
    (forall x :: live[x] <= 1)
    && (forall x :: x in live ==> x in st.numbers && x in st.sums)
    && (forall e :: e in st.heap ==> 1 <= |e.value| == Min(k, |MassIds(e.value, st.numbers)|))
  }

  lemma {:induction false} MassIdsAppend(s: seq<int>, t: seq<int>, numbers: map<int, seq<int>>)
    ensures MassIds(s + t, numbers) == MassIds(s, numbers) + MassIds(t, numbers)
  {
    if s != [] {
      var st := s + t;
      MassIdsAppend(s[1..], t, numbers);
      assert st[0] == s[0] && st[1..] == s[1..] + t;
      assert MassIds(st, numbers) == multiset(Numbers(numbers, s[0])) + MassIds(s[1..] + t, numbers);
    } else {
      assert s + t == t;
    }
  }

  /** The values of ids whose stacks agree are the same. */
  lemma {:induction false} MassIdsFrame(s: seq<int>, n: map<int, seq<int>>, n': map<int, seq<int>>)
    requires forall x :: x in s ==> Numbers(n, x) == Numbers(n', x)
    ensures MassIds(s, n) == MassIds(s, n')
  {
    if s != [] {
      MassIdsFrame(s[1..], n, n');
    }
  }

  lemma {:induction false} HeapValuesFrame(heap: Heap, n: map<int, seq<int>>, n': map<int, seq<int>>)
    requires forall x :: x in PA.Mass(heap) ==> Numbers(n, x) == Numbers(n', x)
    ensures HeapValues(heap, n) == HeapValues(heap, n')
  {
    if heap != [] {
      MassIdsFrame(heap[0].value, n, n');
      HeapValuesFrame(heap[1..], n, n');
    }
  }

  lemma {:induction false} HeapValuesPush(q: Heap, t: seq<int>, p: int, numbers: map<int, seq<int>>)
    ensures HeapValues(PQ.Push(q, t, p), numbers) == HeapValues(q, numbers) + MassIds(t, numbers)
  {
    if q != [] && q[0].priority >= p {
      HeapValuesPush(q[1..], t, p, numbers);
    }
  }

  lemma MassIdsCons(id: int, ids: seq<int>, numbers: map<int, seq<int>>)
    ensures MassIds([id] + ids, numbers) == multiset(Numbers(numbers, id)) + MassIds(ids, numbers)
  {
    assert ([id] + ids)[1..] == ids;
  }

  /** Pushing an id into the buckets adds its values. */
  lemma {:induction false} BucketsPush(q: seq<PQ.Entry<int>>, id: int, p: int, numbers: map<int, seq<int>>)
    ensures MassIds(PQ.Values(PQ.Push(q, id, p)), numbers) == MassIds(PQ.Values(q), numbers) + multiset(Numbers(numbers, id))
  {
    if q == [] {
    } else if q[0].priority >= p {
      BucketsPush(q[1..], id, p, numbers);
      PQ.ValuesCons(q[0], PQ.Push(q[1..], id, p));
      MassIdsCons(q[0].value, PQ.Values(PQ.Push(q[1..], id, p)), numbers);
    } else {
      PQ.ValuesCons(PQ.Entry(id, p), q);
      MassIdsCons(id, PQ.Values(q), numbers);
    }
  }

  lemma {:induction false} ReverseMultiset<T>(s: seq<T>)
    ensures multiset(Reverse(s)) == multiset(s)
  {
    if s != [] {
      ReverseMultiset(s[..|s| - 1]);
      assert s == s[..|s| - 1] + [s[|s| - 1]];
    }
  }

  /** The stacks of a tuple hold its values. */
  lemma {:induction false} MassIdsFlatten(ids: seq<int>, numbers: map<int, seq<int>>)
    ensures multiset(Flatten(Stacks(ids, numbers))) == MassIds(ids, numbers)
  {
    if ids != [] {
      var first := Numbers(numbers, ids[0]);
      var rest := Stacks(ids[1..], numbers);
      MassIdsFlatten(ids[1..], numbers);
      assert Stacks(ids, numbers) == [first] + rest;
      FlattenAppend([first], rest);
      assert Flatten([first]) == Flatten([]) + [first][0];
    }
  }

  // ---------------------------------------------------------------------------------
  // The merge loop.

  /** The ids of `a` and `b` that positions i, ..., k − 1 have yet to take. */
  function Rem(a: seq<int>, b: seq<int>, k: int, i: int): seq<int>
    requires 0 <= i <= k
  {
    a[Min(i, |a|)..] + b[..Min(|b|, k - i)]
  }

  /** The ids of the round: those already in the buckets, then those still to be taken. */
  function Pending(a: seq<int>, b: seq<int>, k: int, i: int, m: Merge): seq<int>
    requires 0 <= i <= k
  {
    PQ.Values(m.buckets) + Rem(a, b, k, i)
  }

  /** The round's ids together with the ids of the other tuples occur once each and have
      both entries. */
  ghost predicate MergeInv(a: seq<int>, b: seq<int>, k: int, i: int, m: Merge, others: multiset<int>)
    requires 0 <= i <= k
  {
    var live := multiset(Pending(a, b, k, i, m)) + others;
    (forall x :: live[x] <= 1) && (forall x :: x in live ==> x in m.numbers && x in m.sums)
  }

  /** How many of the positions i, ..., k − 1 hold an id of `a` or of `b`. */
  function Taken(a: seq<int>, b: seq<int>, k: int, i: int): int {
    Max(0, |a| - i) + (k - Max(i, Max(|a|, k - |b|)))
  }

  /** What position `i` leaves to the later positions. */
  lemma RemStep(a: seq<int>, b: seq<int>, k: int, i: int)
    requires 0 <= i < k && |a| <= k && |b| <= k
    ensures var rev := k - 1 - i; var r, r' := Rem(a, b, k, i), Rem(a, b, k, i + 1);
      (i >= |a| && rev >= |b| ==> r == r')
      && (i < |a| && rev >= |b| ==> r == [a[i]] + r')
      && (i >= |a| && rev < |b| ==> r == r' + [b[rev]])
      && (i < |a| && rev < |b| ==> r == [a[i]] + r' + [b[rev]])
  {
    var rev := k - 1 - i;
    if i < |a| {
      assert a[i..] == [a[i]] + a[i + 1..];
    }
    if rev < |b| {
      assert b[..rev + 1] == b[..rev] + [b[rev]];
    }
  }

  /** A position with no id changes nothing. */
  lemma StepNone(a: seq<int>, b: seq<int>, k: int, i: int, m: Merge)
    requires 0 <= i < k && |a| <= k && |b| <= k && i >= |a| && k - 1 - i >= |b|
    ensures MergeStep(a, b, k, i, m) == m && Pending(a, b, k, i + 1, m) == Pending(a, b, k, i, m)
  {
    RemStep(a, b, k, i);
  }

  /** An id moved from the ids still to be taken to the buckets. */
  lemma PendingMoves(v: seq<int>, v': seq<int>, r: seq<int>, r': seq<int>, id: int, numbers: map<int, seq<int>>)
    requires multiset(v') == multiset(v) + multiset{id} && multiset(r) == multiset{id} + multiset(r')
    requires MassIds(v', numbers) == MassIds(v, numbers) + multiset(Numbers(numbers, id))
    requires MassIds(r, numbers) == multiset(Numbers(numbers, id)) + MassIds(r', numbers)
    ensures multiset(v' + r') == multiset(v + r)
    ensures MassIds(v' + r', numbers) == MassIds(v + r, numbers)
  {
    MassIdsAppend(v, r, numbers);
    MassIdsAppend(v', r', numbers);
    Regroup(MassIds(v', numbers), MassIds(v, numbers), multiset(Numbers(numbers, id)), MassIds(r', numbers));
  }

  lemma TakeFirst(r: seq<int>, r': seq<int>, id: int, numbers: map<int, seq<int>>)
    requires r == [id] + r'
    ensures multiset(r) == multiset{id} + multiset(r')
    ensures MassIds(r, numbers) == multiset(Numbers(numbers, id)) + MassIds(r', numbers)
  {
    MassIdsCons(id, r', numbers);
  }

  lemma TakeLast(r: seq<int>, r': seq<int>, id: int, numbers: map<int, seq<int>>)
    requires r == r' + [id]
    ensures multiset(r) == multiset{id} + multiset(r')
    ensures MassIds(r, numbers) == multiset(Numbers(numbers, id)) + MassIds(r', numbers)
  {
    MassIdsAppend(r', [id], numbers);
    MassIdsCons(id, [], numbers);
  }

  lemma Regroup(v': multiset<int>, v: multiset<int>, n: multiset<int>, r': multiset<int>)
    ensures (v + n) + r' == v + (n + r')
  {
  }

  /** A position with one id moves it to the buckets. */
  lemma StepOne(a: seq<int>, b: seq<int>, k: int, i: int, m: Merge)
    requires 0 <= i < k && |a| <= k && |b| <= k && ((i < |a|) != (k - 1 - i < |b|))
    ensures var m' := MergeStep(a, b, k, i, m);
      m'.numbers == m.numbers && m'.sums == m.sums
      && multiset(Pending(a, b, k, i + 1, m')) == multiset(Pending(a, b, k, i, m))
      && MassIds(Pending(a, b, k, i + 1, m'), m.numbers) == MassIds(Pending(a, b, k, i, m), m.numbers)
      && |PQ.Values(m'.buckets)| == |PQ.Values(m.buckets)| + 1
  {
    var rev := k - 1 - i;
    var id := if i < |a| then a[i] else b[rev];
    var buckets := PQ.Push(m.buckets, id, SumOf(m.sums, id));
    var m' := m.(buckets := buckets);
    assert MergeStep(a, b, k, i, m) == m';
    RemStep(a, b, k, i);
    PQ.PushValues(m.buckets, id, SumOf(m.sums, id));
    BucketsPush(m.buckets, id, SumOf(m.sums, id), m.numbers);
    if i < |a| {
      TakeFirst(Rem(a, b, k, i), Rem(a, b, k, i + 1), id, m.numbers);
    } else {
      TakeLast(Rem(a, b, k, i), Rem(a, b, k, i + 1), id, m.numbers);
    }
    PendingMoves(PQ.Values(m.buckets), PQ.Values(buckets), Rem(a, b, k, i), Rem(a, b, k, i + 1), id, m.numbers);
  }

  /** The ids a merging position touches occur nowhere else. */
  lemma BothApart(mv: multiset<int>, ai: int, mr: multiset<int>, bk: int, others: multiset<int>)
    requires forall x :: (mv + (multiset{ai} + mr + multiset{bk}) + others)[x] <= 1
    ensures ai != bk && ai !in mv && ai !in mr && ai !in others && bk !in mv && bk !in mr && bk !in others
  {
    var live := mv + (multiset{ai} + mr + multiset{bk}) + others;
    assert live[ai] <= 1 && live[bk] <= 1;
  }

  /** Merging `bk` into `ai` leaves every other id's stack as it was. */
  lemma MergedElsewhere(n: map<int, seq<int>>, ai: int, bk: int, x: int)
    requires x != ai && x != bk
    ensures Numbers(MergedNumbers(n, ai, bk), x) == Numbers(n, x)
  {
  }

  /** The merged stack holds both stacks' values. */
  lemma MergedStack(n: map<int, seq<int>>, ai: int, bk: int)
    requires ai != bk
    ensures multiset(Numbers(MergedNumbers(n, ai, bk), ai))
         == multiset(Numbers(n, ai)) + multiset(Numbers(n, bk))
  {
    ReverseMultiset(Numbers(n, bk));
  }

  /** Combining removes `bk` from the round's ids and adds `ai` to the buckets. */
  lemma CombineIds(v: seq<int>, v': seq<int>, ai: int, bk: int, r': seq<int>, others: multiset<int>)
    requires multiset(v') == multiset(v) + multiset{ai}
    ensures multiset(v' + r') + others
        == multiset(v) + (multiset{ai} + multiset(r') + multiset{bk}) + others - multiset{bk}
  {
  }

  /** Merging `bk` into `ai` keeps every other key and every other stack. */
  lemma MergedKeys<V>(n: map<int, V>, n': map<int, V>, ai: int, bk: int, x: V)
    requires n' == n[ai := x] - {bk} && ai != bk
    ensures n'.Keys == n.Keys + {ai} - {bk}
    ensures forall y :: y in n && y != ai && y != bk ==> n'[y] == n[y]
  {
  }

  /** Removing an id that occurs once keeps the ids apart and, when the id also leaves the
      maps, present. */
  lemma LiveRemove(live: multiset<int>, bk: int, keys: set<int>, keys': set<int>, sumKeys: set<int>, sumKeys': set<int>, ai: int)
    requires (forall x :: live[x] <= 1) && (forall x :: x in live ==> x in keys && x in sumKeys)
    requires keys' == keys + {ai} - {bk} && sumKeys' == sumKeys + {ai} - {bk}
    ensures var live' := live - multiset{bk};
      (forall x :: live'[x] <= 1) && (forall x :: x in live' ==> x in keys' && x in sumKeys')
  {
  }

  /** Combining keeps the values of the round's ids. */
  lemma CombineMass(q: seq<PQ.Entry<int>>, q': seq<PQ.Entry<int>>, p: int, n: map<int, seq<int>>, n': map<int, seq<int>>,
                    ai: int, bk: int, r': seq<int>)
    requires q' == PQ.Push(q, ai, p) && n' == MergedNumbers(n, ai, bk)
    requires ai != bk && ai !in PQ.Values(q) && bk !in PQ.Values(q) && ai !in r' && bk !in r'
    ensures MassIds(PQ.Values(q') + r', n') == MassIds(PQ.Values(q) + ([ai] + r' + [bk]), n)
  {
    CombineLeft(q, q', p, n, n', ai, bk, r');
    CombineRight(PQ.Values(q), ai, bk, r', n);
    Regroup4(MassIds(PQ.Values(q), n), multiset(Numbers(n, ai)), multiset(Numbers(n, bk)), MassIds(r', n));
  }

  /** The values after combining: the old buckets', both stacks' and the remaining ids'. */
  lemma CombineLeft(q: seq<PQ.Entry<int>>, q': seq<PQ.Entry<int>>, p: int, n: map<int, seq<int>>, n': map<int, seq<int>>,
                    ai: int, bk: int, r': seq<int>)
    requires q' == PQ.Push(q, ai, p) && n' == MergedNumbers(n, ai, bk)
    requires ai != bk && ai !in PQ.Values(q) && bk !in PQ.Values(q) && ai !in r' && bk !in r'
    ensures MassIds(PQ.Values(q') + r', n')
         == (MassIds(PQ.Values(q), n) + (multiset(Numbers(n, ai)) + multiset(Numbers(n, bk)))) + MassIds(r', n)
  {
    var v, v' := PQ.Values(q), PQ.Values(q');
    forall x | x in v || x in r'
      ensures Numbers(n, x) == Numbers(n', x)
    {
      MergedElsewhere(n, ai, bk, x);
    }
    MassIdsFrame(v, n, n');
    MassIdsFrame(r', n, n');
    MergedStack(n, ai, bk);
    BucketsPush(q, ai, p, n');
    MassIdsAppend(v', r', n');
  }

  /** The values before combining, the stacks of `ai` and `bk` set apart. */
  lemma CombineRight(v: seq<int>, ai: int, bk: int, r': seq<int>, n: map<int, seq<int>>)
    ensures MassIds(v + ([ai] + r' + [bk]), n)
         == MassIds(v, n) + ((multiset(Numbers(n, ai)) + MassIds(r', n)) + (multiset(Numbers(n, bk)) + multiset{}))
  {
    MassIdsAppend(v, [ai] + r' + [bk], n);
    MassIdsAppend([ai] + r', [bk], n);
    MassIdsCons(ai, r', n);
    MassIdsCons(bk, [], n);
  }

  lemma Regroup4(v: multiset<int>, x: multiset<int>, y: multiset<int>, r: multiset<int>)
    ensures (v + (x + y)) + r == v + ((x + r) + (y + multiset{}))
  {
  }

  /** Combining `ai` and `bk` puts `ai` in the buckets and removes `bk` from the ids. */
  lemma CombineBuckets(m: Merge, ai: int, bk: int, r': seq<int>, others: multiset<int>)
    ensures var v, m' := PQ.Values(m.buckets), Combine(m, ai, bk);
      multiset(PQ.Values(m'.buckets) + r') + others == multiset(v) + (multiset{ai} + multiset(r') + multiset{bk}) + others - multiset{bk}
      && |PQ.Values(m'.buckets)| == |v| + 1
  {
    var m' := Combine(m, ai, bk);
    PushedValues(m.buckets, m'.buckets, ai, SumOf(m.sums, ai) + SumOf(m.sums, bk));
    CombineIds(PQ.Values(m.buckets), PQ.Values(m'.buckets), ai, bk, r', others);
  }

  /** Combining `ai` and `bk` keeps the other keys and stacks and removes `bk`. */
  lemma CombineKeys(m: Merge, ai: int, bk: int)
    requires ai != bk
    ensures var m' := Combine(m, ai, bk);
      m'.numbers.Keys == m.numbers.Keys + {ai} - {bk} && m'.sums.Keys == m.sums.Keys + {ai} - {bk}
      && (forall x :: x != ai && x != bk ==> Numbers(m'.numbers, x) == Numbers(m.numbers, x))
  {
    var m' := Combine(m, ai, bk);
    MergedKeys(m.numbers, m'.numbers, ai, bk, Numbers(m.numbers, ai) + Reverse(Numbers(m.numbers, bk)));
    MergedKeys(m.sums, m'.sums, ai, bk, SumOf(m.sums, ai) + SumOf(m.sums, bk));
  }

  /** Combining `ai` and `bk` keeps the values of the round's ids. */
  lemma CombineValues(m: Merge, ai: int, bk: int, r': seq<int>)
    requires var v := PQ.Values(m.buckets); ai != bk && ai !in v && ai !in r' && bk !in v && bk !in r'
    ensures var m' := Combine(m, ai, bk);
      MassIds(PQ.Values(m'.buckets) + r', m'.numbers) == MassIds(PQ.Values(m.buckets) + ([ai] + r' + [bk]), m.numbers)
  {
    var p := SumOf(m.sums, ai) + SumOf(m.sums, bk);
    var q', n' := PQ.Push(m.buckets, ai, p), MergedNumbers(m.numbers, ai, bk);
    assert Combine(m, ai, bk) == Merge(q', n', MergedSums(m.sums, ai, bk));
    CombineMass(m.buckets, q', p, m.numbers, n', ai, bk, r');
  }

  lemma PushedValues(q: seq<PQ.Entry<int>>, q': seq<PQ.Entry<int>>, id: int, p: int)
    requires q' == PQ.Push(q, id, p)
    ensures multiset(PQ.Values(q')) == multiset(PQ.Values(q)) + multiset{id}
  {
    PQ.PushValues(q, id, p);
  }

  /** A merging position, apart from the invariant. */
  lemma CombineStep(a: seq<int>, b: seq<int>, k: int, i: int, m: Merge, others: multiset<int>)
    requires 0 <= i < k && |a| <= k && |b| <= k && i < |a| && k - 1 - i < |b|
    requires var ai, bk, v, r' := a[i], b[k - 1 - i], PQ.Values(m.buckets), Rem(a, b, k, i + 1);
      ai != bk && ai !in v && ai !in r' && ai !in others && bk !in v && bk !in r' && bk !in others
    ensures var ai, bk, m' := a[i], b[k - 1 - i], MergeStep(a, b, k, i, m);
      multiset(Pending(a, b, k, i + 1, m')) + others == multiset(Pending(a, b, k, i, m)) + others - multiset{bk}
      && m'.numbers.Keys == m.numbers.Keys + {ai} - {bk} && m'.sums.Keys == m.sums.Keys + {ai} - {bk}
      && MassIds(Pending(a, b, k, i + 1, m'), m'.numbers) == MassIds(Pending(a, b, k, i, m), m.numbers)
      && (forall x :: x in others ==> Numbers(m'.numbers, x) == Numbers(m.numbers, x))
      && |PQ.Values(m'.buckets)| == |PQ.Values(m.buckets)| + 1
  {
    var ai, bk, r' := a[i], b[k - 1 - i], Rem(a, b, k, i + 1);
    assert MergeStep(a, b, k, i, m) == Combine(m, ai, bk);
    RemStep(a, b, k, i);
    CombineBuckets(m, ai, bk, r', others);
    CombineKeys(m, ai, bk);
    CombineValues(m, ai, bk, r');
  }

  /** A merging position: the invariant, the values of the round's ids and the other
      tuples' stacks are kept, and the buckets grow by one id. */
  lemma StepBoth(a: seq<int>, b: seq<int>, k: int, i: int, m: Merge, others: multiset<int>)
    requires 0 <= i < k && |a| <= k && |b| <= k && i < |a| && k - 1 - i < |b|
    requires MergeInv(a, b, k, i, m, others)
    ensures var m' := MergeStep(a, b, k, i, m);
      MergeInv(a, b, k, i + 1, m', others)
      && MassIds(Pending(a, b, k, i + 1, m'), m'.numbers) == MassIds(Pending(a, b, k, i, m), m.numbers)
      && (forall x :: x in others ==> Numbers(m'.numbers, x) == Numbers(m.numbers, x))
      && |PQ.Values(m'.buckets)| == |PQ.Values(m.buckets)| + 1
  {
    var ai, bk := a[i], b[k - 1 - i];
    var v, r' := PQ.Values(m.buckets), Rem(a, b, k, i + 1);
    RemStep(a, b, k, i);
    var live := multiset(Pending(a, b, k, i, m)) + others;
    assert live == multiset(v) + (multiset{ai} + multiset(r') + multiset{bk}) + others;
    BothApart(multiset(v), ai, multiset(r'), bk, others);
    CombineStep(a, b, k, i, m, others);
    var m' := MergeStep(a, b, k, i, m);
    LiveRemove(live, bk, m.numbers.Keys, m'.numbers.Keys, m.sums.Keys, m'.sums.Keys, ai);
  }

  /** The ids `ids` have the same stacks under `n` and `n'`. */
  ghost predicate Agree(ids: multiset<int>, n: map<int, seq<int>>, n': map<int, seq<int>>) {
    forall x :: x in ids ==> Numbers(n, x) == Numbers(n', x)
  }

  lemma AgreeTrans(ids: multiset<int>, n: map<int, seq<int>>, n': map<int, seq<int>>, n'': map<int, seq<int>>)
    requires Agree(ids, n', n) && Agree(ids, n'', n')
    ensures Agree(ids, n'', n)
  {
  }

  /** One position of the merge keeps the invariant, the values of the round's ids and the
      other tuples' stacks. */
  lemma StepRule(a: seq<int>, b: seq<int>, k: int, i: int, m: Merge, others: multiset<int>)
    requires 0 <= i < k && |a| <= k && |b| <= k && MergeInv(a, b, k, i, m, others)
    ensures var m' := MergeStep(a, b, k, i, m);
      MergeInv(a, b, k, i + 1, m', others)
      && MassIds(Pending(a, b, k, i + 1, m'), m'.numbers) == MassIds(Pending(a, b, k, i, m), m.numbers)
      && Agree(others, m'.numbers, m.numbers)
  {
    if i < |a| && k - 1 - i < |b| {
      StepBoth(a, b, k, i, m, others);
    } else if i < |a| || k - 1 - i < |b| {
      StepOne(a, b, k, i, m);
    } else {
      StepNone(a, b, k, i, m);
    }
  }

  /** The merge loop keeps the invariant, the values of the round's ids and the other
      tuples' stacks. */
  lemma {:induction false} MergeLoopRule(a: seq<int>, b: seq<int>, k: int, i: int, m: Merge, others: multiset<int>)
    requires 0 <= i <= k && |a| <= k && |b| <= k && MergeInv(a, b, k, i, m, others)
    ensures var m' := MergeLoop(a, b, k, i, m);
      MergeInv(a, b, k, k, m', others)
      && MassIds(Pending(a, b, k, k, m'), m'.numbers) == MassIds(Pending(a, b, k, i, m), m.numbers)
      && Agree(others, m'.numbers, m.numbers)
    decreases k - i
  {
    if i < k {
      var m1 := MergeStep(a, b, k, i, m);
      StepRule(a, b, k, i, m, others);
      MergeLoopRule(a, b, k, i + 1, m1, others);
      var m2 := MergeLoop(a, b, k, i + 1, m1);
      assert MergeLoop(a, b, k, i, m) == m2;
      AgreeTrans(others, m.numbers, m1.numbers, m2.numbers);
    }
  }

  /** A position puts an id in the buckets exactly when it holds one. */
  lemma StepLength(a: seq<int>, b: seq<int>, k: int, i: int, m: Merge)
    requires 0 <= i < k
    ensures |MergeStep(a, b, k, i, m).buckets| == |m.buckets| + (if i < |a| || k - 1 - i < |b| then 1 else 0)
  {
  }

  /** Taken counts the positions holding an id. */
  lemma TakenStep(a: seq<int>, b: seq<int>, k: int, i: int)
    requires 0 <= i < k && |a| <= k && |b| <= k
    ensures Taken(a, b, k, i) == Taken(a, b, k, i + 1) + (if i < |a| || k - 1 - i < |b| then 1 else 0)
  {
  }

  /** The merge loop puts one id in the buckets for each position holding one. */
  lemma {:induction false} MergeLoopLength(a: seq<int>, b: seq<int>, k: int, i: int, m: Merge)
    requires 0 <= i <= k && |a| <= k && |b| <= k
    ensures |MergeLoop(a, b, k, i, m).buckets| == |m.buckets| + Taken(a, b, k, i)
    decreases k - i
  {
    if i < k {
      var m1 := MergeStep(a, b, k, i, m);
      StepLength(a, b, k, i, m);
      TakenStep(a, b, k, i);
      MergeLoopLength(a, b, k, i + 1, m1);
    }
  }

  /** All k positions: the merged tuple has as many ids as k or both tuples allow. */
  lemma TakenAll(a: seq<int>, b: seq<int>, k: int)
    requires |a| <= k && |b| <= k
    ensures Taken(a, b, k, 0) == Min(k, |a| + |b|)
  {
  }

  // ---------------------------------------------------------------------------------
  // A round.

  lemma MassTwo(heap: Heap, n: map<int, seq<int>>)
    requires |heap| >= 2
    ensures PA.Mass(heap) == multiset(heap[0].value) + multiset(heap[1].value) + PA.Mass(heap[2..])
    ensures HeapValues(heap, n) == MassIds(heap[0].value, n) + MassIds(heap[1].value, n) + HeapValues(heap[2..], n)
  {
    assert heap[1..][1..] == heap[2..];
  }

  lemma PendingStart(a: seq<int>, b: seq<int>, k: int, m: Merge)
    requires |b| <= k && m.buckets == []
    ensures Pending(a, b, k, 0, m) == a + b
  {
    assert a[Min(0, |a|)..] == a && b[..Min(|b|, k)] == b;
  }

  lemma PendingEnd(a: seq<int>, b: seq<int>, k: int, m: Merge)
    requires 0 <= k && |a| <= k
    ensures Pending(a, b, k, k, m) == PQ.Values(m.buckets)
  {
  }

  /** Clipping at k twice is clipping once. */
  lemma MinSum(k: int, x: int, y: int)
    requires 0 <= k && 0 <= x && 0 <= y
    ensures Min(k, Min(k, x) + Min(k, y)) == Min(k, x + y)
  {
  }

  /** The merge of a round: its ids and the other tuples' ids occur once each and have both
      entries, it holds the values of both tuples and it leaves the other tuples' stacks
      alone. */
  lemma RoundMergeRule(st: State, k: int)
    requires |st.heap| >= 2 && Inv(st, k)
    ensures var a, b, m := st.heap[0].value, st.heap[1].value, RoundMerge(st, k);
      var merged, others := PQ.Values(m.buckets), PA.Mass(st.heap[2..]);
      var live := multiset(merged) + others;
      (forall x :: live[x] <= 1) && (forall x :: x in live ==> x in m.numbers && x in m.sums)
      && MassIds(merged, m.numbers) == MassIds(a, st.numbers) + MassIds(b, st.numbers)
      && Agree(others, m.numbers, st.numbers)
  {
    var a, b := st.heap[0].value, st.heap[1].value;
    var m0 := Merge([], st.numbers, st.sums);
    var others := PA.Mass(st.heap[2..]);
    assert st.heap[0] in st.heap && st.heap[1] in st.heap;
    MassTwo(st.heap, st.numbers);
    PendingStart(a, b, k, m0);
    assert MergeInv(a, b, k, 0, m0, others);
    MergeLoopRule(a, b, k, 0, m0, others);
    PendingEnd(a, b, k, RoundMerge(st, k));
    MassIdsAppend(a, b, st.numbers);
  }

  /** The merge of a round has as many ids as k or the two tuples allow. */
  lemma RoundMergeLength(st: State, k: int)
    requires |st.heap| >= 2 && Inv(st, k)
    ensures var a, b := st.heap[0].value, st.heap[1].value;
      |PQ.Values(RoundMerge(st, k).buckets)| == Min(k, |a| + |b|)
  {
    var a, b := st.heap[0].value, st.heap[1].value;
    assert st.heap[0] in st.heap && st.heap[1] in st.heap;
    MergeLoopLength(a, b, k, 0, Merge([], st.numbers, st.sums));
    TakenAll(a, b, k);
  }

  /** Tuples whose ids keep their stacks keep the tuple property. */
  lemma {:induction false} TuplesFrame(heap: Heap, n: map<int, seq<int>>, n': map<int, seq<int>>, k: int)
    requires Agree(PA.Mass(heap), n', n)
    requires forall e :: e in heap ==> 1 <= |e.value| == Min(k, |MassIds(e.value, n)|)
    ensures forall e :: e in heap ==> 1 <= |e.value| == Min(k, |MassIds(e.value, n')|)
  {
    if heap != [] {
      var e := heap[0];
      assert Agree(PA.Mass(heap[1..]), n', n);
      TuplesFrame(heap[1..], n, n', k);
      MassIdsFrame(e.value, n, n');
      assert forall f :: f in heap ==> f == e || f in heap[1..];
    }
  }

  /** An entry of a push is the pushed one or an old one. */
  lemma PushMember<V>(q: seq<PQ.Entry<V>>, value: V, p: int, f: PQ.Entry<V>)
    requires f in PQ.Push(q, value, p)
    ensures f == PQ.Entry(value, p) || f in q
  {
    PQ.PushMultiset(q, value, p);
    assert f in multiset(PQ.Push(q, value, p));
  }

  /** After a round the live ids occur once each and have both entries. */
  lemma RoundIds(st: State, k: int)
    requires |st.heap| >= 2 && Inv(st, k)
    ensures var r := Round(st, k); var live := PA.Mass(r.heap);
      (forall x :: live[x] <= 1) && (forall x :: x in live ==> x in r.numbers && x in r.sums)
  {
    var m := RoundMerge(st, k);
    var merged := PQ.Values(m.buckets);
    var d := Difference(merged, m.sums, k);
    assert Round(st, k) == State(PQ.Push(st.heap[2..], merged, d), m.numbers, m.sums);
    RoundMergeRule(st, k);
    PushIds(st.heap[2..], merged, d, m.numbers, m.sums);
  }

  /** Pushing the merged ids onto the other tuples keeps each live id once, with both entries. */
  lemma PushIds(rest: Heap, merged: seq<int>, d: int, n: map<int, seq<int>>, sums: map<int, int>)
    requires var live := multiset(merged) + PA.Mass(rest);
      (forall x :: live[x] <= 1) && (forall x :: x in live ==> x in n && x in sums)
    ensures var live := PA.Mass(PQ.Push(rest, merged, d));
      (forall x :: live[x] <= 1) && (forall x :: x in live ==> x in n && x in sums)
  {
    PA.PushMass(rest, merged, d);
    var live := PA.Mass(PQ.Push(rest, merged, d));
    assert live == multiset(merged) + PA.Mass(rest);
    forall x | x in live
      ensures x in n && x in sums
    {
      assert x in multiset(merged) + PA.Mass(rest);
    }
  }

  /** After a round each tuple still holds as many ids as k or its values allow. */
  lemma RoundTuples(st: State, k: int)
    requires |st.heap| >= 2 && Inv(st, k)
    ensures var r := Round(st, k);
      forall e :: e in r.heap ==> 1 <= |e.value| == Min(k, |MassIds(e.value, r.numbers)|)
  {
    var m := RoundMerge(st, k);
    var merged := PQ.Values(m.buckets);
    var d := Difference(merged, m.sums, k);
    assert Round(st, k) == State(PQ.Push(st.heap[2..], merged, d), m.numbers, m.sums);
    RoundMergeRule(st, k);
    RoundMergeLength(st, k);
    PushTuples(st.heap, st.numbers, m.numbers, merged, d, k);
  }

  /** The tuple property survives replacing the two first tuples by their merge, when the
      merge holds both tuples' values and the other tuples keep their stacks. */
  lemma PushTuples(heap: Heap, n: map<int, seq<int>>, n': map<int, seq<int>>, merged: seq<int>, d: int, k: int)
    requires |heap| >= 2
    requires forall e :: e in heap ==> 1 <= |e.value| == Min(k, |MassIds(e.value, n)|)
    requires Agree(PA.Mass(heap[2..]), n', n)
    requires MassIds(merged, n') == MassIds(heap[0].value, n) + MassIds(heap[1].value, n)
    requires |merged| == Min(k, |heap[0].value| + |heap[1].value|)
    ensures forall e :: e in PQ.Push(heap[2..], merged, d) ==> 1 <= |e.value| == Min(k, |MassIds(e.value, n')|)
  {
    var a, b, rest := heap[0].value, heap[1].value, heap[2..];
    assert heap[0] in heap && heap[1] in heap;
    assert forall e :: e in rest ==> e in heap;
    TuplesFrame(rest, n, n', k);
    MinSum(k, |MassIds(a, n)|, |MassIds(b, n)|);
    assert 1 <= |merged| == Min(k, |MassIds(merged, n')|);
    forall e | e in PQ.Push(rest, merged, d)
      ensures 1 <= |e.value| == Min(k, |MassIds(e.value, n')|)
    {
      PushMember(rest, merged, d, e);
    }
  }

  /** A round keeps the values on the heap. */
  lemma RoundValues(st: State, k: int)
    requires |st.heap| >= 2 && Inv(st, k)
    ensures var r := Round(st, k); HeapValues(r.heap, r.numbers) == HeapValues(st.heap, st.numbers)
  {
    var m := RoundMerge(st, k);
    var rest, merged := st.heap[2..], PQ.Values(m.buckets);
    var d := Difference(merged, m.sums, k);
    assert Round(st, k) == State(PQ.Push(rest, merged, d), m.numbers, m.sums);
    RoundMergeRule(st, k);
    MassTwo(st.heap, st.numbers);
    HeapValuesPush(rest, merged, d, m.numbers);
    HeapValuesFrame(rest, st.numbers, m.numbers);
  }

  /** A round keeps the invariant and the values on the heap. */
  lemma RoundRule(st: State, k: int)
    requires |st.heap| >= 2 && Inv(st, k)
    ensures var r := Round(st, k); Inv(r, k) && HeapValues(r.heap, r.numbers) == HeapValues(st.heap, st.numbers)
  {
    RoundIds(st, k);
    RoundTuples(st, k);
    RoundValues(st, k);
  }

  /** The rounds keep the invariant and the values on the heap. */
  lemma {:induction false} RoundsRule(st: State, k: int)
    requires Inv(st, k)
    ensures var r := Rounds(st, k); Inv(r, k) && HeapValues(r.heap, r.numbers) == HeapValues(st.heap, st.numbers)
    decreases |st.heap|
  {
    if |st.heap| > 1 {
      RoundRule(st, k);
      RoundsRule(Round(st, k), k);
    }
  }

  // ---------------------------------------------------------------------------------
  // Loading.

  /** Every id in use is below `id`. */
  predicate Fresh(st: State, id: int) {
    (forall x :: x in st.numbers ==> x < id) && (forall x :: x in st.sums ==> x < id)
  }

  /** Loading a value under a fresh id: the ids stay apart and present. */
  lemma LoadIds(st: State, k: int, id: int, x: int)
    requires Inv(st, k) && Fresh(st, id)
    ensures var r, live := LoadOne(st, id, x), PA.Mass(LoadOne(st, id, x).heap);
      (forall y :: live[y] <= 1) && (forall y :: y in live ==> y in r.numbers && y in r.sums) && Fresh(r, id + 1)
  {
    PA.PushMass(st.heap, [id], x);
    assert id !in PA.Mass(st.heap);
  }

  /** Loading a value under a fresh id leaves the other stacks alone. */
  lemma LoadAgree(st: State, k: int, id: int, x: int)
    requires Inv(st, k) && Fresh(st, id)
    ensures Agree(PA.Mass(st.heap), st.numbers[id := [x]], st.numbers)
  {
  }

  /** Loading a value adds a one-id tuple and keeps the others. */
  lemma LoadTuples(st: State, k: int, id: int, x: int)
    requires 1 <= k && Inv(st, k) && Fresh(st, id)
    ensures var r := LoadOne(st, id, x);
      forall e :: e in r.heap ==> 1 <= |e.value| == Min(k, |MassIds(e.value, r.numbers)|)
  {
    var n' := st.numbers[id := [x]];
    LoadAgree(st, k, id, x);
    TuplesFrame(st.heap, st.numbers, n', k);
    MassIdsCons(id, [], n');
    forall e | e in PQ.Push(st.heap, [id], x)
      ensures 1 <= |e.value| == Min(k, |MassIds(e.value, n')|)
    {
      PushMember(st.heap, [id], x, e);
    }
  }

  /** Loading a value adds it to the heap's values. */
  lemma LoadValues(st: State, k: int, id: int, x: int)
    requires Inv(st, k) && Fresh(st, id)
    ensures var r := LoadOne(st, id, x); HeapValues(r.heap, r.numbers) == HeapValues(st.heap, st.numbers) + multiset{x}
  {
    var n' := st.numbers[id := [x]];
    LoadAgree(st, k, id, x);
    HeapValuesPush(st.heap, [id], x, n');
    HeapValuesFrame(st.heap, st.numbers, n');
    MassIdsCons(id, [], n');
  }

  /** Loading a value under a fresh id keeps the invariant and adds the value. */
  lemma LoadStep(st: State, k: int, id: int, x: int)
    requires 1 <= k && Inv(st, k) && Fresh(st, id)
    ensures var r := LoadOne(st, id, x);
      Inv(r, k) && Fresh(r, id + 1) && HeapValues(r.heap, r.numbers) == HeapValues(st.heap, st.numbers) + multiset{x}
  {
    LoadIds(st, k, id, x);
    LoadTuples(st, k, id, x);
    LoadValues(st, k, id, x);
  }

  /** The loading loop keeps the invariant and adds every value. */
  lemma {:induction false} LoadRule(vector: seq<int>, id: int, st: State, k: int)
    requires 1 <= k && Inv(st, k) && Fresh(st, id)
    ensures var r := Load(vector, id, st);
      Inv(r, k) && HeapValues(r.heap, r.numbers) == HeapValues(st.heap, st.numbers) + multiset(vector)
    decreases |vector|
  {
    if vector != [] {
      var init, x := vector[..|vector| - 1], vector[|vector| - 1];
      var st' := LoadOne(st, id, x);
      LoadStep(st, k, id, x);
      LoadRule(init, id + 1, st', k);
      SnocMultiset(vector);
      var r := Load(init, id + 1, st');
      Chain(HeapValues(r.heap, r.numbers), HeapValues(st'.heap, st'.numbers), HeapValues(st.heap, st.numbers),
            multiset(init), multiset{x}, multiset(vector));
    }
  }

  lemma SnocMultiset(s: seq<int>)
    requires s != []
    ensures multiset(s) == multiset(s[..|s| - 1]) + multiset{s[|s| - 1]}
  {
    assert s == s[..|s| - 1] + [s[|s| - 1]];
  }

  lemma Chain(a: multiset<int>, b: multiset<int>, c: multiset<int>, i: multiset<int>, x: multiset<int>, v: multiset<int>)
    requires a == b + i && b == c + x && v == i + x
    ensures a == c + v
  {
  }

  // ---------------------------------------------------------------------------------
  // The result.

  /** After loading, the invariant holds and the heap holds the input values. */
  lemma LoadedRule(vector: seq<int>, k: int)
    requires 1 <= k
    ensures var st := Load(vector, FIRST_ID, State([], map[], map[]));
      Inv(st, k) && HeapValues(st.heap, st.numbers) == multiset(vector) && |st.heap| == |vector|
  {
    var st0 := State([], map[], map[]);
    assert Inv(st0, k) && Fresh(st0, FIRST_ID);
    LoadRule(vector, FIRST_ID, st0, k);
  }

  /** A last tuple's stacks: as many as k or its values allow, holding exactly its values. */
  lemma LastRule(st: State, k: int)
    requires Inv(st, k) && |st.heap| == 1
    ensures var lanes, values := Stacks(st.heap[0].value, st.numbers), HeapValues(st.heap, st.numbers);
      |lanes| == Min(k, |values|) && multiset(Flatten(lanes)) == values
  {
    var last := st.heap[0].value;
    assert st.heap[0] in st.heap;
    assert st.heap[1..] == [];
    assert HeapValues(st.heap, st.numbers) == MassIds(last, st.numbers);
    MassIdsFlatten(last, st.numbers);
  }

  /** Karmarkar–Karp fails exactly on an empty input; otherwise it returns as many stacks as
      k or the number of values allows, and they hold exactly the input values. */
  lemma Partitions(vector: seq<int>, k: int)
    requires 1 <= k
    ensures Spec(vector, k).Throw? <==> vector == []
    ensures var r := Spec(vector, k);
      r.Ok? ==> |r.value| == Min(k, |vector|) && multiset(Flatten(r.value)) == multiset(vector)
  {
    var loaded := Load(vector, FIRST_ID, State([], map[], map[]));
    LoadedRule(vector, k);
    RoundsRule(loaded, k);
    var st := Rounds(loaded, k);
    if vector != [] {
      LastRule(st, k);
    }
  }

  // ---------------------------------------------------------------------------------
  // The algorithm as the partitioner runs it.

  /** Pops every value of `bNumbers` onto `aNumbers`. */
  method PopOnto(aNumbers: seq<int>, bNumbers: seq<int>) returns (r: seq<int>)
    ensures r == aNumbers + Reverse(bNumbers)
  {
    r := aNumbers;
    var rest := bNumbers;
    while rest != []
      invariant r + Reverse(rest) == aNumbers + Reverse(bNumbers)
      decreases |rest|
    {
      var top, below := rest[|rest| - 1], rest[..|rest| - 1];
      assert Reverse(rest) == [top] + Reverse(below);
      assert r + Reverse(rest) == (r + [top]) + Reverse(below);
      r := r + [top];
      rest := below;
    }
  }

  /** Combine, step by step as the merge loop does it. */
  lemma CombineInPlace(m: Merge, ai: int, bk: int, aNumbers: seq<int>)
    requires aNumbers == Numbers(m.numbers, ai) + Reverse(Numbers(m.numbers, bk))
    ensures var sum := SumOf(m.sums, ai) + SumOf(m.sums, bk);
      Combine(m, ai, bk) == Merge(PQ.Push(m.buckets, ai, sum), m.numbers[ai := aNumbers] - {bk}, m.sums[ai := sum] - {bk})
  {
  }

  /** Position `i` of the merge loop: a lone id goes to the bucket of its sum; of two ids
      the second one's stack is popped onto the first's, the first takes both sums and goes
      to the bucket of the new sum, and the second is removed from both maps. */
  method MergePosition(a: seq<int>, b: seq<int>, k: int, i: int,
                       buckets: seq<PQ.Entry<int>>, numbers: map<int, seq<int>>, sums: map<int, int>)
    returns (buckets': seq<PQ.Entry<int>>, numbers': map<int, seq<int>>, sums': map<int, int>)
    requires 0 <= i < k
    ensures Merge(buckets', numbers', sums') == MergeStep(a, b, k, i, Merge(buckets, numbers, sums))
  {
    var reverseI := k - 1 - i;
    buckets', numbers', sums' := buckets, numbers, sums;
    if !(i < |a|) && !(reverseI < |b|) {
      return;
    }
    if !(i < |a|) || !(reverseI < |b|) {
      var ai := if i < |a| then a[i] else b[reverseI];
      var sum := SumOf(sums, ai);
      buckets' := PQ.Push(buckets, ai, sum);
      return;
    }
    var ai, bk := a[i], b[reverseI];
    var aNumbers := PopOnto(Numbers(numbers, ai), Numbers(numbers, bk));
    var sum := SumOf(sums, ai) + SumOf(sums, bk);
    CombineInPlace(Merge(buckets, numbers, sums), ai, bk, aNumbers);
    numbers' := numbers'[ai := aNumbers];
    sums' := sums'[ai := sum];
    buckets' := PQ.Push(buckets', ai, sum);
    numbers' := numbers' - {bk};
    sums' := sums' - {bk};
  }

  /** The merge of one round: the loop over the k positions with its sum buckets. */
  method MergeTuples(a: seq<int>, b: seq<int>, k: int, idToNumbers: map<int, seq<int>>, idToSum: map<int, int>)
    returns (buckets: seq<PQ.Entry<int>>, numbers: map<int, seq<int>>, sums: map<int, int>)
    ensures Merge(buckets, numbers, sums) == MergeLoop(a, b, k, 0, Merge([], idToNumbers, idToSum))
  {
    buckets, numbers, sums := [], idToNumbers, idToSum;
    var i := 0;
    while i < k
      invariant 0 <= i && MergeLoop(a, b, k, i, Merge(buckets, numbers, sums)) == MergeLoop(a, b, k, 0, Merge([], idToNumbers, idToSum))
      decreases k - i
    {
      buckets, numbers, sums := MergePosition(a, b, k, i, buckets, numbers, sums);
      i := i + 1;
    }
  }

  /** karmarkarKarp: load the values, merge the two front tuples until one is left, and
      return its ids' stacks; an empty input makes the last pop throw. */
  method KarmarkarKarpMethod(vector: seq<int>, k: int) returns (r: Result<seq<seq<int>>>)
    ensures r == Spec(vector, k)
  {
    var id := FIRST_ID;
    var heap: Heap := [];
    var idToNumbers: map<int, seq<int>> := map[];
    var idToSum: map<int, int> := map[];
    var v := vector;
    while v != []
      invariant Load(v, id, State(heap, idToNumbers, idToSum)) == Load(vector, FIRST_ID, State([], map[], map[]))
      decreases |v|
    {
      var number := v[|v| - 1];
      v := v[..|v| - 1];
      idToNumbers := idToNumbers[id := [number]];
      idToSum := idToSum[id := number];
      heap := PQ.Push(heap, [id], number);
      id := id + 1;
    }
    ghost var loaded := State(heap, idToNumbers, idToSum);
    while |heap| > 1
      invariant Rounds(State(heap, idToNumbers, idToSum), k) == Rounds(loaded, k)
      decreases |heap|
    {
      ghost var st := State(heap, idToNumbers, idToSum);
      var a := heap[0].value;
      heap := heap[1..];
      var b := heap[0].value;
      heap := heap[1..];
      var buckets;
      buckets, idToNumbers, idToSum := MergeTuples(a, b, k, idToNumbers, idToSum);
      var merged := PQ.Values(buckets);
      var difference := Difference(merged, idToSum, k);
      heap := PQ.Push(heap, merged, difference);
      assert State(heap, idToNumbers, idToSum) == Round(st, k);
    }
    if heap == [] {
      return Throw(UnderflowException);
    }
    var last := heap[0].value;
    var lanes: seq<seq<int>> := [];
    for j := 0 to |last|
      invariant |lanes| == j && forall t :: 0 <= t < j ==> lanes[t] == Numbers(idToNumbers, last[t])
    {
      lanes := lanes + [Numbers(idToNumbers, last[j])];
    }
    assert lanes == Stacks(last, idToNumbers);
    r := Ok(lanes);
  }
}
