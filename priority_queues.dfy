/** `Ds\PriorityQueue` as the order in which it pops: the highest priority first, and among
    equal priorities the one pushed first. Both partitioning algorithms use it, and the
    Karmarkar–Karp merge uses the same order for its sum buckets. */
module PriorityQueues {

  datatype Entry<V> = Entry(value: V, priority: int)

  /** The queue is in pop order. */
  predicate Ordered<V>(q: seq<Entry<V>>) {
    forall i, j :: 0 <= i < j < |q| ==> q[i].priority >= q[j].priority
  }

  /** push: the new entry goes after every entry whose priority is at least its own. */
  function Push<V>(q: seq<Entry<V>>, value: V, priority: int): (r: seq<Entry<V>>)
    ensures |r| == |q| + 1
  {
    if q == [] then [Entry(value, priority)]
    else if q[0].priority >= priority then [q[0]] + Push(q[1..], value, priority)
    else [Entry(value, priority)] + q
  }

  function Values<V>(q: seq<Entry<V>>): (r: seq<V>)
    ensures |r| == |q| && forall i :: 0 <= i < |q| ==> r[i] == q[i].value
  {
    if q == [] then [] else [q[0].value] + Values(q[1..])
  }

  lemma ValuesCons<V>(e: Entry<V>, q: seq<Entry<V>>)
    ensures Values([e] + q) == [e.value] + Values(q)
  {
    assert ([e] + q)[1..] == q;
  }

  /** Pushing adds exactly the new value. */
  lemma {:induction false} PushValues<V>(q: seq<Entry<V>>, value: V, priority: int)
    ensures multiset(Values(Push(q, value, priority))) == multiset(Values(q)) + multiset{value}
  {
    if q == [] {
    } else if q[0].priority >= priority {
      PushValues(q[1..], value, priority);
      ValuesCons(q[0], Push(q[1..], value, priority));
    } else {
      ValuesCons(Entry(value, priority), q);
    }
  }

  /** How many entries have at least the priority `p`; in an ordered queue they are the
      front ones. */
  function CountAtLeast<V>(q: seq<Entry<V>>, p: int): (r: nat)
    ensures r <= |q|
  {
    if q == [] then 0 else if q[0].priority >= p then 1 + CountAtLeast(q[1..], p) else 0
  }

  /** A push inserts at the end of its priority class: every entry before it has at least
      its priority (the older equal ones among them) and every entry after it less. */
  lemma {:induction false} PushPlace<V>(q: seq<Entry<V>>, value: V, priority: int)
    requires Ordered(q)
    ensures var j := CountAtLeast(q, priority);
      Push(q, value, priority) == q[..j] + [Entry(value, priority)] + q[j..]
      && (forall i :: 0 <= i < j ==> q[i].priority >= priority)
      && (forall i :: j <= i < |q| ==> q[i].priority < priority)
  {
    if q != [] && q[0].priority >= priority {
      PushPlace(q[1..], value, priority);
      var j := CountAtLeast(q[1..], priority);
      assert q[1..][..j] == q[1..j + 1];
      assert q[..j + 1] == [q[0]] + q[1..j + 1];
      assert q[j + 1..] == q[1..][j..];
    }
  }

  /** Pushing keeps the pop order. */
  lemma {:induction false} PushOrdered<V>(q: seq<Entry<V>>, value: V, priority: int)
    requires Ordered(q)
    ensures Ordered(Push(q, value, priority))
  {
    PushPlace(q, value, priority);
  }

  /** Pushing adds exactly the new entry. */
  lemma {:induction false} PushMultiset<V>(q: seq<Entry<V>>, value: V, priority: int)
    ensures multiset(Push(q, value, priority)) == multiset(q) + multiset{Entry(value, priority)}
  {
    if q != [] && q[0].priority >= priority {
      PushMultiset(q[1..], value, priority);
      assert q == [q[0]] + q[1..];
    }
  }

  /** pop takes an entry of the highest priority. */
  lemma PopIsHighest<V>(q: seq<Entry<V>>)
    requires Ordered(q) && q != []
    ensures forall e :: e in q ==> q[0].priority >= e.priority
    ensures Ordered(q[1..])
  {
  }
}
