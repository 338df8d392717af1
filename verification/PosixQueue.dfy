/**
  A POSIX message queue (mq_send and mq_receive, System Interfaces volume of POSIX.1-2017): the highest
  priority is received first, and within a priority the oldest message.

  The queue is kept in the order in which it will be received.
 */
module PosixQueue {
  import opened Sums

  datatype Item<T> = Item(prio: nat, body: T)

  /** Sending a message: behind everything of its own or a higher priority. */
  function Insert<T>(q: seq<Item<T>>, m: Item<T>): (r: seq<Item<T>>)
    ensures |r| == |q| + 1
  {
    if q == [] || q[|q| - 1].prio >= m.prio then q + [m]
    else Insert(q[..|q| - 1], m) + [q[|q| - 1]]
  }

  ghost predicate Sorted<T>(q: seq<Item<T>>) {
    forall i, j :: 0 <= i < j < |q| ==> q[i].prio >= q[j].prio
  }

  /** The messages of one priority, in order. */
  function OfPrio<T>(q: seq<Item<T>>, p: nat): seq<Item<T>> {
    if q == [] then []
    else OfPrio(q[..|q| - 1], p) + if q[|q| - 1].prio == p then [q[|q| - 1]] else []
  }

  function Bodies<T>(q: seq<Item<T>>): (r: seq<T>)
    ensures |r| == |q| && forall i :: 0 <= i < |q| ==> r[i] == q[i].body
  {
    seq(|q|, i requires 0 <= i < |q| => q[i].body)
  }

  /** The order of delivery is by priority ... */
  lemma {:induction false} InsertSorted<T>(q: seq<Item<T>>, m: Item<T>)
    requires Sorted(q)
    ensures Sorted(Insert(q, m))
  {
    if !(q == [] || q[|q| - 1].prio >= m.prio) {
      var front, last := q[..|q| - 1], q[|q| - 1];
      InsertSorted(front, m);
      assert forall i :: 0 <= i < |front| ==> front[i] == q[i];
      InsertAbove(front, m, last.prio);
    }
  }

  lemma {:induction false} InsertAbove<T>(q: seq<Item<T>>, m: Item<T>, p: nat)
    requires m.prio >= p && forall i :: 0 <= i < |q| ==> q[i].prio >= p
    ensures forall i :: 0 <= i <= |q| ==> Insert(q, m)[i].prio >= p
  {
    if !(q == [] || q[|q| - 1].prio >= m.prio) {
      InsertAbove(q[..|q| - 1], m, p);
    }
  }

  lemma {:induction false} InsertTotal<T>(q: seq<Item<T>>, m: Item<T>, f: Item<T> -> int)
    ensures Total(Insert(q, m), f) == Total(q, f) + f(m)
  {
    if q == [] || q[|q| - 1].prio >= m.prio {
      TotalAppend(q, m, f);
    } else {
      InsertTotal(q[..|q| - 1], m, f);
      TotalAppend(Insert(q[..|q| - 1], m), q[|q| - 1], f);
    }
  }

  lemma {:induction false} InsertGather<T, V>(q: seq<Item<T>>, m: Item<T>, f: Item<T> -> multiset<V>)
    ensures Gather(Insert(q, m), f) == Gather(q, f) + f(m)
  {
    if q == [] || q[|q| - 1].prio >= m.prio {
      GatherAppend(q, m, f);
    } else {
      InsertGather(q[..|q| - 1], m, f);
      GatherAppend(Insert(q[..|q| - 1], m), q[|q| - 1], f);
    }
  }

  /** ... and first in, first out within each priority. */
  lemma {:induction false} InsertIsFifo<T>(q: seq<Item<T>>, m: Item<T>, p: nat)
    ensures OfPrio(Insert(q, m), p) == OfPrio(q, p) + if m.prio == p then [m] else []
  {
    if q == [] || q[|q| - 1].prio >= m.prio {
      assert (q + [m])[..|q|] == q;
    } else {
      var front, last := q[..|q| - 1], q[|q| - 1];
      InsertIsFifo(front, m, p);
      assert (Insert(front, m) + [last])[..|q|] == Insert(front, m);
    }
  }

  /** Receiving takes the oldest message of its priority. */
  lemma {:induction false} ReceiveIsFifo<T>(q: seq<Item<T>>, p: nat)
    requires q != []
    ensures OfPrio(q, p) == (if q[0].prio == p then [q[0]] else []) + OfPrio(q[1..], p)
  {
    var n := |q| - 1;
    if n == 0 {
      assert q[..0] == [] && q[1..] == [];
    } else {
      var front, rest := q[..n], q[1..];
      ReceiveIsFifo(front, p);
      assert front[1..] == rest[..n - 1] && rest[n - 1] == q[n] && front[0] == q[0];
      assert OfPrio(rest, p) == OfPrio(front[1..], p) + if q[n].prio == p then [q[n]] else [];
    }
  }
}
