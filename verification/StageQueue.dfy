/** The bounded hand-over queue between pipeline stages. A push to a full queue drops the
    oldest items; a push to a closed queue drops the item. Each method is one critical
    section of the queue's mutex. */
module StageQueue {
  import opened Options

  datatype Queue<T> = Queue(items: seq<T>, max: nat, closed: bool)

  /** A pop takes the oldest item. */
  function Front<T>(items: seq<T>): (Maybe<T>, seq<T>) {
    if items == [] then (Nothing, []) else (Just(items[0]), items[1..])
  }

  /** A pop of the latest takes the newest item and drops the rest. */
  function Latest<T>(items: seq<T>): (Maybe<T>, seq<T>) {
    if items == [] then (Nothing, []) else (Just(items[|items| - 1]), [])
  }

  ghost predicate Bounded<T>(q: Queue<T>) {
    0 < q.max && |q.items| <= q.max
  }

  /** What a push leaves: nothing changes when closed, otherwise the last max items. */
  function Pushed<T>(q: Queue<T>, item: T): Queue<T> {
    if q.closed then q
    else
      var all := q.items + [item];
      q.(items := if 0 < q.max < |all| then all[|all| - q.max..] else all)
  }

  class BoundedQueue<T> {
    var items: seq<T>
    const max: nat
    var closed: bool

    ghost function View(): Queue<T>
      reads this
    {
      Queue(items, max, closed)
    }

    ghost predicate Valid()
      reads this
    {
      Bounded(View())
    }

    // A capacity of zero would make the dropping loop pop an empty queue.
    constructor (capacity: nat)
      requires 0 < capacity
      ensures Valid() && View() == Queue([], capacity, false)
    {
      items, max, closed := [], capacity, false;
    }

    method Push(item: T)
      requires Valid()
      modifies this
      ensures Valid() && View() == Pushed(old(View()), item)
    {
      var pushed := TryPush(item);
    }

    method TryPush(item: T) returns (pushed: bool)
      requires Valid()
      modifies this
      ensures Valid() && View() == Pushed(old(View()), item) && pushed == !old(closed)
    {
      if closed {
        return false;
      }
      ghost var before := items;
      var k := 0;
      while |items| >= max
        invariant 0 <= k <= |before| && items == before[k..]
        invariant k == 0 || |items| == max - 1
        invariant !closed
      {
        items := items[1..];
        k := k + 1;
      }
      assert before[k..] + [item] == (before + [item])[k..];
      items := items + [item];
      return true;
    }

    // The condition wait ends only when the queue is closed or holds something.
    method Pop() returns (out: Maybe<T>)
      requires Valid() && (closed || items != [])
      modifies this
      ensures Valid() && closed == old(closed) && (out, items) == Front(old(items))
    {
      out := TryPop();
    }

    method TryPop() returns (out: Maybe<T>)
      requires Valid()
      modifies this
      ensures Valid() && closed == old(closed) && (out, items) == Front(old(items))
    {
      if items == [] {
        return Nothing;
      }
      out, items := Just(items[0]), items[1..];
    }

    method PopLatest() returns (out: Maybe<T>)
      requires Valid() && (closed || items != [])
      modifies this
      ensures Valid() && closed == old(closed) && (out, items) == Latest(old(items))
    {
      out := TryPopLatest();
    }

    method TryPopLatest() returns (out: Maybe<T>)
      requires Valid()
      modifies this
      ensures Valid() && closed == old(closed) && (out, items) == Latest(old(items))
    {
      if items == [] {
        return Nothing;
      }
      while |items| > 1
        invariant items != [] && items[|items| - 1] == old(items)[|old(items)| - 1]
        invariant Valid() && closed == old(closed)
      {
        items := items[1..];
      }
      assert items[1..] == [];
      out, items := Just(items[0]), items[1..];
    }

    method Close()
      requires Valid()
      modifies this
      ensures Valid() && View() == old(View()).(closed := true)
    {
      closed := true;
    }
  }

  // ---------- Runs ----------

  function PushAll<T>(q: Queue<T>, xs: seq<T>): Queue<T> {
    if xs == [] then q else Pushed(PushAll(q, xs[..|xs| - 1]), xs[|xs| - 1])
  }

  function Newest<T>(xs: seq<T>, n: nat): seq<T> {
    if |xs| <= n then xs else xs[|xs| - n..]
  }

  /** However many items are pushed without a pop, an open queue holds the newest max of them,
      in order. */
  lemma {:induction false} KeepsNewest<T>(q: Queue<T>, xs: seq<T>)
    requires Bounded(q) && !q.closed
    ensures PushAll(q, xs) == q.(items := Newest(q.items + xs, q.max))
  {
    if xs == [] {
      assert q.items + xs == q.items;
    } else {
      var before := xs[..|xs| - 1];
      KeepsNewest(q, before);
      assert q.items + xs == (q.items + before) + [xs[|xs| - 1]];
    }
  }

  /** Any number of pushes without a pop drops nothing exactly when all the items fit. */
  lemma NoDropWithRoom<T>(q: Queue<T>, xs: seq<T>)
    requires Bounded(q) && !q.closed
    ensures PushAll(q, xs).items == q.items + xs <==> |q.items| + |xs| <= q.max
  {
    KeepsNewest(q, xs);
  }

  // What n pops in turn give.
  function Popped<T>(items: seq<T>, n: nat): seq<Maybe<T>> {
    if n == 0 then [] else [Front(items).0] + Popped(Front(items).1, n - 1)
  }

  function Wrapped<T>(items: seq<T>): (r: seq<Maybe<T>>)
    ensures |r| == |items| && forall i :: 0 <= i < |items| ==> r[i] == Just(items[i])
  {
    seq(|items|, i requires 0 <= i < |items| => Just(items[i]))
  }

  lemma {:induction false} PopsAll<T>(items: seq<T>)
    ensures Popped(items, |items| + 1) == Wrapped(items) + [Nothing]
    decreases |items|
  {
    if items == [] {
      assert Popped(items, 1) == [Nothing] + Popped(items, 0);
      assert Wrapped(items) + [Nothing] == [Nothing];
    } else {
      PopsAll(items[1..]);
      assert Wrapped(items) == [Just(items[0])] + Wrapped(items[1..]);
    }
  }

  /** First in, first out: after any pushes to an empty open queue its pops give the newest max of
      the items in the order of the pushes and then nothing, and a pop of the latest gives the
      last of them and leaves none. A closed queue keeps what it had. */
  lemma FirstInFirstOut<T>(q: Queue<T>, xs: seq<T>, x: T)
    requires Bounded(q) && q.items == []
    ensures !q.closed ==> Popped(PushAll(q, xs).items, |Newest(xs, q.max)| + 1) == Wrapped(Newest(xs, q.max)) + [Nothing]
    ensures !q.closed ==> Latest(PushAll(q, xs + [x]).items) == (Just(x), [])
    ensures PushAll(q.(closed := true), xs) == q.(closed := true)
  {
    ClosedKeeps(q.(closed := true), xs);
    if !q.closed {
      KeepsNewest(q, xs);
      assert q.items + xs == xs;
      PopsAll(Newest(xs, q.max));
      KeepsNewest(q, xs + [x]);
      assert q.items + (xs + [x]) == xs + [x];
    }
  }

  lemma {:induction false} ClosedKeeps<T>(q: Queue<T>, xs: seq<T>)
    requires q.closed
    ensures PushAll(q, xs) == q
  {
    if xs != [] {
      ClosedKeeps(q, xs[..|xs| - 1]);
    }
  }
}
