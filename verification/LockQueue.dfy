/** The locked FIFO of common/lock_queue.hpp. */
module LockQueue {
  import opened Numbers

  /** One locked call by one thread. */
  datatype Call<T> = Push(item: T) | TakeOne(consumer: nat) | TakeBatch(consumer: nat, n: nat)

  /** The queue, and what happened in lock order: the items pushed, the items taken and by whom. */
  datatype History<T> = History(items: seq<T>, pushed: seq<T>, taken: seq<(nat, T)>)

  function By<T>(consumer: nat, batch: seq<T>): seq<(nat, T)> {
    seq(|batch|, i requires 0 <= i < |batch| => (consumer, batch[i]))
  }

  function Items<T>(taken: seq<(nat, T)>): seq<T> {
    seq(|taken|, i requires 0 <= i < |taken| => taken[i].1)
  }

  function Locked<T>(h: History<T>, c: Call<T>): History<T> {
    match c
    case Push(item) => h.(items := h.items + [item], pushed := h.pushed + [item])
    case TakeOne(w) =>
      if h.items == [] then h else h.(items := h.items[1..], taken := h.taken + [(w, h.items[0])])
    case TakeBatch(w, n) =>
      var k := Min(n, |h.items|);
      h.(items := h.items[k..], taken := h.taken + By(w, h.items[..k]))
  }

  lemma TakeNext<T>(all: seq<T>, k: nat, consumer: nat)
    requires k < |all|
    ensures all[k..][0] == all[k] && all[k..][1..] == all[k + 1..] && all[..k] + [all[k]] == all[..k + 1]
    ensures By(consumer, all[..k]) + [(consumer, all[k])] == By(consumer, all[..k + 1])
  {
    assert By(consumer, all[..k]) + [(consumer, all[k])] == By(consumer, all[..k + 1]);
  }

  // ---------------------------------------------------------------- the object

  /** The queue remembers for proofs what was pushed, and what was taken by whom, in lock order. */
  class Queue<T> {
    var items: seq<T>
    ghost var pushed: seq<T>
    ghost var taken: seq<(nat, T)>

    constructor ()
      ensures View() == History([], [], [])
    {
      items, pushed, taken := [], [], [];
    }

    ghost function View(): History<T>
      reads this
    {
      History(items, pushed, taken)
    }

    method Push(t: T)
      modifies this
      ensures items == old(items) + [t] && View() == Locked(old(View()), Call.Push(t))
    {
      items := items + [t];
      pushed := pushed + [t];
    }

    /** `getTask(T &t)`: the oldest item, or nothing. */
    method GetTask(t: T, ghost consumer: nat) returns (ok: bool, task: T)
      modifies this
      ensures ok <==> old(items) != []
      ensures ok ==> old(items) == [task] + items
      ensures !ok ==> task == t && items == old(items)
      ensures View() == Locked(old(View()), TakeOne(consumer))
    {
      if |items| == 0 {
        return false, t;
      }
      taken := taken + [(consumer, items[0])];
      task, items, ok := items[0], items[1..], true;
    }

    /** `getTask(std::vector<T> &t, size_t n)`: exactly the `min(n, size)` oldest items, appended in order. */
    method GetTasks(t: seq<T>, n: nat, ghost consumer: nat) returns (ok: bool, tasks: seq<T>)
      modifies this
      ensures ok <==> old(items) != []
      ensures var k := Min(n, |old(items)|); tasks == t + old(items)[..k] && items == old(items)[k..]
      ensures View() == Locked(old(View()), TakeBatch(consumer, n))
    {
      ghost var all, before := items, taken;
      assert all[..0] == [] && By(consumer, all[..0]) == [];
      hide By;
      tasks := t;
      if |items| == 0 {
        return false, tasks;
      }
      var left := n;
      ghost var k := 0;
      while left > 0
        invariant 0 <= left <= n && k == n - left && k < |all| && pushed == old(pushed)
        invariant tasks == t + all[..k] && items == all[k..]
        invariant taken == before + By(consumer, all[..k])
      {
        TakeNext(all, k, consumer);
        left := left - 1;
        tasks := tasks + [items[0]];
        taken := taken + [(consumer, items[0])];
        items := items[1..];
        k := k + 1;
        if |items| == 0 {
          return true, tasks;
        }
      }
      ok := true;
    }
  }

  // ---------------------------------------------------------------- any number of producers and consumers

  function Run<T>(h: History<T>, calls: seq<Call<T>>): History<T>
    decreases |calls|
  {
    if calls == [] then h else Run(Locked(h, calls[0]), calls[1..])
  }

  /** What one consumer got, in the order it got it. */
  function Got<T>(taken: seq<(nat, T)>, consumer: nat): seq<T> {
    if taken == [] then []
    else
      var (who, item) := taken[|taken| - 1];
      Got(taken[..|taken| - 1], consumer) + (if who == consumer then [item] else [])
  }

  ghost predicate Conserved<T>(h: History<T>) {
    Items(h.taken) + h.items == h.pushed
  }

  lemma ItemsOfAppend<T>(a: seq<(nat, T)>, b: seq<(nat, T)>)
    ensures Items(a + b) == Items(a) + Items(b)
  {
  }

  lemma LockedConserves<T>(h: History<T>, c: Call<T>)
    requires Conserved(h)
    ensures Conserved(Locked(h, c))
  {
    var k := match c case Push(_) => 0 case TakeOne(_) => Min(1, |h.items|) case TakeBatch(_, n) => Min(n, |h.items|);
    var w := if c.Push? then 0 else c.consumer;
    var batch := h.items[..k];
    ItemsOfAppend(h.taken, By(w, batch));
    assert Items(By(w, batch)) == batch;
    assert h.items == batch + h.items[k..];
    if c.TakeOne? && k == 1 {
      assert By(w, batch) == [(w, h.items[0])];
    }
    if c.Push? {
      assert Items(h.taken) + (h.items + [c.item]) == Items(h.taken) + h.items + [c.item];
    }
  }

  /** Over every interleaving, the items taken in lock order followed by the queue are the items pushed
  in lock order: nothing is lost, duplicated or reordered. */
  lemma {:induction false} QueueConservation<T>(h: History<T>, calls: seq<Call<T>>)
    requires Conserved(h)
    ensures Conserved(Run(h, calls))
    decreases |calls|
  {
    if calls != [] {
      LockedConserves(h, calls[0]);
      QueueConservation(Locked(h, calls[0]), calls[1..]);
    }
  }

  /** A consumer's batches are appended to what it already got, the others get nothing. */
  lemma {:induction false} GotAppends<T>(taken: seq<(nat, T)>, w: nat, batch: seq<T>, v: nat)
    ensures Got(taken + By(w, batch), v) == Got(taken, v) + (if v == w then batch else [])
    decreases |batch|
  {
    var all := taken + By(w, batch);
    if batch == [] {
      assert all == taken;
    } else {
      var init, last := batch[..|batch| - 1], batch[|batch| - 1];
      assert all[..|all| - 1] == taken + By(w, init);
      GotAppends(taken, w, init, v);
      assert batch == init + [last];
    }
  }

  /** The items of the consumers together are the items taken, counted with multiplicity. */
  function GotByAll<T>(taken: seq<(nat, T)>, consumers: nat): multiset<T> {
    if consumers == 0 then multiset{} else GotByAll(taken, consumers - 1) + multiset(Got(taken, consumers - 1))
  }

  lemma GotSnoc<T>(taken: seq<(nat, T)>, last: (nat, T), w: nat)
    ensures Got(taken + [last], w) == Got(taken, w) + (if last.0 == w then [last.1] else [])
    ensures multiset(Got(taken + [last], w))
      == multiset(Got(taken, w)) + (if last.0 == w then multiset{last.1} else multiset{})
  {
    assert (taken + [last])[..|taken|] == taken;
  }

  lemma {:induction false} GotByAllSnoc<T>(taken: seq<(nat, T)>, last: (nat, T), consumers: nat)
    ensures GotByAll(taken + [last], consumers)
      == GotByAll(taken, consumers) + (if last.0 < consumers then multiset{last.1} else multiset{})
  {
    hide Got;
    if consumers > 0 {
      GotByAllSnoc(taken, last, consumers - 1);
      GotSnoc(taken, last, consumers - 1);
    }
  }

  lemma {:induction false} EveryTakenItemHasOneOwner<T>(taken: seq<(nat, T)>, consumers: nat)
    requires forall i :: 0 <= i < |taken| ==> taken[i].0 < consumers
    ensures GotByAll(taken, consumers) == multiset(Items(taken))
    decreases |taken|
  {
    if taken == [] {
      NothingTaken<T>(consumers);
    } else {
      var init, last := taken[..|taken| - 1], taken[|taken| - 1];
      assert taken == init + [last];
      EveryTakenItemHasOneOwner(init, consumers);
      GotByAllSnoc(init, last, consumers);
      assert Items(taken) == Items(init) + [last.1];
    }
  }

  lemma {:induction false} NothingTaken<T>(consumers: nat)
    ensures GotByAll<T>([], consumers) == multiset{}
  {
    if consumers > 0 { NothingTaken<T>(consumers - 1); }
  }
}
