/**
 The shared registry seen by any number of workers. A worker changes its own indexes and
 then issues its registry calls one by one; every registry call is one atomic step, and
 the calls of different workers interleave in any order.
 */
module Registry {
  import opened Bytes
  import opened Subscriptions

  type Thread = nat

  /** Interest sets, subscriber counts and the statistics counter, for channels or for patterns. */
  datatype Shared = Shared(threads: map<Key, set<Thread>>, counts: map<Key, nat>, total: int)

  function Interested(shared: Shared, key: Key): set<Thread> {
    if key in shared.threads then shared.threads[key] else {}
  }

  function Apply(shared: Shared, tid: Thread, call: Call): Shared {
    match call
    case Increment(k) =>
      shared.(counts := shared.counts[k := Count(shared.counts, k) + 1])
    case Decrement(k) =>
      if k !in shared.counts then shared
      else if shared.counts[k] <= 1 then shared.(counts := shared.counts - {k})
      else shared.(counts := shared.counts[k := shared.counts[k] - 1])
    case AddInterest(k) =>
      Shared(shared.threads[k := Interested(shared, k) + {tid}], shared.counts,
             if tid in Interested(shared, k) then shared.total else shared.total + 1)
    case RemoveInterest(k) =>
      if k !in shared.threads then shared
      else
        var left := shared.threads[k] - {tid};
        Shared(if left == {} then shared.threads - {k} else shared.threads[k := left], shared.counts,
               if tid in shared.threads[k] then shared.total - 1 else shared.total)
  }

  function ApplyAll(shared: Shared, tid: Thread, calls: seq<Call>): Shared
    decreases |calls|
  {
    if calls == [] then shared else ApplyAll(Apply(shared, tid, calls[0]), tid, calls[1..])
  }

  lemma {:induction false} ApplyAppend(shared: Shared, tid: Thread, a: seq<Call>, b: seq<Call>)
    ensures ApplyAll(shared, tid, a + b) == ApplyAll(ApplyAll(shared, tid, a), tid, b)
    decreases |a|
  {
    if a == [] {
      assert a + b == b;
    } else {
      assert (a + b)[1..] == a[1..] + b;
      ApplyAppend(Apply(shared, tid, a[0]), tid, a[1..], b);
    }
  }

  // ---------------------------------------------------------------- messages between workers

  datatype BroadcastMsg =
    | Publish(channel: Key, message: bytes, exclude: Option<Thread>)
    | PatternPublish(channel: Key, message: bytes, exclude: Option<Thread>)

  const INBOX_CAPACITY: nat := 1024

  /** `try_send`: a full inbox drops the message. */
  function Posted(inbox: seq<BroadcastMsg>, msg: BroadcastMsg): seq<BroadcastMsg> {
    if |inbox| < INBOX_CAPACITY then inbox + [msg] else inbox
  }

  /** One message for each inbox of `threads`. */
  function Broadcast(inboxes: seq<seq<BroadcastMsg>>, msg: BroadcastMsg, threads: set<Thread>): seq<seq<BroadcastMsg>> {
    seq(|inboxes|, t requires 0 <= t < |inboxes| => if t in threads then Posted(inboxes[t], msg) else inboxes[t])
  }

  /** An inbox holds 1024 messages; only a full one drops what comes. */
  lemma InboxRoom(inboxes: seq<seq<BroadcastMsg>>, msg: BroadcastMsg, threads: set<Thread>, t: nat)
    requires t < |inboxes|
    ensures var after := Broadcast(inboxes, msg, threads);
            |after| == |inboxes|
            && after[t] == if t in threads && |inboxes[t]| < 1024 then inboxes[t] + [msg] else inboxes[t]
  {
  }

  // ---------------------------------------------------------------- the object

  class GlobalRegistry {
    var inboxes: seq<seq<BroadcastMsg>>
    var channelThreads: map<Key, set<Thread>>
    var patternThreads: map<Key, set<Thread>>
    var channelCounts: map<Key, nat>
    var patternCounts: map<Key, nat>
    var totalChannels: int
    var totalPatterns: int

    function Channels(): Shared
      reads this
    {
      Shared(channelThreads, channelCounts, totalChannels)
    }

    function Patterns(): Shared
      reads this
    {
      Shared(patternThreads, patternCounts, totalPatterns)
    }

    constructor (n: nat)
      ensures Channels() == Patterns() == Shared(map[], map[], 0)
      ensures inboxes == seq(n, _ => [])
    {
      inboxes := seq(n, _ => []);
      channelThreads, patternThreads := map[], map[];
      channelCounts, patternCounts := map[], map[];
      totalChannels, totalPatterns := 0, 0;
    }

    method AddChannelInterest(channel: Key, tid: Thread)
      modifies this
      ensures inboxes == old(inboxes)
      ensures Channels() == Apply(old(Channels()), tid, AddInterest(channel)) && Patterns() == old(Patterns())
    {
      var entry := if channel in channelThreads then channelThreads[channel] else {};
      if tid !in entry {
        totalChannels := totalChannels + 1;
      }
      channelThreads := channelThreads[channel := entry + {tid}];
    }

    method RemoveChannelInterest(channel: Key, tid: Thread)
      modifies this
      ensures inboxes == old(inboxes)
      ensures Channels() == Apply(old(Channels()), tid, RemoveInterest(channel)) && Patterns() == old(Patterns())
    {
      if channel in channelThreads {
        if tid in channelThreads[channel] {
          totalChannels := totalChannels - 1;
        }
        channelThreads := channelThreads[channel := channelThreads[channel] - {tid}];
        if channelThreads[channel] == {} {
          channelThreads := channelThreads - {channel};
        }
      }
    }

    method AddPatternInterest(pattern: Key, tid: Thread)
      modifies this
      ensures inboxes == old(inboxes)
      ensures Patterns() == Apply(old(Patterns()), tid, AddInterest(pattern)) && Channels() == old(Channels())
    {
      var entry := if pattern in patternThreads then patternThreads[pattern] else {};
      if tid !in entry {
        totalPatterns := totalPatterns + 1;
      }
      patternThreads := patternThreads[pattern := entry + {tid}];
    }

    method RemovePatternInterest(pattern: Key, tid: Thread)
      modifies this
      ensures inboxes == old(inboxes)
      ensures Patterns() == Apply(old(Patterns()), tid, RemoveInterest(pattern)) && Channels() == old(Channels())
    {
      if pattern in patternThreads {
        if tid in patternThreads[pattern] {
          totalPatterns := totalPatterns - 1;
        }
        patternThreads := patternThreads[pattern := patternThreads[pattern] - {tid}];
        if patternThreads[pattern] == {} {
          patternThreads := patternThreads - {pattern};
        }
      }
    }

    method IncrementChannelSubscribers(channel: Key, ghost tid: Thread)
      modifies this
      ensures inboxes == old(inboxes) && Patterns() == old(Patterns())
      ensures Channels() == Apply(old(Channels()), tid, Increment(channel))
    {
      channelCounts := channelCounts[channel := Count(channelCounts, channel) + 1];
    }

    method DecrementChannelSubscribers(channel: Key, ghost tid: Thread)
      modifies this
      ensures inboxes == old(inboxes) && Patterns() == old(Patterns())
      ensures Channels() == Apply(old(Channels()), tid, Decrement(channel))
    {
      if channel in channelCounts {
        if channelCounts[channel] > 0 {
          channelCounts := channelCounts[channel := channelCounts[channel] - 1];
        }
        if channelCounts[channel] == 0 {
          channelCounts := channelCounts - {channel};
        }
      }
    }

    method IncrementPatternSubscribers(pattern: Key, ghost tid: Thread)
      modifies this
      ensures inboxes == old(inboxes) && Channels() == old(Channels())
      ensures Patterns() == Apply(old(Patterns()), tid, Increment(pattern))
    {
      patternCounts := patternCounts[pattern := Count(patternCounts, pattern) + 1];
    }

    method DecrementPatternSubscribers(pattern: Key, ghost tid: Thread)
      modifies this
      ensures inboxes == old(inboxes) && Channels() == old(Channels())
      ensures Patterns() == Apply(old(Patterns()), tid, Decrement(pattern))
    {
      if pattern in patternCounts {
        if patternCounts[pattern] > 0 {
          patternCounts := patternCounts[pattern := patternCounts[pattern] - 1];
        }
        if patternCounts[pattern] == 0 {
          patternCounts := patternCounts - {pattern};
        }
      }
    }

    method BroadcastToThreads(msg: BroadcastMsg, threads: set<Thread>)
      modifies this
      ensures Channels() == old(Channels()) && Patterns() == old(Patterns())
      ensures inboxes == Broadcast(old(inboxes), msg, threads)
    {
      var rest := threads;
      while rest != {}
        invariant rest <= threads && Channels() == old(Channels()) && Patterns() == old(Patterns())
        invariant inboxes == Broadcast(old(inboxes), msg, threads - rest)
        decreases rest
      {
        var t :| t in rest;
        rest := rest - {t};
        if t < |inboxes| {
          inboxes := inboxes[t := Posted(inboxes[t], msg)];
        }
      }
      assert threads - rest == threads;
    }

    /** The workers with any pattern subscriber. */
    method GetAllPatternThreads() returns (threads: set<Thread>)
      ensures threads == PatternThreads(Patterns())
    {
      threads := {};
      var rest := patternThreads;
      while rest != map[]
        invariant rest.Keys <= patternThreads.Keys && forall p :: p in rest ==> rest[p] == patternThreads[p]
        invariant forall t: Thread ::
          t in threads <==> exists p :: p in patternThreads && p !in rest && t in patternThreads[p]
        decreases rest.Keys
      {
        var p :| p in rest;
        threads := threads + rest[p];
        rest := rest - {p};
      }
    }
  }

  ghost function PatternThreads(shared: Shared): set<Thread> {
    set p, t | p in shared.threads && t in shared.threads[p] :: t
  }

  // ---------------------------------------------------------------- many workers

  /** A worker's side, the calls it has still to make, and what the registry knows of it. */
  datatype Worker = Worker(side: Side, pending: seq<Call>, told: Told)

  datatype Half = Half(shared: Shared, workers: seq<Worker>)

  ghost function Sum(workers: seq<Worker>, key: Key): nat {
    if workers == [] then 0 else Count(workers[0].told.counts, key) + Sum(workers[1..], key)
  }

  lemma {:induction false} SumUpdate(workers: seq<Worker>, i: nat, w: Worker, key: Key)
    requires i < |workers|
    ensures Sum(workers[i := w], key) + Count(workers[i].told.counts, key)
        == Sum(workers, key) + Count(w.told.counts, key)
  {
    if i == 0 {
      assert workers[0 := w][1..] == workers[1..];
    } else {
      assert workers[i := w][1..] == workers[1..][i - 1 := w];
      SumUpdate(workers[1..], i - 1, w, key);
    }
  }

  lemma {:induction false} SumBounds(workers: seq<Worker>, i: nat, key: Key)
    requires i < |workers|
    ensures Count(workers[i].told.counts, key) <= Sum(workers, key)
  {
    if i > 0 {
      SumBounds(workers[1..], i - 1, key);
    }
  }

  /** The sizes of all interest sets together. */
  ghost function Sizes(threads: map<Key, set<Thread>>): nat
    decreases |threads|
  {
    if threads == map[] then 0
    else
      var k :| k in threads;
      |threads[k]| + Sizes(threads - {k})
  }

  lemma {:induction false} SizesAt(threads: map<Key, set<Thread>>, key: Key)
    requires key in threads
    ensures Sizes(threads) == |threads[key]| + Sizes(threads - {key})
    decreases |threads|
  {
    var k :| k in threads && Sizes(threads) == |threads[k]| + Sizes(threads - {k});
    if k != key {
      SizesAt(threads - {k}, key);
      SizesAt(threads - {key}, k);
      assert threads - {k} - {key} == threads - {key} - {k};
    }
  }

  lemma SizesUpdate(threads: map<Key, set<Thread>>, key: Key, members: set<Thread>)
    ensures Sizes(threads[key := members]) == Sizes(threads - {key}) + |members|
    ensures Sizes(threads) == Sizes(threads - {key}) + if key in threads then |threads[key]| else 0
  {
    var after := threads[key := members];
    SizesAt(after, key);
    assert after - {key} == threads - {key};
    if key in threads {
      SizesAt(threads, key);
    } else {
      assert threads - {key} == threads;
    }
  }

  // ---------------------------------------------------------------- the invariant

  ghost predicate WorkerOk(w: Worker) {
    SideOk(w.side) && LegalAll(w.told, w.pending) && TellAll(w.told, w.pending) == View(w.side.subs)
  }

  ghost predicate CountsOk(h: Half) {
    && (forall k :: Count(h.shared.counts, k) == Sum(h.workers, k))
    && (forall k :: k in h.shared.counts ==> h.shared.counts[k] > 0)
  }

  ghost predicate HasTold(h: Half, t: Thread, key: Key) {
    t < |h.workers| && key in h.workers[t].told.interest
  }

  ghost predicate InterestOk(h: Half) {
    && (forall k, t: Thread :: t in Interested(h.shared, k) <==> HasTold(h, t, k))
    && (forall k :: k in h.shared.threads ==> h.shared.threads[k] != {})
    && h.shared.total == Sizes(h.shared.threads)
  }

  ghost predicate HalfOk(h: Half) {
    (forall i :: 0 <= i < |h.workers| ==> WorkerOk(h.workers[i])) && CountsOk(h) && InterestOk(h)
  }

  ghost function Initial(n: nat): Half {
    Half(Shared(map[], map[], 0), seq(n, _ => Worker(Side(map[], map[]), [], Told(map[], {}))))
  }

  lemma {:induction false} NothingSummed(workers: seq<Worker>, key: Key)
    requires forall i :: 0 <= i < |workers| ==> workers[i].told.counts == map[]
    ensures Sum(workers, key) == 0
  {
    if workers != [] {
      NothingSummed(workers[1..], key);
    }
  }

  lemma InitialOk(n: nat)
    ensures HalfOk(Initial(n))
  {
    var h := Initial(n);
    forall k
      ensures Sum(h.workers, k) == 0
    {
      NothingSummed(h.workers, k);
    }
    assert View(map[]) == Told(map[], {});
    forall i | 0 <= i < |h.workers|
      ensures WorkerOk(h.workers[i])
    {
      TellNone(h.workers[i].told);
    }
    assert Sizes(map[]) == 0;
  }

  // ---------------------------------------------------------------- steps

  /** The worker has finished its previous operation. */
  predicate Idle(h: Half, i: nat) {
    i < |h.workers| && h.workers[i].pending == []
  }

  /** An idle worker changes its indexes and sets out to tell the registry. */
  ghost function Start(h: Half, i: nat, change: Change): Half
    requires i < |h.workers|
  {
    h.(workers := h.workers[i := h.workers[i].(side := change.side, pending := change.calls)])
  }

  /** One registry call of worker `i`. */
  ghost function Deliver(h: Half, i: nat): Half
    requires i < |h.workers| && h.workers[i].pending != []
  {
    var w := h.workers[i];
    Half(Apply(h.shared, i, w.pending[0]), h.workers[i := Worker(w.side, w.pending[1..], Tell(w.told, w.pending[0]))])
  }

  lemma StartOk(h: Half, i: nat, change: Change)
    requires HalfOk(h) && Idle(h, i)
    requires SideOk(change.side) && Leads(h.workers[i].side.subs, change.calls, change.side.subs)
    ensures HalfOk(Start(h, i, change))
  {
    hide SideOk, Sizes, LegalAll, TellAll;
    var after := Start(h, i, change);
    TellNone(h.workers[i].told);
    assert WorkerOk(h.workers[i]) && WorkerOk(after.workers[i]);
    forall k
      ensures Sum(after.workers, k) == Sum(h.workers, k)
    {
      SumUpdate(h.workers, i, after.workers[i], k);
    }
    forall k, t: Thread
      ensures t in Interested(after.shared, k) <==> HasTold(after, t, k)
    {
      assert HasTold(after, t, k) <==> HasTold(h, t, k);
    }
  }

  /** One call changes the registry's count of a key as it changes the worker's share of it. */
  lemma ShareChange(shared: Shared, told: Told, tid: Thread, call: Call, k: Key)
    requires Legal(told, call) && Count(told.counts, k) <= Count(shared.counts, k)
    ensures Count(Apply(shared, tid, call).counts, k) - Count(shared.counts, k)
        == Count(Tell(told, call).counts, k) - Count(told.counts, k)
  {
  }

  lemma DeliverCounts(h: Half, i: nat)
    requires HalfOk(h) && i < |h.workers| && h.workers[i].pending != []
    ensures CountsOk(Deliver(h, i))
  {
    var after := Deliver(h, i);
    var w := h.workers[i];
    assert Legal(w.told, w.pending[0]) by {
      assert WorkerOk(w);
    }
    hide WorkerOk, InterestOk, Sizes, Sum;
    forall k
      ensures Count(after.shared.counts, k) == Sum(after.workers, k)
    {
      SumUpdate(h.workers, i, after.workers[i], k);
      SumBounds(h.workers, i, k);
      ShareChange(h.shared, w.told, i, w.pending[0], k);
      hide Apply, Tell;
    }
    hide Tell;
  }

  lemma CardinalityChange(s: set<Thread>, t: Thread)
    ensures |s + {t}| == if t in s then |s| else |s| + 1
    ensures |s - {t}| == if t in s then |s| - 1 else |s|
  {
    assert t in s ==> s + {t} == s;
    assert t !in s ==> s - {t} == s;
  }

  lemma DeliverMembers(h: Half, i: nat, k: Key, t: Thread)
    requires HalfOk(h) && i < |h.workers| && h.workers[i].pending != []
    ensures t in Interested(Deliver(h, i).shared, k) <==> HasTold(Deliver(h, i), t, k)
  {
    hide WorkerOk, CountsOk, Sizes;
    assert t in Interested(h.shared, k) <==> HasTold(h, t, k);
  }

  lemma DeliverTotal(h: Half, i: nat)
    requires InterestOk(h) && i < |h.workers| && h.workers[i].pending != []
    ensures Deliver(h, i).shared.total == Sizes(Deliver(h, i).shared.threads)
  {
    hide Sizes;
    var shared, call := h.shared, h.workers[i].pending[0];
    var before := Interested(shared, call.key);
    CardinalityChange(before, i);
    match call
    case AddInterest(k) =>
      SizesUpdate(shared.threads, k, before + {i});
    case RemoveInterest(k) =>
      SizesUpdate(shared.threads, k, before - {i});
    case _ =>
  }

  lemma NoEmptySet(shared: Shared, tid: Thread, call: Call)
    requires forall k :: k in shared.threads ==> shared.threads[k] != {}
    ensures var after := Apply(shared, tid, call); forall k :: k in after.threads ==> after.threads[k] != {}
  {
    assert tid in Interested(shared, call.key) + {tid};
  }

  lemma DeliverInterest(h: Half, i: nat)
    requires HalfOk(h) && i < |h.workers| && h.workers[i].pending != []
    ensures InterestOk(Deliver(h, i))
  {
    DeliverTotal(h, i);
    NoEmptySet(h.shared, i, h.workers[i].pending[0]);
    var after := Deliver(h, i);
    forall k, t: Thread
      ensures t in Interested(after.shared, k) <==> HasTold(after, t, k)
    {
      DeliverMembers(h, i, k, t);
    }
    assert after.shared == Apply(h.shared, i, h.workers[i].pending[0]);
    hide WorkerOk, CountsOk, Sizes, HasTold, Apply, Deliver, Interested;
  }

  lemma DeliverOk(h: Half, i: nat)
    requires HalfOk(h) && i < |h.workers| && h.workers[i].pending != []
    ensures HalfOk(Deliver(h, i))
  {
    DeliverCounts(h, i);
    DeliverInterest(h, i);
    hide CountsOk, InterestOk;
    assert WorkerOk(h.workers[i]);
  }

  // ---------------------------------------------------------------- what holds when workers are at rest

  /** A worker at rest is known to the registry exactly as it is. */
  lemma AtRest(h: Half, i: nat)
    requires HalfOk(h) && Idle(h, i)
    ensures h.workers[i].told == View(h.workers[i].side.subs)
    ensures forall k :: i in Interested(h.shared, k) <==> k in h.workers[i].side.subs
    ensures forall k :: Count(h.workers[i].told.counts, k) == |Subs(h.workers[i].side, k)|
  {
    assert WorkerOk(h.workers[i]);
    TellNone(h.workers[i].told);
    assert forall k :: i in Interested(h.shared, k) <==> HasTold(h, i, k);
  }

  ghost function Subscribers(workers: seq<Worker>, key: Key): nat {
    if workers == [] then 0 else |Subs(workers[0].side, key)| + Subscribers(workers[1..], key)
  }

  lemma {:induction false} SubscribersAreTold(workers: seq<Worker>, key: Key)
    requires forall i :: 0 <= i < |workers| ==> Count(workers[i].told.counts, key) == |Subs(workers[i].side, key)|
    ensures Sum(workers, key) == Subscribers(workers, key)
  {
    if workers != [] {
      SubscribersAreTold(workers[1..], key);
    }
  }

  /** Worker `t` has a subscriber of `key`. */
  ghost predicate Serves(h: Half, t: Thread, key: Key) {
    t < |h.workers| && Subs(h.workers[t].side, key) != []
  }

  /** The registry at rest: counts are sums over workers, interest sets are the workers with a subscriber. */
  ghost predicate Consistent(h: Half) {
    && (forall i :: 0 <= i < |h.workers| ==> SideOk(h.workers[i].side))
    && (forall k :: Count(h.shared.counts, k) == Subscribers(h.workers, k)
                    && (k in h.shared.counts <==> Subscribers(h.workers, k) > 0))
    && (forall k, t: Thread :: t in Interested(h.shared, k) <==> Serves(h, t, k))
    && (forall k :: k in h.shared.threads <==> Interested(h.shared, k) != {})
    && h.shared.total == Sizes(h.shared.threads)
  }

  lemma QuietIsConsistent(h: Half)
    requires HalfOk(h) && forall i :: 0 <= i < |h.workers| ==> Idle(h, i)
    ensures Consistent(h)
  {
    forall i | 0 <= i < |h.workers|
      ensures SideOk(h.workers[i].side)
      ensures h.workers[i].told == View(h.workers[i].side.subs)
      ensures forall k :: k in h.workers[i].told.interest <==> Subs(h.workers[i].side, k) != []
    {
      AtRest(h, i);
      assert WorkerOk(h.workers[i]);
    }
    forall k
      ensures Count(h.shared.counts, k) == Subscribers(h.workers, k)
    {
      SubscribersAreTold(h.workers, k);
    }
    forall k, t: Thread
      ensures t in Interested(h.shared, k) <==> Serves(h, t, k)
    {
      assert t in Interested(h.shared, k) <==> HasTold(h, t, k);
    }
  }
}
