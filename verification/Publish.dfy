/**
 PUBLISH: local delivery, two broadcasts, and a reply taken from the registry's counts.
 What every worker delivers once all inboxes are drained is compared with those counts.
 */
module Publish {
  import opened Bytes
  import opened Subscriptions
  import opened Registry
  import opened PubSub
  import opened PubSubSystem
  import Glob
  import PT = PatternTrie

  // ---------------------------------------------------------------- the reply

  /** The subscribers of all patterns that the registry's matcher accepts for a channel. */
  ghost function PatternTotal(counts: map<Key, nat>, channel: Key): nat
    decreases |counts|
  {
    if counts == map[] then 0
    else
      var p :| p in counts;
      (if Glob.RegistryMatches(p, channel) then counts[p] else 0) + PatternTotal(counts - {p}, channel)
  }

  lemma {:induction false} PatternTotalAt(counts: map<Key, nat>, channel: Key, key: Key)
    requires key in counts
    ensures PatternTotal(counts, channel)
        == (if Glob.RegistryMatches(key, channel) then counts[key] else 0) + PatternTotal(counts - {key}, channel)
    decreases |counts|
  {
    hide Glob.RegistryMatches;
    var p :| p in counts
             && PatternTotal(counts, channel)
                == (if Glob.RegistryMatches(p, channel) then counts[p] else 0) + PatternTotal(counts - {p}, channel);
    if p != key {
      PatternTotalAt(counts - {p}, channel, key);
      PatternTotalAt(counts - {key}, channel, p);
      assert counts - {p} - {key} == counts - {key} - {p};
    }
  }

  method GetTotalPatternMatches(registry: GlobalRegistry, channel: Key) returns (total: nat)
    ensures total == PatternTotal(registry.patternCounts, channel)
  {
    total := 0;
    var rest := registry.patternCounts;
    while rest != map[]
      invariant total + PatternTotal(rest, channel) == PatternTotal(registry.patternCounts, channel)
      decreases |rest|
    {
      var p :| p in rest;
      PatternTotalAt(rest, channel, p);
      var matches := Glob.RegistryMatch(p, channel);
      if matches {
        total := total + rest[p];
      }
      rest := rest - {p};
    }
  }

  // ---------------------------------------------------------------- the Publish arm

  ghost function AfterPublish(inboxes: seq<seq<BroadcastMsg>>, channels: Shared, patterns: Shared, tid: Thread,
          channel: Key, payload: bytes): seq<seq<BroadcastMsg>> {
    Broadcast(Broadcast(inboxes, BroadcastMsg.Publish(channel, payload, Some(tid)), Interested(channels, channel)),
              PatternPublish(channel, payload, Some(tid)), PatternThreads(patterns))
  }

  method HandlePublish(manager: ThreadLocalPubSub, channel: Key, payload: bytes) returns (deliveries: seq<Delivery>,
          reply: nat)
    requires PT.WellFormed(manager.trie.nodes)
    modifies manager.registry
    ensures deliveries == LocalDeliveries(manager.Channels(), manager.trie.nodes, channel, payload)
    ensures var r := manager.registry;
            && r.inboxes == AfterPublish(old(r.inboxes), r.Channels(), r.Patterns(), manager.tid, channel, payload)
            && r.Channels() == old(r.Channels()) && r.Patterns() == old(r.Patterns())
            && reply == Count(r.channelCounts, channel) + PatternTotal(r.patternCounts, channel)
  {
    deliveries := manager.PublishLocal(channel, payload);
    var registry := manager.registry;
    var channelThreads := if channel in registry.channelThreads then registry.channelThreads[channel] else {};
    var patternThreads := registry.GetAllPatternThreads();
    registry.BroadcastToThreads(BroadcastMsg.Publish(channel, payload, Some(manager.tid)), channelThreads);
    registry.BroadcastToThreads(PatternPublish(channel, payload, Some(manager.tid)), patternThreads);
    var matching := GetTotalPatternMatches(registry, channel);
    reply := (if channel in registry.channelCounts then registry.channelCounts[channel] else 0) + matching;
  }

  // ---------------------------------------------------------------- what everybody delivers

  /** All deliveries of worker `t` for one PUBLISH on worker `tid`, with drained inboxes before and after. */
  ghost function Received(w: World, tid: nat, t: nat, channel: Key, payload: bytes): seq<Delivery>
    requires WorldOk(w) && t < |w.tries|
  {
    var trie, channels := w.tries[t], w.channels.workers[t].side;
    var inboxes := AfterPublish(seq(|w.tries|, _ => []), w.channels.shared, w.patterns.shared, tid, channel, payload);
    (if t == tid then LocalDeliveries(channels, trie, channel, payload) else [])
    + HandledAll(t, channels, trie, inboxes[t])
  }

  ghost predicate HasPatterns(w: World, t: nat)
    requires WorldOk(w) && t < |w.tries|
  {
    exists p :: Subs(w.patterns.workers[t].side, p) != []
  }

  /** How often worker `t` runs the pattern search for one PUBLISH. */
  ghost function Searches(w: World, tid: nat, t: nat, channel: Key): nat
    requires WorldOk(w) && t < |w.tries|
  {
    if t == tid then 1
    else (if Subs(w.channels.workers[t].side, channel) != [] then 1 else 0) + (if HasPatterns(w, t) then 1 else 0)
  }

  lemma {:induction false} PatternThreadsAreServing(w: World, t: nat)
    requires WorldOk(w) && Consistent(w.patterns) && t < |w.tries|
    ensures t in PatternThreads(w.patterns.shared) <==> HasPatterns(w, t)
  {
    hide WorldOk, SideOk;
    assert |w.patterns.workers| == |w.tries| by {
      SameSizes(w);
    }
    if t in PatternThreads(w.patterns.shared) {
      var p :| p in w.patterns.shared.threads && t in w.patterns.shared.threads[p];
      assert t in Interested(w.patterns.shared, p);
      assert Serves(w.patterns, t, p);
    }
    if HasPatterns(w, t) {
      var p :| Subs(w.patterns.workers[t].side, p) != [];
      assert Serves(w.patterns, t, p);
      assert t in Interested(w.patterns.shared, p);
    }
  }

  lemma SameSizes(w: World)
    requires WorldOk(w)
    ensures |w.channels.workers| == |w.patterns.workers| == |w.tries|
  {
  }

  /** The inbox of one worker after the two broadcasts into empty inboxes. */
  ghost function InboxOf(w: World, tid: nat, t: nat, channel: Key, payload: bytes): seq<BroadcastMsg> {
    (if t in Interested(w.channels.shared, channel) then [BroadcastMsg.Publish(channel, payload, Some(tid))] else [])
    + (if t in PatternThreads(w.patterns.shared) then [PatternPublish(channel, payload, Some(tid))] else [])
  }

  lemma InboxContents(w: World, tid: nat, t: nat, channel: Key, payload: bytes)
    requires t < |w.tries|
    ensures AfterPublish(seq(|w.tries|, _ => []), w.channels.shared, w.patterns.shared, tid, channel, payload)[t]
        == InboxOf(w, tid, t, channel, payload)
  {
  }

  lemma HandledInbox(t: Thread, channels: Side, trie: PT.Nodes, a: seq<BroadcastMsg>, b: seq<BroadcastMsg>)
    requires [] in trie && |a| <= 1 && |b| <= 1
    ensures HandledAll(t, channels, trie, a + b)
            == (if a != [] then Handled(t, channels, trie, a[0]) else [])
               + (if b != [] then Handled(t, channels, trie, b[0]) else [])
  {
    hide Handled;
    if a != [] {
      assert a == [a[0]] && (a + b)[1..] == b;
    } else {
      assert a + b == b;
    }
    if b != [] {
      assert b[1..] == [];
    }
  }

  /** What the two broadcast messages make a worker deliver. */
  lemma HandledBroadcasts(tid: Thread, t: Thread, channels: Side, trie: PT.Nodes, channel: Key, payload: bytes,
          first: bool, second: bool)
    requires [] in trie
    ensures var patterns := PatternMessages(PT.Find(trie, [], channel), channel, payload);
            var a := if first then [BroadcastMsg.Publish(channel, payload, Some(tid))] else [];
            var b := if second then [PatternPublish(channel, payload, Some(tid))] else [];
            HandledAll(t, channels, trie, a + b)
            == if t == tid then []
               else (if first then Messages(Subs(channels, channel), channel, payload) + patterns else [])
                    + (if second then patterns else [])
  {
    var a := if first then [BroadcastMsg.Publish(channel, payload, Some(tid))] else [];
    var b := if second then [PatternPublish(channel, payload, Some(tid))] else [];
    HandledInbox(t, channels, trie, a, b);
    hide HandledAll, PT.Find, Messages, PatternMessages;
  }

  lemma {:induction false} ReceivedUnfolds(w: World, tid: nat, t: nat, channel: Key, payload: bytes)
    requires WorldOk(w) && t < |w.tries|
    ensures [] in w.tries[t]
    ensures Received(w, tid, t, channel, payload)
            == (if t == tid then LocalDeliveries(w.channels.workers[t].side, w.tries[t], channel, payload) else [])
               + HandledAll(t, w.channels.workers[t].side, w.tries[t], InboxOf(w, tid, t, channel, payload))
  {
    InboxContents(w, tid, t, channel, payload);
    assert TrieOk(w.tries[t], w.patterns.workers[t].side);
    hide HandledAll, AfterPublish, InboxOf, LocalDeliveries, HalfOk;
  }

  /** The deliveries of one worker, spelled out. */
  lemma {:induction false} ReceivedIs(w: World, tid: nat, t: nat, channel: Key, payload: bytes)
    requires WorldOk(w) && Consistent(w.channels) && Consistent(w.patterns) && t < |w.tries|
    ensures [] in w.tries[t]
    ensures var messages := Messages(Subs(w.channels.workers[t].side, channel), channel, payload);
            var patterns := PatternMessages(PT.Find(w.tries[t], [], channel), channel, payload);
            Received(w, tid, t, channel, payload)
            == if t == tid then messages + patterns
               else (if Subs(w.channels.workers[t].side, channel) != [] then messages + patterns else [])
                    + (if HasPatterns(w, t) then patterns else [])
  {
    ReceivedUnfolds(w, tid, t, channel, payload);
    PatternThreadsAreServing(w, t);
    SameSizes(w);
    assert t in Interested(w.channels.shared, channel) <==> Serves(w.channels, t, channel);
    HandledBroadcasts(tid, t, w.channels.workers[t].side, w.tries[t], channel, payload,
                      t in Interested(w.channels.shared, channel), t in PatternThreads(w.patterns.shared));
    hide WorldOk, Consistent, HandledAll, PT.Find, HasPatterns, Messages, PatternMessages, Received;
  }

  // ---------------------------------------------------------------- counting

  lemma {:induction false} MessagesCount(conns: seq<Conn>, channel: Key, payload: bytes, d: Delivery)
    ensures multiset(Messages(conns, channel, payload))[d]
        == if d.message == Message(channel, payload) then multiset(conns)[d.conn] else 0
  {
    if conns != [] {
      var n := |conns| - 1;
      MessagesCount(conns[..n], channel, payload, d);
      assert conns == conns[..n] + [conns[n]];
      assert Messages(conns, channel, payload)
          == Messages(conns[..n], channel, payload) + [Delivery(conns[n], Message(channel, payload))];
    }
  }

  lemma {:induction false} PatternMessagesCount(found: seq<PT.Entry>, channel: Key, payload: bytes, d: Delivery)
    ensures multiset(PatternMessages(found, channel, payload))[d]
            == if d.message.PatternMessage? && d.message.matched == channel && d.message.payload == payload
               then multiset(found)[PT.Entry(d.message.pattern, d.conn)] else 0
  {
    if found != [] {
      var n := |found| - 1;
      PatternMessagesCount(found[..n], channel, payload, d);
      assert found == found[..n] + [found[n]];
      assert PatternMessages(found, channel, payload)
             == PatternMessages(found[..n], channel, payload)
             + [Delivery(found[n].conn, PatternMessage(found[n].pattern, channel, payload))];
    }
  }

  lemma {:induction false} DistinctCount(conns: seq<Conn>, conn: Conn)
    requires NoDuplicates(conns)
    ensures multiset(conns)[conn] == if conn in conns then 1 else 0
  {
    if conns != [] {
      var n := |conns| - 1;
      DistinctCount(conns[..n], conn);
      assert conns == conns[..n] + [conns[n]];
    }
  }

  /** Adding up the parts of `ReceivedIs`. */
  lemma CountParts(messages: seq<Delivery>, patterns: seq<Delivery>, own: bool, first: bool, second: bool, d: Delivery)
    requires !own && !first ==> messages == []
    ensures var remote := (if first then messages + patterns else []) + (if second then patterns else []);
            var all := if own then messages + patterns else remote;
            var searches := if own then 1 else (if first then 1 else 0) + (if second then 1 else 0);
            multiset(all)[d] == multiset(messages)[d] + searches * multiset(patterns)[d]
  {
  }

  /** The deliveries counted one by one. */
  lemma {:induction false} ReceivedCounts(w: World, tid: nat, t: nat, channel: Key, payload: bytes, d: Delivery)
    requires WorldOk(w) && Quiet(w) && t < |w.tries|
    ensures [] in w.tries[t]
    ensures multiset(Received(w, tid, t, channel, payload))[d]
            == multiset(Messages(Subs(w.channels.workers[t].side, channel), channel, payload))[d]
               + Searches(w, tid, t, channel)
                 * multiset(PatternMessages(PT.Find(w.tries[t], [], channel), channel, payload))[d]
  {
    SameSizes(w);
    assert HalfOk(w.channels) && HalfOk(w.patterns);
    QuietIsConsistent(w.channels);
    QuietIsConsistent(w.patterns);
    ReceivedIs(w, tid, t, channel, payload);
    hide WorldOk, Consistent, Quiet, HalfOk, Received, PT.Find, HasPatterns, PatternMessages;
    var subs := Subs(w.channels.workers[t].side, channel);
    CountParts(Messages(subs, channel, payload), PatternMessages(PT.Find(w.tries[t], [], channel), channel, payload),
               t == tid, subs != [], HasPatterns(w, t), d);
  }

  /**
   PUBLISH accounting: on every worker each exact subscriber gets the message exactly once,
   each pattern subscription gets it once per search and way of matching, and nobody gets
   anything else.
   */
  lemma {:induction false} PublishAccounting(w: World, tid: nat, t: nat, channel: Key, payload: bytes, d: Delivery)
    requires WorldOk(w) && Quiet(w) && t < |w.tries|
    ensures [] in w.tries[t]
    ensures var got := multiset(Received(w, tid, t, channel, payload))[d];
            match d.message
            case Message(c, m) =>
              got == if c == channel && m == payload && d.conn in Subs(w.channels.workers[t].side, channel) then 1
                     else 0
            case PatternMessage(p, c, m) =>
              got == if c == channel && m == payload
                     then Searches(w, tid, t, channel) * multiset(PT.Find(w.tries[t], [], channel))[PT.Entry(p, d.conn)]
                     else 0
            case _ => got == 0
  {
    ReceivedCounts(w, tid, t, channel, payload, d);
    var subs := Subs(w.channels.workers[t].side, channel);
    SubsDistinct(w, t, channel);
    MessagesCount(subs, channel, payload, d);
    PatternMessagesCount(PT.Find(w.tries[t], [], channel), channel, payload, d);
    DistinctCount(subs, d.conn);
    hide WorldOk, Quiet, Received, PT.Find, Messages, PatternMessages, Searches, NoDuplicates;
  }

  lemma SubsDistinct(w: World, t: nat, channel: Key)
    requires WorldOk(w) && t < |w.tries|
    ensures NoDuplicates(Subs(w.channels.workers[t].side, channel))
  {
    SameSizes(w);
    assert WorkerOk(w.channels.workers[t]);
    assert SideOk(w.channels.workers[t].side);
  }

  // ---------------------------------------------------------------- the sum over all workers

  function MessageCount(ds: seq<Delivery>): nat {
    if ds == [] then 0 else (if ds[0].message.Message? then 1 else 0) + MessageCount(ds[1..])
  }

  lemma {:induction false} MessageCountAppend(a: seq<Delivery>, b: seq<Delivery>)
    ensures MessageCount(a + b) == MessageCount(a) + MessageCount(b)
  {
    if a == [] {
      assert a + b == b;
    } else {
      assert (a + b)[1..] == a[1..] + b;
      MessageCountAppend(a[1..], b);
    }
  }

  lemma {:induction false} AllMessages(ds: seq<Delivery>, kind: bool)
    requires forall i :: 0 <= i < |ds| ==> ds[i].message.Message? == kind
    ensures MessageCount(ds) == if kind then |ds| else 0
  {
    if ds != [] {
      AllMessages(ds[1..], kind);
    }
  }

  /** `Message` deliveries of the workers `t..`. */
  ghost function MessagesFrom(w: World, tid: nat, t: nat, channel: Key, payload: bytes): nat
    requires WorldOk(w) && t <= |w.tries|
    decreases |w.tries| - t
  {
    if t == |w.tries| then 0
    else MessageCount(Received(w, tid, t, channel, payload)) + MessagesFrom(w, tid, t + 1, channel, payload)
  }

  lemma {:induction false} WorkerMessages(w: World, tid: nat, t: nat, channel: Key, payload: bytes)
    requires WorldOk(w) && Quiet(w) && t < |w.tries|
    ensures MessageCount(Received(w, tid, t, channel, payload)) == |Subs(w.channels.workers[t].side, channel)|
  {
    SameSizes(w);
    assert HalfOk(w.channels) && HalfOk(w.patterns);
    QuietIsConsistent(w.channels);
    QuietIsConsistent(w.patterns);
    ReceivedIs(w, tid, t, channel, payload);
    var subs := Subs(w.channels.workers[t].side, channel);
    var messages := Messages(subs, channel, payload);
    var patterns := PatternMessages(PT.Find(w.tries[t], [], channel), channel, payload);
    AllMessages(messages, true);
    AllMessages(patterns, false);
    MessageCountAppend(messages, patterns);
    MessageCountAppend(if subs != [] then messages + patterns else [], if HasPatterns(w, t) then patterns else []);
    hide WorldOk, Consistent, Quiet, HalfOk, Received, PT.Find, HasPatterns, PatternMessages;
  }

  lemma {:induction false} MessagesFromIs(w: World, tid: nat, t: nat, channel: Key, payload: bytes)
    requires WorldOk(w) && Quiet(w) && t <= |w.tries| == |w.channels.workers|
    ensures MessagesFrom(w, tid, t, channel, payload) == Subscribers(w.channels.workers[t..], channel)
    decreases |w.tries| - t
  {
    hide WorldOk, Quiet, Received;
    if t < |w.tries| {
      WorkerMessages(w, tid, t, channel, payload);
      MessagesFromIs(w, tid, t + 1, channel, payload);
      assert w.channels.workers[t..][1..] == w.channels.workers[t + 1..];
    }
  }

  /**
   Over every run: when the system is at rest, the number of clients that get the message
   through an exact subscription is the channel count in the registry, the number that
   PUBLISH adds to its reply for them.
   */
  lemma {:induction false} PublishReachesCount(n: nat, events: seq<Event>, tid: nat, channel: Key, payload: bytes)
    requires Quiet(Run(n, events))
    ensures var w := Run(n, events);
            MessagesFrom(w, tid, 0, channel, payload) == Count(w.channels.shared.counts, channel)
  {
    var w := Run(n, events);
    SameSizes(w);
    QuietRuns(n, events);
    MessagesFromIs(w, tid, 0, channel, payload);
    assert w.channels.workers[0..] == w.channels.workers;
  }

  /**
   A remote worker that has both a subscriber of the channel and a pattern subscriber
   delivers every matching pattern message twice.
   */
  lemma {:induction false} RemoteDoubleSearch(w: World, tid: nat, t: nat, channel: Key, payload: bytes, e: PT.Entry)
    requires WorldOk(w) && Quiet(w) && t < |w.tries| && t != tid
    requires Subs(w.channels.workers[t].side, channel) != [] && HasPatterns(w, t)
    ensures [] in w.tries[t]
    ensures var d := Delivery(e.conn, PatternMessage(e.pattern, channel, payload));
            multiset(Received(w, tid, t, channel, payload))[d]
            == 2 * multiset(PT.Find(w.tries[t], [], channel))[e]
  {
    PublishAccounting(w, tid, t, channel, payload, Delivery(e.conn, PatternMessage(e.pattern, channel, payload)));
    hide WorldOk, Quiet, Received, PT.Find;
  }
}
