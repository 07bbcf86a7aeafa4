/** The per-worker pub/sub manager and the publish path, as they run. */
module PubSub {
  import opened Bytes
  import opened Subscriptions
  import opened Registry
  import Pattern
  import PT = PatternTrie

  datatype PubSubMessage =
    | Message(channel: Key, payload: bytes)
    | PatternMessage(pattern: Key, matched: Key, payload: bytes)
    | Subscribed(channel: Key, count: nat)
    | Unsubscribed(channel: Key, count: nat)
    | PSubscribed(pattern: Key, count: nat)
    | PUnsubscribed(pattern: Key, count: nat)

  datatype Delivery = Delivery(conn: Conn, message: PubSubMessage)

  // ---------------------------------------------------------------- the trie follows the pattern index

  function TrieJoin(nodes: PT.Nodes, side: Side, conn: Conn, key: Key): PT.Nodes
    requires [] in nodes
  {
    if conn in Subs(side, key) then nodes else PT.Place(nodes, [], Pattern.Tokens(key), PT.Entry(key, conn))
  }

  /** Each live subscription is in the trie once, and nothing else is. */
  ghost predicate TrieOk(nodes: PT.Nodes, side: Side) {
    PT.WellFormed(nodes)
        && forall e: PT.Entry :: PT.Copies(nodes, e) == if e.conn in Subs(side, e.pattern) then 1 else 0
  }

  ghost function TrieJoinAll(nodes: PT.Nodes, side: Side, conn: Conn, keys: seq<Key>): PT.Nodes
    requires PT.WellFormed(nodes)
    decreases |keys|
  {
    if keys == [] then nodes
    else
      PT.PlaceKeepsForm(nodes, PT.Entry(keys[0], conn));
      TrieJoinAll(TrieJoin(nodes, side, conn, keys[0]), JoinOne(side, conn, keys[0]).0, conn, keys[1..])
  }

  ghost function TrieLeaveAll(nodes: PT.Nodes, conn: Conn, keys: seq<Key>): PT.Nodes
    requires PT.WellFormed(nodes)
    decreases |keys|
  {
    if keys == [] then nodes
    else
      var e := PT.Entry(keys[0], conn);
      PT.RemovedFacts(nodes, e);
      TrieLeaveAll(PT.Removed(nodes, PT.Home(e), e), conn, keys[1..])
  }

  lemma PlaceCopies(nodes: PT.Nodes, e: PT.Entry, f: PT.Entry)
    requires PT.WellFormed(nodes)
    ensures PT.Copies(PT.Place(nodes, [], Pattern.Tokens(e.pattern), e), f)
        == PT.Copies(nodes, f) + if e == f then 1 else 0
  {
    assert [] + PT.Home(e) == PT.Home(e);
    PT.PlaceFacts(nodes, [], Pattern.Tokens(e.pattern), e);
    var placed := PT.Place(nodes, [], Pattern.Tokens(e.pattern), e);
    hide PT.WellFormed, PT.Place, PT.Home;
    assert PT.SubscribersAt(placed, PT.Home(f))
        == PT.SubscribersAt(nodes, PT.Home(f)) + if PT.Home(f) == PT.Home(e) then [e] else [];
  }

  lemma RemovedCopies(nodes: PT.Nodes, e: PT.Entry, f: PT.Entry)
    requires PT.WellFormed(nodes)
    ensures PT.WellFormed(PT.Removed(nodes, PT.Home(e), e))
    ensures PT.Copies(PT.Removed(nodes, PT.Home(e), e), f) == if e == f then 0 else PT.Copies(nodes, f)
  {
    PT.RemovedFacts(nodes, e);
    PT.WithoutCount(PT.SubscribersAt(nodes, PT.Home(f)), e);
  }

  lemma {:induction false} TrieJoinOk(nodes: PT.Nodes, side: Side, conn: Conn, key: Key)
    requires TrieOk(nodes, side) && SideOk(side)
    ensures TrieOk(TrieJoin(nodes, side, conn, key), JoinOne(side, conn, key).0)
  {
    hide PT.Place, PT.Copies, SideOk;
    if conn !in Subs(side, key) {
      var e := PT.Entry(key, conn);
      PT.PlaceKeepsForm(nodes, e);
      forall f: PT.Entry
        ensures PT.Copies(TrieJoin(nodes, side, conn, key), f)
            == if f.conn in Subs(JoinOne(side, conn, key).0, f.pattern) then 1 else 0
      {
        PlaceCopies(nodes, e, f);
        assert PT.Copies(nodes, f) == if f.conn in Subs(side, f.pattern) then 1 else 0;
      }
    }
  }

  lemma {:induction false} TrieJoinAllOk(nodes: PT.Nodes, side: Side, other: nat, conn: Conn, keys: seq<Key>)
    requires TrieOk(nodes, side) && SideOk(side)
    ensures TrieOk(TrieJoinAll(nodes, side, conn, keys), JoinAll(side, other, conn, keys).side)
    decreases |keys|
  {
    if keys != [] {
      TrieJoinOk(nodes, side, conn, keys[0]);
      JoinOneOk(side, conn, keys[0]);
      hide SideOk, JoinOne, TrieJoin;
      TrieJoinAllOk(TrieJoin(nodes, side, conn, keys[0]), JoinOne(side, conn, keys[0]).0, other, conn, keys[1..]);
    }
  }

  lemma {:induction false} TrieLeaveAllCopies(nodes: PT.Nodes, conn: Conn, keys: seq<Key>)
    requires PT.WellFormed(nodes)
    ensures PT.WellFormed(TrieLeaveAll(nodes, conn, keys))
    ensures forall f: PT.Entry ::
              PT.Copies(TrieLeaveAll(nodes, conn, keys), f)
              == if f.conn == conn && f.pattern in keys then 0 else PT.Copies(nodes, f)
    decreases |keys|
  {
    hide PT.WellFormed, PT.Copies, PT.Removed, PT.Home;
    if keys != [] {
      var e := PT.Entry(keys[0], conn);
      PT.RemovedFacts(nodes, e);
      var next := PT.Removed(nodes, PT.Home(e), e);
      TrieLeaveAllCopies(next, conn, keys[1..]);
      forall f: PT.Entry
        ensures PT.Copies(TrieLeaveAll(nodes, conn, keys), f)
            == if f.conn == conn && f.pattern in keys then 0 else PT.Copies(nodes, f)
      {
        RemovedCopies(nodes, e, f);
        assert f.pattern in keys <==> f.pattern == keys[0] || f.pattern in keys[1..];
      }
    }
  }

  lemma {:induction false} TrieLeaveAllOk(nodes: PT.Nodes, side: Side, after: Side, conn: Conn, keys: seq<Key>)
    requires TrieOk(nodes, side)
    requires forall k, c :: c in Subs(after, k) <==> c in Subs(side, k) && !(c == conn && k in keys)
    ensures TrieOk(TrieLeaveAll(nodes, conn, keys), after)
  {
    TrieLeaveAllCopies(nodes, conn, keys);
    hide PT.WellFormed, PT.Copies, TrieLeaveAll;
  }

  // ---------------------------------------------------------------- replies

  datatype ReplyKind = OnSubscribe | OnUnsubscribe | OnPSubscribe | OnPUnsubscribe

  function Reply(kind: ReplyKind, ack: Ack): PubSubMessage {
    match kind
    case OnSubscribe => Subscribed(ack.key, ack.count)
    case OnUnsubscribe => Unsubscribed(ack.key, ack.count)
    case OnPSubscribe => PSubscribed(ack.key, ack.count)
    case OnPUnsubscribe => PUnsubscribed(ack.key, ack.count)
  }

  /** One reply for each key, in order. */
  function Replies(kind: ReplyKind, acks: seq<Ack>): seq<PubSubMessage> {
    seq(|acks|, i requires 0 <= i < |acks| => Reply(kind, acks[i]))
  }

  lemma RepliesNone(kind: ReplyKind)
    ensures Replies(kind, []) == []
  {
  }

  lemma RepliesSnoc(kind: ReplyKind, acks: seq<Ack>, ack: Ack)
    ensures Replies(kind, acks + [ack]) == Replies(kind, acks) + [Reply(kind, ack)]
  {
  }

  // ---------------------------------------------------------------- deliveries

  function Messages(conns: seq<Conn>, channel: Key, payload: bytes): seq<Delivery> {
    seq(|conns|, i requires 0 <= i < |conns| => Delivery(conns[i], Message(channel, payload)))
  }

  function PatternMessages(found: seq<PT.Entry>, channel: Key, payload: bytes): seq<Delivery> {
    seq(|found|, i requires 0 <= i < |found| =>
      Delivery(found[i].conn, PatternMessage(found[i].pattern, channel, payload)))
  }

  function LocalDeliveries(channels: Side, trie: PT.Nodes, channel: Key, payload: bytes): seq<Delivery>
    requires [] in trie
  {
    Messages(Subs(channels, channel), channel, payload) + PatternMessages(PT.Find(trie, [], channel), channel, payload)
  }

  /** What one inbox message makes a worker deliver. */
  function Handled(tid: Thread, channels: Side, trie: PT.Nodes, msg: BroadcastMsg): seq<Delivery>
    requires [] in trie
  {
    if msg.exclude == Some(tid) then []
    else match msg
      case Publish(channel, payload, _) => LocalDeliveries(channels, trie, channel, payload)
      case PatternPublish(channel, payload, _) => PatternMessages(PT.Find(trie, [], channel), channel, payload)
  }

  function HandledAll(tid: Thread, channels: Side, trie: PT.Nodes, msgs: seq<BroadcastMsg>): seq<Delivery>
    requires [] in trie
    decreases |msgs|
  {
    if msgs == [] then [] else Handled(tid, channels, trie, msgs[0]) + HandledAll(tid, channels, trie, msgs[1..])
  }

  lemma HandledStep(done: seq<Delivery>, tid: Thread, channels: Side, trie: PT.Nodes, msgs: seq<BroadcastMsg>)
    requires [] in trie && msgs != []
    ensures done + HandledAll(tid, channels, trie, msgs)
        == done + Handled(tid, channels, trie, msgs[0]) + HandledAll(tid, channels, trie, msgs[1..])
  {
    hide Handled;
  }

  lemma TrieHasRoot(trie: PT.Nodes)
    requires PT.WellFormed(trie)
    ensures [] in trie
  {
  }

  lemma HandledNone(tid: Thread, channels: Side, trie: PT.Nodes)
    requires [] in trie
    ensures HandledAll(tid, channels, trie, []) == []
  {
  }

  lemma FlatAcksSnoc(keys: seq<Key>, i: nat, count: nat)
    requires i < |keys|
    ensures FlatAcks(keys[..i + 1], count) == FlatAcks(keys[..i], count) + [Ack(keys[i], count)]
  {
  }

  // ---------------------------------------------------------------- one turn of each loop

  lemma JoinAllStep(side: Side, other: nat, conn: Conn, keys: seq<Key>, i: nat, shared: Shared, tid: Thread)
    requires i < |keys|
    ensures var (next, calls) := JoinOne(side, conn, keys[i]);
            var now, later := JoinAll(side, other, conn, keys[i..]), JoinAll(next, other, conn, keys[i + 1..]);
            && now.side == later.side && now.acks == [Ack(keys[i], |Keys(next, conn)| + other)] + later.acks
            && ApplyAll(shared, tid, now.calls) == ApplyAll(ApplyAll(shared, tid, calls), tid, later.calls)
  {
    hide JoinOne, ApplyAll;
    var (next, calls) := JoinOne(side, conn, keys[i]);
    assert keys[i..][1..] == keys[i + 1..];
    ApplyAppend(shared, tid, calls, JoinAll(next, other, conn, keys[i + 1..]).calls);
  }

  lemma JoinCalls(side: Side, conn: Conn, key: Key, shared: Shared, tid: Thread)
    ensures ApplyAll(shared, tid, JoinOne(side, conn, key).1)
            == if conn in Subs(side, key) then shared
               else if key in side.subs then Apply(shared, tid, Increment(key))
               else Apply(Apply(shared, tid, Increment(key)), tid, AddInterest(key))
  {
    var calls := JoinOne(side, conn, key).1;
    OneCall(shared, tid, Increment(key));
    OneCall(Apply(shared, tid, Increment(key)), tid, AddInterest(key));
    ApplyAppend(shared, tid, [Increment(key)], [AddInterest(key)]);
    assert [Increment(key)] + [] == [Increment(key)];
    hide Apply, ApplyAll;
    assert ApplyAll(shared, tid, []) == shared by {
      NoCall(shared, tid);
    }
  }

  lemma NoCall(shared: Shared, tid: Thread)
    ensures ApplyAll(shared, tid, []) == shared
  {
  }

  lemma OneCall(shared: Shared, tid: Thread, call: Call)
    ensures ApplyAll(shared, tid, [call]) == Apply(shared, tid, call)
  {
    assert [call][1..] == [];
  }

  lemma LeaveAllStep(side: Side, other: nat, conn: Conn, keys: seq<Key>, i: nat, shared: Shared, tid: Thread)
    requires i < |keys|
    ensures var (next, calls) := LeaveOne(side, conn, keys[i]);
            var now, later := LeaveAll(side, other, conn, keys[i..]), LeaveAll(next, other, conn, keys[i + 1..]);
            && now.side == later.side && now.acks == [Ack(keys[i], |Keys(next, conn)| + other)] + later.acks
            && calls == DropSub(side.subs, conn, keys[i]).1
            && ApplyAll(shared, tid, now.calls) == ApplyAll(ApplyAll(shared, tid, calls), tid, later.calls)
  {
    hide DropSub, ApplyAll;
    var (next, calls) := LeaveOne(side, conn, keys[i]);
    assert keys[i..][1..] == keys[i + 1..];
    ApplyAppend(shared, tid, calls, LeaveAll(next, other, conn, keys[i + 1..]).calls);
  }

  lemma DropAllStep(subs: map<Key, seq<Conn>>, conn: Conn, keys: seq<Key>, i: nat, shared: Shared, tid: Thread)
    requires i < |keys|
    ensures var (next, calls) := DropSub(subs, conn, keys[i]);
            var now, later := DropAll(subs, conn, keys[i..]), DropAll(next, conn, keys[i + 1..]);
            now.0 == later.0 && ApplyAll(shared, tid, now.1) == ApplyAll(ApplyAll(shared, tid, calls), tid, later.1)
  {
    hide DropSub, ApplyAll;
    var (next, calls) := DropSub(subs, conn, keys[i]);
    assert keys[i..][1..] == keys[i + 1..];
    ApplyAppend(shared, tid, calls, DropAll(next, conn, keys[i + 1..]).1);
  }

  lemma DropCalls(subs: map<Key, seq<Conn>>, conn: Conn, key: Key, shared: Shared, tid: Thread)
    ensures var (after, calls) := DropSub(subs, conn, key);
            var counted := if key in subs && conn in subs[key] then Apply(shared, tid, Decrement(key)) else shared;
            ApplyAll(shared, tid, calls)
                == if key in subs && key !in after then Apply(counted, tid, RemoveInterest(key)) else counted
  {
    var (after, calls) := DropSub(subs, conn, key);
    var counted := if key in subs && conn in subs[key] then Apply(shared, tid, Decrement(key)) else shared;
    NoCall(shared, tid);
    OneCall(shared, tid, Decrement(key));
    OneCall(counted, tid, RemoveInterest(key));
    ApplyAppend(shared, tid, if key in subs && conn in subs[key] then [Decrement(key)] else [], [RemoveInterest(key)]);
    hide Apply, ApplyAll;
  }

  lemma TrieJoinStep(nodes: PT.Nodes, side: Side, conn: Conn, keys: seq<Key>, i: nat)
    requires PT.WellFormed(nodes) && i < |keys|
    ensures PT.WellFormed(TrieJoin(nodes, side, conn, keys[i]))
    ensures TrieJoinAll(nodes, side, conn, keys[i..])
        == TrieJoinAll(TrieJoin(nodes, side, conn, keys[i]), JoinOne(side, conn, keys[i]).0, conn, keys[i + 1..])
  {
    hide JoinOne, PT.WellFormed, PT.Place;
    PT.PlaceKeepsForm(nodes, PT.Entry(keys[i], conn));
    assert keys[i..][1..] == keys[i + 1..];
  }

  lemma {:induction false} TrieLeaveStep(nodes: PT.Nodes, conn: Conn, keys: seq<Key>, i: nat)
    requires PT.WellFormed(nodes) && i < |keys|
    ensures var e := PT.Entry(keys[i], conn);
            var next := PT.Removed(nodes, PT.Home(e), e);
            PT.WellFormed(next) && TrieLeaveAll(nodes, conn, keys[i..]) == TrieLeaveAll(next, conn, keys[i + 1..])
  {
    hide PT.WellFormed, PT.Removed;
    PT.RemovedFacts(nodes, PT.Entry(keys[i], conn));
    assert keys[i..][1..] == keys[i + 1..];
  }

  lemma JoinNoKeys(side: Side, other: nat, conn: Conn, keys: seq<Key>, shared: Shared, tid: Thread)
    requires keys == []
    ensures var change := JoinAll(side, other, conn, keys);
            change.side == side && change.acks == [] && ApplyAll(shared, tid, change.calls) == shared
  {
  }

  lemma LeaveNoKeys(side: Side, other: nat, conn: Conn, keys: seq<Key>, shared: Shared, tid: Thread)
    requires keys == []
    ensures var change := LeaveAll(side, other, conn, keys);
            change.side == side && change.acks == [] && ApplyAll(shared, tid, change.calls) == shared
  {
  }

  lemma DropNoKeys(subs: map<Key, seq<Conn>>, conn: Conn, keys: seq<Key>, shared: Shared, tid: Thread)
    requires keys == []
    ensures var dropped := DropAll(subs, conn, keys);
            dropped.0 == subs && ApplyAll(shared, tid, dropped.1) == shared
  {
  }

  lemma TrieNoKeys(nodes: PT.Nodes, side: Side, conn: Conn, keys: seq<Key>)
    requires PT.WellFormed(nodes) && keys == []
    ensures TrieJoinAll(nodes, side, conn, keys) == nodes
  {
  }

  lemma TrieLeaveNone(nodes: PT.Nodes, conn: Conn, keys: seq<Key>)
    requires PT.WellFormed(nodes) && keys == []
    ensures TrieLeaveAll(nodes, conn, keys) == nodes
  {
  }

  // ---------------------------------------------------------------- the manager

  class ThreadLocalPubSub {
    const tid: Thread
    const registry: GlobalRegistry
    const trie: PT.PatternTrie
    var exactSubs: map<Key, seq<Conn>>
    var patternSubs: map<Key, seq<Conn>>
    var connectionChannels: map<Conn, seq<Key>>
    var connectionPatterns: map<Conn, seq<Key>>

    function Channels(): Side
      reads this
    {
      Side(exactSubs, connectionChannels)
    }

    function Patterns(): Side
      reads this
    {
      Side(patternSubs, connectionPatterns)
    }

    /** `get_connection_subscription_count`. */
    function SubscriptionCount(conn: Conn): nat
      reads this
    {
      (if conn in connectionChannels then |connectionChannels[conn]| else 0)
      + (if conn in connectionPatterns then |connectionPatterns[conn]| else 0)
    }

    constructor (tid: Thread, registry: GlobalRegistry)
      ensures this.tid == tid && this.registry == registry && fresh(trie) && PT.WellFormed(trie.nodes)
      ensures Channels() == Patterns() == Side(map[], map[]) && trie.nodes == map[[] := PT.Fresh]
    {
      this.tid, this.registry := tid, registry;
      trie := new PT.PatternTrie();
      exactSubs, patternSubs := map[], map[];
      connectionChannels, connectionPatterns := map[], map[];
    }

    method Subscribe(conn: Conn, channels: seq<Key>) returns (messages: seq<PubSubMessage>)
      modifies this, registry
      ensures var change := JoinAll(old(Channels()), |Keys(old(Patterns()), conn)|, conn, channels);
              && Channels() == change.side && messages == Replies(OnSubscribe, change.acks)
              && registry.Channels() == ApplyAll(old(registry.Channels()), tid, change.calls)
      ensures Patterns() == old(Patterns()) && registry.Patterns() == old(registry.Patterns())
      ensures registry.inboxes == old(registry.inboxes)
    {
      hide *;
      messages := [];
      ghost var other := |Keys(Patterns(), conn)|;
      ghost var whole := JoinAll(Channels(), other, conn, channels);
      ghost var acks := [];
      assert channels[0..] == channels && acks + whole.acks == whole.acks;
      RepliesNone(OnSubscribe);
      for i := 0 to |channels|
        invariant Patterns() == old(Patterns()) && registry.Patterns() == old(registry.Patterns())
        invariant registry.inboxes == old(registry.inboxes)
        invariant JoinAll(Channels(), other, conn, channels[i..]).side == whole.side
        invariant acks + JoinAll(Channels(), other, conn, channels[i..]).acks == whole.acks
        invariant ApplyAll(registry.Channels(), tid, JoinAll(Channels(), other, conn, channels[i..]).calls)
            == ApplyAll(old(registry.Channels()), tid, whole.calls)
        invariant messages == Replies(OnSubscribe, acks)
      {
        JoinAllStep(Channels(), other, conn, channels, i, registry.Channels(), tid);
        ghost var later := JoinAll(JoinOne(Channels(), conn, channels[i]).0, other, conn, channels[i + 1..]).acks;
        var count := SubscribeOne(conn, channels[i]);
        RepliesSnoc(OnSubscribe, acks, Ack(channels[i], count));
        assert acks + ([Ack(channels[i], count)] + later) == acks + [Ack(channels[i], count)] + later;
        messages := messages + [Reply(OnSubscribe, Ack(channels[i], count))];
        acks := acks + [Ack(channels[i], count)];
      }
      JoinNoKeys(Channels(), other, conn, channels[|channels|..], registry.Channels(), tid);
      assert acks + [] == acks;
    }

    method SubscribeOne(conn: Conn, channel: Key) returns (count: nat)
      modifies this, registry
      ensures Channels() == JoinOne(old(Channels()), conn, channel).0
      ensures registry.Channels() == ApplyAll(old(registry.Channels()), tid, JoinOne(old(Channels()), conn, channel).1)
      ensures count == |Keys(Channels(), conn)| + |Keys(Patterns(), conn)|
      ensures Patterns() == old(Patterns()) && registry.Patterns() == old(registry.Patterns())
      ensures registry.inboxes == old(registry.inboxes)
    {
      hide Apply, ApplyAll;
      JoinCalls(Channels(), conn, channel, registry.Channels(), tid);
      var isNew := channel !in exactSubs;
      var already := channel in exactSubs && conn in exactSubs[channel];
      if !already {
        exactSubs := exactSubs[channel := (if channel in exactSubs then exactSubs[channel] else []) + [conn]];
        var known := if conn in connectionChannels then connectionChannels[conn] else [];
        connectionChannels := connectionChannels[conn := known + [channel]];
        registry.IncrementChannelSubscribers(channel, tid);
      }
      if isNew {
        registry.AddChannelInterest(channel, tid);
      }
      count := SubscriptionCount(conn);
    }

    method Unsubscribe(conn: Conn, channels: Option<seq<Key>>) returns (messages: seq<PubSubMessage>)
      modifies this, registry
      ensures var other := |Keys(old(Patterns()), conn)|;
              var change := if channels.Some? then LeaveAll(old(Channels()), other, conn, channels.value)
                            else LeaveEverything(old(Channels()), other, conn);
              && Channels() == change.side && messages == Replies(OnUnsubscribe, change.acks)
              && registry.Channels() == ApplyAll(old(registry.Channels()), tid, change.calls)
      ensures Patterns() == old(Patterns()) && registry.Patterns() == old(registry.Patterns())
      ensures registry.inboxes == old(registry.inboxes)
    {
      match channels
      case Some(names) =>
        messages := UnsubscribeEach(conn, names);
      case None =>
        messages := UnsubscribeFromAll(conn);
    }

    /** The loop over the named channels. */
    method UnsubscribeEach(conn: Conn, channels: seq<Key>) returns (messages: seq<PubSubMessage>)
      modifies this, registry
      ensures var change := LeaveAll(old(Channels()), |Keys(old(Patterns()), conn)|, conn, channels);
              && Channels() == change.side && messages == Replies(OnUnsubscribe, change.acks)
              && registry.Channels() == ApplyAll(old(registry.Channels()), tid, change.calls)
      ensures Patterns() == old(Patterns()) && registry.Patterns() == old(registry.Patterns())
      ensures registry.inboxes == old(registry.inboxes)
    {
      hide *;
      messages := [];
      ghost var other := |Keys(Patterns(), conn)|;
      ghost var whole := LeaveAll(Channels(), other, conn, channels);
      ghost var acks := [];
      assert channels[0..] == channels && acks + whole.acks == whole.acks;
      RepliesNone(OnUnsubscribe);
      for i := 0 to |channels|
        invariant Patterns() == old(Patterns()) && registry.Patterns() == old(registry.Patterns())
        invariant registry.inboxes == old(registry.inboxes)
        invariant LeaveAll(Channels(), other, conn, channels[i..]).side == whole.side
        invariant acks + LeaveAll(Channels(), other, conn, channels[i..]).acks == whole.acks
        invariant ApplyAll(registry.Channels(), tid, LeaveAll(Channels(), other, conn, channels[i..]).calls)
            == ApplyAll(old(registry.Channels()), tid, whole.calls)
        invariant messages == Replies(OnUnsubscribe, acks)
      {
        LeaveAllStep(Channels(), other, conn, channels, i, registry.Channels(), tid);
        ghost var later := LeaveAll(LeaveOne(Channels(), conn, channels[i]).0, other, conn, channels[i + 1..]).acks;
        var count := UnsubscribeOne(conn, channels[i]);
        RepliesSnoc(OnUnsubscribe, acks, Ack(channels[i], count));
        assert acks + ([Ack(channels[i], count)] + later) == acks + [Ack(channels[i], count)] + later;
        messages := messages + [Reply(OnUnsubscribe, Ack(channels[i], count))];
        acks := acks + [Ack(channels[i], count)];
      }
      LeaveNoKeys(Channels(), other, conn, channels[|channels|..], registry.Channels(), tid);
      assert acks + [] == acks;
    }

    method UnsubscribeOne(conn: Conn, channel: Key) returns (count: nat)
      modifies this, registry
      ensures Channels() == LeaveOne(old(Channels()), conn, channel).0
      ensures registry.Channels() == ApplyAll(old(registry.Channels()), tid, LeaveOne(old(Channels()), conn, channel).1)
      ensures count == |Keys(Channels(), conn)| + |Keys(Patterns(), conn)|
      ensures Patterns() == old(Patterns()) && registry.Patterns() == old(registry.Patterns())
      ensures registry.inboxes == old(registry.inboxes)
    {
      hide Apply, ApplyAll;
      DropCalls(exactSubs, conn, channel, registry.Channels(), tid);
      var removeInterest := false;
      if channel in exactSubs {
        var wasSubscribed := conn in exactSubs[channel];
        var left := Without(exactSubs[channel], conn);
        if wasSubscribed {
          registry.DecrementChannelSubscribers(channel, tid);
        }
        if left == [] {
          exactSubs := exactSubs - {channel};
          removeInterest := true;
        } else {
          exactSubs := exactSubs[channel := left];
        }
      }
      if conn in connectionChannels {
        connectionChannels := connectionChannels[conn := Without(connectionChannels[conn], channel)];
      }
      if removeInterest {
        registry.RemoveChannelInterest(channel, tid);
      }
      count := SubscriptionCount(conn);
    }

    /** The loop over everything the connection was subscribed to. */
    method UnsubscribeFromAll(conn: Conn) returns (messages: seq<PubSubMessage>)
      modifies this, registry
      ensures var change := LeaveEverything(old(Channels()), |Keys(old(Patterns()), conn)|, conn);
              && Channels() == change.side && messages == Replies(OnUnsubscribe, change.acks)
              && registry.Channels() == ApplyAll(old(registry.Channels()), tid, change.calls)
      ensures Patterns() == old(Patterns()) && registry.Patterns() == old(registry.Patterns())
      ensures registry.inboxes == old(registry.inboxes)
    {
      messages := [];
      ghost var other := |Keys(Patterns(), conn)|;
      var channels := if conn in connectionChannels then connectionChannels[conn] else [];
      connectionChannels := connectionChannels - {conn};
      ghost var whole := DropAll(exactSubs, conn, channels);
      assert channels[0..] == channels && FlatAcks(channels[..0], other) == [];
      RepliesNone(OnUnsubscribe);
      hide DropAll, ApplyAll, DropSub, TrieLeaveAll, PT.WellFormed, PT.Removed, Replies, FlatAcks;
      for i := 0 to |channels|
        invariant Patterns() == old(Patterns()) && registry.Patterns() == old(registry.Patterns())
        invariant registry.inboxes == old(registry.inboxes)
        invariant connectionChannels == old(connectionChannels) - {conn}
        invariant DropAll(exactSubs, conn, channels[i..]).0 == whole.0
        invariant ApplyAll(registry.Channels(), tid, DropAll(exactSubs, conn, channels[i..]).1)
            == ApplyAll(old(registry.Channels()), tid, whole.1)
        invariant messages == Replies(OnUnsubscribe, FlatAcks(channels[..i], other))
      {
        DropAllStep(exactSubs, conn, channels, i, registry.Channels(), tid);
        var count := UnsubscribeDropped(conn, channels[i]);
        FlatAcksSnoc(channels, i, other);
        RepliesSnoc(OnUnsubscribe, FlatAcks(channels[..i], other), Ack(channels[i], other));
        messages := messages + [Reply(OnUnsubscribe, Ack(channels[i], count))];
      }
      assert channels[..|channels|] == channels;
      DropNoKeys(exactSubs, conn, channels[|channels|..], registry.Channels(), tid);
    }

    method UnsubscribeDropped(conn: Conn, channel: Key) returns (count: nat)
      requires conn !in connectionChannels
      modifies this, registry
      ensures exactSubs == DropSub(old(exactSubs), conn, channel).0 && connectionChannels == old(connectionChannels)
      ensures registry.Channels() == ApplyAll(old(registry.Channels()), tid, DropSub(old(exactSubs), conn, channel).1)
      ensures count == |Keys(Patterns(), conn)|
      ensures Patterns() == old(Patterns()) && registry.Patterns() == old(registry.Patterns())
      ensures registry.inboxes == old(registry.inboxes)
    {
      hide Apply, ApplyAll;
      DropCalls(exactSubs, conn, channel, registry.Channels(), tid);
      if channel in exactSubs {
        var wasSubscribed := conn in exactSubs[channel];
        var left := Without(exactSubs[channel], conn);
        if wasSubscribed {
          registry.DecrementChannelSubscribers(channel, tid);
        }
        if left == [] {
          exactSubs := exactSubs - {channel};
          registry.RemoveChannelInterest(channel, tid);
        } else {
          exactSubs := exactSubs[channel := left];
        }
      }
      count := SubscriptionCount(conn);
    }

    method PSubscribe(conn: Conn, patterns: seq<Key>) returns (messages: seq<PubSubMessage>)
      requires PT.WellFormed(trie.nodes)
      modifies this, registry, trie
      ensures PT.WellFormed(trie.nodes) && trie.nodes == TrieJoinAll(old(trie.nodes), old(Patterns()), conn, patterns)
      ensures var change := JoinAll(old(Patterns()), |Keys(old(Channels()), conn)|, conn, patterns);
              && Patterns() == change.side && messages == Replies(OnPSubscribe, change.acks)
              && registry.Patterns() == ApplyAll(old(registry.Patterns()), tid, change.calls)
      ensures Channels() == old(Channels()) && registry.Channels() == old(registry.Channels())
      ensures registry.inboxes == old(registry.inboxes)
    {
      hide *;
      messages := [];
      ghost var other := |Keys(Channels(), conn)|;
      ghost var whole := JoinAll(Patterns(), other, conn, patterns);
      ghost var acks := [];
      assert patterns[0..] == patterns && acks + whole.acks == whole.acks;
      RepliesNone(OnPSubscribe);
      for i := 0 to |patterns|
        invariant Channels() == old(Channels()) && registry.Channels() == old(registry.Channels())
        invariant registry.inboxes == old(registry.inboxes)
        invariant JoinAll(Patterns(), other, conn, patterns[i..]).side == whole.side
        invariant acks + JoinAll(Patterns(), other, conn, patterns[i..]).acks == whole.acks
        invariant ApplyAll(registry.Patterns(), tid, JoinAll(Patterns(), other, conn, patterns[i..]).calls)
            == ApplyAll(old(registry.Patterns()), tid, whole.calls)
        invariant PT.WellFormed(trie.nodes)
        invariant TrieJoinAll(trie.nodes, Patterns(), conn, patterns[i..])
            == TrieJoinAll(old(trie.nodes), old(Patterns()), conn, patterns)
        invariant messages == Replies(OnPSubscribe, acks)
      {
        JoinAllStep(Patterns(), other, conn, patterns, i, registry.Patterns(), tid);
        TrieJoinStep(trie.nodes, Patterns(), conn, patterns, i);
        ghost var later := JoinAll(JoinOne(Patterns(), conn, patterns[i]).0, other, conn, patterns[i + 1..]).acks;
        var count := PSubscribeOne(conn, patterns[i]);
        RepliesSnoc(OnPSubscribe, acks, Ack(patterns[i], count));
        assert acks + ([Ack(patterns[i], count)] + later) == acks + [Ack(patterns[i], count)] + later;
        messages := messages + [Reply(OnPSubscribe, Ack(patterns[i], count))];
        acks := acks + [Ack(patterns[i], count)];
      }
      JoinNoKeys(Patterns(), other, conn, patterns[|patterns|..], registry.Patterns(), tid);
      assert acks + [] == acks;
      TrieNoKeys(trie.nodes, Patterns(), conn, patterns[|patterns|..]);
    }

    method PSubscribeOne(conn: Conn, pattern: Key) returns (count: nat)
      requires PT.WellFormed(trie.nodes)
      modifies this, registry, trie
      ensures PT.WellFormed(trie.nodes) && trie.nodes == TrieJoin(old(trie.nodes), old(Patterns()), conn, pattern)
      ensures Patterns() == JoinOne(old(Patterns()), conn, pattern).0
      ensures registry.Patterns() == ApplyAll(old(registry.Patterns()), tid, JoinOne(old(Patterns()), conn, pattern).1)
      ensures count == |Keys(Patterns(), conn)| + |Keys(Channels(), conn)|
      ensures Channels() == old(Channels()) && registry.Channels() == old(registry.Channels())
      ensures registry.inboxes == old(registry.inboxes)
    {
      hide Apply, ApplyAll, PT.WellFormed, PT.Place;
      JoinCalls(Patterns(), conn, pattern, registry.Patterns(), tid);
      var isNew := pattern !in patternSubs;
      var already := pattern in patternSubs && conn in patternSubs[pattern];
      if !already {
        trie.Insert(pattern, conn);
        patternSubs := patternSubs[pattern := (if pattern in patternSubs then patternSubs[pattern] else []) + [conn]];
        var known := if conn in connectionPatterns then connectionPatterns[conn] else [];
        connectionPatterns := connectionPatterns[conn := known + [pattern]];
        registry.IncrementPatternSubscribers(pattern, tid);
      }
      if isNew {
        registry.AddPatternInterest(pattern, tid);
      }
      count := SubscriptionCount(conn);
    }

    method PUnsubscribe(conn: Conn, patterns: Option<seq<Key>>) returns (messages: seq<PubSubMessage>)
      requires PT.WellFormed(trie.nodes)
      modifies this, registry, trie
      ensures var gone := if patterns.Some? then patterns.value else Keys(old(Patterns()), conn);
              PT.WellFormed(trie.nodes) && trie.nodes == TrieLeaveAll(old(trie.nodes), conn, gone)
      ensures var other := |Keys(old(Channels()), conn)|;
              var change := if patterns.Some? then LeaveAll(old(Patterns()), other, conn, patterns.value)
                            else LeaveEverything(old(Patterns()), other, conn);
              && Patterns() == change.side && messages == Replies(OnPUnsubscribe, change.acks)
              && registry.Patterns() == ApplyAll(old(registry.Patterns()), tid, change.calls)
      ensures Channels() == old(Channels()) && registry.Channels() == old(registry.Channels())
      ensures registry.inboxes == old(registry.inboxes)
    {
      match patterns
      case Some(names) =>
        messages := PUnsubscribeEach(conn, names);
      case None =>
        messages := PUnsubscribeFromAll(conn);
    }

    /** The loop over the named patterns. */
    method PUnsubscribeEach(conn: Conn, patterns: seq<Key>) returns (messages: seq<PubSubMessage>)
      requires PT.WellFormed(trie.nodes)
      modifies this, registry, trie
      ensures PT.WellFormed(trie.nodes) && trie.nodes == TrieLeaveAll(old(trie.nodes), conn, patterns)
      ensures var change := LeaveAll(old(Patterns()), |Keys(old(Channels()), conn)|, conn, patterns);
              && Patterns() == change.side && messages == Replies(OnPUnsubscribe, change.acks)
              && registry.Patterns() == ApplyAll(old(registry.Patterns()), tid, change.calls)
      ensures Channels() == old(Channels()) && registry.Channels() == old(registry.Channels())
      ensures registry.inboxes == old(registry.inboxes)
    {
      hide *;
      messages := [];
      ghost var other := |Keys(Channels(), conn)|;
      ghost var whole := LeaveAll(Patterns(), other, conn, patterns);
      ghost var acks := [];
      assert patterns[0..] == patterns && acks + whole.acks == whole.acks;
      RepliesNone(OnPUnsubscribe);
      for i := 0 to |patterns|
        invariant Channels() == old(Channels()) && registry.Channels() == old(registry.Channels())
        invariant registry.inboxes == old(registry.inboxes)
        invariant LeaveAll(Patterns(), other, conn, patterns[i..]).side == whole.side
        invariant acks + LeaveAll(Patterns(), other, conn, patterns[i..]).acks == whole.acks
        invariant ApplyAll(registry.Patterns(), tid, LeaveAll(Patterns(), other, conn, patterns[i..]).calls)
            == ApplyAll(old(registry.Patterns()), tid, whole.calls)
        invariant PT.WellFormed(trie.nodes)
        invariant TrieLeaveAll(trie.nodes, conn, patterns[i..]) == TrieLeaveAll(old(trie.nodes), conn, patterns)
        invariant messages == Replies(OnPUnsubscribe, acks)
      {
        LeaveAllStep(Patterns(), other, conn, patterns, i, registry.Patterns(), tid);
        TrieLeaveStep(trie.nodes, conn, patterns, i);
        ghost var later := LeaveAll(LeaveOne(Patterns(), conn, patterns[i]).0, other, conn, patterns[i + 1..]).acks;
        var count := PUnsubscribeOne(conn, patterns[i]);
        RepliesSnoc(OnPUnsubscribe, acks, Ack(patterns[i], count));
        assert acks + ([Ack(patterns[i], count)] + later) == acks + [Ack(patterns[i], count)] + later;
        messages := messages + [Reply(OnPUnsubscribe, Ack(patterns[i], count))];
        acks := acks + [Ack(patterns[i], count)];
      }
      LeaveNoKeys(Patterns(), other, conn, patterns[|patterns|..], registry.Patterns(), tid);
      assert acks + [] == acks;
      TrieLeaveNone(trie.nodes, conn, patterns[|patterns|..]);
    }

    method PUnsubscribeOne(conn: Conn, pattern: Key) returns (count: nat)
      requires PT.WellFormed(trie.nodes)
      modifies this, registry, trie
      ensures var e := PT.Entry(pattern, conn);
              PT.WellFormed(trie.nodes) && trie.nodes == PT.Removed(old(trie.nodes), PT.Home(e), e)
      ensures Patterns() == LeaveOne(old(Patterns()), conn, pattern).0
      ensures registry.Patterns() == ApplyAll(old(registry.Patterns()), tid, LeaveOne(old(Patterns()), conn, pattern).1)
      ensures count == |Keys(Patterns(), conn)| + |Keys(Channels(), conn)|
      ensures Channels() == old(Channels()) && registry.Channels() == old(registry.Channels())
      ensures registry.inboxes == old(registry.inboxes)
    {
      hide Apply, ApplyAll, PT.WellFormed, PT.Removed, PT.Home;
      DropCalls(patternSubs, conn, pattern, registry.Patterns(), tid);
      var removed := trie.Remove(pattern, conn);
      var removeInterest := false;
      if pattern in patternSubs {
        var wasSubscribed := conn in patternSubs[pattern];
        var left := Without(patternSubs[pattern], conn);
        if wasSubscribed {
          registry.DecrementPatternSubscribers(pattern, tid);
        }
        if left == [] {
          patternSubs := patternSubs - {pattern};
          removeInterest := true;
        } else {
          patternSubs := patternSubs[pattern := left];
        }
      }
      if conn in connectionPatterns {
        connectionPatterns := connectionPatterns[conn := Without(connectionPatterns[conn], pattern)];
      }
      if removeInterest {
        registry.RemovePatternInterest(pattern, tid);
      }
      count := SubscriptionCount(conn);
    }

    /** The loop over everything the connection was subscribed to. */
    method PUnsubscribeFromAll(conn: Conn) returns (messages: seq<PubSubMessage>)
      requires PT.WellFormed(trie.nodes)
      modifies this, registry, trie
      ensures PT.WellFormed(trie.nodes)
      ensures trie.nodes == TrieLeaveAll(old(trie.nodes), conn, Keys(old(Patterns()), conn))
      ensures var change := LeaveEverything(old(Patterns()), |Keys(old(Channels()), conn)|, conn);
              && Patterns() == change.side && messages == Replies(OnPUnsubscribe, change.acks)
              && registry.Patterns() == ApplyAll(old(registry.Patterns()), tid, change.calls)
      ensures Channels() == old(Channels()) && registry.Channels() == old(registry.Channels())
      ensures registry.inboxes == old(registry.inboxes)
    {
      messages := [];
      ghost var other := |Keys(Channels(), conn)|;
      var patterns := if conn in connectionPatterns then connectionPatterns[conn] else [];
      connectionPatterns := connectionPatterns - {conn};
      ghost var whole := DropAll(patternSubs, conn, patterns);
      assert patterns[0..] == patterns && FlatAcks(patterns[..0], other) == [];
      RepliesNone(OnPUnsubscribe);
      hide DropAll, ApplyAll, DropSub, TrieLeaveAll, PT.WellFormed, PT.Removed, Replies, FlatAcks;
      for i := 0 to |patterns|
        invariant Channels() == old(Channels()) && registry.Channels() == old(registry.Channels())
        invariant registry.inboxes == old(registry.inboxes)
        invariant connectionPatterns == old(connectionPatterns) - {conn}
        invariant DropAll(patternSubs, conn, patterns[i..]).0 == whole.0
        invariant ApplyAll(registry.Patterns(), tid, DropAll(patternSubs, conn, patterns[i..]).1)
            == ApplyAll(old(registry.Patterns()), tid, whole.1)
        invariant PT.WellFormed(trie.nodes)
        invariant TrieLeaveAll(trie.nodes, conn, patterns[i..]) == TrieLeaveAll(old(trie.nodes), conn, patterns)
        invariant messages == Replies(OnPUnsubscribe, FlatAcks(patterns[..i], other))
      {
        DropAllStep(patternSubs, conn, patterns, i, registry.Patterns(), tid);
        TrieLeaveStep(trie.nodes, conn, patterns, i);
        var count := PUnsubscribeDropped(conn, patterns[i]);
        FlatAcksSnoc(patterns, i, other);
        RepliesSnoc(OnPUnsubscribe, FlatAcks(patterns[..i], other), Ack(patterns[i], other));
        messages := messages + [Reply(OnPUnsubscribe, Ack(patterns[i], count))];
      }
      assert patterns[..|patterns|] == patterns;
      DropNoKeys(patternSubs, conn, patterns[|patterns|..], registry.Patterns(), tid);
      TrieLeaveNone(trie.nodes, conn, patterns[|patterns|..]);
    }

    method PUnsubscribeDropped(conn: Conn, pattern: Key) returns (count: nat)
      requires PT.WellFormed(trie.nodes)
      requires conn !in connectionPatterns
      modifies this, registry, trie
      ensures var e := PT.Entry(pattern, conn);
              PT.WellFormed(trie.nodes) && trie.nodes == PT.Removed(old(trie.nodes), PT.Home(e), e)
      ensures patternSubs == DropSub(old(patternSubs), conn, pattern).0 && connectionPatterns == old(connectionPatterns)
      ensures registry.Patterns() == ApplyAll(old(registry.Patterns()), tid, DropSub(old(patternSubs), conn, pattern).1)
      ensures count == |Keys(Channels(), conn)|
      ensures Channels() == old(Channels()) && registry.Channels() == old(registry.Channels())
      ensures registry.inboxes == old(registry.inboxes)
    {
      hide Apply, ApplyAll, PT.WellFormed, PT.Removed, PT.Home;
      DropCalls(patternSubs, conn, pattern, registry.Patterns(), tid);
      var removed := trie.Remove(pattern, conn);
      if pattern in patternSubs {
        var wasSubscribed := conn in patternSubs[pattern];
        var left := Without(patternSubs[pattern], conn);
        if wasSubscribed {
          registry.DecrementPatternSubscribers(pattern, tid);
        }
        if left == [] {
          patternSubs := patternSubs - {pattern};
          registry.RemovePatternInterest(pattern, tid);
        } else {
          patternSubs := patternSubs[pattern := left];
        }
      }
      count := SubscriptionCount(conn);
    }

    method ConnectionDropped(conn: Conn)
      requires PT.WellFormed(trie.nodes)
      modifies this, registry, trie
      ensures PT.WellFormed(trie.nodes)
      ensures trie.nodes == TrieLeaveAll(old(trie.nodes), conn, Keys(old(Patterns()), conn))
      ensures Channels() == LeaveEverything(old(Channels()), 0, conn).side
      ensures Patterns() == LeaveEverything(old(Patterns()), 0, conn).side
      ensures registry.Channels()
          == ApplyAll(old(registry.Channels()), tid, LeaveEverything(old(Channels()), 0, conn).calls)
      ensures registry.Patterns()
          == ApplyAll(old(registry.Patterns()), tid, LeaveEverything(old(Patterns()), 0, conn).calls)
    {
      var left := Unsubscribe(conn, None);
      left := PUnsubscribe(conn, None);
    }

    /** Local delivery of one published message. */
    method PublishLocal(channel: Key, payload: bytes) returns (deliveries: seq<Delivery>)
      requires PT.WellFormed(trie.nodes)
      ensures deliveries == LocalDeliveries(Channels(), trie.nodes, channel, payload)
    {
      deliveries := [];
      if channel in exactSubs {
        var subs := exactSubs[channel];
        for i := 0 to |subs|
          invariant deliveries == Messages(subs[..i], channel, payload)
        {
          deliveries := deliveries + [Delivery(subs[i], Message(channel, payload))];
        }
        assert subs[..|subs|] == subs;
      }
      var found := trie.FindMatches(channel);
      deliveries := AppendPatternMessages(deliveries, found, channel, payload);
    }

    static method AppendPatternMessages(deliveries: seq<Delivery>, found: seq<PT.Entry>, channel: Key,
            payload: bytes) returns (all: seq<Delivery>)
      ensures all == deliveries + PatternMessages(found, channel, payload)
    {
      all := deliveries;
      for i := 0 to |found|
        invariant all == deliveries + PatternMessages(found[..i], channel, payload)
      {
        all := all + [Delivery(found[i].conn, PatternMessage(found[i].pattern, channel, payload))];
      }
      assert found[..|found|] == found;
    }

    /** Drains this worker's inbox. */
    method ProcessInbox() returns (deliveries: seq<Delivery>)
      requires PT.WellFormed(trie.nodes) && tid < |registry.inboxes|
      modifies registry
      ensures deliveries == HandledAll(tid, Channels(), trie.nodes, old(registry.inboxes)[tid])
      ensures registry.inboxes == old(registry.inboxes)[tid := []]
      ensures registry.Channels() == old(registry.Channels()) && registry.Patterns() == old(registry.Patterns())
    {
      hide *;
      deliveries := [];
      TrieHasRoot(trie.nodes);
      ghost var whole := HandledAll(tid, Channels(), trie.nodes, registry.inboxes[tid]);
      assert [] + whole == whole;
      while registry.inboxes[tid] != []
        invariant tid < |registry.inboxes| && registry.inboxes == old(registry.inboxes)[tid := registry.inboxes[tid]]
        invariant registry.Channels() == old(registry.Channels()) && registry.Patterns() == old(registry.Patterns())
        invariant deliveries + HandledAll(tid, Channels(), trie.nodes, registry.inboxes[tid]) == whole
        decreases |registry.inboxes[tid]|
      {
        HandledStep(deliveries, tid, Channels(), trie.nodes, registry.inboxes[tid]);
        var msg := NextMessage();
        var more := Handle(msg);
        deliveries := deliveries + more;
      }
      HandledNone(tid, Channels(), trie.nodes);
    }

    method NextMessage() returns (msg: BroadcastMsg)
      requires tid < |registry.inboxes| && registry.inboxes[tid] != []
      modifies registry
      ensures msg == old(registry.inboxes[tid])[0]
      ensures registry.inboxes == old(registry.inboxes)[tid := old(registry.inboxes[tid])[1..]]
      ensures registry.Channels() == old(registry.Channels()) && registry.Patterns() == old(registry.Patterns())
    {
      msg := registry.inboxes[tid][0];
      registry.inboxes := registry.inboxes[tid := registry.inboxes[tid][1..]];
    }

    method Handle(msg: BroadcastMsg) returns (deliveries: seq<Delivery>)
      requires PT.WellFormed(trie.nodes)
      ensures deliveries == Handled(tid, Channels(), trie.nodes, msg)
    {
      deliveries := [];
      if msg.exclude != Some(tid) {
        match msg
        case Publish(channel, payload, _) =>
          deliveries := PublishLocal(channel, payload);
        case PatternPublish(channel, payload, _) =>
          var found := trie.FindMatches(channel);
          deliveries := AppendPatternMessages(deliveries, found, channel, payload);
      }
    }
  }
}
