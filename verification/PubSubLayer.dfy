/**
 * What the server does with the operations of one read: the worker's pub/sub manager carries
 * them out, and the connection takes over the subscription count of each acknowledgement.
 */
module PubSubLayer {
  import opened Bytes
  import opened Commands
  import opened Subscriptions

  /** The two indexes of the worker the connection belongs to. */
  datatype Hub = Hub(channels: Side, patterns: Side)

  /** The indexes after some operations, and the count the connection was given last. */
  datatype Standing = Standing(hub: Hub, count: nat)

  function LastCount(acks: seq<Ack>, count: nat): nat {
    if acks == [] then count else acks[|acks| - 1].count
  }

  function ChannelChange(hub: Hub, me: Conn, op: PubSubOp): Change {
    var others := |Keys(hub.patterns, me)|;
    match op
    case Subscribe(channels) => JoinAll(hub.channels, others, me, channels)
    case Unsubscribe(Some(named)) => LeaveAll(hub.channels, others, me, named)
    case Unsubscribe(None) => LeaveEverything(hub.channels, others, me)
    case _ => Change(hub.channels, [], [])
  }

  function PatternChange(hub: Hub, me: Conn, op: PubSubOp): Change {
    var others := |Keys(hub.channels, me)|;
    match op
    case PSubscribe(patterns) => JoinAll(hub.patterns, others, me, patterns)
    case PUnsubscribe(Some(named)) => LeaveAll(hub.patterns, others, me, named)
    case PUnsubscribe(None) => LeaveEverything(hub.patterns, others, me)
    case _ => Change(hub.patterns, [], [])
  }

  /** One operation; other operations than the four leave indexes and count alone. */
  function Tell(t: Standing, me: Conn, op: PubSubOp): Standing {
    var channels, patterns := ChannelChange(t.hub, me, op), PatternChange(t.hub, me, op);
    Standing(Hub(channels.side, patterns.side), LastCount(channels.acks + patterns.acks, t.count))
  }

  /** An acknowledgement as the client sees it. */
  datatype Notice = Notice(op: PubSubOp, ack: Ack)

  function NoticesOf(t: Standing, me: Conn, op: PubSubOp): seq<Notice> {
    var acks := ChannelChange(t.hub, me, op).acks + PatternChange(t.hub, me, op).acks;
    seq(|acks|, i requires 0 <= i < |acks| => Notice(op, acks[i]))
  }

  function TellAll(t: Standing, me: Conn, ops: seq<PubSubOp>): Standing {
    if ops == [] then t else Tell(TellAll(t, me, ops[..|ops| - 1]), me, ops[|ops| - 1])
  }

  lemma {:induction false} TellInTwo(t: Standing, me: Conn, a: seq<PubSubOp>, b: seq<PubSubOp>)
    ensures TellAll(t, me, a + b) == TellAll(TellAll(t, me, a), me, b)
    decreases |b|
  {
    hide Tell;
    if b == [] {
      assert a + b == a;
    } else {
      assert (a + b)[..|a + b| - 1] == a + b[..|b| - 1];
      TellInTwo(t, me, a, b[..|b| - 1]);
    }
  }

  function Notices(t: Standing, me: Conn, ops: seq<PubSubOp>): seq<Notice> {
    if ops == [] then []
    else
      var front := ops[..|ops| - 1];
      Notices(t, me, front) + NoticesOf(TellAll(t, me, front), me, ops[|ops| - 1])
  }

  lemma {:induction false} NoticesInTwo(t: Standing, me: Conn, a: seq<PubSubOp>, b: seq<PubSubOp>)
    ensures Notices(t, me, a + b) == Notices(t, me, a) + Notices(TellAll(t, me, a), me, b)
    decreases |b|
  {
    hide NoticesOf, TellAll;
    if b == [] {
      assert a + b == a;
    } else {
      assert (a + b)[..|a + b| - 1] == a + b[..|b| - 1];
      NoticesInTwo(t, me, a, b[..|b| - 1]);
      TellInTwo(t, me, a, b[..|b| - 1]);
    }
  }

  /** The operations that the layer answers on the spot; the others are acknowledged after all of them. */
  function Directs(ops: seq<PubSubOp>): seq<PubSubOp> {
    if ops == [] then []
    else
      var last := ops[|ops| - 1];
      Directs(ops[..|ops| - 1]) + if ChangesCount(last) then [] else [last]
  }

  lemma {:induction false} DirectsInTwo(a: seq<PubSubOp>, b: seq<PubSubOp>)
    ensures Directs(a + b) == Directs(a) + Directs(b)
    decreases |b|
  {
    if b == [] {
      assert a + b == a;
    } else {
      assert (a + b)[..|a + b| - 1] == a + b[..|b| - 1];
      DirectsInTwo(a, b[..|b| - 1]);
    }
  }

  /** The subscriptions the manager keeps for the connection. */
  function Held(hub: Hub, me: Conn): nat {
    |Keys(hub.channels, me)| + |Keys(hub.patterns, me)|
  }

  lemma {:induction false} JoinAcks(side: Side, other: nat, me: Conn, keys: seq<Key>)
    ensures var change := JoinAll(side, other, me, keys);
      |change.acks| == |keys|
      && (keys != [] ==> change.acks[|keys| - 1].count == |Keys(change.side, me)| + other)
    decreases |keys|
  {
    hide JoinOne;
    if keys != [] {
      JoinAcks(JoinOne(side, me, keys[0]).0, other, me, keys[1..]);
    }
  }

  lemma {:induction false} LeaveAcks(side: Side, other: nat, me: Conn, keys: seq<Key>)
    ensures var change := LeaveAll(side, other, me, keys);
      |change.acks| == |keys|
      && (keys != [] ==> change.acks[|keys| - 1].count == |Keys(change.side, me)| + other)
    decreases |keys|
  {
    hide LeaveOne;
    if keys != [] {
      LeaveAcks(LeaveOne(side, me, keys[0]).0, other, me, keys[1..]);
    }
  }

  lemma TellKeepsCount(t: Standing, me: Conn, op: PubSubOp)
    requires t.count == Held(t.hub, me)
    ensures Tell(t, me, op).count == Held(Tell(t, me, op).hub, me)
  {
    hide JoinAll, LeaveAll, DropAll;
    match op
    case Subscribe(channels) =>
      JoinAcks(t.hub.channels, |Keys(t.hub.patterns, me)|, me, channels);
      NothingNamed(t.hub.channels, |Keys(t.hub.patterns, me)|, me);
    case Unsubscribe(Some(named)) =>
      LeaveAcks(t.hub.channels, |Keys(t.hub.patterns, me)|, me, named);
      NothingNamed(t.hub.channels, |Keys(t.hub.patterns, me)|, me);
    case PSubscribe(patterns) =>
      JoinAcks(t.hub.patterns, |Keys(t.hub.channels, me)|, me, patterns);
      NothingNamed(t.hub.patterns, |Keys(t.hub.channels, me)|, me);
    case PUnsubscribe(Some(named)) =>
      LeaveAcks(t.hub.patterns, |Keys(t.hub.channels, me)|, me, named);
      NothingNamed(t.hub.patterns, |Keys(t.hub.channels, me)|, me);
    case _ =>
  }

  lemma NothingNamed(side: Side, other: nat, me: Conn)
    ensures JoinAll(side, other, me, []) == LeaveAll(side, other, me, []) == Change(side, [], [])
  {
  }

  /**
   * The count the connection is given is always the number of subscriptions the manager keeps for
   * it, whatever the operations: after joining twice, leaving what was never joined, leaving all.
   */
  lemma {:induction false} CountIsHeld(t: Standing, me: Conn, ops: seq<PubSubOp>)
    requires t.count == Held(t.hub, me)
    ensures TellAll(t, me, ops).count == Held(TellAll(t, me, ops).hub, me)
    decreases |ops|
  {
    hide Tell, Held;
    if ops != [] {
      CountIsHeld(t, me, ops[..|ops| - 1]);
      TellKeepsCount(TellAll(t, me, ops[..|ops| - 1]), me, ops[|ops| - 1]);
    }
  }

  // ---- Other connections of the worker. ----

  lemma {:induction false} JoinElsewhere(side: Side, n: nat, other: Conn, me: Conn, keys: seq<Key>)
    requires other != me
    ensures Keys(JoinAll(side, n, other, keys).side, me) == Keys(side, me)
    decreases |keys|
  {
    if keys != [] {
      JoinElsewhere(JoinOne(side, other, keys[0]).0, n, other, me, keys[1..]);
    }
  }

  lemma {:induction false} LeaveElsewhere(side: Side, n: nat, other: Conn, me: Conn, keys: seq<Key>)
    requires other != me
    ensures Keys(LeaveAll(side, n, other, keys).side, me) == Keys(side, me)
    decreases |keys|
  {
    if keys != [] {
      LeaveElsewhere(LeaveOne(side, other, keys[0]).0, n, other, me, keys[1..]);
    }
  }

  /** What another connection joins or leaves does not count for this one. */
  lemma {:induction false} OthersDoNotCount(t: Standing, other: Conn, me: Conn, op: PubSubOp)
    requires other != me
    ensures Held(Tell(t, other, op).hub, me) == Held(t.hub, me)
  {
    hide JoinAll, LeaveAll, DropAll;
    match op
    case Subscribe(channels) => JoinElsewhere(t.hub.channels, |Keys(t.hub.patterns, other)|, other, me, channels);
    case Unsubscribe(Some(named)) => LeaveElsewhere(t.hub.channels, |Keys(t.hub.patterns, other)|, other, me, named);
    case PSubscribe(patterns) => JoinElsewhere(t.hub.patterns, |Keys(t.hub.channels, other)|, other, me, patterns);
    case PUnsubscribe(Some(named)) => LeaveElsewhere(t.hub.patterns, |Keys(t.hub.channels, other)|, other, me, named);
    case _ =>
  }
}
