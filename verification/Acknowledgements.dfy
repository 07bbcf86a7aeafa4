/** What a client is told for each channel or pattern it names, in order and with the right count. */
module Acknowledgements {
  import opened Subscriptions
  import opened PubSub

  /** Subscriptions of the connection once the first `n` keys have been joined, and `other` ones besides. */
  function Joined(side: Side, other: nat, conn: Conn, keys: seq<Key>, n: nat): nat
    requires n <= |keys|
  {
    |Keys(JoinAll(side, other, conn, keys[..n]).side, conn)| + other
  }

  function Left(side: Side, other: nat, conn: Conn, keys: seq<Key>, n: nat): nat
    requires n <= |keys|
  {
    |Keys(LeaveAll(side, other, conn, keys[..n]).side, conn)| + other
  }

  lemma {:induction false} JoinAckAt(side: Side, other: nat, conn: Conn, keys: seq<Key>, i: nat)
    requires i < |keys|
    ensures var acks := JoinAll(side, other, conn, keys).acks;
      |acks| == |keys| && acks[i] == Ack(keys[i], Joined(side, other, conn, keys, i + 1))
    decreases |keys|
  {
    hide JoinOne;
    var next := JoinOne(side, conn, keys[0]).0;
    if i == 0 {
      assert keys[..1][1..] == [] && keys[..1][0] == keys[0];
      assert JoinAll(next, other, conn, []).side == next;
      assert JoinAll(side, other, conn, keys[..1]).side == JoinAll(next, other, conn, keys[..1][1..]).side;
      if |keys| > 1 {
        JoinAckAt(next, other, conn, keys[1..], 0);
      }
    } else {
      JoinAckAt(next, other, conn, keys[1..], i - 1);
      assert keys[..i + 1][1..] == keys[1..][..i];
    }
  }

  lemma {:induction false} LeaveAckAt(side: Side, other: nat, conn: Conn, keys: seq<Key>, i: nat)
    requires i < |keys|
    ensures var acks := LeaveAll(side, other, conn, keys).acks;
      |acks| == |keys| && acks[i] == Ack(keys[i], Left(side, other, conn, keys, i + 1))
    decreases |keys|
  {
    hide LeaveOne;
    var next := LeaveOne(side, conn, keys[0]).0;
    if i == 0 {
      assert keys[..1][1..] == [] && keys[..1][0] == keys[0];
      assert LeaveAll(next, other, conn, []).side == next;
      assert LeaveAll(side, other, conn, keys[..1]).side == LeaveAll(next, other, conn, keys[..1][1..]).side;
      if |keys| > 1 {
        LeaveAckAt(next, other, conn, keys[1..], 0);
      }
    } else {
      LeaveAckAt(next, other, conn, keys[1..], i - 1);
      assert keys[..i + 1][1..] == keys[1..][..i];
    }
  }

  /** Every acknowledgement is of the kind of its request, and names what was asked for in that place. */
  lemma {:induction false} JoinMessages(side: Side, other: nat, conn: Conn, keys: seq<Key>, i: nat)
    requires i < |keys|
    ensures var acks := JoinAll(side, other, conn, keys).acks;
      |Replies(OnSubscribe, acks)| == |Replies(OnPSubscribe, acks)| == |keys|
      && Replies(OnSubscribe, acks)[i] == Subscribed(keys[i], Joined(side, other, conn, keys, i + 1))
      && Replies(OnPSubscribe, acks)[i] == PSubscribed(keys[i], Joined(side, other, conn, keys, i + 1))
  {
    hide JoinAll;
    JoinAckAt(side, other, conn, keys, i);
  }

  lemma {:induction false} LeaveMessages(side: Side, other: nat, conn: Conn, keys: seq<Key>, i: nat)
    requires i < |keys|
    ensures var acks := LeaveAll(side, other, conn, keys).acks;
      |Replies(OnUnsubscribe, acks)| == |Replies(OnPUnsubscribe, acks)| == |keys|
      && Replies(OnUnsubscribe, acks)[i] == Unsubscribed(keys[i], Left(side, other, conn, keys, i + 1))
      && Replies(OnPUnsubscribe, acks)[i] == PUnsubscribed(keys[i], Left(side, other, conn, keys, i + 1))
  {
    hide LeaveAll;
    LeaveAckAt(side, other, conn, keys, i);
  }

  /** Without arguments: one acknowledgement for each key held, with the count of the other kind. */
  lemma LeaveEverythingMessages(side: Side, other: nat, conn: Conn, i: nat)
    requires i < |Keys(side, conn)|
    ensures var acks, keys := LeaveEverything(side, other, conn).acks, Keys(side, conn);
      |Replies(OnUnsubscribe, acks)| == |Replies(OnPUnsubscribe, acks)| == |keys|
      && Replies(OnUnsubscribe, acks)[i] == Unsubscribed(keys[i], other)
      && Replies(OnPUnsubscribe, acks)[i] == PUnsubscribed(keys[i], other)
  {
    hide DropAll;
  }

  /** A key joined twice, or left without having been joined, leaves the count alone. */
  lemma CountsOnce(side: Side, conn: Conn, key: Key)
    requires SideOk(side)
    ensures |Keys(JoinOne(side, conn, key).0, conn)| == |Keys(side, conn)| + if key in Keys(side, conn) then 0 else 1
    ensures |Keys(LeaveOne(side, conn, key).0, conn)| == |Keys(side, conn)| - if key in Keys(side, conn) then 1 else 0
  {
    hide DropSub, SubsOk;
    WithoutSize(Keys(side, conn), key);
  }

  lemma {:induction false} WithoutSize(s: seq<Key>, x: Key)
    requires NoDuplicates(s)
    ensures |Without(s, x)| == |s| - if x in s then 1 else 0
  {
    if s != [] {
      assert NoDuplicates(s[1..]);
      WithoutSize(s[1..], x);
      if s[0] == x {
        assert x !in s[1..];
      }
    }
  }
}
