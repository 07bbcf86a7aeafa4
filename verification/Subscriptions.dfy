/**
 One worker's subscriptions to channels, or to patterns: the forward index, the reverse
 index, and the registry calls that each change issues. Channels and patterns are kept by
 the same code twice; this module describes it once.
 */
module Subscriptions {
  import opened Bytes

  type Key = bytes
  type Conn = nat

  /** `exact_subs`/`connection_channels`, or `pattern_subs`/`connection_patterns`. */
  datatype Side = Side(subs: map<Key, seq<Conn>>, byConn: map<Conn, seq<Key>>)

  /** The calls a worker makes on the shared registry. */
  datatype Call = Increment(key: Key) | Decrement(key: Key) | AddInterest(key: Key) | RemoveInterest(key: Key)

  /** The reply to one channel or pattern: its name and the connection's subscription count. */
  datatype Ack = Ack(key: Key, count: nat)

  datatype Change = Change(side: Side, calls: seq<Call>, acks: seq<Ack>)

  function Subs(side: Side, key: Key): seq<Conn> {
    if key in side.subs then side.subs[key] else []
  }

  function Keys(side: Side, conn: Conn): seq<Key> {
    if conn in side.byConn then side.byConn[conn] else []
  }

  /** `retain(|y| y != x)`. */
  function Without<T(==,!new)>(s: seq<T>, x: T): (r: seq<T>)
    ensures x !in r
    ensures forall y :: y != x ==> (y in r <==> y in s)
  {
    if s == [] then [] else if s[0] == x then Without(s[1..], x) else [s[0]] + Without(s[1..], x)
  }

  // ---------------------------------------------------------------- subscribe

  function JoinOne(side: Side, conn: Conn, key: Key): (Side, seq<Call>) {
    if conn in Subs(side, key) then (side, [])
    else
      (Side(side.subs[key := Subs(side, key) + [conn]], side.byConn[conn := Keys(side, conn) + [key]]),
       [Increment(key)] + (if key in side.subs then [] else [AddInterest(key)]))
  }

  /** `other` is the connection's number of subscriptions of the other kind. */
  function JoinAll(side: Side, other: nat, conn: Conn, keys: seq<Key>): Change
    decreases |keys|
  {
    if keys == [] then Change(side, [], [])
    else
      var (next, calls) := JoinOne(side, conn, keys[0]);
      var rest := JoinAll(next, other, conn, keys[1..]);
      Change(rest.side, calls + rest.calls, [Ack(keys[0], |Keys(next, conn)| + other)] + rest.acks)
  }

  // ---------------------------------------------------------------- unsubscribe

  function DropSub(subs: map<Key, seq<Conn>>, conn: Conn, key: Key): (map<Key, seq<Conn>>, seq<Call>) {
    if key !in subs then (subs, [])
    else
      var left := Without(subs[key], conn);
      var calls := if conn in subs[key] then [Decrement(key)] else [];
      if left == [] then (subs - {key}, calls + [RemoveInterest(key)]) else (subs[key := left], calls)
  }

  function LeaveOne(side: Side, conn: Conn, key: Key): (Side, seq<Call>) {
    var (subs, calls) := DropSub(side.subs, conn, key);
    var byConn := if conn in side.byConn then side.byConn[conn := Without(side.byConn[conn], key)] else side.byConn;
    (Side(subs, byConn), calls)
  }

  function LeaveAll(side: Side, other: nat, conn: Conn, keys: seq<Key>): Change
    decreases |keys|
  {
    if keys == [] then Change(side, [], [])
    else
      var (next, calls) := LeaveOne(side, conn, keys[0]);
      var rest := LeaveAll(next, other, conn, keys[1..]);
      Change(rest.side, calls + rest.calls, [Ack(keys[0], |Keys(next, conn)| + other)] + rest.acks)
  }

  function DropAll(subs: map<Key, seq<Conn>>, conn: Conn, keys: seq<Key>): (map<Key, seq<Conn>>, seq<Call>)
    decreases |keys|
  {
    if keys == [] then (subs, [])
    else
      var (next, calls) := DropSub(subs, conn, keys[0]);
      var (last, more) := DropAll(next, conn, keys[1..]);
      (last, calls + more)
  }

  function FlatAcks(keys: seq<Key>, count: nat): seq<Ack> {
    seq(|keys|, i requires 0 <= i < |keys| => Ack(keys[i], count))
  }

  /** Without arguments: the reverse index gives up the connection first. */
  function LeaveEverything(side: Side, other: nat, conn: Conn): Change {
    var keys := Keys(side, conn);
    var (subs, calls) := DropAll(side.subs, conn, keys);
    Change(Side(subs, side.byConn - {conn}), calls, FlatAcks(keys, other))
  }

  // ---------------------------------------------------------------- the two indexes agree

  ghost predicate NoDuplicates<T>(s: seq<T>) {
    forall i, j :: 0 <= i < j < |s| ==> s[i] != s[j]
  }

  ghost predicate SubsOk(subs: map<Key, seq<Conn>>) {
    forall k :: k in subs ==> subs[k] != [] && NoDuplicates(subs[k])
  }

  /** Duplicate-free inverse relations, with no empty entry in the forward index. */
  ghost predicate SideOk(side: Side) {
    && SubsOk(side.subs)
    && (forall c :: c in side.byConn ==> NoDuplicates(side.byConn[c]))
    && (forall k, c :: c in Subs(side, k) <==> k in Keys(side, c))
  }

  lemma {:induction false} WithoutOnce<T(!new)>(s: seq<T>, x: T)
    requires NoDuplicates(s)
    ensures NoDuplicates(Without(s, x))
    ensures |Without(s, x)| == if x in s then |s| - 1 else |s|
    ensures x !in s ==> Without(s, x) == s
  {
    if s != [] {
      WithoutOnce(s[1..], x);
      assert s == [s[0]] + s[1..];
      if s[0] != x {
        var rest := Without(s[1..], x);
        forall j | 0 <= j < |rest|
          ensures rest[j] != s[0]
        {
          assert rest[j] in rest;
        }
      }
    }
  }

  lemma SnocDistinct<T>(s: seq<T>, x: T)
    requires NoDuplicates(s) && x !in s
    ensures NoDuplicates(s + [x])
  {
  }

  lemma JoinOneOk(side: Side, conn: Conn, key: Key)
    requires SideOk(side)
    ensures SideOk(JoinOne(side, conn, key).0)
  {
    if conn !in Subs(side, key) {
      assert key !in Keys(side, conn);
      SnocDistinct(Subs(side, key), conn);
      SnocDistinct(Keys(side, conn), key);
      var after := JoinOne(side, conn, key).0;
      forall k, c
        ensures c in Subs(after, k) <==> k in Keys(after, c)
      {
        assert c in Subs(side, k) <==> k in Keys(side, c);
      }
    }
  }

  lemma {:induction false} JoinAllOk(side: Side, other: nat, conn: Conn, keys: seq<Key>)
    requires SideOk(side)
    ensures SideOk(JoinAll(side, other, conn, keys).side)
    decreases |keys|
  {
    if keys != [] {
      JoinOneOk(side, conn, keys[0]);
      JoinAllOk(JoinOne(side, conn, keys[0]).0, other, conn, keys[1..]);
    }
  }

  lemma DropSubOk(subs: map<Key, seq<Conn>>, conn: Conn, key: Key)
    requires SubsOk(subs)
    ensures var after := DropSub(subs, conn, key).0;
            && SubsOk(after)
            && (forall k, c :: (k in after && c in after[k]) <==> k in subs && c in subs[k] && !(k == key && c == conn))
  {
    if key in subs {
      WithoutOnce(subs[key], conn);
      if Without(subs[key], conn) == [] {
        assert forall c :: c != conn ==> (c in Without(subs[key], conn) <==> c in subs[key]);
      }
    }
  }

  lemma LeaveOneOk(side: Side, conn: Conn, key: Key)
    requires SideOk(side)
    ensures SideOk(LeaveOne(side, conn, key).0)
  {
    DropSubOk(side.subs, conn, key);
    if conn in side.byConn {
      WithoutOnce(side.byConn[conn], key);
    }
    var after := LeaveOne(side, conn, key).0;
    forall k, c
      ensures c in Subs(after, k) <==> k in Keys(after, c)
    {
      assert c in Subs(side, k) <==> k in Keys(side, c);
    }
  }

  lemma {:induction false} LeaveAllOk(side: Side, other: nat, conn: Conn, keys: seq<Key>)
    requires SideOk(side)
    ensures SideOk(LeaveAll(side, other, conn, keys).side)
    decreases |keys|
  {
    if keys != [] {
      LeaveOneOk(side, conn, keys[0]);
      LeaveAllOk(LeaveOne(side, conn, keys[0]).0, other, conn, keys[1..]);
    }
  }

  lemma {:induction false} DropAllOk(subs: map<Key, seq<Conn>>, conn: Conn, keys: seq<Key>)
    requires SubsOk(subs)
    ensures var after := DropAll(subs, conn, keys).0;
            && SubsOk(after)
            && (forall k, c ::
              (k in after && c in after[k]) <==> k in subs && c in subs[k] && !(k in keys && c == conn))
    decreases |keys|
  {
    if keys != [] {
      var next := DropSub(subs, conn, keys[0]).0;
      DropSubOk(subs, conn, keys[0]);
      DropAllOk(next, conn, keys[1..]);
      hide DropSub, SubsOk;
      assert forall k :: k in keys <==> k == keys[0] || k in keys[1..];
    }
  }

  lemma LeaveEverythingOk(side: Side, other: nat, conn: Conn)
    requires SideOk(side)
    ensures SideOk(LeaveEverything(side, other, conn).side)
  {
    var after := LeaveEverything(side, other, conn).side;
    DropAllOk(side.subs, conn, Keys(side, conn));
    hide DropAll;
    forall k, c
      ensures c in Subs(after, k) <==> k in Keys(after, c)
    {
      assert c in Subs(side, k) <==> k in Keys(side, c);
    }
  }

  // ---------------------------------------------------------------- what the registry is told

  /** The registry's knowledge of one worker: its counts and its interest. */
  datatype Told = Told(counts: map<Key, nat>, interest: set<Key>)

  ghost function View(subs: map<Key, seq<Conn>>): Told {
    Told(map k | k in subs :: |subs[k]|, subs.Keys)
  }

  function Count(counts: map<Key, nat>, key: Key): nat {
    if key in counts then counts[key] else 0
  }

  function Tell(told: Told, call: Call): Told {
    match call
    case Increment(k) => told.(counts := told.counts[k := Count(told.counts, k) + 1])
    case Decrement(k) =>
      if Count(told.counts, k) <= 1 then told.(counts := told.counts - {k})
      else told.(counts := told.counts[k := told.counts[k] - 1])
    case AddInterest(k) => told.(interest := told.interest + {k})
    case RemoveInterest(k) => told.(interest := told.interest - {k})
  }

  ghost function TellAll(told: Told, calls: seq<Call>): Told
    decreases |calls|
  {
    if calls == [] then told else TellAll(Tell(told, calls[0]), calls[1..])
  }

  /** A worker only takes back what it has added. */
  ghost predicate Legal(told: Told, call: Call) {
    call.Decrement? ==> Count(told.counts, call.key) > 0
  }

  ghost predicate LegalAll(told: Told, calls: seq<Call>)
    decreases |calls|
  {
    calls == [] || (Legal(told, calls[0]) && LegalAll(Tell(told, calls[0]), calls[1..]))
  }

  /** `calls` lead the registry's knowledge from one forward index to another. */
  ghost predicate Leads(before: map<Key, seq<Conn>>, calls: seq<Call>, after: map<Key, seq<Conn>>) {
    LegalAll(View(before), calls) && TellAll(View(before), calls) == View(after)
  }

  lemma {:induction false} TellAppend(told: Told, a: seq<Call>, b: seq<Call>)
    ensures TellAll(told, a + b) == TellAll(TellAll(told, a), b)
    ensures LegalAll(told, a + b) <==> LegalAll(told, a) && LegalAll(TellAll(told, a), b)
    decreases |a|
  {
    if a == [] {
      assert a + b == b;
    } else {
      assert (a + b)[1..] == a[1..] + b;
      TellAppend(Tell(told, a[0]), a[1..], b);
    }
  }

  lemma TellNone(told: Told)
    ensures TellAll(told, []) == told && LegalAll(told, [])
  {
  }

  lemma TellOne(told: Told, call: Call)
    ensures TellAll(told, [call]) == Tell(told, call)
    ensures LegalAll(told, [call]) <==> Legal(told, call)
  {
    assert [call][1..] == [];
  }

  lemma TellTwo(told: Told, a: Call, b: Call)
    ensures TellAll(told, [a] + [b]) == Tell(Tell(told, a), b)
    ensures LegalAll(told, [a] + [b]) <==> Legal(told, a) && Legal(Tell(told, a), b)
  {
    TellAppend(told, [a], [b]);
    TellOne(told, a);
    TellOne(Tell(told, a), b);
  }

  lemma JoinOneLeads(side: Side, conn: Conn, key: Key)
    requires SideOk(side)
    ensures var (after, calls) := JoinOne(side, conn, key); Leads(side.subs, calls, after.subs)
  {
    hide TellAll, LegalAll, SideOk;
    var (after, calls) := JoinOne(side, conn, key);
    var told := View(side.subs);
    if conn in Subs(side, key) {
      TellNone(told);
    } else if key in side.subs {
      assert calls == [Increment(key)];
      TellOne(told, Increment(key));
      assert Tell(told, Increment(key)).counts == View(after.subs).counts;
      assert after.subs.Keys == side.subs.Keys;
    } else {
      TellTwo(told, Increment(key), AddInterest(key));
      assert Tell(told, Increment(key)).counts == View(after.subs).counts;
      assert after.subs.Keys == side.subs.Keys + {key};
    }
  }

  lemma LeadsChain(a: map<Key, seq<Conn>>, first: seq<Call>, b: map<Key, seq<Conn>>, second: seq<Call>,
          c: map<Key, seq<Conn>>)
    requires Leads(a, first, b) && Leads(b, second, c)
    ensures Leads(a, first + second, c)
  {
    TellAppend(View(a), first, second);
  }

  lemma LeadsNowhere(subs: map<Key, seq<Conn>>)
    ensures Leads(subs, [], subs)
  {
  }

  lemma {:induction false} JoinAllLeads(side: Side, other: nat, conn: Conn, keys: seq<Key>)
    requires SideOk(side)
    ensures var change := JoinAll(side, other, conn, keys); Leads(side.subs, change.calls, change.side.subs)
    decreases |keys|
  {
    hide Leads, SideOk, JoinOne;
    if keys == [] {
      LeadsNowhere(side.subs);
    } else {
      var (next, calls) := JoinOne(side, conn, keys[0]);
      JoinOneLeads(side, conn, keys[0]);
      JoinOneOk(side, conn, keys[0]);
      JoinAllLeads(next, other, conn, keys[1..]);
      var rest := JoinAll(next, other, conn, keys[1..]);
      LeadsChain(side.subs, calls, next.subs, rest.calls, rest.side.subs);
    }
  }

  lemma DropSubLeads(subs: map<Key, seq<Conn>>, conn: Conn, key: Key)
    requires SubsOk(subs)
    ensures var (after, calls) := DropSub(subs, conn, key); Leads(subs, calls, after)
  {
    hide TellAll, LegalAll;
    var (after, calls) := DropSub(subs, conn, key);
    var told := View(subs);
    if key !in subs {
      TellNone(told);
    } else {
      WithoutOnce(subs[key], conn);
      if conn !in subs[key] {
        TellNone(told);
        assert after == subs;
      } else if |subs[key]| == 1 {
        TellTwo(told, Decrement(key), RemoveInterest(key));
        assert Tell(told, Decrement(key)).counts == View(after).counts;
        assert after.Keys == subs.Keys - {key};
      } else {
        assert calls == [Decrement(key)];
        TellOne(told, Decrement(key));
        assert Tell(told, Decrement(key)).counts == View(after).counts;
        assert after.Keys == subs.Keys;
      }
    }
  }

  lemma {:induction false} DropAllLeads(subs: map<Key, seq<Conn>>, conn: Conn, keys: seq<Key>)
    requires SubsOk(subs)
    ensures var (after, calls) := DropAll(subs, conn, keys); Leads(subs, calls, after)
    decreases |keys|
  {
    hide Leads, SubsOk, DropSub;
    if keys == [] {
      LeadsNowhere(subs);
    } else {
      var (next, calls) := DropSub(subs, conn, keys[0]);
      DropSubLeads(subs, conn, keys[0]);
      DropSubOk(subs, conn, keys[0]);
      DropAllLeads(next, conn, keys[1..]);
      var (last, more) := DropAll(next, conn, keys[1..]);
      LeadsChain(subs, calls, next, more, last);
    }
  }

  lemma {:induction false} LeaveAllLeads(side: Side, other: nat, conn: Conn, keys: seq<Key>)
    requires SideOk(side)
    ensures var change := LeaveAll(side, other, conn, keys); Leads(side.subs, change.calls, change.side.subs)
    decreases |keys|
  {
    if keys == [] {
      LeadsNowhere(side.subs);
    } else {
      var (next, calls) := LeaveOne(side, conn, keys[0]);
      DropSubLeads(side.subs, conn, keys[0]);
      LeaveOneOk(side, conn, keys[0]);
      hide Leads, SideOk, DropSub;
      LeaveAllLeads(next, other, conn, keys[1..]);
      var rest := LeaveAll(next, other, conn, keys[1..]);
      LeadsChain(side.subs, calls, next.subs, rest.calls, rest.side.subs);
    }
  }

  // ---------------------------------------------------------------- what a client is told

  /** After SUBSCRIBE the connection is subscribed to what it was and to every channel it named, and to nothing else. */
  lemma {:induction false} JoinAllKeys(side: Side, other: nat, conn: Conn, keys: seq<Key>)
    requires SideOk(side)
    ensures var after := JoinAll(side, other, conn, keys).side;
            forall k, c :: c in Subs(after, k) <==> c in Subs(side, k) || (c == conn && k in keys)
    decreases |keys|
  {
    if keys != [] {
      var next := JoinOne(side, conn, keys[0]).0;
      JoinOneOk(side, conn, keys[0]);
      JoinAllKeys(next, other, conn, keys[1..]);
      assert forall k, c :: c in Subs(next, k) <==> c in Subs(side, k) || (c == conn && k == keys[0]);
      hide SideOk, JoinOne;
      assert forall k :: k in keys <==> k == keys[0] || k in keys[1..];
    }
  }

  lemma {:induction false} LeaveAllKeys(side: Side, other: nat, conn: Conn, keys: seq<Key>)
    requires SideOk(side)
    ensures var after := LeaveAll(side, other, conn, keys).side;
            forall k, c :: c in Subs(after, k) <==> c in Subs(side, k) && !(c == conn && k in keys)
    decreases |keys|
  {
    if keys != [] {
      var next := LeaveOne(side, conn, keys[0]).0;
      LeaveOneOk(side, conn, keys[0]);
      DropSubOk(side.subs, conn, keys[0]);
      LeaveAllKeys(next, other, conn, keys[1..]);
      assert forall k, c :: c in Subs(next, k) <==> c in Subs(side, k) && !(c == conn && k == keys[0]);
      hide SideOk, DropSub;
      assert forall k :: k in keys <==> k == keys[0] || k in keys[1..];
    }
  }

  /** A dropped connection is gone from every channel and nobody else is touched. */
  lemma LeaveEverythingKeys(side: Side, other: nat, conn: Conn)
    requires SideOk(side)
    ensures var after := LeaveEverything(side, other, conn).side;
            forall k, c :: c in Subs(after, k) <==> c in Subs(side, k) && c != conn
  {
    DropAllOk(side.subs, conn, Keys(side, conn));
    assert forall k :: conn in Subs(side, k) <==> k in Keys(side, conn);
    hide DropAll;
  }
}
