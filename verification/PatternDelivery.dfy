/**
 * Pattern subscribers and what they get. The trie of a worker is the one its history of
 * subscribing and unsubscribing makes, so the exact condition under which the trie search is
 * right is the condition under which a pattern subscriber gets the messages its pattern matches.
 */
module PatternDelivery {
  import opened Bytes
  import opened Pattern
  import opened Subscriptions
  import opened Registry
  import opened PubSub
  import opened PubSubSystem
  import opened Publish
  import TH = TrieHistory
  import TE = TrieExact
  import PT = PatternTrie

  // ---------------------------------------------------------------- the history of a worker's trie

  /** PSUBSCRIBE inserts the patterns the connection does not have yet. */
  ghost function JoinOps(side: Side, conn: Conn, keys: seq<Key>): seq<TH.Op>
    decreases |keys|
  {
    if keys == [] then []
    else
      (if conn in Subs(side, keys[0]) then [] else [TH.Insert(keys[0], conn)])
      + JoinOps(JoinOne(side, conn, keys[0]).0, conn, keys[1..])
  }

  ghost function LeaveOps(conn: Conn, keys: seq<Key>): seq<TH.Op>
    decreases |keys|
  {
    if keys == [] then [] else [TH.Remove(keys[0], conn)] + LeaveOps(conn, keys[1..])
  }

  ghost function RequestOps(side: Side, request: Request): seq<TH.Op> {
    match request
    case PSubscribe(conn, patterns) => JoinOps(side, conn, patterns)
    case PUnsubscribe(conn, Some(names)) => LeaveOps(conn, names)
    case PUnsubscribe(conn, None) => LeaveOps(conn, Keys(side, conn))
    case ConnectionDropped(conn) => LeaveOps(conn, Keys(side, conn))
    case _ => []
  }

  /** What worker i did to its trie in a run of the system. */
  ghost function History(n: nat, events: seq<Event>, i: nat): seq<TH.Op>
    decreases |events|
  {
    if events == [] then []
    else
      var front, last := events[..|events| - 1], events[|events| - 1];
      var w := Run(n, front);
      History(n, front, i)
      + if last.Local? && last.worker == i && Idle(w.channels, i) && Idle(w.patterns, i)
        then RequestOps(w.patterns.workers[i].side, last.request) else []
  }

  /** Operations one after the other, from a given tree. */
  ghost function Apply(nodes: PT.Nodes, ops: seq<TH.Op>): (r: PT.Nodes)
    requires PT.WellFormed(nodes)
    ensures PT.WellFormed(r)
    decreases |ops|
  {
    if ops == [] then nodes else Apply(TH.Step(nodes, ops[0]), ops[1..])
  }

  lemma {:induction false} ApplyConcat(nodes: PT.Nodes, a: seq<TH.Op>, b: seq<TH.Op>)
    requires PT.WellFormed(nodes)
    ensures Apply(nodes, a + b) == Apply(Apply(nodes, a), b)
    decreases |a|
  {
    hide PT.WellFormed, TH.Step;
    if a == [] {
      assert a + b == b;
    } else {
      assert (a + b)[1..] == a[1..] + b;
      ApplyConcat(TH.Step(nodes, a[0]), a[1..], b);
    }
  }

  lemma {:induction false} RunThenApply(a: seq<TH.Op>, b: seq<TH.Op>)
    ensures TH.Run(a + b) == Apply(TH.Run(a), b)
    decreases |b|
  {
    hide PT.WellFormed, TH.Step;
    if b == [] {
      assert a + b == a;
    } else {
      assert (a + [b[0]])[..|a|] == a;
      assert TH.Run(a + [b[0]]) == TH.Step(TH.Run(a), b[0]);
      RunThenApply(a + [b[0]], b[1..]);
      assert (a + [b[0]]) + b[1..] == a + b;
    }
  }

  lemma JoinStep(nodes: PT.Nodes, side: Side, conn: Conn, key: Key)
    requires PT.WellFormed(nodes)
    ensures TrieJoin(nodes, side, conn, key)
            == if conn in Subs(side, key) then nodes else TH.Step(nodes, TH.Insert(key, conn))
    ensures PT.WellFormed(TrieJoin(nodes, side, conn, key))
  {
    hide PT.Place;
    PT.PlaceKeepsForm(nodes, PT.Entry(key, conn));
  }

  lemma {:induction false} JoinIsOps(nodes: PT.Nodes, side: Side, conn: Conn, keys: seq<Key>)
    requires PT.WellFormed(nodes)
    ensures TrieJoinAll(nodes, side, conn, keys) == Apply(nodes, JoinOps(side, conn, keys))
    decreases |keys|
  {
    hide PT.WellFormed, TH.Step, TrieJoin, JoinOne;
    if keys != [] {
      TrieHasRoot(nodes);
      JoinStep(nodes, side, conn, keys[0]);
      var next := JoinOne(side, conn, keys[0]).0;
      JoinIsOps(TrieJoin(nodes, side, conn, keys[0]), next, conn, keys[1..]);
      var more := JoinOps(next, conn, keys[1..]);
      if conn in Subs(side, keys[0]) {
        assert [] + more == more;
      } else {
        assert ([TH.Insert(keys[0], conn)] + more)[1..] == more;
      }
    }
  }

  lemma LeaveStep(nodes: PT.Nodes, conn: Conn, key: Key)
    requires PT.WellFormed(nodes)
    ensures var e := PT.Entry(key, conn);
            PT.Removed(nodes, PT.Home(e), e) == TH.Step(nodes, TH.Remove(key, conn))
  {
  }

  lemma {:induction false} LeaveIsOps(nodes: PT.Nodes, conn: Conn, keys: seq<Key>)
    requires PT.WellFormed(nodes)
    ensures TrieLeaveAll(nodes, conn, keys) == Apply(nodes, LeaveOps(conn, keys))
    decreases |keys|
  {
    hide PT.WellFormed, TH.Step, PT.Removed, PT.Home;
    if keys != [] {
      LeaveStep(nodes, conn, keys[0]);
      LeaveIsOps(TH.Step(nodes, TH.Remove(keys[0], conn)), conn, keys[1..]);
      assert ([TH.Remove(keys[0], conn)] + LeaveOps(conn, keys[1..]))[1..] == LeaveOps(conn, keys[1..]);
    }
  }

  lemma RequestIsOps(trie: PT.Nodes, side: Side, request: Request)
    requires PT.WellFormed(trie)
    ensures TrieChange(trie, side, request) == Apply(trie, RequestOps(side, request))
  {
    hide PT.WellFormed, TrieJoinAll, TrieLeaveAll, JoinOps, LeaveOps, Keys;
    match request
    case PSubscribe(conn, patterns) => JoinIsOps(trie, side, conn, patterns);
    case PUnsubscribe(conn, Some(names)) => LeaveIsOps(trie, conn, names);
    case PUnsubscribe(conn, None) => LeaveIsOps(trie, conn, Keys(side, conn));
    case ConnectionDropped(conn) => LeaveIsOps(trie, conn, Keys(side, conn));
    case _ =>
  }

  lemma TrieFormed(w: World, i: nat)
    requires WorldOk(w) && i < |w.tries|
    ensures PT.WellFormed(w.tries[i]) && |w.patterns.workers| == |w.tries|
  {
    hide HalfOk, PT.WellFormed;
    assert TrieOk(w.tries[i], w.patterns.workers[i].side);
  }

  lemma TrieStep(w: World, event: Event, i: nat)
    requires WorldOk(w) && i < |w.tries|
    ensures PT.WellFormed(w.tries[i]) && |w.patterns.workers| == |w.tries| == |Step(w, event).tries|
    ensures Step(w, event).tries[i]
            == if event.Local? && event.worker == i && Idle(w.channels, i) && Idle(w.patterns, i)
               then TrieChange(w.tries[i], w.patterns.workers[i].side, event.request) else w.tries[i]
  {
    hide PT.WellFormed, HalfOk, TrieChange, ChannelChange, PatternChange, Registry.Start, Deliver;
    TrieFormed(w, i);
  }

  /** The trie of each worker is the one its history makes. */
  lemma {:induction false} TrieIsHistory(n: nat, events: seq<Event>, i: nat)
    requires i < n
    ensures |Run(n, events).tries| == n && Run(n, events).tries[i] == TH.Run(History(n, events, i))
    decreases |events|
  {
    hide WorldOk, Step, TrieChange, RequestOps, Idle, TH.Step;
    if events == [] {
      assert TH.Run([]) == map[[] := PT.Fresh];
    } else {
      var front, last := events[..|events| - 1], events[|events| - 1];
      TrieIsHistory(n, front, i);
      var w := Run(n, front);
      TrieStep(w, last, i);
      if last.Local? && last.worker == i && Idle(w.channels, i) && Idle(w.patterns, i) {
        RequestIsOps(w.tries[i], w.patterns.workers[i].side, last.request);
        RunThenApply(History(n, front, i), RequestOps(w.patterns.workers[i].side, last.request));
      } else {
        assert History(n, front, i) + [] == History(n, front, i);
      }
    }
  }

  /** A worker has a pattern subscription exactly if its history leaves it live, and then once. */
  lemma SubscribedIsLive(n: nat, events: seq<Event>, i: nat, e: PT.Entry)
    requires i < n
    ensures |Run(n, events).patterns.workers| == n
    ensures TH.Live(History(n, events, i), e)
            == if e.conn in Subs(Run(n, events).patterns.workers[i].side, e.pattern) then 1 else 0
  {
    hide PT.WellFormed, HalfOk, History, TH.Run, TH.Live, PT.Copies;
    TrieIsHistory(n, events, i);
    TH.CopiesAreLive(History(n, events, i), e);
    var w := Run(n, events);
    assert TrieOk(w.tries[i], w.patterns.workers[i].side);
  }

  // ---------------------------------------------------------------- what a pattern subscriber gets

  /** When one PUBLISH on worker `tid` has been handled everywhere, worker t has delivered to `e`. */
  ghost predicate Gets(w: World, tid: nat, t: nat, e: PT.Entry, channel: Key, payload: bytes)
    requires WorldOk(w) && t < |w.tries|
  {
    Delivery(e.conn, PatternMessage(e.pattern, channel, payload)) in Received(w, tid, t, channel, payload)
  }

  lemma GetsIfFound(w: World, tid: nat, t: nat, e: PT.Entry, channel: Key, payload: bytes)
    requires WorldOk(w) && Quiet(w) && t < |w.tries| && Searches(w, tid, t, channel) > 0
    ensures [] in w.tries[t]
    ensures Gets(w, tid, t, e, channel, payload) <==> e in PT.Find(w.tries[t], [], channel)
  {
    hide WorldOk, Quiet, Received, PT.Find, Searches;
    PublishAccounting(w, tid, t, channel, payload, Delivery(e.conn, PatternMessage(e.pattern, channel, payload)));
    assert e == PT.Entry(e.pattern, e.conn);
    Multiple(Searches(w, tid, t, channel), multiset(PT.Find(w.tries[t], [], channel))[e]);
  }

  lemma Multiple(a: nat, b: nat)
    requires a > 0
    ensures a * b > 0 <==> b > 0
  {
  }

  lemma SubscriberSearches(w: World, tid: nat, t: nat, e: PT.Entry, channel: Key)
    requires WorldOk(w) && t < |w.tries|
    requires e.conn in Subs(w.patterns.workers[t].side, e.pattern)
    ensures Searches(w, tid, t, channel) > 0
  {
    SameSizes(w);
    hide WorldOk;
    assert Subs(w.patterns.workers[t].side, e.pattern) != [];
  }

  lemma {:induction false} GetsNothingElse(n: nat, events: seq<Event>, tid: nat, t: nat, e: PT.Entry, channel: Key,
          payload: bytes)
    requires Quiet(Run(n, events)) && t < n
    ensures |Run(n, events).tries| == |Run(n, events).patterns.workers| == n
    ensures e.conn !in Subs(Run(n, events).patterns.workers[t].side, e.pattern)
            ==> !Gets(Run(n, events), tid, t, e, channel, payload)
  {
    hide WorldOk, Quiet, Received, PT.Find, Searches, TH.Run, TH.Live, Run, History, PT.Copies, PT.WellFormed,
      PT.Reading, Ways;
    var w, ops := Run(n, events), History(n, events, t);
    TrieIsHistory(n, events, t);
    SubscribedIsLive(n, events, t, e);
    PublishAccounting(w, tid, t, channel, payload, Delivery(e.conn, PatternMessage(e.pattern, channel, payload)));
    assert e == PT.Entry(e.pattern, e.conn);
    if TH.Live(ops, e) == 0 {
      TH.CopiesAreLive(ops, e);
      PT.SearchCounts(TH.Run(ops), e, channel);
      Zero(Searches(w, tid, t, channel), multiset(PT.Find(w.tries[t], [], channel))[e]);
    }
  }

  lemma Zero(a: nat, b: nat)
    requires b == 0
    ensures a * b == 0
  {
  }

  /** A pattern subscriber gets the message exactly if its pattern, as the trie reads it, matches. */
  lemma {:induction false} GetsIff(n: nat, events: seq<Event>, tid: nat, t: nat, e: PT.Entry, channel: Key,
          payload: bytes)
    requires Quiet(Run(n, events)) && t < n
    requires |Run(n, events).patterns.workers| == n
    requires e.conn in Subs(Run(n, events).patterns.workers[t].side, e.pattern)
    ensures |Run(n, events).tries| == n
    ensures Gets(Run(n, events), tid, t, e, channel, payload)
            <==> Matches(Canon(TE.ReadAs(History(n, events, t), e, 0)), channel)
    ensures Gets(Run(n, events), tid, t, e, channel, payload)
            <==> e in PT.Find(TH.Run(History(n, events, t)), [], channel)
  {
    hide WorldOk, Quiet, PT.Find, Searches, TH.Run, TH.Live, Run, History, Matches, Canon, TE.ReadAs, Gets;
    var w, ops := Run(n, events), History(n, events, t);
    TrieIsHistory(n, events, t);
    SubscribedIsLive(n, events, t, e);
    SubscriberSearches(w, tid, t, e, channel);
    GetsIfFound(w, tid, t, e, channel, payload);
    TE.FoundIff(ops, e, channel);
  }

  ghost predicate GetsWhatMatches(n: nat, events: seq<Event>, tid: nat, t: nat, e: PT.Entry, payload: bytes)
    requires |Run(n, events).tries| == n && t < n
  {
    forall channel: bytes :: Gets(Run(n, events), tid, t, e, channel, payload) <==> Matches(Tokens(e.pattern), channel)
  }

  /**
   In every run at rest, whoever publishes and on whatever worker: a client that is subscribed
   to a pattern gets the messages of exactly the channels its pattern matches, if and only if the
   trie of its worker reads the pattern right. That can be told from the worker's history.
   */
  lemma {:induction false} PatternSubscribersGet(n: nat, events: seq<Event>, tid: nat, t: nat, e: PT.Entry,
          payload: bytes)
    requires Quiet(Run(n, events)) && t < n
    requires |Run(n, events).patterns.workers| == n
    requires e.conn in Subs(Run(n, events).patterns.workers[t].side, e.pattern)
    ensures |Run(n, events).tries| == n
    ensures GetsWhatMatches(n, events, tid, t, e, payload) <==> TE.ReadsRight(History(n, events, t), e)
  {
    hide Quiet, PT.Find, TH.Run, TH.Live, Run, History, Matches, Canon, TE.ReadAs, Gets, TE.ReadsRight, Tokens;
    var ops := History(n, events, t);
    TrieIsHistory(n, events, t);
    SubscribedIsLive(n, events, t, e);
    TE.SearchRightIff(ops, e);
    forall channel: bytes
      ensures Gets(Run(n, events), tid, t, e, channel, payload) <==> e in PT.Find(TH.Run(ops), [], channel)
    {
      GetsIff(n, events, tid, t, e, channel, payload);
    }
    if GetsWhatMatches(n, events, tid, t, e, payload) {
      forall s: bytes ensures e in PT.Find(TH.Run(ops), [], s) <==> Matches(Tokens(e.pattern), s) {
        assert Gets(Run(n, events), tid, t, e, s, payload) <==> Matches(Tokens(e.pattern), s);
      }
    }
  }
}
