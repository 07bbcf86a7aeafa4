/**
 The whole pub/sub system: any number of workers serving requests, their registry calls
 interleaving freely, and what one PUBLISH delivers when the workers are at rest.
 */
module PubSubSystem {
  import opened Bytes
  import opened Subscriptions
  import opened Registry
  import opened PubSub
  import PT = PatternTrie

  datatype World = World(channels: Half, patterns: Half, tries: seq<PT.Nodes>)

  datatype Request =
    | Subscribe(conn: Conn, channels: seq<Key>)
    | Unsubscribe(conn: Conn, names: Option<seq<Key>>)
    | PSubscribe(conn: Conn, patterns: seq<Key>)
    | PUnsubscribe(conn: Conn, names: Option<seq<Key>>)
    | ConnectionDropped(conn: Conn)

  /** A worker takes a request, or one of its outstanding registry calls happens. */
  datatype Event = Local(worker: nat, request: Request) | ChannelCall(worker: nat) | PatternCall(worker: nat)

  ghost predicate WorldOk(w: World) {
    && HalfOk(w.channels) && HalfOk(w.patterns)
    && |w.channels.workers| == |w.patterns.workers| == |w.tries|
    && (forall i :: 0 <= i < |w.tries| ==> TrieOk(w.tries[i], w.patterns.workers[i].side))
  }

  ghost function Start(n: nat): World {
    World(Initial(n), Initial(n), seq(n, _ => map[[] := PT.Fresh]))
  }

  ghost function ChannelChange(side: Side, other: nat, request: Request): Change {
    match request
    case Subscribe(conn, channels) => JoinAll(side, other, conn, channels)
    case Unsubscribe(conn, Some(names)) => LeaveAll(side, other, conn, names)
    case Unsubscribe(conn, None) => LeaveEverything(side, other, conn)
    case ConnectionDropped(conn) => LeaveEverything(side, other, conn)
    case _ => Change(side, [], [])
  }

  ghost function PatternChange(side: Side, other: nat, request: Request): Change {
    match request
    case PSubscribe(conn, patterns) => JoinAll(side, other, conn, patterns)
    case PUnsubscribe(conn, Some(names)) => LeaveAll(side, other, conn, names)
    case PUnsubscribe(conn, None) => LeaveEverything(side, other, conn)
    case ConnectionDropped(conn) => LeaveEverything(side, other, conn)
    case _ => Change(side, [], [])
  }

  ghost function TrieChange(trie: PT.Nodes, side: Side, request: Request): PT.Nodes
    requires PT.WellFormed(trie)
  {
    match request
    case PSubscribe(conn, patterns) => TrieJoinAll(trie, side, conn, patterns)
    case PUnsubscribe(conn, Some(names)) => TrieLeaveAll(trie, conn, names)
    case PUnsubscribe(conn, None) => TrieLeaveAll(trie, conn, Keys(side, conn))
    case ConnectionDropped(conn) => TrieLeaveAll(trie, conn, Keys(side, conn))
    case _ => trie
  }

  /** The step of one event; an event that is not enabled changes nothing. */
  ghost function Step(w: World, event: Event): World
    requires WorldOk(w)
  {
    match event
    case Local(i, request) =>
      if !Idle(w.channels, i) || !Idle(w.patterns, i) then w
      else
        var channels, patterns := w.channels.workers[i].side, w.patterns.workers[i].side;
        World(Registry.Start(w.channels, i, ChannelChange(channels, |Keys(patterns, request.conn)|, request)),
              Registry.Start(w.patterns, i, PatternChange(patterns, |Keys(channels, request.conn)|, request)),
              w.tries[i := TrieChange(w.tries[i], patterns, request)])
    case ChannelCall(i) =>
      if i >= |w.channels.workers| || Idle(w.channels, i) then w else w.(channels := Deliver(w.channels, i))
    case PatternCall(i) =>
      if i >= |w.patterns.workers| || Idle(w.patterns, i) then w else w.(patterns := Deliver(w.patterns, i))
  }

  lemma ChannelChangeOk(side: Side, other: nat, request: Request)
    requires SideOk(side)
    ensures var change := ChannelChange(side, other, request);
            SideOk(change.side) && Leads(side.subs, change.calls, change.side.subs)
  {
    hide SideOk, Leads, JoinAll, LeaveAll, LeaveEverything;
    LeadsNowhere(side.subs);
    match request
    case Subscribe(conn, channels) =>
      JoinAllOk(side, other, conn, channels);
      JoinAllLeads(side, other, conn, channels);
    case Unsubscribe(conn, Some(names)) =>
      LeaveAllOk(side, other, conn, names);
      LeaveAllLeads(side, other, conn, names);
    case Unsubscribe(conn, None) =>
      LeaveEverythingFacts(side, other, conn);
    case ConnectionDropped(conn) =>
      LeaveEverythingFacts(side, other, conn);
    case _ =>
  }

  lemma LeaveEverythingFacts(side: Side, other: nat, conn: Conn)
    requires SideOk(side)
    ensures var change := LeaveEverything(side, other, conn);
            SideOk(change.side) && Leads(side.subs, change.calls, change.side.subs)
  {
    LeaveEverythingOk(side, other, conn);
    DropAllLeads(side.subs, conn, Keys(side, conn));
    hide Leads, DropAll, SubsOk;
  }

  lemma PatternChangeOk(side: Side, other: nat, trie: PT.Nodes, request: Request)
    requires SideOk(side) && TrieOk(trie, side)
    ensures var change := PatternChange(side, other, request);
            SideOk(change.side) && Leads(side.subs, change.calls, change.side.subs)
                && TrieOk(TrieChange(trie, side, request), change.side)
  {
    hide SideOk, Leads, JoinAll, LeaveAll, LeaveEverything, TrieJoinAll, TrieLeaveAll, TrieOk, Subs, Keys;
    LeadsNowhere(side.subs);
    match request
    case PSubscribe(conn, patterns) =>
      JoinAllOk(side, other, conn, patterns);
      JoinAllLeads(side, other, conn, patterns);
      TrieJoinAllOk(trie, side, other, conn, patterns);
    case PUnsubscribe(conn, Some(names)) =>
      LeaveAllOk(side, other, conn, names);
      LeaveAllLeads(side, other, conn, names);
      LeaveAllKeys(side, other, conn, names);
      TrieLeaveAllOk(trie, side, LeaveAll(side, other, conn, names).side, conn, names);
    case PUnsubscribe(conn, None) =>
      LeaveEverythingFacts(side, other, conn);
      TrieLeavesEverything(trie, side, other, conn);
    case ConnectionDropped(conn) =>
      LeaveEverythingFacts(side, other, conn);
      TrieLeavesEverything(trie, side, other, conn);
    case _ =>
  }

  lemma {:induction false} TrieLeavesEverything(trie: PT.Nodes, side: Side, other: nat, conn: Conn)
    requires SideOk(side) && TrieOk(trie, side)
    ensures TrieOk(TrieLeaveAll(trie, conn, Keys(side, conn)), LeaveEverything(side, other, conn).side)
  {
    LeaveEverythingKeys(side, other, conn);
    var after := LeaveEverything(side, other, conn).side;
    hide LeaveEverything, TrieOk;
    assert forall k :: conn in Subs(side, k) <==> k in Keys(side, conn);
    TrieLeaveAllOk(trie, side, after, conn, Keys(side, conn));
  }

  lemma StepOk(w: World, event: Event)
    requires WorldOk(w)
    ensures WorldOk(Step(w, event))
  {
    hide TrieOk, Leads;
    match event
    case Local(i, request) =>
      if Idle(w.channels, i) && Idle(w.patterns, i) {
        LocalOk(w, i, request);
      }
    case ChannelCall(i) =>
      if i < |w.channels.workers| && !Idle(w.channels, i) {
        DeliverOk(w.channels, i);
      }
    case PatternCall(i) =>
      if i < |w.patterns.workers| && !Idle(w.patterns, i) {
        DeliverOk(w.patterns, i);
      }
  }

  lemma {:induction false} LocalOk(w: World, i: nat, request: Request)
    requires WorldOk(w) && Idle(w.channels, i) && Idle(w.patterns, i)
    ensures WorldOk(Step(w, Local(i, request)))
  {
    var channels, patterns := w.channels.workers[i].side, w.patterns.workers[i].side;
    assert WorkerOk(w.channels.workers[i]) && WorkerOk(w.patterns.workers[i]);
    ChannelChangeOk(channels, |Keys(patterns, request.conn)|, request);
    PatternChangeOk(patterns, |Keys(channels, request.conn)|, w.tries[i], request);
    hide HalfOk, SideOk, TrieOk, Leads, ChannelChange, PatternChange, TrieChange;
    StartOk(w.channels, i, ChannelChange(channels, |Keys(patterns, request.conn)|, request));
    StartOk(w.patterns, i, PatternChange(patterns, |Keys(channels, request.conn)|, request));
  }

  /** The world after a run of events on `n` workers. */
  ghost function Run(n: nat, events: seq<Event>): (w: World)
    ensures WorldOk(w)
    decreases |events|
  {
    if events == [] then
      StartIsOk(n);
      Start(n)
    else
      var before := Run(n, events[..|events| - 1]);
      StepOk(before, events[|events| - 1]);
      Step(before, events[|events| - 1])
  }

  lemma StartIsOk(n: nat)
    ensures WorldOk(Start(n))
  {
    InitialOk(n);
    var empty: PT.Nodes := map[[] := PT.Fresh];
    assert PT.WellFormed(empty);
    assert TrieOk(empty, Side(map[], map[]));
    hide TrieOk, HalfOk;
  }

  ghost predicate Quiet(w: World) {
    forall i :: 0 <= i < |w.tries| ==> Idle(w.channels, i) && Idle(w.patterns, i)
  }

  /**
   The pub/sub invariant, over every run of requests on any number of workers and every
   interleaving of their registry calls. Whenever all calls have been made, each index pair
   is a duplicate-free inverse relation, every count is the sum over the workers, every
   interest set is exactly the workers with a subscriber, the statistics are the sums of
   the interest-set sizes, and every trie holds exactly its worker's pattern subscriptions.
   */
  lemma {:induction false} QuietRuns(n: nat, events: seq<Event>)
    requires Quiet(Run(n, events))
    ensures var w := Run(n, events);
            && Consistent(w.channels) && Consistent(w.patterns)
            && (forall i :: 0 <= i < |w.tries| ==> TrieOk(w.tries[i], w.patterns.workers[i].side))
  {
    var w := Run(n, events);
    assert WorldOk(w);
    hide HalfOk, Consistent, TrieOk, Run;
    QuietIsConsistent(w.channels);
    QuietIsConsistent(w.patterns);
  }

  /** In the middle of a run, a worker whose calls are made is known to the registry as it is. */
  lemma {:induction false} IdleWorkerIsKnown(n: nat, events: seq<Event>, i: nat, key: Key)
    requires Idle(Run(n, events).channels, i)
    ensures var h := Run(n, events).channels;
            && (i in Interested(h.shared, key) <==> Subs(h.workers[i].side, key) != [])
            && |Subs(h.workers[i].side, key)| <= Count(h.shared.counts, key)
  {
    var h := Run(n, events).channels;
    AtRest(h, i);
    SumBounds(h.workers, i, key);
    assert WorkerOk(h.workers[i]);
    assert Count(h.shared.counts, key) == Sum(h.workers, key);
  }
}
