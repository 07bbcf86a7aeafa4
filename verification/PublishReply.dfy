/**
 * The pattern part of the number PUBLISH answers, against the pattern subscriptions that get the
 * message. The registry counts with its own matcher, the workers deliver by their tries.
 */
module PublishReply {
  import opened Bytes
  import opened Pattern
  import opened Subscriptions
  import opened Registry
  import opened PubSubSystem
  import opened Publish
  import opened PatternDelivery
  import Glob
  import PT = PatternTrie
  import TE = TrieExact
  import TH = TrieHistory

  /** A pattern subscription: the worker that keeps it, the pattern and the client. */
  datatype Sub = Sub(worker: nat, e: PT.Entry)

  ghost function OnWorker(t: nat, key: Key, conns: seq<Conn>): set<Sub> {
    set c | c in conns :: Sub(t, PT.Entry(key, c))
  }

  ghost function HeldFor(workers: seq<Worker>, key: Key): set<Sub> {
    set t: nat, c | t < |workers| && c in Subs(workers[t].side, key) :: Sub(t, PT.Entry(key, c))
  }

  /** All pattern subscriptions there are. */
  ghost function AllSubs(workers: seq<Worker>): set<Sub> {
    set t: nat, p, c | t < |workers| && p in workers[t].side.subs && c in workers[t].side.subs[p]
      :: Sub(t, PT.Entry(p, c))
  }

  /** Those whose pattern the registry's matcher accepts. */
  ghost function Accepted(workers: seq<Worker>, channel: Key): set<Sub> {
    set s | s in AllSubs(workers) && Glob.RegistryMatches(s.e.pattern, channel)
  }

  // ---------------------------------------------------------------- the reply counts what the registry accepts

  lemma {:induction false} OnWorkerSize(t: nat, key: Key, conns: seq<Conn>)
    requires NoDuplicates(conns)
    ensures |OnWorker(t, key, conns)| == |conns|
  {
    if conns != [] {
      var n := |conns| - 1;
      OnWorkerSize(t, key, conns[..n]);
      assert OnWorker(t, key, conns) == OnWorker(t, key, conns[..n]) + {Sub(t, PT.Entry(key, conns[n]))};
      assert Sub(t, PT.Entry(key, conns[n])) !in OnWorker(t, key, conns[..n]);
    }
  }

  lemma {:induction false} SubscribersSnoc(workers: seq<Worker>, key: Key)
    requires workers != []
    ensures var n := |workers| - 1;
            Subscribers(workers, key) == Subscribers(workers[..n], key) + |Subs(workers[n].side, key)|
  {
    var n := |workers| - 1;
    if n > 0 {
      SubscribersSnoc(workers[1..], key);
      assert workers[1..][..n - 1] == workers[..n][1..];
    }
  }

  lemma {:induction false} HeldForSize(workers: seq<Worker>, key: Key)
    requires forall i :: 0 <= i < |workers| ==> NoDuplicates(Subs(workers[i].side, key))
    ensures |HeldFor(workers, key)| == Subscribers(workers, key)
  {
    hide Subs, NoDuplicates;
    if workers == [] {
      assert HeldFor(workers, key) == {};
    } else {
      var n := |workers| - 1;
      HeldForSize(workers[..n], key);
      SubscribersSnoc(workers, key);
      var last := OnWorker(n, key, Subs(workers[n].side, key));
      OnWorkerSize(n, key, Subs(workers[n].side, key));
      HeldForSnoc(workers, key);
    }
  }

  lemma HeldForSnoc(workers: seq<Worker>, key: Key)
    requires workers != []
    ensures var n := |workers| - 1;
            HeldFor(workers, key) == HeldFor(workers[..n], key) + OnWorker(n, key, Subs(workers[n].side, key))
            && HeldFor(workers[..n], key) !! OnWorker(n, key, Subs(workers[n].side, key))
  {
    hide Subs;
  }

  /** The accepted subscriptions whose pattern is among `counts`. */
  ghost function AcceptedAmong(workers: seq<Worker>, counts: map<Key, nat>, channel: Key): set<Sub> {
    set s | s in Accepted(workers, channel) && s.e.pattern in counts
  }

  lemma OneKeyLess(workers: seq<Worker>, counts: map<Key, nat>, channel: Key, p: Key)
    requires p in counts
    ensures var rest := AcceptedAmong(workers, counts - {p}, channel);
            AcceptedAmong(workers, counts, channel)
            == rest + (if Glob.RegistryMatches(p, channel) then HeldFor(workers, p) else {})
            && rest !! HeldFor(workers, p)
  {
    hide Glob.RegistryMatches;
  }

  lemma {:induction false} TotalIsAccepted(workers: seq<Worker>, counts: map<Key, nat>, channel: Key)
    requires forall i, p :: 0 <= i < |workers| && p in counts ==> NoDuplicates(Subs(workers[i].side, p))
    requires forall p :: p in counts ==> counts[p] == Subscribers(workers, p)
    ensures PatternTotal(counts, channel) == |AcceptedAmong(workers, counts, channel)|
    decreases |counts|
  {
    hide Glob.RegistryMatches, Subscribers, NoDuplicates, Subs, Accepted, HeldFor;
    if counts == map[] {
      assert AcceptedAmong(workers, counts, channel) == {};
    } else {
      var p :| p in counts;
      PatternTotalAt(counts, channel, p);
      TotalIsAccepted(workers, counts - {p}, channel);
      HeldForSize(workers, p);
      OneKeyLess(workers, counts, channel, p);
    }
  }

  lemma {:induction false} SomeSubscriber(workers: seq<Worker>, t: nat, key: Key)
    requires t < |workers| && Subs(workers[t].side, key) != []
    ensures Subscribers(workers, key) > 0
  {
    hide Subs;
    if t > 0 {
      SomeSubscriber(workers[1..], t - 1, key);
    }
  }

  lemma AcceptedAreCounted(h: Half, channel: Key)
    requires Consistent(h)
    ensures PatternTotal(h.shared.counts, channel) == |Accepted(h.workers, channel)|
  {
    hide Glob.RegistryMatches, PatternTotal, Subscribers, NoDuplicates;
    forall s | s in Accepted(h.workers, channel) ensures s.e.pattern in h.shared.counts {
      SomeSubscriber(h.workers, s.worker, s.e.pattern);
    }
    assert AcceptedAmong(h.workers, h.shared.counts, channel) == Accepted(h.workers, channel);
    forall i, p | 0 <= i < |h.workers| && p in h.shared.counts ensures NoDuplicates(Subs(h.workers[i].side, p)) {
      SubsAreDistinct(h.workers[i].side, p);
    }
    assert forall p :: p in h.shared.counts ==> h.shared.counts[p] == Count(h.shared.counts, p);
    TotalIsAccepted(h.workers, h.shared.counts, channel);
  }

  lemma SubsAreDistinct(side: Side, p: Key)
    requires SideOk(side)
    ensures NoDuplicates(Subs(side, p))
  {
  }

  /** In every run at rest the pattern part of the reply is the number of subscriptions the registry accepts. */
  lemma {:induction false} ReplyCountsAccepted(n: nat, events: seq<Event>, channel: Key)
    requires Quiet(Run(n, events))
    ensures var h := Run(n, events).patterns;
            PatternTotal(h.shared.counts, channel) == |Accepted(h.workers, channel)|
  {
    hide Quiet, Consistent, PatternTotal, Accepted;
    QuietRuns(n, events);
    AcceptedAreCounted(Run(n, events).patterns, channel);
  }

  // ---------------------------------------------------------------- who gets the message

  /** The subscriptions that get the message at least once when everybody has handled the PUBLISH. */
  ghost function Reached(n: nat, events: seq<Event>, tid: nat, channel: Key, payload: bytes): set<Sub>
    requires |Run(n, events).tries| == n == |Run(n, events).patterns.workers|
  {
    set s | s in AllSubs(Run(n, events).patterns.workers)
            && Gets(Run(n, events), tid, s.worker, s.e, channel, payload)
  }

  /** The registry and the trie of its worker read the subscription's pattern alike on this channel. */
  ghost predicate ReadAlike(n: nat, events: seq<Event>, s: Sub, channel: Key) {
    Glob.RegistryMatches(s.e.pattern, channel)
    <==> Matches(Canon(TE.ReadAs(History(n, events, s.worker), s.e, 0)), channel)
  }

  lemma SubscribedIs(n: nat, events: seq<Event>, s: Sub)
    requires |Run(n, events).patterns.workers| == n
    ensures s in AllSubs(Run(n, events).patterns.workers)
            <==> s.worker < n && s.e.conn in Subs(Run(n, events).patterns.workers[s.worker].side, s.e.pattern)
  {
    hide Run;
    assert s == Sub(s.worker, PT.Entry(s.e.pattern, s.e.conn));
  }

  /**
   In every run at rest, whoever publishes: the pattern subscriptions PUBLISH counts are those that
   get the message, if and only if for each of them the registry's matcher and the trie of its
   worker, read with the classes its history asked for first, agree on the channel. Then the
   number answered for patterns is the number of pattern subscriptions reached.
   */
  lemma {:induction false} ReplyIsReachedIff(n: nat, events: seq<Event>, tid: nat, channel: Key, payload: bytes)
    requires Quiet(Run(n, events))
    ensures |Run(n, events).tries| == |Run(n, events).patterns.workers| == n
    ensures var subs := AllSubs(Run(n, events).patterns.workers);
            Accepted(Run(n, events).patterns.workers, channel) == Reached(n, events, tid, channel, payload)
            <==> forall s :: s in subs ==> ReadAlike(n, events, s, channel)
    ensures Accepted(Run(n, events).patterns.workers, channel) == Reached(n, events, tid, channel, payload)
            ==> PatternTotal(Run(n, events).patterns.shared.counts, channel)
                == |Reached(n, events, tid, channel, payload)|
  {
    hide Quiet, Run, PatternTotal, AllSubs, Gets, ReadAlike, WorldOk;
    Sizes(n, events);
    var workers := Run(n, events).patterns.workers;
    forall s | s in AllSubs(workers)
      ensures s in Accepted(workers, channel) <==> Glob.RegistryMatches(s.e.pattern, channel)
      ensures (s in Accepted(workers, channel) <==> s in Reached(n, events, tid, channel, payload))
              <==> ReadAlike(n, events, s, channel)
    {
      SubAlike(n, events, tid, channel, payload, s);
    }
    ReplyCountsAccepted(n, events, channel);
  }

  lemma {:induction false} Sizes(n: nat, events: seq<Event>)
    ensures |Run(n, events).tries| == |Run(n, events).patterns.workers| == n
    decreases |events|
  {
    hide HalfOk, TrieChange, PatternChange, ChannelChange;
    SameSizes(Run(n, events));
    if events != [] {
      Sizes(n, events[..|events| - 1]);
    }
  }

  lemma {:induction false} SubAlike(n: nat, events: seq<Event>, tid: nat, channel: Key, payload: bytes, s: Sub)
    requires Quiet(Run(n, events)) && |Run(n, events).tries| == |Run(n, events).patterns.workers| == n
    requires s in AllSubs(Run(n, events).patterns.workers)
    ensures (s in Accepted(Run(n, events).patterns.workers, channel)
             <==> s in Reached(n, events, tid, channel, payload))
            <==> ReadAlike(n, events, s, channel)
  {
    hide Quiet, Run, AllSubs, Gets, Glob.RegistryMatches, Matches, Canon, TE.ReadAs, History, WorldOk;
    SubscribedIs(n, events, s);
    GetsIff(n, events, tid, s.worker, s.e, channel, payload);
  }

  // ---------------------------------------------------------------- when the two readings agree

  lemma {:induction false} NoClasses(p: bytes)
    requires OPEN !in p && BACKSLASH !in p
    ensures forall i :: 0 <= i < |Tokens(p)| ==> !Tokens(p)[i].Class?
  {
    if p != [] {
      assert forall b :: b in p[1..] ==> b in p;
      assert p[0] in p;
      NoClasses(p[1..]);
    }
  }

  lemma PlainReading(ops: seq<TH.Op>, e: PT.Entry)
    requires OPEN !in e.pattern && BACKSLASH !in e.pattern
    ensures TE.ReadAs(ops, e, 0) == Tokens(e.pattern)
  {
    hide TE.ReadAs, Tokens, PT.Home, TH.FirstAsked;
    NoClasses(e.pattern);
    TE.ReadAsShape(ops, e);
  }

  /** Patterns of `*` and `?` only, not ending in two stars, are read alike on channels without `*`. */
  lemma PlainAlike(n: nat, events: seq<Event>, s: Sub, channel: Key)
    requires OPEN !in s.e.pattern && BACKSLASH !in s.e.pattern && !EndsInTwoStars(Tokens(s.e.pattern))
    requires Glob.StarFree(channel)
    ensures ReadAlike(n, events, s, channel)
  {
    hide TE.ReadAs, Tokens, History, Canon, Matches;
    var ops := History(n, events, s.worker);
    PlainReading(ops, s.e);
    CanonChanges(Tokens(s.e.pattern));
    PlainTokens(s.e.pattern, channel);
    Glob.RegistryComplete(s.e.pattern, channel, Glob.Cursor(0, 0, None, 0));
  }

  lemma OneByteClass(x: byte)
    requires x !in [BACKSLASH, CLOSE, CARET]
    ensures Tokens([OPEN, x, CLOSE]) == [Class(CharClass([x], false))]
  {
    var p := [OPEN, x, CLOSE];
    assert [] + [x] == [x];
    assert ClassScan(p, 1, [], false) == ClassScan(p, 2, [x], false);
    assert p[3..] == [];
    assert Tokens(p) == [Class(CharClass([x], false))] + Tokens([]);
  }

  lemma ThreeForOne(x: byte)
    requires x != Glob.STAR
    ensures !Glob.RegistryMatches([OPEN, x, CLOSE], [x])
  {
    hide Glob.RegistryMatches;
    Glob.RegistrySound([OPEN, x, CLOSE], [x]);
    assert [OPEN, x, CLOSE][1..] == [x, CLOSE] && [x, CLOSE][1..] == [CLOSE];
  }

  /**
   A subscriber of a one-byte class such as `[a]`, whose class the trie holds as written, gets
   the message on that byte's channel, and the registry does not count it.
   */
  lemma ClassIsNotCounted(n: nat, events: seq<Event>, s: Sub, x: byte)
    requires x !in [BACKSLASH, CLOSE, CARET, Glob.STAR] && s.e.pattern == [OPEN, x, CLOSE]
    requires TH.Live(History(n, events, s.worker), s.e) > 0
    requires TE.ClassesAsFirstAsked(History(n, events, s.worker), s.e)
    ensures !Glob.RegistryMatches(s.e.pattern, [x]) && !ReadAlike(n, events, s, [x])
  {
    hide TE.ReadAs, TE.ClassesAsFirstAsked, Tokens, History, TH.Live, Glob.RegistryMatches;
    OneByteClass(x);
    ThreeForOne(x);
    TE.SameFitsIff(History(n, events, s.worker), s.e);
    TE.ReadAsShape(History(n, events, s.worker), s.e);
    var read := TE.ReadAs(History(n, events, s.worker), s.e, 0);
    assert InClass(CharClass([x], false), x);
    assert Fits(read[0], x) == Fits(Tokens(s.e.pattern)[0], x);
    assert read[1..] == [] && [x][1..] == [];
    assert Canon(read) == [read[0]] + Canon([]) == read;
    assert !read[0].Star? && Matches(read, [x]);
  }
}
