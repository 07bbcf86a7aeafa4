/**
 * WATCH: every change of a key is announced with a fresh ticket, and a transaction goes ahead
 * only if the tickets of its watched keys are the ones it read. Taking a ticket and publishing
 * it are two steps, so announcements of several threads may overlap and overtake each other.
 */
module Watch {
  import opened Bytes

  type Versions = map<bytes, nat>

  function VersionOf(versions: Versions, key: bytes): nat {
    if key in versions then versions[key] else 0
  }

  class WatchRegistry {
    var globalVersion: nat
    var keyVersions: Versions

    constructor ()
      ensures globalVersion == 1 && keyVersions == map[]
    {
      globalVersion, keyVersions := 1, map[];
    }

    method NotifyKeyModified(key: bytes)
      modifies this
      ensures globalVersion == old(globalVersion) + 1
      ensures keyVersions == old(keyVersions)[key := old(globalVersion)]
    {
      var version := globalVersion;
      globalVersion := globalVersion + 1;
      keyVersions := keyVersions[key := version];
    }

    method GetKeyVersion(key: bytes) returns (version: nat)
      ensures version == VersionOf(keyVersions, key)
    {
      version := if key in keyVersions then keyVersions[key] else 0;
    }

    method CheckKeysUnchanged(watched: seq<(bytes, nat)>) returns (same: bool)
      ensures same <==> forall i :: 0 <= i < |watched| ==> VersionOf(keyVersions, watched[i].0) == watched[i].1
    {
      var i := 0;
      while i < |watched|
        invariant 0 <= i <= |watched|
        invariant forall j :: 0 <= j < i ==> VersionOf(keyVersions, watched[j].0) == watched[j].1
      {
        var current := GetKeyVersion(watched[i].0);
        if current != watched[i].1 {
          return false;
        }
        i := i + 1;
      }
      return true;
    }
  }

  // ---- Many threads announcing at once. ----

  /** An announcement: which key, with which ticket. */
  datatype Note = Note(key: bytes, ticket: nat)

  /** `held[t]` is what thread t took a ticket for and has not published yet. */
  datatype State = State(counter: nat, versions: Versions, held: seq<Option<Note>>, ghost log: seq<Note>)

  datatype Action = Fetch(thread: nat, key: bytes) | Publish(thread: nat)

  ghost function Step(s: State, a: Action): State {
    if a.thread >= |s.held| then s
    else
      match a
      case Fetch(t, key) =>
        if s.held[t].Some? then s
        else s.(counter := s.counter + 1, held := s.held[t := Some(Note(key, s.counter))])
      case Publish(t) =>
        if s.held[t].None? then s
        else
          var n := s.held[t].value;
          s.(versions := s.versions[n.key := n.ticket], held := s.held[t := None], log := s.log + [n])
  }

  ghost function Run(s: State, actions: seq<Action>): State {
    if actions == [] then s
    else Step(Run(s, actions[..|actions| - 1]), actions[|actions| - 1])
  }

  /** The process when it starts, with any number of threads. */
  ghost predicate Starts(s: State) {
    s.counter == 1 && s.versions == map[] && s.log == [] && forall t :: 0 <= t < |s.held| ==> s.held[t].None?
  }

  /** The last ticket published for a key; 0 if there is none. */
  function LastTicket(log: seq<Note>, key: bytes): nat {
    if log == [] then 0
    else if log[|log| - 1].key == key then log[|log| - 1].ticket
    else LastTicket(log[..|log| - 1], key)
  }

  predicate Fresh(n: Note, counter: nat) {
    1 <= n.ticket < counter
  }

  /** No ticket was handed out twice, and none was published twice. */
  ghost predicate TicketsUnique(s: State) {
    (forall i :: 0 <= i < |s.log| ==> Fresh(s.log[i], s.counter))
    && (forall t :: 0 <= t < |s.held| && s.held[t].Some? ==> Fresh(s.held[t].value, s.counter))
    && (forall i, j :: 0 <= i < j < |s.log| ==> s.log[i].ticket != s.log[j].ticket)
    && (forall t, u :: 0 <= t < u < |s.held| && s.held[t].Some? && s.held[u].Some? ==>
      s.held[t].value.ticket != s.held[u].value.ticket)
    && (forall i, t :: 0 <= i < |s.log| && 0 <= t < |s.held| && s.held[t].Some? ==>
      s.log[i].ticket != s.held[t].value.ticket)
  }

  ghost predicate Inv(s: State) {
    s.counter >= 1 && TicketsUnique(s) && forall key :: VersionOf(s.versions, key) == LastTicket(s.log, key)
  }

  lemma StepKeeps(s: State, a: Action)
    requires Inv(s)
    ensures Inv(Step(s, a)) && s.log <= Step(s, a).log && s.counter <= Step(s, a).counter
  {
    if a.thread < |s.held| && a.Publish? && s.held[a.thread].Some? {
      var n := s.held[a.thread].value;
      var t := Step(s, a);
      assert t.log[..|s.log|] == s.log;
      forall key ensures VersionOf(t.versions, key) == LastTicket(t.log, key) {
        assert VersionOf(s.versions, key) == LastTicket(s.log, key);
      }
    }
  }

  lemma {:induction false} RunKeeps(s: State, actions: seq<Action>)
    requires Inv(s)
    ensures Inv(Run(s, actions)) && s.log <= Run(s, actions).log
    decreases |actions|
  {
    if actions != [] {
      RunKeeps(s, actions[..|actions| - 1]);
      StepKeeps(Run(s, actions[..|actions| - 1]), actions[|actions| - 1]);
    }
  }

  /** Something was published for `key` after the first `n` publications. */
  ghost predicate PublishedSince(log: seq<Note>, n: nat, key: bytes) {
    exists i :: n <= i < |log| && log[i].key == key
  }

  lemma {:induction false} TicketOrigin(log: seq<Note>, key: bytes)
    ensures LastTicket(log, key) == 0 || exists i :: 0 <= i < |log| && log[i] == Note(key, LastTicket(log, key))
  {
    if log != [] {
      var front := log[..|log| - 1];
      if log[|log| - 1].key == key {
        assert log[|log| - 1] == Note(key, LastTicket(log, key));
      } else {
        TicketOrigin(front, key);
        if LastTicket(front, key) != 0 {
          var i :| 0 <= i < |front| && front[i] == Note(key, LastTicket(front, key));
          assert log[i] == front[i];
        }
      }
    }
  }

  /** The ticket changes with every publication for the key, and only then. */
  lemma {:induction false} TicketChanges(log: seq<Note>, n: nat, key: bytes)
    requires n <= |log|
    requires forall i, j :: 0 <= i < j < |log| ==> log[i].ticket != log[j].ticket
    requires forall i :: 0 <= i < |log| ==> log[i].ticket >= 1
    ensures LastTicket(log, key) == LastTicket(log[..n], key) <==> !PublishedSince(log, n, key)
    ensures PublishedSince(log, n, key) ==> exists i :: n <= i < |log| && log[i] == Note(key, LastTicket(log, key))
    decreases |log|
  {
    if n < |log| {
      var front := log[..|log| - 1];
      assert front[..n] == log[..n];
      if log[|log| - 1].key == key {
        assert log[|log| - 1] == Note(key, LastTicket(log, key));
        TicketOrigin(log[..n], key);
      } else {
        TicketChanges(front, n, key);
        forall i | n <= i < |log| - 1 ensures front[i] == log[i] {
        }
      }
    } else {
      assert log[..n] == log;
    }
  }

  /**
   * In every run from the start: the version of a key read later equals the one read earlier
   * exactly when nothing was published for that key in between, even if tickets were published
   * out of order. `before` is the run up to the WATCH, `after` the rest up to the check of EXEC.
   */
  lemma VersionUnchangedIff(s: State, before: seq<Action>, after: seq<Action>, key: bytes)
    requires Starts(s)
    ensures var seen := Run(s, before);
      var now := Run(seen, after);
      VersionOf(now.versions, key) == VersionOf(seen.versions, key)
      <==> !PublishedSince(now.log, |seen.log|, key)
  {
    var seen := Run(s, before);
    var now := Run(seen, after);
    RunKeeps(s, before);
    RunKeeps(seen, after);
    assert now.log[..|seen.log|] == seen.log;
    forall i | 0 <= i < |now.log| ensures now.log[i].ticket >= 1 {
      assert Fresh(now.log[i], now.counter);
    }
    TicketChanges(now.log, |seen.log|, key);
  }

  /** A ticket that was taken stays held until its own thread publishes it. */
  lemma {:induction false} TicketStaysHeld(s: State, actions: seq<Action>, t: nat)
    requires t < |s.held| && forall i :: 0 <= i < |actions| ==> actions[i].thread != t
    ensures |Run(s, actions).held| == |s.held| && Run(s, actions).held[t] == s.held[t]
    ensures s.log <= Run(s, actions).log
    decreases |actions|
  {
    if actions != [] {
      TicketStaysHeld(s, actions[..|actions| - 1], t);
    }
  }

  lemma {:induction false} RunConcat(s: State, a: seq<Action>, b: seq<Action>)
    ensures Run(s, a + b) == Run(Run(s, a), b)
    decreases |b|
  {
    if b == [] {
      assert a + b == a;
    } else {
      assert (a + b)[..|a + b| - 1] == a + b[..|b| - 1];
      RunConcat(s, a, b[..|b| - 1]);
    }
  }

  /**
   * A change that is announced by thread t after the WATCH and before the check: the check reads
   * a different version, whatever the other threads announce before, meanwhile and afterwards.
   */
  lemma SetIsSeen(s: State, before: seq<Action>, t: nat, key: bytes, others: seq<Action>, later: seq<Action>)
    requires Starts(s)
    requires t < |Run(s, before).held| && Run(s, before).held[t].None?
    requires forall i :: 0 <= i < |others| ==> others[i].thread != t
    ensures var seen := Run(s, before);
      var now := Run(seen, [Fetch(t, key)] + others + [Publish(t)] + later);
      VersionOf(now.versions, key) != VersionOf(seen.versions, key)
  {
    hide PublishedSince;
    var seen := Run(s, before);
    RunKeeps(s, before);
    var taken := Step(seen, Fetch(t, key));
    StepKeeps(seen, Fetch(t, key));
    TicketStaysHeld(taken, others, t);
    RunKeeps(taken, others);
    var told := Run(taken, others);
    var published := Step(told, Publish(t));
    StepKeeps(told, Publish(t));
    RunKeeps(published, later);
    var now := Run(published, later);
    var all := [Fetch(t, key)] + others + [Publish(t)] + later;
    assert Run(seen, all) == now by {
      RunConcat(seen, [Fetch(t, key)] + others + [Publish(t)], later);
      RunConcat(seen, [Fetch(t, key)] + others, [Publish(t)]);
      RunConcat(seen, [Fetch(t, key)], others);
      RunOne(seen, Fetch(t, key));
      RunOne(told, Publish(t));
    }
    assert now.log[|told.log|] == Note(key, seen.counter);
    Announced(now.log, |seen.log|, |told.log|, key);
    VersionUnchangedIff(s, before, all, key);
  }

  lemma RunOne(s: State, a: Action)
    ensures Run(s, [a]) == Step(s, a)
  {
    assert [a][..0] == [];
  }

  lemma Announced(log: seq<Note>, n: nat, i: nat, key: bytes)
    requires n <= i < |log| && log[i].key == key
    ensures PublishedSince(log, n, key)
  {
  }

  /** At any moment of a run, the registry shows the last ticket published for each key. */
  lemma RegistryShowsLog(s: State, actions: seq<Action>, key: bytes)
    requires Starts(s)
    ensures VersionOf(Run(s, actions).versions, key) == LastTicket(Run(s, actions).log, key)
  {
    RunKeeps(s, actions);
  }

  /**
   * A watched key: the version its latest WATCH read, and how many publications there had been
   * then (`since`) and when the check of EXEC reads it again (`at`). The check reads one key
   * after the other, so these moments differ from key to key.
   */
  datatype Watched = Watched(key: bytes, version: nat, since: nat, at: nat)

  function UpTo(log: seq<Note>, n: nat): seq<Note> {
    if n <= |log| then log[..n] else log
  }

  ghost predicate ReadOn(w: Watched, log: seq<Note>) {
    w.since <= w.at <= |log| && w.version == LastTicket(log[..w.since], w.key)
  }

  /** One key: the version read by the check is the one noted exactly if nothing was announced between. */
  lemma KeyCheck(s: State, actions: seq<Action>, w: Watched)
    requires Starts(s) && ReadOn(w, Run(s, actions).log)
    ensures var log := Run(s, actions).log;
      LastTicket(log[..w.at], w.key) == w.version <==> !PublishedSince(UpTo(log, w.at), w.since, w.key)
  {
    var now := Run(s, actions);
    var log := now.log;
    RunKeeps(s, actions);
    forall i | 0 <= i < |log| ensures log[i].ticket >= 1 {
      assert Fresh(log[i], now.counter);
    }
    assert log[..w.at][..w.since] == log[..w.since];
    TicketChanges(log[..w.at], w.since, w.key);
  }

  /** EXEC goes ahead exactly when no watched key was announced between its WATCH and its check. */
  lemma ExecCheck(s: State, actions: seq<Action>, watched: seq<Watched>)
    requires Starts(s)
    requires forall i :: 0 <= i < |watched| ==> ReadOn(watched[i], Run(s, actions).log)
    ensures var log := Run(s, actions).log;
      (forall i :: 0 <= i < |watched| ==> LastTicket(UpTo(log, watched[i].at), watched[i].key) == watched[i].version)
      <==> forall i :: 0 <= i < |watched| ==>
        !PublishedSince(UpTo(log, watched[i].at), watched[i].since, watched[i].key)
  {
    var log := Run(s, actions).log;
    forall i | 0 <= i < |watched|
      ensures LastTicket(UpTo(log, watched[i].at), watched[i].key) == watched[i].version
        <==> !PublishedSince(UpTo(log, watched[i].at), watched[i].since, watched[i].key)
    {
      assert ReadOn(watched[i], log);
      KeyCheck(s, actions, watched[i]);
    }
  }

  /** Tickets are never reused: any two publications of a run carry different ones. */
  lemma TicketsNeverRepeat(s: State, actions: seq<Action>, i: nat, j: nat)
    requires Starts(s) && i < j < |Run(s, actions).log|
    ensures Run(s, actions).log[i].ticket != Run(s, actions).log[j].ticket
  {
    RunKeeps(s, actions);
  }
}
