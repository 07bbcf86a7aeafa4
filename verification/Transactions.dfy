/**
 * From WATCH to EXEC: any number of WATCH commands, MULTI, a body, and EXEC, sent on one
 * connection while the threads of the process announce changes in any interleaving.
 */
module Transactions {
  import opened Bytes
  import opened Resp
  import opened Watch
  import opened Commands
  import opened Session

  /** A WATCH command: its keys, and how many announcements had been made when it read each of them. */
  datatype Watching = Watching(keys: seq<bytes>, when: bytes -> nat)

  predicate Named(watchings: seq<Watching>, key: bytes) {
    exists i :: 0 <= i < |watchings| && key in watchings[i].keys
  }

  /** When the key was read by the latest WATCH that names it. */
  function Latest(watchings: seq<Watching>, key: bytes): nat {
    if watchings == [] then 0
    else
      var n := |watchings| - 1;
      if key in watchings[n].keys then watchings[n].when(key) else Latest(watchings[..n], key)
  }

  /** The version read is the last ticket that had been published for the key. */
  predicate ReadAt(log: seq<Note>, m: Moments, key: bytes, read: nat) {
    read <= |log| && m.checked(key) == LastTicket(log[..read], key)
  }

  predicate WatchReads(log: seq<Note>, m: Moments, w: Watching) {
    forall key :: key in w.keys ==> ReadAt(log, m, key, w.when(key))
  }

  ghost predicate WatchesRead(log: seq<Note>, wms: seq<Moments>, watchings: seq<Watching>)
    requires |wms| == |watchings|
  {
    forall i :: 0 <= i < |watchings| ==> WatchReads(log, wms[i], watchings[i])
  }

  /** EXEC checks every key after its latest WATCH, each at a moment of its own. */
  ghost predicate ExecReads(log: seq<Note>, m: Moments, watchings: seq<Watching>, checks: bytes -> nat) {
    forall key :: Named(watchings, key) ==>
      Latest(watchings, key) <= checks(key) && ReadAt(log, m, key, checks(key))
  }

  predicate AreWatches(engine: Engine, frames: seq<RespValue>, watchings: seq<Watching>) {
    |frames| == |watchings|
    && forall i :: 0 <= i < |frames| ==> ParseCommand(engine, frames[i]) == Some(WatchKeys(watchings[i].keys))
  }

  predicate IsBody(engine: Engine, frames: seq<RespValue>, cmds: seq<Command>) {
    |frames| == |cmds|
    && forall i :: 0 <= i < |cmds| ==> ParseCommand(engine, frames[i]) == Some(cmds[i]) && InBody(cmds[i])
  }

  /** The body forgets the watched keys, or none of them was announced between its latest WATCH and its check. */
  ghost predicate NothingAnnounced(log: seq<Note>, watchings: seq<Watching>, cmds: seq<Command>, checks: bytes -> nat) {
    (exists i :: 0 <= i < |cmds| && cmds[i].Unwatch?)
    || forall key :: Named(watchings, key) ==> !PublishedSince(UpTo(log, checks(key)), Latest(watchings, key), key)
  }

  function Oks(n: nat): (r: seq<RespValue>)
    ensures |r| == n
  {
    seq(n, i => OK)
  }

  // ---- Serving one stretch of frames after another. ----

  lemma {:induction false} AmidConcat(engine: Engine, c: Conn, e: Env, ms: seq<Moments>, frames: seq<RespValue>,
                                      ns: seq<Moments>, more: seq<RespValue>)
    requires |ms| == |frames| && |ns| == |more| && ServeAmid(engine, c, e, ms, frames).end.Go?
    ensures var s := ServeAmid(engine, c, e, ms, frames);
      ServeAmid(engine, c, e, ms + ns, frames + more) == Then(s, ServeAmid(engine, s.conn, s.env, ns, more))
    decreases |more|
  {
    hide Serve;
    var s := ServeAmid(engine, c, e, ms, frames);
    if more == [] {
      assert ms + ns == ms && frames + more == frames;
      ThenNothing(s);
    } else {
      var n := |more| - 1;
      AmidConcat(engine, c, e, ms, frames, ns[..n], more[..n]);
      assert (ms + ns)[..|ms| + n] == ms + ns[..n] && (frames + more)[..|ms| + n] == frames + more[..n];
      var t := ServeAmid(engine, s.conn, s.env, ns[..n], more[..n]);
      if t.end.Go? {
        ThenAssociative(s, t, Serve(engine, t.conn, ns[n], more[n]));
      }
    }
  }

  lemma AmidOne(engine: Engine, c: Conn, e: Env, m: Moments, frame: RespValue)
    ensures ServeAmid(engine, c, e, [m], [frame]) == Serve(engine, c, m, frame)
  {
    hide Serve;
    assert [m][..0] == [] && [frame][..0] == [];
    BeginThen(c, e, Serve(engine, c, m, frame));
  }

  lemma BeginThen(c: Conn, e: Env, s: Served)
    ensures Then(Begin(c, e), s) == s
  {
  }

  // ---- The versions noted. ----

  function NotedAll(watchings: seq<Watching>, wms: seq<Moments>): Versions
    requires |wms| == |watchings|
  {
    if watchings == [] then map[]
    else
      var n := |watchings| - 1;
      Noted(NotedAll(watchings[..n], wms[..n]), wms[n].checked, watchings[n].keys)
  }

  predicate NotedAt(log: seq<Note>, noted: Versions, key: bytes, read: nat)
    requires key in noted
  {
    read <= |log| && noted[key] == LastTicket(log[..read], key)
  }

  /** After all WATCH commands, exactly the keys named are watched, at the version the latest one read. */
  lemma {:induction false} NotedLatest(log: seq<Note>, wms: seq<Moments>, watchings: seq<Watching>, key: bytes)
    requires |wms| == |watchings| && WatchesRead(log, wms, watchings)
    ensures key in NotedAll(watchings, wms) <==> Named(watchings, key)
    ensures key in NotedAll(watchings, wms) ==> NotedAt(log, NotedAll(watchings, wms), key, Latest(watchings, key))
    decreases |watchings|
  {
    if watchings != [] {
      var n := |watchings| - 1;
      assert WatchReads(log, wms[n], watchings[n]);
      NotedLatest(log, wms[..n], watchings[..n], key);
      NotedVersions(NotedAll(watchings[..n], wms[..n]), wms[n].checked, watchings[n].keys, key);
      NamedSnoc(watchings, key);
    }
  }

  lemma NamedSnoc(watchings: seq<Watching>, key: bytes)
    requires watchings != []
    ensures var n := |watchings| - 1;
      Named(watchings, key) <==> Named(watchings[..n], key) || key in watchings[n].keys
  {
    var n := |watchings| - 1;
    assert forall i :: 0 <= i < n ==> watchings[..n][i] == watchings[i];
  }

  lemma WatchStep(engine: Engine, c: Conn, m: Moments, frame: RespValue, keys: seq<bytes>)
    requires !c.queuing && c.subscriptions == 0 && ParseCommand(engine, frame) == Some(WatchKeys(keys))
    ensures Serve(engine, c, m, frame) == Say(c.(watched := Noted(c.watched, m.checked, keys)), m.at, OK)
  {
    hide ParseCommand, Fast;
    WordIsNotFast(engine, frame);
  }

  lemma {:induction false} WatchesServed(engine: Engine, c: Conn, e: Env, wms: seq<Moments>, frames: seq<RespValue>,
                                         watchings: seq<Watching>)
    requires !c.queuing && c.subscriptions == 0 && c.watched == map[] && |wms| == |frames|
    requires AreWatches(engine, frames, watchings)
    ensures ServeAmid(engine, c, e, wms, frames)
      == Served(c.(watched := NotedAll(watchings, wms)), LastState(wms, e), Oks(|frames|), [], [], Go)
    decreases |frames|
  {
    hide ParseCommand, Serve, Noted;
    if frames != [] {
      var n := |frames| - 1;
      WatchesServed(engine, c, e, wms[..n], frames[..n], watchings[..n]);
      var held := c.(watched := NotedAll(watchings[..n], wms[..n]));
      WatchStep(engine, held, wms[n], frames[n], watchings[n].keys);
      assert Oks(n + 1) == Oks(n) + [OK];
    } else {
      assert Oks(0) == [];
    }
  }

  // ---- The whole. ----

  /** Whether EXEC finds the versions it looks for. */
  lemma HoldIffNothingAnnounced(s: State, actions: seq<Action>, wms: seq<Moments>, watchings: seq<Watching>,
                           cmds: seq<Command>, closing: Moments, checks: bytes -> nat)
    requires Starts(s) && |wms| == |watchings| && WatchesRead(Run(s, actions).log, wms, watchings)
    requires ExecReads(Run(s, actions).log, closing, watchings, checks)
    ensures WatchedHold(StillWatched(NotedAll(watchings, wms), cmds), closing.checked)
      <==> NothingAnnounced(Run(s, actions).log, watchings, cmds, checks)
  {
    hide Run, LastTicket, PublishedSince, NotedAll, Named, Latest, WatchesRead;
    var log := Run(s, actions).log;
    var noted := NotedAll(watchings, wms);
    forall key
      ensures key in noted <==> Named(watchings, key)
      ensures key in noted ==> (closing.checked(key) == noted[key]
        <==> !PublishedSince(UpTo(log, checks(key)), Latest(watchings, key), key))
    {
      NotedLatest(log, wms, watchings, key);
      if key in noted {
        KeyCheck(s, actions, Watched(key, noted[key], Latest(watchings, key), checks(key)));
      }
    }
  }

  function Frames(watches: seq<RespValue>, multi: RespValue, body: seq<RespValue>, exec: RespValue): seq<RespValue> {
    watches + ([multi] + (body + [exec]))
  }

  function AllMoments(wms: seq<Moments>, opening: Moments, ms: seq<Moments>, closing: Moments): seq<Moments> {
    wms + ([opening] + (ms + [closing]))
  }

  /** What the client sees and the store becomes. */
  function Result(engine: Engine, c: Conn, watches: nat, cmds: seq<Command>, closing: Moments, runs: bool): Served {
    var queue, before := Collected(cmds), Oks(watches + 1) + BodyReplies(cmds);
    if runs
    then Served(Idle(c), LeftBehind(engine, queue, closing.meets, closing.at),
                before + [Array(ExecuteAmong(engine, queue, closing.meets))], [], queue, Go)
    else Served(Idle(c), closing.at, before + [NIL], [], [], Go)
  }

  /** MULTI, the body and EXEC or DISCARD. */
  lemma BodyClosed(engine: Engine, c: Conn, e: Env, opening: Moments, ms: seq<Moments>, closing: Moments,
                   multi: RespValue, body: seq<RespValue>, cmds: seq<Command>, last: RespValue, closer: Command)
    requires !c.queuing && c.subscriptions == 0 && |ms| == |body|
    requires ParseCommand(engine, multi) == Some(Multi)
    requires ParseCommand(engine, last) == Some(closer) && (closer.Exec? || closer.Discard?)
    requires IsBody(engine, body, cmds)
    ensures ServeAmid(engine, c, e, [opening] + (ms + [closing]), [multi] + (body + [last]))
      == Then(Say(Begun(c), opening.at, OK),
              Then(Served(InTransaction(c, cmds), LastState(ms, opening.at), BodyReplies(cmds), [], [], Go),
                   Outcome(engine, c, cmds, closing, closer)))
  {
    hide ParseCommand, Serve, ServeAmid, InTransaction, Outcome, InBody, BodyReplies, Then;
    Transaction(engine, c, opening.at, opening, ms, closing, multi, body, cmds, last, closer);
    AmidOne(engine, c, e, opening, multi);
    AmidConcat(engine, c, e, [opening], [multi], ms + [closing], body + [last]);
    AmidConcat(engine, Begun(c), opening.at, ms, body, [closing], [last]);
    AmidOne(engine, InTransaction(c, cmds), LastState(ms, opening.at), closing, last);
  }

  lemma Assembles(engine: Engine, c: Conn, held: Versions, e: Env, f: Env, g: Env, watches: nat, cmds: seq<Command>,
                  closing: Moments)
    ensures var w := c.(watched := held);
      Then(Served(w, e, Oks(watches), [], [], Go),
           Then(Say(Begun(w), f, OK),
                Then(Served(InTransaction(w, cmds), g, BodyReplies(cmds), [], [], Go),
                     Outcome(engine, w, cmds, closing, Exec))))
      == Result(engine, c, watches, cmds, closing, WatchedHold(StillWatched(held, cmds), closing.checked))
  {
    hide BodyReplies, Collected, StillWatched, WatchedHold, LeftBehind, ExecuteAmong;
    assert Oks(watches + 1) == Oks(watches) + [OK];
    assert [] + Collected(cmds) == Collected(cmds);
  }

  /**
   * WATCH … MULTI … EXEC over one run of announcements: every WATCH read the version each of its
   * keys had at that moment, EXEC reads them again later, and any thread may take and publish
   * tickets at any time. The queue runs, once and in order, if and only if the body said UNWATCH
   * or no watched key was announced between the latest WATCH that names it and the moment EXEC
   * checks it; otherwise the answer is nil and nothing runs.
   */
  lemma WatchedTransaction(engine: Engine, c: Conn, e: Env,
                           watches: seq<RespValue>, multi: RespValue, body: seq<RespValue>, exec: RespValue,
                           wms: seq<Moments>, opening: Moments, ms: seq<Moments>, closing: Moments,
                           watchings: seq<Watching>, cmds: seq<Command>,
                           s: State, actions: seq<Action>, checks: bytes -> nat)
    requires !c.queuing && c.subscriptions == 0 && c.watched == map[]
    requires |wms| == |watches| == |watchings| && |ms| == |body|
    requires AreWatches(engine, watches, watchings) && IsBody(engine, body, cmds)
    requires ParseCommand(engine, multi) == Some(Multi) && ParseCommand(engine, exec) == Some(Exec)
    requires Starts(s) && WatchesRead(Run(s, actions).log, wms, watchings)
    requires ExecReads(Run(s, actions).log, closing, watchings, checks)
    ensures ServeAmid(engine, c, e, AllMoments(wms, opening, ms, closing), Frames(watches, multi, body, exec))
      == Result(engine, c, |watches|, cmds, closing, NothingAnnounced(Run(s, actions).log, watchings, cmds, checks))
  {
    hide ParseCommand, Serve, ServeAmid, InTransaction, Outcome, InBody, BodyReplies, Then, Run, NotedAll;
    hide NothingAnnounced, WatchesRead, ExecReads, Oks, Result, StillWatched, WatchedHold, AreWatches, IsBody;
    WatchesServed(engine, c, e, wms, watches, watchings);
    var held := NotedAll(watchings, wms);
    var w, f := c.(watched := held), LastState(wms, e);
    AmidConcat(engine, c, e, wms, watches, [opening] + (ms + [closing]), [multi] + (body + [exec]));
    BodyClosed(engine, w, f, opening, ms, closing, multi, body, cmds, exec, Exec);
    HoldIffNothingAnnounced(s, actions, wms, watchings, cmds, closing, checks);
    Assembles(engine, c, held, f, opening.at, LastState(ms, opening.at), |watches|, cmds, closing);
  }
}
