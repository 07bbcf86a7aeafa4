/**
 * What a client sees that types commands: GET and SET, whole transactions, the commands that are
 * run for it, and what is refused in pub/sub mode. Words and replies are spelled out.
 */
module Conversation {
  import opened Bytes
  import opened Resp
  import opened Store
  import opened Watch
  import opened Commands
  import opened CommandText
  import opened Session
  import T = Transactions

  const OK_REPLY: RespValue := SimpleString([79, 75])
  const QUEUED_REPLY: RespValue := SimpleString([81, 85, 69, 85, 69, 68])

  // ---- GET and SET. ----

  /** What GET answers: the value stored, or nil. */
  function Stored(data: Data, key: bytes): RespValue {
    BulkString(if key in data then Some(data[key]) else None)
  }

  /** The value is stored under its key, nothing else changes, and the change is announced. */
  ghost predicate Stores(before: Env, after: Env, key: bytes, value: bytes) {
    after.data.Keys == before.data.Keys + {key} && after.data[key] == value
    && (forall k :: k in before.data && k != key ==> after.data[k] == before.data[k])
    && after.ticket == before.ticket + 1
    && (forall k :: VersionOf(after.versions, k) == if k == key then before.ticket else VersionOf(before.versions, k))
  }

  /** The executor on GET, SET and PING. */
  lemma Executes(engine: Engine, e: Env, key: bytes, value: bytes, ex: Option<nat>, px: Option<nat>, text: bytes)
    ensures Execute(engine, Get(key), e) == (e, Stored(e.data, key))
    ensures var (after, reply) := Execute(engine, Set(key, value, ex, px), e);
      reply == OK_REPLY && Stores(e, after, key, value)
    ensures Execute(engine, Ping(None), e) == (e, SimpleString([80, 79, 78, 71]))
    ensures Execute(engine, Ping(Some(text)), e) == (e, BulkString(Some(text)))
  {
  }

  lemma {:induction false} GetServed(engine: Engine, c: Conn, m: Moments, word: bytes, key: bytes)
    requires !c.queuing && Spells(word, "GET")
    ensures var s := Serve(engine, c, m, Typed([word, key]));
      s.replies == [Stored(m.at.data, key)] && s.env == m.at && s.conn == c && s.ops == [] && s.end.Go?
  {
    hide Upper, Spells;
    WordIs(word);
    LineIsArray(word, [key]);
  }

  lemma LineIsArray(word: bytes, args: seq<bytes>)
    ensures var items := Typed([word] + args).items;
      |items| == |args| + 1 && items[0] == BulkString(Some(word))
      && forall i :: 0 <= i < |args| ==> items[i + 1] == BulkString(Some(args[i]))
  {
  }

  lemma {:induction false} SetServed(engine: Engine, c: Conn, m: Moments, word: bytes, key: bytes, value: bytes)
    requires !c.queuing && Spells(word, "SET")
    ensures var s := Serve(engine, c, m, Typed([word, key, value]));
      s.replies == [OK_REPLY] && Stores(m.at, s.env, key, value) && s.conn == c && s.ops == [] && s.end.Go?
  {
    hide Upper, Spells;
    WordIs(word);
    LineIsArray(word, [key, value]);
  }

  /**
   * After SET k v, as long as nobody else writes, GET k answers v, and GET of every other key
   * answers what it did before; nil for a key that is not stored.
   */
  lemma {:induction false} GetAfterSet(engine: Engine, c: Conn, m: Moments, n: Moments, set_: bytes, get: bytes,
                                       key: bytes, value: bytes, other: bytes)
    requires !c.queuing && Spells(set_, "SET") && Spells(get, "GET")
    requires n.at == Serve(engine, c, m, Typed([set_, key, value])).env
    ensures Serve(engine, c, n, Typed([get, other])).replies
      == [if other == key then BulkString(Some(value)) else Stored(m.at.data, other)]
    ensures Serve(engine, c, m, Typed([get, other])).replies == [Stored(m.at.data, other)]
  {
    hide Serve, Spells;
    SetServed(engine, c, m, set_, key, value);
    GetServed(engine, c, n, get, other);
    GetServed(engine, c, m, get, other);
  }

  /** SET with options goes the long way and stores the same. */
  lemma {:induction false} SetWithOptionsServed(engine: Engine, c: Conn, m: Moments, word: bytes, key: bytes,
                                                value: bytes, cs: seq<Choice>)
    requires !c.queuing && c.authenticated && c.subscriptions == 0 && Spells(word, "SET")
    requires forall k :: 0 <= k < |cs| ==> ChoiceOk(cs[k])
    ensures var s := Serve(engine, c, m, Typed([word] + ([key, value] + ChoicesText(cs))));
      s.replies == [OK_REPLY] && Stores(m.at, s.env, key, value) && s.conn == c && s.ops == [] && s.end.Go?
  {
    hide ParseCommand, Typed, Spells, ChoicesText, Upper, Execute, LastOf;
    SetOptionsAre(engine, word, key, value, cs);
    var frame := Typed([word] + ([key, value] + ChoicesText(cs)));
    var cmd := Set(key, value, LastOf(cs, true, None), LastOf(cs, false, None));
    OthersRun(engine, c, m, frame, cmd);
    Executes(engine, m.at, key, value, cmd.ex, cmd.px, []);
  }

  // ---- What is run. ----

  /** Not of the transaction protocol, not AUTH or QUIT, and not for the pub/sub layer. */
  predicate Ordinary(cmd: Command) {
    cmd.Get? || cmd.Set? || cmd.Ping? || cmd.Other?
  }

  /** Outside MULTI and pub/sub mode, an authenticated client's command is run and answered by the executor. */
  lemma {:induction false} OthersRun(engine: Engine, c: Conn, m: Moments, frame: RespValue, cmd: Command)
    requires !c.queuing && c.authenticated && c.subscriptions == 0
    requires ParseCommand(engine, frame) == Some(cmd) && Ordinary(cmd)
    ensures var s := Serve(engine, c, m, frame);
      s.replies == [Execute(engine, cmd, m.at).1] && s.env == Execute(engine, cmd, m.at).0 && s.ran == [cmd]
      && s.conn == c && s.ops == [] && s.end.Go?
  {
    hide ParseCommand, Fast, Execute;
    if Fast(frame) {
      FastRefinesSlow(engine, c, m, frame);
    }
  }

  /** A pub/sub operation is handed over, and not answered here; one that is not understood gets an error. */
  lemma PubSubHandedOver(engine: Engine, c: Conn, m: Moments, frame: RespValue, cmd: Command)
    requires !c.queuing && c.authenticated && c.subscriptions == 0
    requires ParseCommand(engine, frame) == Some(cmd) && cmd.PubSub?
    ensures var s := Serve(engine, c, m, frame);
      s.conn == c && s.env == m.at && s.ran == [] && s.end.Go?
      && if cmd.op.Some? then s.ops == [cmd.op.value] && s.replies == []
         else s.ops == [] && s.replies == [RespValue.Error(cmd.complaint)]
  {
    hide ParseCommand, Fast;
    WordIsNotFast(engine, frame);
  }

  /** AUTH: the right password authenticates, and only that; nothing else changes. */
  lemma AuthServed(engine: Engine, c: Conn, m: Moments, word: bytes, password: bytes)
    requires !c.queuing && c.subscriptions == 0 && Spells(word, "AUTH")
    ensures var s := Serve(engine, c, m, Typed([word, password]));
      var right := c.authRequired && engine.password(password);
      s.conn == c.(authenticated := c.authenticated || right) && s.env == m.at && s.ran == [] && s.end.Go?
      && |s.replies| == 1 && (s.replies[0] == OK_REPLY <==> right) && (!right ==> s.replies[0].Error?)
  {
    hide ParseCommand, Fast, Spells, Typed;
    LineMeans(engine, word, [password]);
    assert [word] + [password] == [word, password];
    WordIsNotFast(engine, Typed([word, password]));
  }

  /** PING is answered in every mode but MULTI, also without authentication; QUIT always, and closes. */
  lemma PingAndQuit(engine: Engine, c: Conn, m: Moments, ping: bytes, quit: bytes, text: bytes)
    requires Spells(ping, "PING") && Spells(quit, "QUIT")
    ensures !c.queuing ==> Serve(engine, c, m, Typed([ping])).replies == [SimpleString([80, 79, 78, 71])]
    ensures !c.queuing ==> Serve(engine, c, m, Typed([ping, text])).replies == [BulkString(Some(text))]
    ensures var s := Serve(engine, c, m, Typed([quit]));
      s.replies == [OK_REPLY] && s.end.Closed? && s.env == m.at && s.conn == c.(closed := true)
  {
    hide ParseCommand, Fast, Spells, Typed;
    LineMeans(engine, ping, []);
    LineMeans(engine, ping, [text]);
    LineMeans(engine, quit, []);
    assert [ping] + [] == [ping] && [ping] + [text] == [ping, text] && [quit] + [] == [quit];
    WordIsNotFast(engine, Typed([ping]));
    WordIsNotFast(engine, Typed([ping, text]));
    WordIsNotFast(engine, Typed([quit]));
  }

  /** A client that is not authenticated gets an error for any other command but a plain GET or SET. */
  lemma WithoutAuthentication(engine: Engine, c: Conn, m: Moments, frame: RespValue, cmd: Command)
    requires !c.queuing && !c.authenticated && c.subscriptions == 0 && !Fast(frame)
    requires ParseCommand(engine, frame) == Some(cmd) && (cmd.Get? || cmd.Set? || cmd.Other? || cmd.PubSub?)
    ensures var s := Serve(engine, c, m, frame);
      s.conn == c && s.env == m.at && s.ran == [] && s.ops == [] && |s.replies| == 1 && s.replies[0].Error?
  {
    hide ParseCommand, Fast;
  }

  // ---- Pub/sub mode. ----

  /** The words refused in pub/sub mode, with nothing changed. */
  lemma RefusedWords(engine: Engine, c: Conn, m: Moments, word: bytes, args: seq<bytes>)
    requires c.subscriptions > 0
    requires if args == []
      then Spells(word, "MULTI") || Spells(word, "EXEC") || Spells(word, "DISCARD") || Spells(word, "UNWATCH")
      else Spells(word, "WATCH") || (Spells(word, "AUTH") && |args| == 1)
    ensures var s := Serve(engine, c, m, Typed([word] + args));
      s.conn == c && s.env == m.at && s.ran == [] && s.ops == [] && |s.replies| == 1 && s.replies[0].Error? && s.end.Go?
  {
    hide ParseCommand, Fast, Spells, Typed;
    LineMeans(engine, word, args);
    WordIsNotFast(engine, Typed([word] + args));
  }

  /** In pub/sub mode the four operations on subscriptions go through, and no other command of the server does. */
  lemma PubSubModeServes(engine: Engine, c: Conn, m: Moments, frame: RespValue, cmd: Command)
    requires c.subscriptions > 0 && !c.queuing && c.authenticated && ParseCommand(engine, frame) == Some(cmd)
    requires cmd.PubSub? || cmd.Other?
    ensures var s := Serve(engine, c, m, frame);
      s.conn == c && s.env == m.at && s.ran == [] && s.end.Go?
      && if cmd.PubSub? && cmd.op.Some?
            && (cmd.op.value.Subscribe? || cmd.op.value.Unsubscribe? || cmd.op.value.PSubscribe?
                || cmd.op.value.PUnsubscribe?)
         then s.ops == [cmd.op.value] && s.replies == []
         else s.ops == [] && |s.replies| == 1 && s.replies[0].Error?
  {
    hide ParseCommand, Fast;
    WordIsNotFast(engine, frame);
  }

  // ---- A transaction. ----

  function Repeated(reply: RespValue, n: nat): (r: seq<RespValue>)
    ensures |r| == n
  {
    seq(n, i => reply)
  }

  lemma {:induction false} CollectedAll(cmds: seq<Command>)
    requires forall i :: 0 <= i < |cmds| ==> Ordinary(cmds[i])
    ensures Collected(cmds) == cmds
  {
    if cmds != [] {
      CollectedAll(cmds[..|cmds| - 1]);
    }
  }

  lemma OrdinaryBody(cmds: seq<Command>)
    requires forall i :: 0 <= i < |cmds| ==> Ordinary(cmds[i])
    ensures BodyReplies(cmds) == Repeated(QUEUED_REPLY, |cmds|) && StillWatched(map[], cmds) == map[]
    ensures forall i :: 0 <= i < |cmds| ==> InBody(cmds[i])
  {
  }

  ghost predicate Types(engine: Engine, frames: seq<RespValue>, cmds: seq<Command>) {
    |frames| == |cmds|
    && forall i :: 0 <= i < |cmds| ==> ParseCommand(engine, frames[i]) == Some(cmds[i]) && Ordinary(cmds[i])
  }

  /** What the client gets for MULTI, `n` commands and the closing word. */
  ghost predicate Answers(engine: Engine, s: Served, cmds: seq<Command>, closing: Moments, execs: bool) {
    |s.replies| == |cmds| + 2 && s.replies[0] == OK_REPLY
    && s.replies[1..|cmds| + 1] == Repeated(QUEUED_REPLY, |cmds|)
    && if execs then
         var last := s.replies[|cmds| + 1];
         last.Array? && |last.items| == |cmds|
         && forall i :: 0 <= i < |cmds| ==> last.items[i] == Execute(engine, cmds[i], closing.meets(i)).1
       else s.replies[|cmds| + 1] == OK_REPLY
  }

  /** The client is outside MULTI and has these answers; the store is as the last command left it. */
  ghost predicate Concludes(engine: Engine, s: Served, c: Conn, cmds: seq<Command>, closing: Moments, execs: bool) {
    Answers(engine, s, cmds, closing, execs) && s.ran == (if execs then cmds else []) && s.ops == []
    && s.conn == c.(queue := [])
    && s.env == if s.ran == [] then closing.at else Execute(engine, cmds[|cmds| - 1], closing.meets(|cmds| - 1)).0
  }

  /**
   * MULTI, any ordinary commands, and EXEC or DISCARD, typed by a client that watches nothing:
   * OK, QUEUED for each, and then one array with the result of each, in order, each command run
   * once on the state it meets; or OK again and nothing run. The client is outside MULTI then.
   */
  lemma {:induction false} TransactionTyped(engine: Engine, c: Conn, e: Env, opening: Moments, ms: seq<Moments>,
                                            closing: Moments, multi: bytes, frames: seq<RespValue>,
                                            cmds: seq<Command>, last: bytes, execs: bool)
    requires !c.queuing && c.subscriptions == 0 && c.watched == map[] && |ms| == |frames|
    requires Spells(multi, "MULTI") && Spells(last, if execs then "EXEC" else "DISCARD")
    requires Types(engine, frames, cmds)
    ensures var s := ServeAmid(engine, c, e, [opening] + (ms + [closing]),
                               [Typed([multi])] + (frames + [Typed([last])]));
      Concludes(engine, s, c, cmds, closing, execs)
  {
    hide ParseCommand, Serve, ServeAmid, InBody, Spells, Concludes, Outcome, Typed, Then, Execute, InTransaction;
    hide Collected, BodyReplies, StillWatched;
    LineMeans(engine, multi, []);
    LineMeans(engine, last, []);
    assert [multi] + [] == [multi] && [last] + [] == [last];
    OrdinaryBody(cmds);
    CollectedAll(cmds);
    T.BodyClosed(engine, c, e, opening, ms, closing, Typed([multi]), frames, cmds, Typed([last]),
                 if execs then Exec else Discard);
    Ends(engine, c, cmds, opening, LastState(ms, opening.at), closing, execs);
  }

  lemma ReplyParts(n: nat, last: RespValue)
    ensures var replies := [OK] + (Repeated(QUEUED_REPLY, n) + [last]);
      |replies| == n + 2 && replies[0] == OK_REPLY && replies[1..n + 1] == Repeated(QUEUED_REPLY, n)
      && replies[n + 1] == last
  {
  }

  lemma Closed(engine: Engine, c: Conn, cmds: seq<Command>, closing: Moments, execs: bool)
    requires !c.queuing && c.watched == map[] && Collected(cmds) == cmds && StillWatched(map[], cmds) == map[]
    ensures Outcome(engine, c, cmds, closing, if execs then Exec else Discard)
      == if execs
         then Served(c.(queue := []), LeftBehind(engine, cmds, closing.meets, closing.at),
                     [Array(ExecuteAmong(engine, cmds, closing.meets))], [], cmds, Go)
         else Served(c.(queue := []), closing.at, [OK_REPLY], [], [], Go)
  {
    hide Execute, Collected, StillWatched, ExecuteAmong, LeftBehind;
  }

  lemma Results(engine: Engine, cmds: seq<Command>, meets: nat -> Env, e: Env)
    ensures |ExecuteAmong(engine, cmds, meets)| == |cmds|
    ensures forall i :: 0 <= i < |cmds| ==> ExecuteAmong(engine, cmds, meets)[i] == Execute(engine, cmds[i], meets(i)).1
    ensures LeftBehind(engine, cmds, meets, e)
      == if cmds == [] then e else Execute(engine, cmds[|cmds| - 1], meets(|cmds| - 1)).0
  {
    hide Execute;
  }

  lemma ThreeParts(a: Served, b: Served, o: Served)
    requires a.ran == [] && b.ran == [] && a.ops == [] && b.ops == [] && o.ops == []
    ensures Then(a, Then(b, o)) == Served(o.conn, o.env, a.replies + (b.replies + o.replies), [], o.ran, o.end)
  {
    assert [] + o.ran == o.ran;
  }

  lemma ExecConcludes(engine: Engine, c: Conn, cmds: seq<Command>, closing: Moments)
    ensures Concludes(engine,
                      Served(c.(queue := []), LeftBehind(engine, cmds, closing.meets, closing.at),
                             [OK] + (Repeated(QUEUED_REPLY, |cmds|)
                                     + [Array(ExecuteAmong(engine, cmds, closing.meets))]), [], cmds, Go),
                      c, cmds, closing, true)
  {
    hide Execute, ExecuteAmong, LeftBehind, Repeated;
    Results(engine, cmds, closing.meets, closing.at);
    ReplyParts(|cmds|, Array(ExecuteAmong(engine, cmds, closing.meets)));
  }

  lemma DiscardConcludes(engine: Engine, c: Conn, cmds: seq<Command>, closing: Moments)
    ensures Concludes(engine,
                      Served(c.(queue := []), closing.at, [OK] + (Repeated(QUEUED_REPLY, |cmds|) + [OK_REPLY]), [],
                             [], Go),
                      c, cmds, closing, false)
  {
    hide Execute, Repeated;
    ReplyParts(|cmds|, OK_REPLY);
  }

  lemma Ends(engine: Engine, c: Conn, cmds: seq<Command>, opening: Moments, mid: Env, closing: Moments, execs: bool)
    requires !c.queuing && c.watched == map[] && Collected(cmds) == cmds
    requires BodyReplies(cmds) == Repeated(QUEUED_REPLY, |cmds|) && StillWatched(map[], cmds) == map[]
    ensures var s := Then(Say(Begun(c), opening.at, OK),
                          Then(Served(InTransaction(c, cmds), mid, BodyReplies(cmds), [], [], Go),
                               Outcome(engine, c, cmds, closing, if execs then Exec else Discard)));
      Concludes(engine, s, c, cmds, closing, execs)
  {
    hide Execute, InTransaction, Collected, BodyReplies, StillWatched, Outcome, ExecuteAmong, LeftBehind, Repeated;
    hide Then, Concludes;
    Closed(engine, c, cmds, closing, execs);
    ThreeParts(Say(Begun(c), opening.at, OK), Served(InTransaction(c, cmds), mid, BodyReplies(cmds), [], [], Go),
               Outcome(engine, c, cmds, closing, if execs then Exec else Discard));
    if execs {
      ExecConcludes(engine, c, cmds, closing);
    } else {
      DiscardConcludes(engine, c, cmds, closing);
    }
  }
}
