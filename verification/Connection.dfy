/**
 * The connection object: it reads bytes, serves every complete frame, and keeps the replies in a
 * buffer from which the socket takes as much as it can.
 */
module Network {
  import opened Bytes
  import opened Resp
  import opened RespStream
  import opened Store
  import opened Watch
  import opened Commands
  import opened Session
  import Decimal

  /** A connection, the shared state, and all bytes it was ever told to send. */
  datatype View = View(conn: Conn, env: Env, output: bytes)

  function Advance(v: View, s: Served): View {
    View(s.conn, s.env, v.output + EncodeAll(s.replies))
  }

  function OneOrNone(reply: Option<RespValue>): seq<RespValue> {
    if reply.Some? then [reply.value] else []
  }

  predicate IsControl(cmd: Command) {
    cmd.Multi? || cmd.Exec? || cmd.Discard? || cmd.WatchKeys? || cmd.Unwatch?
  }

  /** What a method did on the connection and the shared state is what `s` says. */
  ghost predicate DoneAs(s: Served, c: Conn, e: Env, reply: Option<RespValue>, ops: seq<PubSubOp>) {
    s.conn == c && s.env == e && s.replies == OneOrNone(reply) && s.ops == ops && s.end.Go?
  }

  datatype ReadResult = Ops(ops: seq<PubSubOp>) | Broken

  const OK_RESPONSE: bytes := [43, 79, 75, 13, 10]
  const NIL_RESPONSE: bytes := [36, 45, 49, 13, 10]

  lemma EncodeOne(reply: RespValue)
    ensures EncodeAll([reply]) == Encode(reply)
  {
    assert EncodeAll([]) == [];
  }

  /** The bytes the shortcut writes are the encodings of its replies. */
  lemma FixedReplies()
    ensures Encode(OK) == OK_RESPONSE && Encode(NIL) == NIL_RESPONSE
  {
  }

  lemma BulkReply(value: bytes)
    ensures [T_BULK] + Decimal.Print(|value|) + CRLF + value + CRLF == Encode(BulkString(Some(value)))
  {
  }

  lemma {:induction false} EncodeAllConcat(a: seq<RespValue>, b: seq<RespValue>)
    ensures EncodeAll(a + b) == EncodeAll(a) + EncodeAll(b)
  {
    if a == [] {
      assert a + b == b;
    } else {
      assert (a + b)[1..] == a[1..] + b;
      EncodeAllConcat(a[1..], b);
    }
  }

  lemma AdvanceThen(v: View, a: Served, b: Served)
    ensures Advance(Advance(v, a), b) == Advance(v, Then(a, b))
  {
    hide EncodeAll;
    EncodeAllConcat(a.replies, b.replies);
    assert (v.output + EncodeAll(a.replies)) + EncodeAll(b.replies)
        == v.output + (EncodeAll(a.replies) + EncodeAll(b.replies));
  }

  lemma AdvanceNone(v: View)
    ensures Advance(v, Begin(v.conn, v.env)) == v
  {
    assert v.output + [] == v.output;
  }

  lemma QuitCloses(engine: Engine, c: Conn, e: Env)
    ensures ServeCommand(engine, c, Still(engine, c, e), Quit) == Served(c.(closed := true), e, [OK], [], [], Closed)
  {
  }

  class Connection {
    const engine: Engine
    const store: FeoxStore
    const registry: WatchRegistry
    const parser: RespParser
    const authRequired: bool
    var authenticated: bool
    var writeBuffer: bytes
    var writePosition: nat
    var closed: bool
    var subscriptionCount: nat
    var queuing: bool
    var queuedCommands: seq<Command>
    var watchedKeys: Versions
    /** Bytes that were sent and dropped from the buffer. */
    ghost var cleared: bytes

    ghost predicate Valid()
      reads this, parser
    {
      parser.Valid() && writePosition <= |writeBuffer|
    }

    ghost function Self(): Conn
      reads this
    {
      Conn(queuing, queuedCommands, watchedKeys, authenticated, authRequired, subscriptionCount, closed)
    }

    ghost function Shared(): Env
      reads this, store, registry
    {
      Env(store.data, registry.globalVersion, registry.keyVersions)
    }

    /** Everything ever put into the write buffer. */
    ghost function Output(): bytes
      reads this
    {
      cleared + writeBuffer
    }

    /** What the socket has taken so far, and what is still to be taken. */
    ghost function Sent(): bytes
      reads this
      requires writePosition <= |writeBuffer|
    {
      cleared + writeBuffer[..writePosition]
    }

    ghost function Pending(): bytes
      reads this
      requires writePosition <= |writeBuffer|
    {
      writeBuffer[writePosition..]
    }

    ghost function Now(): View
      reads this, store, registry
    {
      View(Self(), Shared(), Output())
    }

    constructor (e: Engine, s: FeoxStore, w: WatchRegistry, required: bool)
      ensures Valid() && engine == e && store == s && registry == w && authRequired == required
      ensures Self() == Conn(false, [], map[], !required, required, 0, false)
      ensures Output() == [] && Sent() == [] && parser.Unread() == [] && fresh(parser)
    {
      engine, store, registry, authRequired := e, s, w, required;
      parser := new RespParser();
      authenticated, writeBuffer, writePosition, closed := !required, [], 0, false;
      subscriptionCount, queuing, queuedCommands, watchedKeys := 0, false, [], map[];
      cleared := [];
    }

    method PendingWrites() returns (data: Option<bytes>)
      requires Valid()
      ensures data == if Pending() == [] then None else Some(Pending())
    {
      data := if writePosition < |writeBuffer| then Some(writeBuffer[writePosition..]) else None;
    }

    /** The socket took the first `n` pending bytes. */
    method ConsumeWrites(n: nat)
      requires Valid() && n <= |Pending()|
      modifies this`writePosition
      ensures Valid() && Output() == old(Output())
      ensures Sent() == old(Sent()) + old(Pending())[..n] && Pending() == old(Pending())[n..]
    {
      writePosition := writePosition + n;
    }

    method Respond(reply: RespValue)
      modifies this`writeBuffer
      ensures writeBuffer == old(writeBuffer) + Encode(reply)
    {
      writeBuffer := WriteRespValue(writeBuffer, reply);
    }

    /** The executor on one command. */
    method RunCommand(cmd: Command) returns (reply: RespValue)
      modifies store, registry
      ensures (Shared(), reply) == Execute(engine, cmd, old(Shared()))
    {
      match cmd
      case Get(key) =>
        var got := store.GetBytes(key);
        reply := if got.Ok? then BulkString(Some(got.value)) else NIL;
      case Set(key, value, _, _) =>
        var _ := store.Insert(key, value);
        registry.NotifyKeyModified(key);
        reply := OK;
      case Ping(message) =>
        reply := if message.Some? then BulkString(message) else PONG;
      case _ =>
        var out := engine.run(cmd, Env(store.data, registry.globalVersion, registry.keyVersions));
        store.data := out.0.data;
        registry.globalVersion, registry.keyVersions := out.0.ticket, out.0.versions;
        reply := out.1;
    }

    method FastSetBytes(key: bytes, value: bytes)
      modifies store, registry
      ensures Shared() == SetKey(old(Shared()), key, value)
    {
      var _ := store.Insert(key, value);
      registry.NotifyKeyModified(key);
    }

    /** The reply to GET, written piece by piece. */
    method WriteValue(key: bytes)
      modifies this`writeBuffer
      ensures writeBuffer == old(writeBuffer) + Encode(GetKey(Shared(), key))
    {
      hide Encode;
      FixedReplies();
      var got := store.GetBytes(key);
      if got.Ok? {
        BulkReply(got.value);
        var piece := [T_BULK] + Decimal.Print(|got.value|) + CRLF + got.value + CRLF;
        writeBuffer := writeBuffer + piece;
      } else {
        writeBuffer := writeBuffer + NIL_RESPONSE;
      }
    }

    /** GET and plain SET without going through the command parser. */
    method TryFastPath(frame: RespValue) returns (handled: bool)
      modifies this`writeBuffer, store, registry
      ensures handled == Fast(frame)
      ensures !handled ==> Now() == old(Now())
      ensures handled ==> Now() == Advance(old(Now()), ServeFast(old(Self()), old(Shared()), frame))
      ensures old(writeBuffer) <= writeBuffer
    {
      hide Encode, SetKey, GetKey;
      if !frame.Array? || |frame.items| < 2 {
        return false;
      }
      var args := frame.items;
      if !args[0].BulkString? || args[0].data.None? {
        return false;
      }
      var word := args[0].data.value;
      if |word| == 3 && Upper(word) == SET && |args| >= 3 {
        if !(args[1].BulkString? && args[1].data.Some? && args[2].BulkString? && args[2].data.Some?) {
          return false;
        }
        if |args| == 3 {
          FixedReplies();
          EncodeOne(OK);
          FastSetBytes(args[1].data.value, args[2].data.value);
          writeBuffer := writeBuffer + OK_RESPONSE;
          assert Output() == old(Output()) + OK_RESPONSE;
          return true;
        }
      }
      if |word| == 3 && Upper(word) == GET && |args| == 2 {
        if !(args[1].BulkString? && args[1].data.Some?) {
          return false;
        }
        EncodeOne(GetKey(Shared(), args[1].data.value));
        WriteValue(args[1].data.value);
        assert Output() == old(Output()) + Encode(GetKey(Shared(), args[1].data.value));
        return true;
      }
      return false;
    }

    /** The watched keys as the list that is checked, in the order the map yields them. */
    method WatchedVersions() returns (list: seq<(bytes, nat)>)
      ensures forall i :: 0 <= i < |list| ==> list[i].0 in watchedKeys && watchedKeys[list[i].0] == list[i].1
      ensures forall key :: key in watchedKeys ==> (key, watchedKeys[key]) in list
    {
      list := [];
      var rest := watchedKeys.Keys;
      while rest != {}
        invariant rest <= watchedKeys.Keys
        invariant forall i :: 0 <= i < |list| ==> list[i].0 in watchedKeys && watchedKeys[list[i].0] == list[i].1
        invariant forall key :: key in watchedKeys && key !in rest ==> (key, watchedKeys[key]) in list
        decreases |rest|
      {
        var key :| key in rest;
        list := list + [(key, watchedKeys[key])];
        rest := rest - {key};
      }
    }

    method HoldWatched() returns (hold: bool)
      ensures hold == WatchedHold(watchedKeys, Reads(registry.keyVersions))
    {
      var list := WatchedVersions();
      hold := registry.CheckKeysUnchanged(list);
      if hold {
        forall key | key in watchedKeys ensures VersionOf(registry.keyVersions, key) == watchedKeys[key] {
          assert (key, watchedKeys[key]) in list;
        }
      }
    }

    method RunQueue() returns (results: seq<RespValue>)
      modifies store, registry
      ensures (Shared(), results) == ExecuteAll(engine, queuedCommands, old(Shared()))
    {
      hide Execute;
      results := [];
      var i := 0;
      while i < |queuedCommands|
        invariant 0 <= i <= |queuedCommands|
        invariant (Shared(), results) == ExecuteAll(engine, queuedCommands[..i], old(Shared()))
      {
        assert queuedCommands[..i + 1][..i] == queuedCommands[..i];
        var result := RunCommand(queuedCommands[i]);
        results := results + [result];
        i := i + 1;
      }
      assert queuedCommands[..i] == queuedCommands;
    }

    method DoExec() returns (reply: RespValue)
      modifies this`queuing, this`queuedCommands, this`watchedKeys, store, registry
      ensures DoneAs(ServeExec(engine, old(Self()), Still(engine, old(Self()), old(Shared()))),
                     Self(), Shared(), Some(reply), [])
    {
      hide ExecuteAll, ExecuteAmong, LeftBehind, Undisturbed, WatchedHold;
      UndisturbedIsAll(engine, queuedCommands, Shared());
      if !queuing {
        return Fail(EXEC_ALONE);
      }
      var hold := HoldWatched();
      if !hold {
        queuing, queuedCommands, watchedKeys := false, [], map[];
        return NIL;
      }
      var results := RunQueue();
      queuing, queuedCommands, watchedKeys := false, [], map[];
      reply := Array(results);
    }

    method DoWatch(keys: seq<bytes>)
      modifies this`watchedKeys
      ensures watchedKeys == Noted(old(watchedKeys), Reads(registry.keyVersions), keys)
    {
      var i := 0;
      while i < |keys|
        invariant 0 <= i <= |keys|
        invariant watchedKeys == Noted(old(watchedKeys), Reads(registry.keyVersions), keys[..i])
      {
        assert keys[..i + 1][..i] == keys[..i];
        var version := registry.GetKeyVersion(keys[i]);
        watchedKeys := watchedKeys[keys[i] := version];
        i := i + 1;
      }
      assert keys[..i] == keys;
    }

    /** Commands outside transactions and their protocol: authentication, pub/sub, execution. */
    method ServeRest(cmd: Command) returns (reply: Option<RespValue>, ops: seq<PubSubOp>)
      modifies this`authenticated, store, registry
      ensures DoneAs(ServePlain(engine, old(Self()), old(Shared()), cmd), Self(), Shared(), reply, ops)
    {
      hide Execute, Fail;
      ops := [];
      if !authenticated && !cmd.Auth? {
        if cmd.Ping? {
          var pong := RunCommand(cmd);
          reply := Some(pong);
        } else {
          reply := Some(Fail(NO_AUTH));
        }
      } else if cmd.Auth? {
        if !authRequired {
          reply := Some(Fail(NO_PASSWORD));
        } else if engine.password(cmd.password) {
          authenticated := true;
          reply := Some(OK);
        } else {
          reply := Some(Fail(BAD_PASSWORD));
        }
      } else if cmd.PubSub? {
        if cmd.op.Some? {
          reply, ops := None, [cmd.op.value];
        } else {
          reply := Some(Fail(cmd.complaint));
        }
      } else {
        var result := RunCommand(cmd);
        reply := Some(result);
      }
    }

    /** The commands of the transaction protocol. */
    method Control(cmd: Command) returns (reply: RespValue)
      requires IsControl(cmd) && subscriptionCount == 0
      modifies this`queuing, this`queuedCommands, this`watchedKeys, store, registry
      ensures DoneAs(ServeCommand(engine, old(Self()), Still(engine, old(Self()), old(Shared())), cmd),
                     Self(), Shared(), Some(reply), [])
    {
      hide ServeExec, ServePlain, Noted, Fail, AllowedInPubSub, Undisturbed;
      match cmd
      case Multi =>
        if queuing {
          return Fail(NESTED);
        }
        queuing, queuedCommands := true, [];
        reply := OK;
      case Exec =>
        reply := DoExec();
      case Discard =>
        if !queuing {
          return Fail(DISCARD_ALONE);
        }
        queuing, queuedCommands, watchedKeys := false, [], map[];
        reply := OK;
      case WatchKeys(keys) =>
        if queuing {
          return Fail(WATCH_INSIDE);
        }
        DoWatch(keys);
        reply := OK;
      case Unwatch =>
        watchedKeys := map[];
        reply := OK;
    }

    /** A parsed command other than QUIT: refused, part of the transaction protocol, queued, or served. */
    method Decide(cmd: Command) returns (reply: Option<RespValue>, ops: seq<PubSubOp>)
      modifies this`authenticated, this`queuing, this`queuedCommands, this`watchedKeys, store, registry
      ensures !cmd.Quit? ==>
        DoneAs(ServeCommand(engine, old(Self()), Still(engine, old(Self()), old(Shared())), cmd),
               Self(), Shared(), reply, ops)
    {
      hide ServeExec, ServePlain, Noted, Fail, Undisturbed;
      ops := [];
      if subscriptionCount > 0 && !AllowedInPubSub(cmd) {
        reply := Some(Fail(RESTRICTED));
      } else if IsControl(cmd) {
        var answer := Control(cmd);
        reply := Some(answer);
      } else if queuing {
        queuedCommands := queuedCommands + [cmd];
        reply := Some(QUEUED);
      } else {
        reply, ops := ServeRest(cmd);
      }
    }

    /** Writes the reply to a command, if it has one. */
    method RespondIf(reply: Option<RespValue>)
      modifies this`writeBuffer
      ensures old(writeBuffer) <= writeBuffer
      ensures Output() == old(Output()) + EncodeAll(OneOrNone(reply))
    {
      hide Encode;
      if reply.Some? {
        EncodeOne(reply.value);
        Respond(reply.value);
        assert cleared + (old(writeBuffer) + Encode(reply.value)) == old(Output()) + Encode(reply.value);
      } else {
        assert old(Output()) + [] == old(Output());
      }
    }

    /** One frame through the command parser. */
    method ServeSlowly(frame: RespValue) returns (ops: seq<PubSubOp>, end: End)
      modifies this`authenticated, this`queuing, this`queuedCommands, this`watchedKeys, this`writeBuffer, this`closed,
        store, registry
      ensures var s := ServeSlow(engine, old(Self()), Still(engine, old(Self()), old(Shared())), frame);
        Now() == Advance(old(Now()), s) && ops == s.ops && end == s.end
      ensures old(writeBuffer) <= writeBuffer
    {
      hide ServeCommand, ParseCommand, Encode, EncodeAll;
      var cmd := ParseCommand(engine, frame);
      if cmd.None? {
        RespondIf(None);
        return [], Rejected;
      }
      if cmd.value.Quit? {
        QuitCloses(engine, Self(), Shared());
        closed := true;
        RespondIf(Some(OK));
        return [], Closed;
      }
      var reply: Option<RespValue>;
      reply, ops := Decide(cmd.value);
      end := Go;
      RespondIf(reply);
    }

    /** One frame, by the shortcut if possible. */
    method ServeFrame(frame: RespValue) returns (ops: seq<PubSubOp>, end: End)
      modifies this`authenticated, this`queuing, this`queuedCommands, this`watchedKeys, this`writeBuffer, this`closed,
        store, registry
      ensures var s := ServeAlone(engine, old(Self()), old(Shared()), frame);
        Now() == Advance(old(Now()), s) && ops == s.ops && end == s.end
      ensures old(writeBuffer) <= writeBuffer
    {
      hide ServeSlow, FastSet, FastGet, EncodeAll, GetKey, SetKey;
      var handled := false;
      if !queuing {
        handled := TryFastPath(frame);
      }
      if handled {
        return [], Go;
      }
      ops, end := ServeSlowly(frame);
    }

    /**
     * Takes in a chunk and serves every complete frame. Written bytes are dropped from the buffer
     * only when all of them have been sent, and a frame that waits for more input stays unread.
     */
    method ProcessRead(data: bytes) returns (r: ReadResult)
      requires Valid()
      modifies this`authenticated, this`queuing, this`queuedCommands, this`watchedKeys, this`writeBuffer,
        this`writePosition, this`closed, this`cleared, parser, store, registry
      ensures Valid() && Sent() == old(Sent())
      ensures ReadDone(engine, old(Now()), Drain(old(parser.Unread()) + data), Now(), r, parser.Unread())
    {
      parser.Feed(data);
      ghost var v, input := Now(), Drain(parser.Unread());
      if writePosition >= |writeBuffer| {
        cleared := cleared + writeBuffer;
        writeBuffer, writePosition := [], 0;
      }
      assert Now() == v && Sent() == old(Sent());
      r := ServeInput(v, input);
    }

    /** The loop over the frames that are complete. */
    method ServeInput(ghost v: View, ghost input: Drained) returns (r: ReadResult)
      requires Valid() && v == Now() && input == Drain(parser.Unread())
      modifies this`authenticated, this`queuing, this`queuedCommands, this`watchedKeys, this`writeBuffer,
        this`closed, parser, store, registry
      ensures Valid() && Sent() == old(Sent())
      ensures ReadDone(engine, v, input, Now(), r, parser.Unread())
    {
      hide Parse, ServeAlone, Drain, ReadDone, Reading, ServeAll, Advance;
      ghost var done: seq<RespValue> := [];
      ReadingStarts(engine, v, input, parser.Unread());
      var ops, running := [], true;
      r := Ops([]);
      while running
        invariant Valid() && Sent() == old(Sent())
        invariant running ==> Reading(engine, v, input, done, Now(), ops, parser.Unread())
        invariant !running ==> ReadDone(engine, v, input, Now(), r, parser.Unread())
        decreases running, |parser.Unread()|
      {
        ghost var unread, before := parser.Unread(), Now();
        ReadingStep(engine, v, input, done, before, ops, unread);
        var next := parser.ParseNext();
        match next {
          case NeedMore => r, running := Ops(ops), false;
          case Bad(_) => r, running := Broken, false;
          case Done(frame, _) =>
            var more, end := ServeFrame(frame);
            ops := ops + more;
            done := done + [frame];
            if end.Closed? {
              r, running := Ops(ops), false;
            } else if end.Rejected? {
              r, running := Broken, false;
            }
        }
      }
    }
  }

  /**
   * What reading some input has done: exactly what serving the complete frames of the input, one
   * after the other, does. The call fails on a malformed frame or command, after serving what
   * came before it.
   */
  ghost predicate ReadDone(engine: Engine, v: View, input: Drained, now: View, r: ReadResult, unread: bytes) {
    var s := ServeAll(engine, v.conn, v.env, input.values);
    now == Advance(v, s)
    && r == (if s.end.Rejected? || (s.end.Go? && input.stop.Failed?) then Broken else Ops(s.ops))
    && (s.end.Go? && input.stop.Waiting? ==> unread == input.stop.rest)
  }

  /** In the middle of it: `done` has been served, the rest of the input is still unread. */
  ghost predicate Reading(engine: Engine, v: View, input: Drained, done: seq<RespValue>, now: View,
                          ops: seq<PubSubOp>, unread: bytes)
  {
    var s := ServeAll(engine, v.conn, v.env, done);
    s.end.Go? && now == Advance(v, s) && ops == s.ops
    && input == Drained(done + Drain(unread).values, Drain(unread).stop)
  }

  lemma ReadingStarts(engine: Engine, v: View, input: Drained, unread: bytes)
    requires input == Drain(unread)
    ensures Reading(engine, v, input, [], v, [], unread)
  {
    hide Drain;
    AdvanceNone(v);
    assert [] + input.values == input.values;
  }

  lemma DrainStep(unread: bytes)
    ensures Parse(unread).NeedMore? ==> Drain(unread) == Drained([], Waiting(unread))
    ensures Parse(unread).Bad? ==> Drain(unread).values == [] && Drain(unread).stop.Failed?
    ensures Parse(unread).Done? ==>
      var more := Drain(unread[Parse(unread).consumed..]);
      Drain(unread) == Drained([Parse(unread).value] + more.values, more.stop)
  {
    hide Parse;
  }

  /** Serving one more frame, and nothing after a frame that ends the connection. */
  lemma {:induction false} ServeOneMore(engine: Engine, c: Conn, e: Env, done: seq<RespValue>, frame: RespValue,
                                         later: seq<RespValue>)
    requires ServeAll(engine, c, e, done).end.Go?
    ensures var s := ServeAll(engine, c, e, done);
      var t := Then(s, ServeAlone(engine, s.conn, s.env, frame));
      ServeAll(engine, c, e, done + [frame]) == t
      && (!t.end.Go? ==> ServeAll(engine, c, e, done + ([frame] + later)) == t)
  {
    hide ServeAlone;
    assert (done + [frame])[..|done|] == done;
    ServeAllConcat(engine, c, e, done + [frame], later);
    assert (done + [frame]) + later == done + ([frame] + later);
  }

  lemma ReadingStep(engine: Engine, v: View, input: Drained, done: seq<RespValue>, now: View,
                    ops: seq<PubSubOp>, unread: bytes)
    requires Reading(engine, v, input, done, now, ops, unread)
    ensures Parse(unread).NeedMore? ==> ReadDone(engine, v, input, now, Ops(ops), unread)
    ensures Parse(unread).Bad? ==> ReadDone(engine, v, input, now, Broken, unread)
    ensures Parse(unread).Done? ==>
      var frame, rest := Parse(unread).value, unread[Parse(unread).consumed..];
      var one := ServeAlone(engine, now.conn, now.env, frame);
      (one.end.Go? ==> Reading(engine, v, input, done + [frame], Advance(now, one), ops + one.ops, rest))
      && (one.end.Closed? ==> ReadDone(engine, v, input, Advance(now, one), Ops(ops + one.ops), rest))
      && (one.end.Rejected? ==> ReadDone(engine, v, input, Advance(now, one), Broken, rest))
  {
    hide Parse, Drain, ServeAlone, ServeAll, EncodeAll;
    DrainStep(unread);
    if Parse(unread).Done? {
      var frame, rest := Parse(unread).value, unread[Parse(unread).consumed..];
      var s := ServeAll(engine, v.conn, v.env, done);
      var one := ServeAlone(engine, now.conn, now.env, frame);
      var later := Drain(rest).values;
      ServeOneMore(engine, v.conn, v.env, done, frame, later);
      AdvanceThen(v, s, one);
      assert done + ([frame] + later) == (done + [frame]) + later;
    } else {
      assert done + [] == done;
    }
  }
}
