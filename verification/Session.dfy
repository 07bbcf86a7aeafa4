/**
 * One connection as a state machine over frames: transactions, WATCH, authentication, pub/sub
 * mode, and the shortcut for plain GET and SET. Other workers change the shared state at any
 * time, so a frame comes with the moments at which it touches that state.
 */
module Session {
  import opened Bytes
  import opened Resp
  import opened Store
  import opened Watch
  import opened Commands

  datatype Conn = Conn(
    queuing: bool,
    queue: seq<Command>,
    watched: Versions,
    authenticated: bool,
    authRequired: bool,
    subscriptions: nat,
    closed: bool)

  /** Whether the connection goes on after a frame. `Rejected` is a command that did not parse. */
  datatype End = Go | Closed | Rejected

  /**
   * What serving a frame does: `ran` are the commands that were run on the shared state, and
   * `env` is that state as the frame leaves it.
   */
  datatype Served = Served(
    conn: Conn, env: Env, replies: seq<RespValue>, ops: seq<PubSubOp>, ran: seq<Command>, end: End)

  /**
   * The shared state as one frame meets it: when it is served, the version it reads for each
   * key, and what each of the queued commands meets. Nothing relates these moments.
   */
  datatype Moments = Moments(at: Env, checked: bytes -> nat, meets: nat -> Env)

  function Reads(versions: Versions): bytes -> nat {
    key => VersionOf(versions, key)
  }

  /** The moments of a frame while nobody else is at work. */
  function Still(engine: Engine, c: Conn, e: Env): Moments {
    Moments(e, Reads(e.versions), Undisturbed(engine, c.queue, e))
  }

  function Say(c: Conn, e: Env, reply: RespValue): Served {
    Served(c, e, [reply], [], [], Go)
  }

  function Fail(text: bytes): RespValue {
    RespValue.Error(text)
  }

  // The texts of the error replies, as ASCII.
  const RESTRICTED: bytes := Ascii("-ERR only (P)SUBSCRIBE / (P)UNSUBSCRIBE / PING / QUIT allowed in this context")
  const NESTED: bytes := Ascii("-ERR MULTI calls can not be nested")
  const EXEC_ALONE: bytes := Ascii("-ERR EXEC without MULTI")
  const DISCARD_ALONE: bytes := Ascii("-ERR DISCARD without MULTI")
  const WATCH_INSIDE: bytes := Ascii("-ERR WATCH inside MULTI is not allowed")
  const NO_AUTH: bytes := Ascii("-NOAUTH Authentication required.")
  const NO_PASSWORD: bytes := Ascii("-ERR Client sent AUTH, but no password is set")
  const BAD_PASSWORD: bytes := Ascii("-ERR invalid password")
  const QUEUED: RespValue := SimpleString([81, 85, 69, 85, 69, 68])

  function Ascii(s: string): (b: bytes)
    ensures |b| == |s|
  {
    seq(|s|, i requires 0 <= i < |s| => if s[i] < 128 as char then s[i] as int else 63)
  }

  // ---- The shortcut. ----

  function Arg(frame: RespValue, i: nat): Option<bytes> {
    if frame.Array? && i < |frame.items| && frame.items[i].BulkString? then frame.items[i].data else None
  }

  predicate FastSet(frame: RespValue) {
    frame.Array? && |frame.items| == 3
    && Arg(frame, 0).Some? && Upper(Arg(frame, 0).value) == SET && Arg(frame, 1).Some? && Arg(frame, 2).Some?
  }

  predicate FastGet(frame: RespValue) {
    frame.Array? && |frame.items| == 2
    && Arg(frame, 0).Some? && Upper(Arg(frame, 0).value) == GET && Arg(frame, 1).Some?
  }

  /** Frames the shortcut handles by itself. */
  predicate Fast(frame: RespValue) {
    FastSet(frame) || FastGet(frame)
  }

  function FastCommand(frame: RespValue): Command
    requires Fast(frame)
  {
    if FastSet(frame) then Set(Arg(frame, 1).value, Arg(frame, 2).value, None, None) else Get(Arg(frame, 1).value)
  }

  function ServeFast(c: Conn, e: Env, frame: RespValue): Served
    requires Fast(frame)
  {
    if FastSet(frame)
    then Served(c, SetKey(e, Arg(frame, 1).value, Arg(frame, 2).value), [OK], [], [FastCommand(frame)], Go)
    else Served(c, e, [GetKey(e, Arg(frame, 1).value)], [], [FastCommand(frame)], Go)
  }

  // ---- Everything else. ----

  predicate AllowedInPubSub(cmd: Command) {
    match cmd
    case PubSub(op, _) => op.Some? && ChangesCount(op.value)
    case Ping(_) => true
    case Quit => true
    case _ => false
  }

  predicate WatchedHold(watched: Versions, checked: bytes -> nat) {
    forall key :: key in watched ==> checked(key) == watched[key]
  }

  /** WATCH notes the version it reads for each key; watching a key again notes it anew. */
  function Noted(watched: Versions, checked: bytes -> nat, keys: seq<bytes>): Versions {
    if keys == [] then watched
    else
      var last := keys[|keys| - 1];
      Noted(watched, checked, keys[..|keys| - 1])[last := checked(last)]
  }

  function Idle(c: Conn): Conn {
    c.(queuing := false, queue := [], watched := map[])
  }

  /** The check reads the versions at its own moments, every queued command meets its own state. */
  function ServeExec(engine: Engine, c: Conn, m: Moments): Served {
    if !c.queuing then Say(c, m.at, Fail(EXEC_ALONE))
    else if !WatchedHold(c.watched, m.checked) then Say(Idle(c), m.at, NIL)
    else
      Served(Idle(c), LeftBehind(engine, c.queue, m.meets, m.at),
             [Array(ExecuteAmong(engine, c.queue, m.meets))], [], c.queue, Go)
  }

  function RunOne(engine: Engine, c: Conn, e: Env, cmd: Command): Served {
    var done := Execute(engine, cmd, e);
    Served(c, done.0, [done.1], [], [cmd], Go)
  }

  function ServePlain(engine: Engine, c: Conn, e: Env, cmd: Command): Served {
    if !c.authenticated && !cmd.Auth? then
      if cmd.Ping? then RunOne(engine, c, e, cmd) else Say(c, e, Fail(NO_AUTH))
    else
      match cmd
      case Auth(password) =>
        if !c.authRequired then Say(c, e, Fail(NO_PASSWORD))
        else if engine.password(password) then Say(c.(authenticated := true), e, OK)
        else Say(c, e, Fail(BAD_PASSWORD))
      case PubSub(Some(op), _) => Served(c, e, [], [op], [], Go)
      case PubSub(None, complaint) => Say(c, e, Fail(complaint))
      case _ => RunOne(engine, c, e, cmd)
  }

  function ServeCommand(engine: Engine, c: Conn, m: Moments, cmd: Command): Served {
    if cmd.Quit? then Served(c.(closed := true), m.at, [OK], [], [], Closed)
    else if c.subscriptions > 0 && !AllowedInPubSub(cmd) then Say(c, m.at, Fail(RESTRICTED))
    else
      match cmd
      case Multi =>
        if c.queuing then Say(c, m.at, Fail(NESTED)) else Say(c.(queuing := true, queue := []), m.at, OK)
      case Exec => ServeExec(engine, c, m)
      case Discard => if !c.queuing then Say(c, m.at, Fail(DISCARD_ALONE)) else Say(Idle(c), m.at, OK)
      case WatchKeys(keys) =>
        if c.queuing then Say(c, m.at, Fail(WATCH_INSIDE))
        else Say(c.(watched := Noted(c.watched, m.checked, keys)), m.at, OK)
      case Unwatch => Say(c.(watched := map[]), m.at, OK)
      case _ =>
        if c.queuing then Say(c.(queue := c.queue + [cmd]), m.at, QUEUED)
        else ServePlain(engine, c, m.at, cmd)
  }

  function ServeSlow(engine: Engine, c: Conn, m: Moments, frame: RespValue): Served {
    var cmd := ParseCommand(engine, frame);
    if cmd.None? then Served(c, m.at, [], [], [], Rejected) else ServeCommand(engine, c, m, cmd.value)
  }

  function Serve(engine: Engine, c: Conn, m: Moments, frame: RespValue): Served {
    if !c.queuing && Fast(frame) then ServeFast(c, m.at, frame) else ServeSlow(engine, c, m, frame)
  }

  /** A frame served while nobody else is at work. */
  function ServeAlone(engine: Engine, c: Conn, e: Env, frame: RespValue): Served {
    Serve(engine, c, Still(engine, c, e), frame)
  }

  function Then(a: Served, b: Served): Served {
    Served(b.conn, b.env, a.replies + b.replies, a.ops + b.ops, a.ran + b.ran, b.end)
  }

  function Begin(c: Conn, e: Env): Served {
    Served(c, e, [], [], [], Go)
  }

  /** Frame after frame, each at its own moments, until one ends the connection. */
  function ServeAmid(engine: Engine, c: Conn, e: Env, ms: seq<Moments>, frames: seq<RespValue>): Served
    requires |ms| == |frames|
    decreases |frames|
  {
    if frames == [] then Begin(c, e)
    else
      var n := |frames| - 1;
      var before := ServeAmid(engine, c, e, ms[..n], frames[..n]);
      if !before.end.Go? then before else Then(before, Serve(engine, before.conn, ms[n], frames[n]))
  }

  /** Frame after frame with nobody else at work: each meets what the one before left behind. */
  function ServeAll(engine: Engine, c: Conn, e: Env, frames: seq<RespValue>): Served {
    if frames == [] then Begin(c, e)
    else
      var before := ServeAll(engine, c, e, frames[..|frames| - 1]);
      if !before.end.Go? then before
      else Then(before, ServeAlone(engine, before.conn, before.env, frames[|frames| - 1]))
  }

  // ---- The shortcut. ----

  /** A frame the shortcut accepts is a plain SET or GET for the parser too. */
  lemma FastParses(engine: Engine, frame: RespValue)
    requires Fast(frame)
    ensures ParseCommand(engine, frame) == Some(FastCommand(frame))
  {
    var args := frame.items[1..];
    assert GET[0] == 71 && SET[0] == 83;
    assert args[0] == frame.items[1] && (FastSet(frame) ==> args[1] == frame.items[2]);
  }

  lemma FastRuns(engine: Engine, c: Conn, e: Env, frame: RespValue)
    requires Fast(frame)
    ensures ServeFast(c, e, frame) == RunOne(engine, c, e, FastCommand(frame))
  {
  }

  /**
   * Outside MULTI, serving a frame by the shortcut is parsing and executing it (same store, same
   * versions, same reply) if and only if the connection is authenticated and has no subscription.
   */
  lemma FastRefinesSlow(engine: Engine, c: Conn, m: Moments, frame: RespValue)
    requires !c.queuing && Fast(frame)
    ensures ServeFast(c, m.at, frame) == ServeSlow(engine, c, m, frame) <==> c.authenticated && c.subscriptions == 0
  {
    hide ParseCommand, Upper;
    FastParses(engine, frame);
    FastRuns(engine, c, m.at, frame);
  }

  // ---- What a frame runs. ----

  /** Only running a command touches the shared state. */
  predicate TouchesByRunning(m: Moments, s: Served) {
    s.ran == [] ==> s.env == m.at
  }

  lemma PlainTouches(engine: Engine, c: Conn, m: Moments, cmd: Command)
    ensures TouchesByRunning(m, ServePlain(engine, c, m.at, cmd))
  {
    hide Execute, Fail;
  }

  lemma CommandTouches(engine: Engine, c: Conn, m: Moments, cmd: Command)
    ensures TouchesByRunning(m, ServeCommand(engine, c, m, cmd))
  {
    hide ServePlain, Execute, ExecuteAmong, WatchedHold, Noted, Fail, AllowedInPubSub;
    PlainTouches(engine, c, m, cmd);
  }

  lemma OnlyRunsTouch(engine: Engine, c: Conn, m: Moments, frame: RespValue)
    ensures TouchesByRunning(m, Serve(engine, c, m, frame))
  {
    hide ServeCommand, ParseCommand, Upper;
    var cmd := ParseCommand(engine, frame);
    if cmd.Some? {
      CommandTouches(engine, c, m, cmd.value);
    }
  }

  /** With nobody else at work, a frame leaves behind what running its commands makes of the state. */
  predicate LeavesWhatItRan(engine: Engine, e: Env, s: Served) {
    s.env == ExecuteAll(engine, s.ran, e).0
  }

  lemma OneRan(engine: Engine, c: Conn, e: Env, cmd: Command)
    ensures LeavesWhatItRan(engine, e, RunOne(engine, c, e, cmd))
  {
    hide Execute;
    assert [cmd][..0] == [];
    assert ExecuteAll(engine, [], e) == (e, []);
    assert ExecuteAll(engine, [cmd], e).0 == Execute(engine, cmd, e).0;
  }

  lemma PlainLeaves(engine: Engine, c: Conn, e: Env, cmd: Command)
    ensures LeavesWhatItRan(engine, e, ServePlain(engine, c, e, cmd))
  {
    hide Execute, Fail, RunOne;
    OneRan(engine, c, e, cmd);
  }

  lemma ExecLeaves(engine: Engine, c: Conn, e: Env)
    ensures LeavesWhatItRan(engine, e, ServeExec(engine, c, Still(engine, c, e)))
  {
    hide Execute, ExecuteAmong, WatchedHold, Fail, LeftBehind;
    UndisturbedIsAll(engine, c.queue, e);
  }

  lemma CommandLeaves(engine: Engine, c: Conn, e: Env, cmd: Command)
    ensures LeavesWhatItRan(engine, e, ServeCommand(engine, c, Still(engine, c, e), cmd))
  {
    hide ServePlain, ServeExec, Execute, Noted, Fail, AllowedInPubSub, Undisturbed;
    PlainLeaves(engine, c, e, cmd);
    ExecLeaves(engine, c, e);
    NothingRan(engine, e);
    match cmd
    case Quit => assert LeavesWhatItRan(engine, e, ServeCommand(engine, c, Still(engine, c, e), cmd));
    case Multi => assert LeavesWhatItRan(engine, e, ServeCommand(engine, c, Still(engine, c, e), cmd));
    case Exec => assert LeavesWhatItRan(engine, e, ServeCommand(engine, c, Still(engine, c, e), cmd));
    case Discard => assert LeavesWhatItRan(engine, e, ServeCommand(engine, c, Still(engine, c, e), cmd));
    case WatchKeys(_) => assert LeavesWhatItRan(engine, e, ServeCommand(engine, c, Still(engine, c, e), cmd));
    case Unwatch => assert LeavesWhatItRan(engine, e, ServeCommand(engine, c, Still(engine, c, e), cmd));
    case _ =>
  }

  lemma RanExplains(engine: Engine, c: Conn, e: Env, frame: RespValue)
    ensures LeavesWhatItRan(engine, e, ServeAlone(engine, c, e, frame))
  {
    hide ServeCommand, ParseCommand, FastSet, FastGet, ExecuteAll, RunOne, ServeFast, Undisturbed;
    var cmd := ParseCommand(engine, frame);
    if cmd.Some? {
      CommandLeaves(engine, c, e, cmd.value);
    }
    if Fast(frame) {
      FastRuns(engine, c, e, frame);
      OneRan(engine, c, e, FastCommand(frame));
    }
    NothingRan(engine, e);
  }

  lemma NothingRan(engine: Engine, e: Env)
    ensures ExecuteAll(engine, [], e).0 == e
  {
  }

  // ---- One reply per command. ----

  /** Exactly one reply, or one operation for the pub/sub layer, which replies itself. */
  predicate Single(s: Served) {
    |s.replies| + |s.ops| == 1
  }

  lemma OneReplyPlain(engine: Engine, c: Conn, e: Env, cmd: Command)
    ensures Single(ServePlain(engine, c, e, cmd)) && ServePlain(engine, c, e, cmd).end.Go?
  {
    hide Execute, Fail;
  }

  lemma OneReplyCommand(engine: Engine, c: Conn, m: Moments, cmd: Command)
    ensures Single(ServeCommand(engine, c, m, cmd)) && !ServeCommand(engine, c, m, cmd).end.Rejected?
  {
    hide ServePlain, ExecuteAmong, LeftBehind, Fail, WatchedHold, Noted, AllowedInPubSub;
    OneReplyPlain(engine, c, m.at, cmd);
  }

  /** A frame gets no answer only when it does not parse, and that ends the connection. */
  lemma OneReply(engine: Engine, c: Conn, m: Moments, frame: RespValue)
    ensures var s := Serve(engine, c, m, frame);
      if s.end.Rejected? then s.replies == [] && s.ops == [] else Single(s)
  {
    hide ServeCommand, ParseCommand, Upper, GetKey, SetKey;
    var cmd := ParseCommand(engine, frame);
    if cmd.Some? {
      OneReplyCommand(engine, c, m, cmd.value);
    }
  }

  lemma {:induction false} OneReplyEach(engine: Engine, c: Conn, e: Env, ms: seq<Moments>, frames: seq<RespValue>)
    requires |ms| == |frames| && ServeAmid(engine, c, e, ms, frames).end.Go?
    ensures var s := ServeAmid(engine, c, e, ms, frames);
      |s.replies| + |s.ops| == |frames|
    decreases |frames|
  {
    hide Serve;
    if frames != [] {
      var n := |frames| - 1;
      var before := ServeAmid(engine, c, e, ms[..n], frames[..n]);
      OneReplyEach(engine, c, e, ms[..n], frames[..n]);
      OneReply(engine, before.conn, ms[n], frames[n]);
    }
  }

  /** The moments of frames served one after the other while nobody else is at work. */
  function StillEach(engine: Engine, c: Conn, e: Env, frames: seq<RespValue>): (ms: seq<Moments>)
    ensures |ms| == |frames|
  {
    if frames == [] then []
    else
      var front := frames[..|frames| - 1];
      var before := ServeAll(engine, c, e, front);
      StillEach(engine, c, e, front) + [Still(engine, before.conn, before.env)]
  }

  /** Serving alone is the case of serving amid others in which nobody else acts. */
  lemma {:induction false} AllIsAmid(engine: Engine, c: Conn, e: Env, frames: seq<RespValue>)
    ensures ServeAll(engine, c, e, frames) == ServeAmid(engine, c, e, StillEach(engine, c, e, frames), frames)
    decreases |frames|
  {
    hide Serve, Still;
    if frames != [] {
      var front := frames[..|frames| - 1];
      AllIsAmid(engine, c, e, front);
      assert StillEach(engine, c, e, frames)[..|frames| - 1] == StillEach(engine, c, e, front);
    }
  }

  lemma {:induction false} ServeAllConcat(engine: Engine, c: Conn, e: Env, a: seq<RespValue>, b: seq<RespValue>)
    ensures var s := ServeAll(engine, c, e, a);
      ServeAll(engine, c, e, a + b) == if s.end.Go? then Then(s, ServeAll(engine, s.conn, s.env, b)) else s
    decreases |b|
  {
    hide ServeAlone;
    var s := ServeAll(engine, c, e, a);
    if b == [] {
      assert a + b == a;
      if s.end.Go? {
        ThenNothing(s);
      }
    } else {
      var front, last := b[..|b| - 1], b[|b| - 1];
      ServeAllConcat(engine, c, e, a, front);
      assert (a + b)[..|a + b| - 1] == a + front;
      if s.end.Go? {
        var t := ServeAll(engine, s.conn, s.env, front);
        if t.end.Go? {
          ThenAssociative(s, t, ServeAlone(engine, t.conn, t.env, last));
        }
      }
    }
  }

  lemma ThenNothing(s: Served)
    requires s.end.Go?
    ensures Then(s, Begin(s.conn, s.env)) == s
  {
    assert s.replies + [] == s.replies && s.ops + [] == s.ops && s.ran + [] == s.ran;
  }

  lemma ThenAssociative(a: Served, b: Served, c: Served)
    ensures Then(Then(a, b), c) == Then(a, Then(b, c))
  {
    assert (a.replies + b.replies) + c.replies == a.replies + (b.replies + c.replies);
    assert (a.ops + b.ops) + c.ops == a.ops + (b.ops + c.ops);
    assert (a.ran + b.ran) + c.ran == a.ran + (b.ran + c.ran);
  }

  // ---- Authentication and pub/sub mode. ----

  predicate IsPing(cmd: Option<Command>) {
    cmd.Some? && cmd.value.Ping?
  }

  /** EXEC gets as far as running its queue. */
  predicate ExecRuns(c: Conn, m: Moments, cmd: Option<Command>) {
    cmd == Some(Exec) && c.queuing && c.subscriptions == 0 && WatchedHold(c.watched, m.checked) && c.queue != []
  }

  lemma UnauthenticatedPlain(engine: Engine, c: Conn, e: Env, cmd: Command)
    requires !c.authenticated
    ensures var s := ServePlain(engine, c, e, cmd);
      (s.ran != [] <==> cmd.Ping?)
      && (s.conn.authenticated <==> cmd.Auth? && c.authRequired && engine.password(cmd.password))
  {
    hide Execute, Fail;
  }

  lemma UnauthenticatedCommand(engine: Engine, c: Conn, m: Moments, cmd: Command)
    requires !c.authenticated
    ensures var s := ServeCommand(engine, c, m, cmd);
      (s.ran != [] <==> (!c.queuing && cmd.Ping?) || ExecRuns(c, m, Some(cmd)))
      && (s.conn.authenticated <==>
          !c.queuing && c.subscriptions == 0 && cmd.Auth? && c.authRequired && engine.password(cmd.password))
  {
    hide ServePlain, Execute, ExecuteAmong, LeftBehind, WatchedHold, Noted, Fail, ChangesCount;
    UnauthenticatedPlain(engine, c, m.at, cmd);
  }

  /**
   * Exactly which frames run a command while the connection is not authenticated: outside MULTI
   * a plain GET or SET and PING, and EXEC with a queue whose watched keys hold. And exactly what
   * authenticates it: AUTH with the right password, outside MULTI and pub/sub mode.
   */
  lemma UnauthenticatedRuns(engine: Engine, c: Conn, m: Moments, frame: RespValue)
    requires !c.authenticated
    ensures var s, cmd := Serve(engine, c, m, frame), ParseCommand(engine, frame);
      (s.ran != [] <==> (!c.queuing && (Fast(frame) || IsPing(cmd))) || ExecRuns(c, m, cmd))
      && (s.conn.authenticated <==>
          !c.queuing && c.subscriptions == 0 && c.authRequired && cmd.Some? && cmd.value.Auth?
          && engine.password(cmd.value.password))
  {
    hide ServeCommand, ParseCommand, ExecRuns, SetKey, GetKey, Upper;
    var cmd := ParseCommand(engine, frame);
    if Fast(frame) {
      FastParses(engine, frame);
      FastIsNotExec(c, m, frame);
    }
    if cmd.Some? {
      UnauthenticatedCommand(engine, c, m, cmd.value);
    } else {
      NothingIsNotExec(c, m);
    }
  }

  lemma FastIsNotExec(c: Conn, m: Moments, frame: RespValue)
    requires Fast(frame)
    ensures !ExecRuns(c, m, Some(FastCommand(frame)))
    ensures !FastCommand(frame).Ping? && !FastCommand(frame).Auth?
  {
  }

  lemma NothingIsNotExec(c: Conn, m: Moments)
    ensures !ExecRuns(c, m, None)
  {
  }

  /**
   * In pub/sub mode a command that is not one of the allowed ones is refused, with nothing
   * changed, if and only if it is not a plain GET or SET outside MULTI.
   */
  lemma RefusedInPubSubMode(engine: Engine, c: Conn, m: Moments, frame: RespValue, cmd: Command)
    requires c.subscriptions > 0 && ParseCommand(engine, frame) == Some(cmd) && !AllowedInPubSub(cmd)
    ensures Serve(engine, c, m, frame) == Say(c, m.at, Fail(RESTRICTED)) <==> c.queuing || !Fast(frame)
  {
    hide ParseCommand, Upper;
  }

  /** The frame that shows it: a plain SET from a subscribed client, authenticated or not, is stored. */
  lemma SubscribedSetIsStored(engine: Engine, c: Conn, m: Moments, frame: RespValue)
    requires !c.queuing && FastSet(frame)
    ensures var s := Serve(engine, c, m, frame);
      s.replies == [OK] && s.env == SetKey(m.at, Arg(frame, 1).value, Arg(frame, 2).value)
      && s.env.data[Arg(frame, 1).value] == Arg(frame, 2).value
  {
  }

  // ---- The subscription count. ----

  function Count(c: Conn, count: nat): Conn {
    c.(subscriptions := count)
  }

  function Counting(s: Served, count: nat): Served {
    s.(conn := Count(s.conn, count))
  }

  /** Frames that pub/sub mode refuses: not an allowed command, nor a plain GET or SET outside MULTI. */
  predicate Sensitive(engine: Engine, c: Conn, frame: RespValue) {
    (c.queuing || !Fast(frame))
    && ParseCommand(engine, frame).Some? && !AllowedInPubSub(ParseCommand(engine, frame).value)
  }

  /** `b` is what `a` becomes when the connection has another count; neither changes the count. */
  predicate SameButCount(a: Served, b: Served, c: Conn, count: nat) {
    b == Counting(a, count) && a.conn.subscriptions == c.subscriptions
  }

  lemma PlainCount(engine: Engine, c: Conn, count: nat, e: Env, cmd: Command)
    ensures SameButCount(ServePlain(engine, c, e, cmd), ServePlain(engine, Count(c, count), e, cmd), c, count)
  {
    hide Execute, Fail;
  }

  lemma ExecCount(engine: Engine, c: Conn, count: nat, m: Moments)
    ensures SameButCount(ServeExec(engine, c, m), ServeExec(engine, Count(c, count), m), c, count)
  {
    hide ExecuteAmong, LeftBehind, WatchedHold, Fail;
  }

  lemma CommandCount(engine: Engine, c: Conn, count: nat, m: Moments, cmd: Command)
    requires AllowedInPubSub(cmd) || (count > 0) == (c.subscriptions > 0)
    ensures SameButCount(ServeCommand(engine, c, m, cmd), ServeCommand(engine, Count(c, count), m, cmd), c, count)
  {
    hide ServePlain, ServeExec, Noted, Fail, AllowedInPubSub;
    PlainCount(engine, c, count, m.at, cmd);
    ExecCount(engine, c, count, m);
    match cmd
    case Exec =>
    case WatchKeys(_) =>
    case _ =>
  }

  /** Two counts make a difference to a frame only if it is sensitive and they differ in the mode. */
  lemma FrameCount(engine: Engine, c: Conn, count: nat, m: Moments, frame: RespValue)
    requires Sensitive(engine, c, frame) ==> (count > 0) == (c.subscriptions > 0)
    ensures SameButCount(Serve(engine, c, m, frame), Serve(engine, Count(c, count), m, frame), c, count)
  {
    hide ServeCommand, ParseCommand, FastSet, FastGet, AllowedInPubSub, SetKey, GetKey;
    var cmd := ParseCommand(engine, frame);
    if cmd.Some? && (c.queuing || !Fast(frame)) {
      CommandCount(engine, c, count, m, cmd.value);
    }
  }

  /** Serving leaves the count as it is: only the server sets it, between reads. */
  lemma CountStays(engine: Engine, c: Conn, m: Moments, frame: RespValue)
    ensures Serve(engine, c, m, frame).conn.subscriptions == c.subscriptions
  {
    hide Serve;
    FrameCount(engine, c, c.subscriptions, m, frame);
  }

  /** The rest of the server never uses the text of the refusal in pub/sub mode. */
  ghost predicate OwnTexts(engine: Engine) {
    (forall cmd, e :: engine.run(cmd, e).1 != Fail(RESTRICTED))
    && (forall name, args :: engine.parse(name, args).Some? && engine.parse(name, args).value.PubSub? ==>
      engine.parse(name, args).value.complaint != RESTRICTED)
  }

  predicate Refusal(reply: RespValue) {
    reply == Fail(RESTRICTED)
  }

  lemma ExecuteRefusesNot(engine: Engine, cmd: Command, e: Env)
    requires OwnTexts(engine)
    ensures !Refusal(Execute(engine, cmd, e).1)
  {
  }

  lemma PlainRefusesNot(engine: Engine, c: Conn, e: Env, cmd: Command)
    requires OwnTexts(engine) && (cmd.PubSub? ==> cmd.complaint != RESTRICTED)
    ensures forall reply :: reply in ServePlain(engine, c, e, cmd).replies ==> !Refusal(reply)
  {
    hide Execute, OwnTexts;
    ExecuteRefusesNot(engine, cmd, e);
  }

  lemma CommandRefusesNot(engine: Engine, c: Conn, m: Moments, cmd: Command)
    requires OwnTexts(engine) && c.subscriptions == 0 && (cmd.PubSub? ==> cmd.complaint != RESTRICTED)
    ensures forall reply :: reply in ServeCommand(engine, c, m, cmd).replies ==> !Refusal(reply)
  {
    hide ServePlain, OwnTexts, ExecuteAmong, LeftBehind, WatchedHold, Noted;
    PlainRefusesNot(engine, c, m.at, cmd);
  }

  lemma ParsedComplaint(engine: Engine, frame: RespValue)
    requires OwnTexts(engine)
    ensures var cmd := ParseCommand(engine, frame);
      cmd.Some? && cmd.value.PubSub? ==> cmd.value.complaint != RESTRICTED
  {
    hide Upper, Fail;
  }

  /** Outside pub/sub mode nothing is refused for it. */
  lemma FrameRefusesNot(engine: Engine, c: Conn, m: Moments, frame: RespValue)
    requires OwnTexts(engine) && c.subscriptions == 0
    ensures forall reply :: reply in Serve(engine, c, m, frame).replies ==> !Refusal(reply)
  {
    hide ServeCommand, ParseCommand, OwnTexts, Upper;
    var cmd := ParseCommand(engine, frame);
    ParsedComplaint(engine, frame);
    if cmd.Some? {
      CommandRefusesNot(engine, c, m, cmd.value);
    }
  }

  /** In pub/sub mode a sensitive frame is refused. */
  lemma SensitiveIsRefused(engine: Engine, c: Conn, m: Moments, frame: RespValue)
    requires c.subscriptions > 0 && Sensitive(engine, c, frame)
    ensures Serve(engine, c, m, frame) == Say(c, m.at, Fail(RESTRICTED))
  {
    hide ParseCommand, Fast;
  }

  // ---- Transactions. ----

  /** Commands that leave an open transaction open. */
  predicate InBody(cmd: Command) {
    !cmd.Quit? && !cmd.Exec? && !cmd.Discard?
  }

  /** Those of them that are queued. */
  predicate Queueable(cmd: Command) {
    InBody(cmd) && !cmd.Multi? && !cmd.WatchKeys? && !cmd.Unwatch?
  }

  function BodyReply(cmd: Command): RespValue {
    if cmd.Multi? then Fail(NESTED)
    else if cmd.WatchKeys? then Fail(WATCH_INSIDE)
    else if cmd.Unwatch? then OK
    else QUEUED
  }

  function BodyReplies(cmds: seq<Command>): (r: seq<RespValue>)
    ensures |r| == |cmds|
  {
    seq(|cmds|, i requires 0 <= i < |cmds| => BodyReply(cmds[i]))
  }

  /** What a transaction collects: its queueable commands, in the order sent. */
  function Collected(cmds: seq<Command>): seq<Command> {
    if cmds == [] then []
    else
      var last := cmds[|cmds| - 1];
      Collected(cmds[..|cmds| - 1]) + if Queueable(last) then [last] else []
  }

  /** The keys still watched: all of them, or none after an UNWATCH. */
  function StillWatched(watched: Versions, cmds: seq<Command>): Versions {
    if exists i :: 0 <= i < |cmds| && cmds[i].Unwatch? then map[] else watched
  }

  function Begun(c: Conn): Conn {
    c.(queuing := true, queue := [])
  }

  function InTransaction(c: Conn, cmds: seq<Command>): Conn {
    c.(queuing := true, queue := Collected(cmds), watched := StillWatched(c.watched, cmds))
  }

  lemma {:induction false} WordIsNotFast(engine: Engine, frame: RespValue)
    requires ParseCommand(engine, frame).Some?
    requires !ParseCommand(engine, frame).value.Get? && !ParseCommand(engine, frame).value.Set?
    ensures !Fast(frame)
  {
    if Fast(frame) {
      FastParses(engine, frame);
    }
  }

  /** One frame of the body: answered on the spot, and nothing is run or touched. */
  lemma BodyStep(engine: Engine, c: Conn, m: Moments, frame: RespValue, cmd: Command)
    requires c.queuing && c.subscriptions == 0 && ParseCommand(engine, frame) == Some(cmd) && InBody(cmd)
    ensures Serve(engine, c, m, frame)
      == Say(c.(queue := c.queue + (if Queueable(cmd) then [cmd] else []),
                watched := if cmd.Unwatch? then map[] else c.watched),
             m.at, BodyReply(cmd))
  {
    hide ParseCommand, Fast, Fail;
    assert c.queue + [] == c.queue;
  }

  function LastState(ms: seq<Moments>, e: Env): Env {
    if ms == [] then e else ms[|ms| - 1].at
  }

  lemma StillWatchedSnoc(watched: Versions, cmds: seq<Command>)
    requires cmds != []
    ensures var n := |cmds| - 1;
      StillWatched(watched, cmds) == if cmds[n].Unwatch? then map[] else StillWatched(watched, cmds[..n])
  {
    var n := |cmds| - 1;
    assert forall i :: 0 <= i < n ==> cmds[..n][i] == cmds[i];
  }

  /** Whatever others do meanwhile, the body collects its commands and touches nothing. */
  lemma {:induction false} BodyCollects(engine: Engine, c: Conn, e: Env, ms: seq<Moments>, frames: seq<RespValue>,
                                        cmds: seq<Command>)
    requires |ms| == |frames| == |cmds| && c.subscriptions == 0
    requires forall i :: 0 <= i < |cmds| ==> ParseCommand(engine, frames[i]) == Some(cmds[i]) && InBody(cmds[i])
    ensures ServeAmid(engine, Begun(c), e, ms, frames)
      == Served(InTransaction(c, cmds), LastState(ms, e), BodyReplies(cmds), [], [], Go)
    decreases |frames|
  {
    hide ParseCommand, Serve, StillWatched, InBody, Queueable;
    if frames == [] {
      NothingUnwatched(c.watched);
      assert BodyReplies(cmds) == [];
    } else {
      var n := |frames| - 1;
      BodyCollects(engine, c, e, ms[..n], frames[..n], cmds[..n]);
      StillWatchedSnoc(c.watched, cmds);
      BodyStep(engine, InTransaction(c, cmds[..n]), ms[n], frames[n], cmds[n]);
      assert BodyReplies(cmds) == BodyReplies(cmds[..n]) + [BodyReply(cmds[n])];
    }
  }

  lemma NothingUnwatched(watched: Versions)
    ensures StillWatched(watched, []) == watched
  {
  }

  /** How a transaction ends: all results in one array, or nil, or OK for DISCARD; and nothing is watched. */
  function Outcome(engine: Engine, c: Conn, cmds: seq<Command>, m: Moments, closer: Command): Served {
    var queue := Collected(cmds);
    if closer.Discard? then Say(Idle(c), m.at, OK)
    else if !WatchedHold(StillWatched(c.watched, cmds), m.checked) then Say(Idle(c), m.at, NIL)
    else
      Served(Idle(c), LeftBehind(engine, queue, m.meets, m.at), [Array(ExecuteAmong(engine, queue, m.meets))], [],
             queue, Go)
  }

  lemma Closes(engine: Engine, c: Conn, cmds: seq<Command>, m: Moments, frame: RespValue, closer: Command)
    requires c.subscriptions == 0 && ParseCommand(engine, frame) == Some(closer) && (closer.Exec? || closer.Discard?)
    ensures Serve(engine, InTransaction(c, cmds), m, frame) == Outcome(engine, c, cmds, m, closer)
  {
    hide ParseCommand, Fast, ExecuteAmong, LeftBehind, WatchedHold, Collected, StillWatched;
  }

  /**
   * A whole transaction, other workers acting at any time: MULTI, any frames, EXEC or DISCARD.
   * Between the two nothing is run and the shared state is not touched; nested MULTI and WATCH
   * are refused, UNWATCH forgets, everything else is queued. At EXEC the check passes if every
   * key still watched has its version at the moment it is read; then each queued command runs
   * once, in order, on the state it meets, and the reply is one array with one result each.
   * Otherwise, and for DISCARD, nothing runs. The connection is then idle and watches nothing.
   */
  lemma Transaction(engine: Engine, c: Conn, e: Env, opening: Moments, ms: seq<Moments>, closing: Moments,
                    multi: RespValue, frames: seq<RespValue>, cmds: seq<Command>, last: RespValue, closer: Command)
    requires |ms| == |frames| == |cmds| && !c.queuing && c.subscriptions == 0
    requires ParseCommand(engine, multi) == Some(Multi)
    requires ParseCommand(engine, last) == Some(closer) && (closer.Exec? || closer.Discard?)
    requires forall i :: 0 <= i < |cmds| ==> ParseCommand(engine, frames[i]) == Some(cmds[i]) && InBody(cmds[i])
    ensures Serve(engine, c, opening, multi) == Say(Begun(c), opening.at, OK)
    ensures ServeAmid(engine, Begun(c), e, ms, frames)
      == Served(InTransaction(c, cmds), LastState(ms, e), BodyReplies(cmds), [], [], Go)
    ensures Serve(engine, InTransaction(c, cmds), closing, last) == Outcome(engine, c, cmds, closing, closer)
  {
    hide ParseCommand, Serve, ServeAmid, InTransaction, Outcome, InBody, BodyReplies;
    Opens(engine, c, opening, multi);
    BodyCollects(engine, c, e, ms, frames, cmds);
    Closes(engine, c, cmds, closing, last, closer);
  }

  lemma Opens(engine: Engine, c: Conn, m: Moments, frame: RespValue)
    requires !c.queuing && c.subscriptions == 0 && ParseCommand(engine, frame) == Some(Multi)
    ensures Serve(engine, c, m, frame) == Say(Begun(c), m.at, OK)
  {
    hide ParseCommand, Fast;
    WordIsNotFast(engine, frame);
  }

  /** Outside a transaction EXEC and DISCARD are refused and change nothing. */
  lemma NothingToClose(engine: Engine, c: Conn, m: Moments, frame: RespValue, closer: Command)
    requires !c.queuing && c.subscriptions == 0
    requires ParseCommand(engine, frame) == Some(closer) && (closer.Exec? || closer.Discard?)
    ensures Serve(engine, c, m, frame) == Say(c, m.at, Fail(if closer.Exec? then EXEC_ALONE else DISCARD_ALONE))
  {
    hide ParseCommand, Fast, Fail;
    WordIsNotFast(engine, frame);
  }

  /** A command sent inside MULTI is run by EXEC although the connection never authenticated. */
  lemma QueuedRunsUnauthenticated(engine: Engine, c: Conn, opening: Moments, m: Moments, closing: Moments,
                                  multi: RespValue, frame: RespValue, cmd: Command, exec: RespValue)
    requires !c.authenticated && !c.queuing && c.subscriptions == 0 && c.watched == map[]
    requires ParseCommand(engine, multi) == Some(Multi) && ParseCommand(engine, exec) == Some(Exec)
    requires ParseCommand(engine, frame) == Some(cmd) && Queueable(cmd)
    ensures var begun := Serve(engine, c, opening, multi).conn;
      var s := Serve(engine, Serve(engine, begun, m, frame).conn, closing, exec);
      s.ran == [cmd] && s.env == Execute(engine, cmd, closing.meets(0)).0 && !s.conn.authenticated
  {
    hide ParseCommand, Serve, Execute;
    var cmds := [cmd];
    Transaction(engine, c, m.at, opening, [m], closing, multi, [frame], cmds, exec, Exec);
    BodyStep(engine, Begun(c), m, frame, cmd);
    assert cmds[..0] == [] && Collected(cmds) == [cmd];
    assert Begun(c).queue + [cmd] == [cmd];
    assert InTransaction(c, cmds) == Begun(c).(queue := [cmd]);
  }

  // ---- WATCH. ----

  /** After WATCH, each key named is held at the version read for it; other keys as before. */
  lemma {:induction false} NotedVersions(watched: Versions, checked: bytes -> nat, keys: seq<bytes>, key: bytes)
    ensures var w := Noted(watched, checked, keys);
      (key in w <==> key in keys || key in watched)
      && (key in keys ==> w[key] == checked(key))
      && (key !in keys && key in watched ==> w[key] == watched[key])
  {
    if keys != [] {
      var front := keys[..|keys| - 1];
      NotedVersions(watched, checked, front, key);
      assert keys == front + [keys[|keys| - 1]];
    }
  }

  /** When a key was read by its latest WATCH and by EXEC, as numbers of announcements made by then. */
  datatype Span = Span(since: nat, at: nat)

  ghost predicate ReadFrom(log: seq<Note>, watched: Versions, checked: bytes -> nat, when: bytes -> Span) {
    forall key :: key in watched ==>
      var w := when(key);
      w.since <= w.at <= |log| && watched[key] == LastTicket(log[..w.since], key)
      && checked(key) == LastTicket(log[..w.at], key)
  }

  ghost predicate NoneAnnounced(log: seq<Note>, watched: Versions, when: bytes -> Span) {
    forall key :: key in watched ==> !PublishedSince(UpTo(log, when(key).at), when(key).since, key)
  }

  /**
   * In every interleaving of ticket and publication steps, the check of EXEC passes if and only
   * if no watched key was announced between the moment its latest WATCH read it and the moment
   * the check read it; these moments differ from key to key.
   */
  lemma HoldIffNoneAnnounced(s: State, actions: seq<Action>, watched: Versions, checked: bytes -> nat,
                             when: bytes -> Span)
    requires Starts(s) && ReadFrom(Run(s, actions).log, watched, checked, when)
    ensures WatchedHold(watched, checked) <==> NoneAnnounced(Run(s, actions).log, watched, when)
  {
    hide Run, LastTicket, PublishedSince;
    var log := Run(s, actions).log;
    forall key | key in watched
      ensures checked(key) == watched[key] <==> !PublishedSince(UpTo(log, when(key).at), when(key).since, key)
    {
      KeyCheck(s, actions, Watched(key, watched[key], when(key).since, when(key).at));
    }
  }

  /**
   * EXEC in every interleaving: the queue runs if and only if no watched key was announced
   * between its latest WATCH and the check; otherwise the reply is nil and nothing runs.
   */
  lemma WatchedExec(engine: Engine, c: Conn, m: Moments, exec: RespValue, s: State, actions: seq<Action>,
                    when: bytes -> Span)
    requires c.queuing && c.subscriptions == 0 && ParseCommand(engine, exec) == Some(Exec)
    requires Starts(s) && ReadFrom(Run(s, actions).log, c.watched, m.checked, when)
    ensures Serve(engine, c, m, exec)
      == if NoneAnnounced(Run(s, actions).log, c.watched, when)
         then Served(Idle(c), LeftBehind(engine, c.queue, m.meets, m.at),
                     [Array(ExecuteAmong(engine, c.queue, m.meets))], [], c.queue, Go)
         else Say(Idle(c), m.at, NIL)
  {
    hide ParseCommand, Run, WatchedHold, NoneAnnounced, LeftBehind, ExecuteAmong;
    HoldIffNoneAnnounced(s, actions, c.watched, m.checked, when);
  }
}
