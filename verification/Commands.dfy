/**
 * Commands as the connection sees them: GET, SET and the words of the transaction protocol are
 * parsed and executed here; every other command is a parameter, the `Engine`.
 */
module Commands {
  import opened Bytes
  import opened Resp
  import opened Store
  import opened Watch
  import Binary
  import Decimal
  import Utf8

  /** What is handed to the pub/sub layer instead of being answered; `Ask` is PUBSUB with its arguments. */
  datatype PubSubOp =
    | Subscribe(channels: seq<bytes>)
    | Unsubscribe(named: Option<seq<bytes>>)
    | PSubscribe(patterns: seq<bytes>)
    | PUnsubscribe(named: Option<seq<bytes>>)
    | Publish(channel: bytes, payload: bytes)
    | Ask(word: bytes, args: seq<bytes>)

  /** The operations that change how many subscriptions the connection has. */
  predicate ChangesCount(op: PubSubOp) {
    op.Subscribe? || op.Unsubscribe? || op.PSubscribe? || op.PUnsubscribe?
  }

  datatype Command =
    | Get(key: bytes)
    | Set(key: bytes, value: bytes, ex: Option<nat>, px: Option<nat>)
    | Ping(message: Option<bytes>)
    | Auth(password: bytes)
    | Quit
    | Multi
    | Exec
    | Discard
    | WatchKeys(keys: seq<bytes>)
    | Unwatch
    | PubSub(op: Option<PubSubOp>, complaint: bytes)
    | Other(name: bytes, args: seq<RespValue>)

  /** What all connections share: the store and the watch registry. */
  datatype Env = Env(data: Data, ticket: nat, versions: Versions)

  /**
   * The rest of the server: how other command names are parsed (`None` is a parse error), what
   * executing such a command does, and the password check.
   */
  datatype Engine = Engine(
    parse: (bytes, seq<RespValue>) -> Option<Command>,
    run: (Command, Env) -> (Env, RespValue),
    password: bytes -> bool)

  function UpperByte(b: byte): byte {
    if 97 <= b <= 122 then b - 32 else b
  }

  function Upper(s: bytes): (r: bytes)
    ensures |r| == |s|
  {
    seq(|s|, i requires 0 <= i < |s| => UpperByte(s[i]))
  }

  const GET: bytes := [71, 69, 84]
  const SET: bytes := [83, 69, 84]
  const PING: bytes := [80, 73, 78, 71]
  const AUTH: bytes := [65, 85, 84, 72]
  const QUIT: bytes := [81, 85, 73, 84]
  const MULTI: bytes := [77, 85, 76, 84, 73]
  const EXEC: bytes := [69, 88, 69, 67]
  const DISCARD: bytes := [68, 73, 83, 67, 65, 82, 68]
  const WATCH: bytes := [87, 65, 84, 67, 72]
  const UNWATCH: bytes := [85, 78, 87, 65, 84, 67, 72]
  const EX: bytes := [69, 88]
  const PX: bytes := [80, 88]

  function ExtractBytes(v: RespValue): Option<bytes> {
    match v
    case BulkString(Some(s)) => Some(s)
    case SimpleString(s) => Some(s)
    case _ => None
  }

  function ExtractAll(args: seq<RespValue>): Option<seq<bytes>> {
    if args == [] then Some([])
    else
      var first := ExtractBytes(args[0]);
      var rest := ExtractAll(args[1..]);
      if first.Some? && rest.Some? then Some([first.value] + rest.value) else None
  }

  function ExtractInteger(v: RespValue): Option<int> {
    match v
    case Integer(n) => Some(n)
    case BulkString(Some(s)) => if Utf8.Valid(s) then Decimal.Parse(s) else None
    case _ => None
  }

  /** The options of SET from argument `i` on; unknown words are skipped one at a time. */
  function SetOptions(args: seq<RespValue>, i: nat, ex: Option<nat>,
          px: Option<nat>): Option<(Option<nat>, Option<nat>)>
    decreases |args| - i
  {
    if i >= |args| then Some((ex, px))
    else
      var opt := ExtractBytes(args[i]);
      if opt.None? then None
      else if Upper(opt.value) == EX && i + 1 < |args| then
        var n := ExtractInteger(args[i + 1]);
        if n.None? then None else SetOptions(args, i + 2, Some(n.value % Binary.TWO_64), px)
      else if Upper(opt.value) == PX && i + 1 < |args| then
        var n := ExtractInteger(args[i + 1]);
        if n.None? then None else SetOptions(args, i + 2, ex, Some(n.value % Binary.TWO_64))
      else SetOptions(args, i + 1, ex, px)
  }

  function ParseGet(args: seq<RespValue>): Option<Command> {
    if |args| != 1 then None
    else
      var key := ExtractBytes(args[0]);
      if key.None? then None else Some(Get(key.value))
  }

  function ParseSet(args: seq<RespValue>): Option<Command> {
    if |args| < 2 then None
    else
      var key, value := ExtractBytes(args[0]), ExtractBytes(args[1]);
      if key.None? || value.None? then None
      else
        var options := SetOptions(args, 2, None, None);
        if options.None? then None else Some(Set(key.value, value.value, options.value.0, options.value.1))
  }

  function ParsePing(args: seq<RespValue>): Option<Command> {
    if args == [] then Some(Ping(None))
    else
      var message := ExtractBytes(args[0]);
      if message.None? then None else Some(Ping(message))
  }

  function ParseAuth(args: seq<RespValue>): Option<Command> {
    if |args| != 1 then None
    else
      var password := ExtractBytes(args[0]);
      if password.None? then None else Some(Auth(password.value))
  }

  function ParseWatch(args: seq<RespValue>): Option<Command> {
    if args == [] then None
    else
      var keys := ExtractAll(args);
      if keys.None? then None else Some(WatchKeys(keys.value))
  }

  function Bare(args: seq<RespValue>, command: Command): Option<Command> {
    if args == [] then Some(command) else None
  }

  /** A frame as a command; `None` is any of the parse errors, which end the connection. */
  function ParseCommand(engine: Engine, frame: RespValue): Option<Command> {
    if !frame.Array? || frame.items == [] then None
    else
      match frame.items[0]
      case BulkString(Some(word)) =>
        var name, args := Upper(word), frame.items[1..];
        if name == GET then ParseGet(args)
        else if name == SET then ParseSet(args)
        else if name == PING then ParsePing(args)
        else if name == AUTH then ParseAuth(args)
        else if name == QUIT then Some(Quit)
        else if name == MULTI then Bare(args, Multi)
        else if name == EXEC then Bare(args, Exec)
        else if name == DISCARD then Bare(args, Discard)
        else if name == WATCH then ParseWatch(args)
        else if name == UNWATCH then Bare(args, Unwatch)
        else
          var c := engine.parse(name, args);
          if c.Some? && (c.value.PubSub? || c.value.Other?) then c else None
      case _ => None
  }

  /** SET with one expiry option, in seconds or milliseconds; the amount may be text or a number. */
  lemma SetWithExpiry(engine: Engine, word: bytes, key: bytes, value: bytes, unit: bytes, amount: RespValue, n: int)
    requires Upper(word) == SET && (Upper(unit) == EX || Upper(unit) == PX) && ExtractInteger(amount) == Some(n)
    ensures var frame := Array([BulkString(Some(word)), BulkString(Some(key)), BulkString(Some(value)),
                                BulkString(Some(unit)), amount]);
      var bits := n % Binary.TWO_64;
      ParseCommand(engine, frame)
      == Some(if Upper(unit) == EX then Set(key, value, Some(bits), None) else Set(key, value, None, Some(bits)))
  {
    var bits := n % Binary.TWO_64;
    var args: seq<RespValue> := [BulkString(Some(key)), BulkString(Some(value)), BulkString(Some(unit)), amount];
    var frame := Array([BulkString(Some(word))] + args);
    assert frame.items[1..] == args;
    assert GET[0] == 71 && SET[0] == 83 && EX[0] == 69 && PX[0] == 80;
    assert SetOptions(args, 4, Some(bits), None) == Some((Some(bits), None));
    assert SetOptions(args, 4, None, Some(bits)) == Some((None, Some(bits)));
  }

  const OK: RespValue := SimpleString([79, 75])
  const NIL: RespValue := BulkString(None)
  const PONG: RespValue := SimpleString([80, 79, 78, 71])

  /** Storing a value and announcing the change to watchers. */
  function SetKey(e: Env, key: bytes, value: bytes): Env {
    Env(e.data[key := value], e.ticket + 1, e.versions[key := e.ticket])
  }

  function GetKey(e: Env, key: bytes): RespValue {
    if key in e.data then BulkString(Some(e.data[key])) else NIL
  }

  /** The executor: the new shared state and the reply. Expiry times are not modelled. */
  function Execute(engine: Engine, c: Command, e: Env): (Env, RespValue) {
    match c
    case Get(key) => (e, GetKey(e, key))
    case Set(key, value, _, _) => (SetKey(e, key, value), OK)
    case Ping(message) => (e, if message.Some? then BulkString(message) else PONG)
    case _ => engine.run(c, e)
  }

  /** Commands one after the other with nobody else at work: the final state and the results. */
  function ExecuteAll(engine: Engine, cs: seq<Command>, e: Env): (r: (Env, seq<RespValue>))
    ensures |r.1| == |cs|
  {
    if cs == [] then (e, [])
    else
      var before := ExecuteAll(engine, cs[..|cs| - 1], e);
      var last := Execute(engine, cs[|cs| - 1], before.0);
      (last.0, before.1 + [last.1])
  }

  /** The results when command i meets the state `meets(i)`, whatever others do in between. */
  function ExecuteAmong(engine: Engine, cs: seq<Command>, meets: nat -> Env): (results: seq<RespValue>)
    ensures |results| == |cs|
  {
    seq(|cs|, i requires 0 <= i < |cs| => Execute(engine, cs[i], meets(i)).1)
  }

  /** What the last of the commands leaves behind. */
  function LeftBehind(engine: Engine, cs: seq<Command>, meets: nat -> Env, e: Env): Env {
    if cs == [] then e else Execute(engine, cs[|cs| - 1], meets(|cs| - 1)).0
  }

  /** The states that the commands meet when nobody else is at work. */
  function Undisturbed(engine: Engine, cs: seq<Command>, e: Env): nat -> Env {
    (i: nat) => ExecuteAll(engine, if i <= |cs| then cs[..i] else cs, e).0
  }

  lemma {:induction false} UndisturbedResults(engine: Engine, cs: seq<Command>, e: Env, i: nat)
    requires i < |cs|
    ensures ExecuteAll(engine, cs, e).1[i] == Execute(engine, cs[i], ExecuteAll(engine, cs[..i], e).0).1
    decreases |cs|
  {
    hide Execute;
    if i < |cs| - 1 {
      UndisturbedResults(engine, cs[..|cs| - 1], e, i);
      assert cs[..|cs| - 1][..i] == cs[..i];
    }
  }

  lemma UndisturbedIsAll(engine: Engine, cs: seq<Command>, e: Env)
    ensures ExecuteAmong(engine, cs, Undisturbed(engine, cs, e)) == ExecuteAll(engine, cs, e).1
    ensures LeftBehind(engine, cs, Undisturbed(engine, cs, e), e) == ExecuteAll(engine, cs, e).0
  {
    hide Execute;
    var among, all := ExecuteAmong(engine, cs, Undisturbed(engine, cs, e)), ExecuteAll(engine, cs, e).1;
    forall i | 0 <= i < |cs| ensures among[i] == all[i] {
      UndisturbedResults(engine, cs, e, i);
    }
  }
}
