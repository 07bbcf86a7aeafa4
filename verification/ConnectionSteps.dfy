/**
 * A connection over its whole life with other workers at work: they change the shared state
 * between any two frames, also those of one read, and between the commands of a transaction; and
 * other connections of the same worker subscribe and unsubscribe.
 */
module ConnectionSteps {
  import opened Bytes
  import opened Resp
  import opened RespStream
  import opened Commands
  import opened Session
  import opened Network
  import opened PubSubLayer
  import opened ConnectionStream

  /**
   * A read begins with some bytes; the read loop takes a turn, at some moments, the last of which
   * ends the read; the socket takes at most `n` bytes; another connection has an operation done.
   */
  datatype Event = Receive(chunk: bytes) | Turn(m: Moments) | Send(n: nat) | Elsewhere(other: nat, op: PubSubOp)

  /**
   * `waiting` are the operations of the read going on, `told` those carried out, `dropped` those of
   * a read that failed. `served` are the frames that were answered, `met` the moments and `counts`
   * the subscription counts at which they were; `sent` bytes of the output have left.
   */
  datatype Line = Line(conn: Conn, hub: Hub, unread: bytes, output: bytes, sent: nat, fate: Fate, reading: bool,
                       replies: seq<RespValue>, waiting: seq<PubSubOp>, told: seq<PubSubOp>,
                       ghost dropped: seq<PubSubOp>, ghost received: bytes, ghost served: seq<RespValue>,
                       ghost met: seq<Moments>, ghost counts: seq<nat>)

  /** The end of a read: the pub/sub layer carries out its operations. */
  ghost function EndRead(l: Line, me: nat): Line {
    var t := TellAll(Standing(l.hub, l.conn.subscriptions), me, l.waiting);
    l.(hub := t.hub, conn := Count(l.conn, t.count), told := l.told + l.waiting, waiting := [],
       reading := false)
  }

  /** A failure ends the connection, and the operations of the read are forgotten. */
  ghost function BreakOff(l: Line, rest: bytes): Line {
    l.(unread := rest, fate := Broke, dropped := l.waiting, waiting := [], reading := false)
  }

  ghost function Answer(l: Line, m: Moments, frame: RespValue, rest: bytes, s: Served): Line {
    l.(conn := s.conn, unread := rest, output := l.output + EncodeAll(s.replies), replies := l.replies + s.replies,
       waiting := l.waiting + s.ops, served := l.served + [frame], met := l.met + [m],
       counts := l.counts + [l.conn.subscriptions], fate := if s.end.Closed? then Departed else Serving)
  }

  ghost function AfterFrame(l: Line, me: nat, m: Moments, frame: RespValue, rest: bytes, s: Served): Line {
    if s.end.Rejected? then BreakOff(l, rest)
    else
      var answered := Answer(l, m, frame, rest, s);
      if s.end.Closed? then EndRead(answered, me) else answered
  }

  ghost function Step(engine: Engine, me: nat, l: Line, ev: Event): Line {
    match ev
    case Receive(chunk) =>
      if l.fate.Serving? && !l.reading
      then l.(unread := l.unread + chunk, received := l.received + chunk, reading := true) else l
    case Send(n) => if l.fate.Broke? then l else l.(sent := Min(l.sent + n, |l.output|))
    case Elsewhere(other, op) =>
      if other == me then l else l.(hub := Tell(Standing(l.hub, 0), other, op).hub)
    case Turn(m) =>
      if !l.reading then l
      else
        match Parse(l.unread)
        case NeedMore => EndRead(l, me)
        case Bad(_) => BreakOff(l, l.unread)
        case Done(frame, used) => AfterFrame(l, me, m, frame, l.unread[used..], Serve(engine, l.conn, m, frame))
  }

  ghost function Run(engine: Engine, me: nat, l: Line, events: seq<Event>): Line {
    if events == [] then l
    else Step(engine, me, Run(engine, me, l, events[..|events| - 1]), events[|events| - 1])
  }

  ghost function Opened(c: Conn, hub: Hub): Line {
    Line(c, hub, [], [], 0, Serving, false, [], [], [], [], [], [], [], [])
  }

  /** Frame after frame, each at its own moments and with the subscription count of then. */
  ghost function ServeCounted(engine: Engine, c: Conn, e: Env, ms: seq<Moments>, counts: seq<nat>,
                              frames: seq<RespValue>): Served
    requires |ms| == |counts| == |frames|
    decreases |frames|
  {
    if frames == [] then Begin(c, e)
    else
      var n := |frames| - 1;
      var before := ServeCounted(engine, c, e, ms[..n], counts[..n], frames[..n]);
      if !before.end.Go? then before
      else Then(before, Serve(engine, Count(before.conn, counts[n]), ms[n], frames[n]))
  }

  /** The answers are those of serving the frames in order, each at its own moments and count. */
  ghost predicate Answered(engine: Engine, c: Conn, e: Env, l: Line) {
    |l.met| == |l.counts| == |l.served|
    && var s := ServeCounted(engine, c, e, l.met, l.counts, l.served);
      l.conn == Count(s.conn, l.conn.subscriptions) && l.replies == s.replies
      && l.told + l.waiting + l.dropped == s.ops && (l.fate.Serving? ==> s.end.Go?)
      && |l.replies| + |s.ops| == |l.served|
  }

  /** Operations wait while a read goes on, and are dropped only by a failure. */
  ghost predicate Phased(l: Line) {
    (l.reading ==> l.fate.Serving?) && (!l.reading ==> l.waiting == []) && (!l.fate.Broke? ==> l.dropped == [])
  }

  /** The count is the number of subscriptions kept for the connection, whatever others do. */
  ghost predicate Counted(l: Line, me: nat) {
    l.conn.subscriptions == Held(l.hub, me)
  }

  /** The frames served are the first ones of the input, and while the connection lives none is skipped. */
  ghost predicate InOrder(l: Line) {
    l.served <= Drain(l.received).values
    && (l.fate.Serving? ==>
      Drain(l.received) == Drained(l.served + Drain(l.unread).values, Drain(l.unread).stop))
    && (l.fate.Serving? && !l.reading ==> Parse(l.unread).NeedMore?)
  }

  /** What was sent is a prefix of the encoded replies; the rest is pending. */
  ghost predicate Written(l: Line) {
    l.output == EncodeAll(l.replies) && l.sent <= |l.output|
  }

  ghost predicate InStep(engine: Engine, me: nat, c: Conn, e: Env, l: Line) {
    Answered(engine, c, e, l) && Phased(l) && Counted(l, me) && InOrder(l) && Written(l)
  }

  lemma EndKeeps(engine: Engine, me: nat, c: Conn, e: Env, l: Line)
    requires Answered(engine, c, e, l) && Counted(l, me)
    ensures Answered(engine, c, e, EndRead(l, me)) && Counted(EndRead(l, me), me)
  {
    hide ServeCounted, TellAll, Held;
    CountIsHeld(Standing(l.hub, l.conn.subscriptions), me, l.waiting);
    assert l.told + l.waiting + [] == l.told + l.waiting;
  }

  lemma FailKeeps(engine: Engine, me: nat, c: Conn, e: Env, l: Line, rest: bytes)
    requires Answered(engine, c, e, l) && l.dropped == [] && Counted(l, me)
    ensures Answered(engine, c, e, BreakOff(l, rest)) && Counted(BreakOff(l, rest), me)
  {
    hide ServeCounted, Held;
    assert l.told + [] + l.waiting == l.told + l.waiting + [];
  }

  lemma AnswerKeeps(engine: Engine, me: nat, c: Conn, e: Env, l: Line, m: Moments, frame: RespValue, rest: bytes)
    requires Answered(engine, c, e, l) && l.dropped == [] && l.fate.Serving? && Counted(l, me)
    requires !Serve(engine, l.conn, m, frame).end.Rejected?
    ensures var t := Answer(l, m, frame, rest, Serve(engine, l.conn, m, frame));
      Answered(engine, c, e, t) && Counted(t, me)
  {
    hide Serve, EncodeAll, Held;
    OneReply(engine, l.conn, m, frame);
    CountStays(engine, l.conn, m, frame);
    var s := Serve(engine, l.conn, m, frame);
    assert (l.served + [frame])[..|l.served|] == l.served && (l.met + [m])[..|l.met|] == l.met;
    assert (l.counts + [l.conn.subscriptions])[..|l.counts|] == l.counts;
    assert l.told + (l.waiting + s.ops) + [] == (l.told + l.waiting + []) + s.ops;
  }

  lemma TurnAnswers(engine: Engine, me: nat, c: Conn, e: Env, l: Line, m: Moments)
    requires Answered(engine, c, e, l) && Phased(l) && Counted(l, me)
    ensures var t := Step(engine, me, l, Turn(m));
      Answered(engine, c, e, t) && Phased(t) && Counted(t, me)
  {
    hide Answered, Counted, Parse, Serve, EncodeAll, TellAll;
    if l.reading {
      EndKeeps(engine, me, c, e, l);
      match Parse(l.unread)
      case NeedMore =>
      case Bad(_) => FailKeeps(engine, me, c, e, l, l.unread);
      case Done(frame, used) =>
        var s := Serve(engine, l.conn, m, frame);
        if s.end.Rejected? {
          FailKeeps(engine, me, c, e, l, l.unread[used..]);
        } else {
          AnswerKeeps(engine, me, c, e, l, m, frame, l.unread[used..]);
          EndKeeps(engine, me, c, e, Answer(l, m, frame, l.unread[used..], s));
        }
    }
  }

  lemma TurnInOrder(engine: Engine, me: nat, l: Line, m: Moments)
    requires InOrder(l) && Phased(l)
    ensures InOrder(Step(engine, me, l, Turn(m)))
  {
    hide Parse, Drain, Serve, EncodeAll, TellAll;
    DrainStep(l.unread);
    if l.reading && Parse(l.unread).Done? {
      var p := Parse(l.unread);
      var later := Drain(l.unread[p.consumed..]).values;
      assert l.served + ([p.value] + later) == (l.served + [p.value]) + later;
    }
  }

  lemma TurnWritten(engine: Engine, me: nat, l: Line, m: Moments)
    requires Written(l)
    ensures Written(Step(engine, me, l, Turn(m)))
  {
    hide Parse, Serve, EncodeAll, TellAll;
    if l.reading && Parse(l.unread).Done? {
      EncodeAllConcat(l.replies, Serve(engine, l.conn, m, Parse(l.unread).value).replies);
    }
  }

  lemma ReceiveInOrder(engine: Engine, me: nat, l: Line, chunk: bytes)
    requires InOrder(l)
    ensures InOrder(Step(engine, me, l, Receive(chunk)))
  {
    hide Drain, Parse;
    DrainStep(l.unread);
    if l.fate.Serving? && !l.reading {
      DrainAppend(l.received, chunk);
      assert l.served + [] == l.served;
    }
  }

  lemma ElsewhereCounted(engine: Engine, me: nat, l: Line, other: nat, op: PubSubOp)
    requires Counted(l, me)
    ensures Counted(Step(engine, me, l, Elsewhere(other, op)), me)
  {
    hide Tell, Held;
    if other != me {
      OthersDoNotCount(Standing(l.hub, 0), other, me, op);
    }
  }

  lemma OtherAnswers(engine: Engine, me: nat, c: Conn, e: Env, l: Line, ev: Event)
    requires Answered(engine, c, e, l) && Phased(l) && Written(l) && !ev.Turn?
    ensures var t := Step(engine, me, l, ev);
      Answered(engine, c, e, t) && Phased(t) && Written(t) && t.conn == l.conn
  {
    hide ServeCounted, EncodeAll, Tell;
  }

  lemma OtherKeeps(engine: Engine, me: nat, l: Line, ev: Event)
    requires InOrder(l) && Counted(l, me) && !ev.Turn?
    ensures InOrder(Step(engine, me, l, ev)) && Counted(Step(engine, me, l, ev), me)
  {
    hide Drain, Parse, Held, Tell;
    match ev
    case Receive(chunk) => ReceiveInOrder(engine, me, l, chunk);
    case Elsewhere(other, op) => ElsewhereCounted(engine, me, l, other, op);
    case Send(n) =>
  }

  lemma StepKeeps(engine: Engine, me: nat, c: Conn, e: Env, l: Line, ev: Event)
    requires InStep(engine, me, c, e, l)
    ensures InStep(engine, me, c, e, Step(engine, me, l, ev))
  {
    hide Answered, Phased, Counted, InOrder, Written, Step;
    if ev.Turn? {
      TurnAnswers(engine, me, c, e, l, ev.m);
      TurnInOrder(engine, me, l, ev.m);
      TurnWritten(engine, me, l, ev.m);
    } else {
      OtherAnswers(engine, me, c, e, l, ev);
      OtherKeeps(engine, me, l, ev);
    }
  }

  /**
   * Whatever the cutting of the input, the pace of the writes and the doings of others between
   * any two steps: the frames are served in the order received with none skipped, each by exactly
   * one reply or one pub/sub operation, at the subscription count that the operations of earlier
   * reads left; operations are carried out at the end of their read, or dropped if it fails; and
   * what was sent is a prefix of the encoded replies.
   */
  lemma {:induction false} OneReplyPerCommand(engine: Engine, me: nat, c: Conn, e: Env, hub: Hub, events: seq<Event>)
    requires c.subscriptions == Held(hub, me)
    ensures InStep(engine, me, c, e, Run(engine, me, Opened(c, hub), events))
    decreases |events|
  {
    hide InStep, Step, Held;
    if events == [] {
      Starts(engine, me, c, e, hub);
    } else {
      OneReplyPerCommand(engine, me, c, e, hub, events[..|events| - 1]);
      StepKeeps(engine, me, c, e, Run(engine, me, Opened(c, hub), events[..|events| - 1]), events[|events| - 1]);
    }
  }

  lemma Starts(engine: Engine, me: nat, c: Conn, e: Env, hub: Hub)
    requires c.subscriptions == Held(hub, me)
    ensures InStep(engine, me, c, e, Opened(c, hub))
  {
    hide Held;
    NothingToDrain();
    assert Parse([]).NeedMore?;
  }

  /** Between two reads there is one answer for each complete frame received. */
  lemma AllAnswered(engine: Engine, me: nat, c: Conn, e: Env, hub: Hub, events: seq<Event>)
    requires c.subscriptions == Held(hub, me)
    requires var l := Run(engine, me, Opened(c, hub), events); l.fate.Serving? && !l.reading
    ensures var l := Run(engine, me, Opened(c, hub), events);
      l.served == Drain(l.received).values && Drain(l.received).stop == Waiting(l.unread)
      && |l.replies| + |l.told| == |Drain(l.received).values|
  {
    hide Parse, Run, EncodeAll, ServeCounted, Held;
    OneReplyPerCommand(engine, me, c, e, hub, events);
    var l := Run(engine, me, Opened(c, hub), events);
    DrainStep(l.unread);
    assert l.served + [] == l.served && l.told + [] + [] == l.told;
  }
}
