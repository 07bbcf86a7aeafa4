/**
 * A connection over its whole life while nobody else is at work: any cutting of the input into
 * reads and any partial writes. After each read the server has the pub/sub layer carry out the
 * operations of that read; a read that fails drops them. So the cutting can matter, and it is
 * said exactly when it does. `ConnectionSteps` lets other workers in.
 */
module ConnectionStream {
  import opened Bytes
  import opened Resp
  import opened RespStream
  import opened Commands
  import opened Session
  import opened Network
  import opened PubSubLayer

  /** What can happen next: a read, or a write of at most `n` bytes. */
  datatype Io = Read(chunk: bytes) | Write(n: nat)

  /** Still open; closed after QUIT; or closed by an error, without writing any more. */
  datatype Fate = Serving | Departed | Broke

  /**
   * What the client is answered: a reply of the connection, what the layer answers to PUBLISH and
   * PUBSUB, or an acknowledgement.
   */
  datatype Answer = Said(reply: RespValue) | Direct(op: PubSubOp) | Noticed(notice: Notice)

  /** Who is connected to what: the connection's number on its worker, and all state at the start. */
  datatype Setting = Setting(engine: Engine, me: nat, conn: Conn, env: Env, hub: Hub)

  /**
   * `view.output` and `replies` are what the connection wrote itself, of which `sent` bytes have
   * left; `told` are the operations carried out; `answers` is everything in the order of the write
   * buffer: of one read the replies, then what PUBLISH and PUBSUB answer, then the acknowledgements.
   */
  datatype Wire = Wire(view: View, hub: Hub, unread: bytes, sent: nat, fate: Fate,
                       replies: seq<RespValue>, told: seq<PubSubOp>, answers: seq<Answer>)

  function Min(a: nat, b: nat): nat {
    if a <= b then a else b
  }

  function AllSaid(replies: seq<RespValue>): seq<Answer> {
    seq(|replies|, i requires 0 <= i < |replies| => Said(replies[i]))
  }

  function AllDirect(ops: seq<PubSubOp>): seq<Answer> {
    seq(|ops|, i requires 0 <= i < |ops| => Direct(ops[i]))
  }

  function AllNoticed(notices: seq<Notice>): seq<Answer> {
    seq(|notices|, i requires 0 <= i < |notices| => Noticed(notices[i]))
  }

  /** What the layer answers to the operations of one read. */
  function Layer(t: Standing, me: nat, ops: seq<PubSubOp>): seq<Answer> {
    AllDirect(Directs(ops)) + AllNoticed(Notices(t, me, ops))
  }

  predicate Breaks(s: Served, stop: Stop) {
    s.end.Rejected? || (s.end.Go? && stop.Failed?)
  }

  function FateOf(s: Served, stop: Stop): Fate {
    if Breaks(s, stop) then Broke else if s.end.Closed? then Departed else Serving
  }

  /** The operations that a read returns to the server. */
  function Returned(s: Served, stop: Stop): seq<PubSubOp> {
    if Breaks(s, stop) then [] else s.ops
  }

  /** One read, as the contract of `ProcessRead` states it, and what the server does after it. */
  function AfterRead(w: Wire, me: nat, s: Served, stop: Stop): Wire {
    var before := Standing(w.hub, s.conn.subscriptions);
    var t := TellAll(before, me, Returned(s, stop));
    Wire(View(Count(s.conn, t.count), s.env, w.view.output + EncodeAll(s.replies)), t.hub,
         if stop.Waiting? then stop.rest else [], w.sent, FateOf(s, stop),
         w.replies + s.replies, w.told + Returned(s, stop),
         w.answers + AllSaid(s.replies) + Layer(before, me, Returned(s, stop)))
  }

  function Step(engine: Engine, me: nat, w: Wire, io: Io): Wire {
    match io
    case Read(chunk) =>
      if !w.fate.Serving? then w
      else
        var input := Drain(w.unread + chunk);
        AfterRead(w, me, ServeAll(engine, w.view.conn, w.view.env, input.values), input.stop)
    case Write(n) => if w.fate.Broke? then w else w.(sent := Min(w.sent + n, |w.view.output|))
  }

  function Run(engine: Engine, me: nat, w: Wire, ios: seq<Io>): Wire {
    if ios == [] then w else Step(engine, me, Run(engine, me, w, ios[..|ios| - 1]), ios[|ios| - 1])
  }

  /** All bytes received. */
  function Received(ios: seq<Io>): bytes {
    if ios == [] then []
    else
      var last := ios[|ios| - 1];
      Received(ios[..|ios| - 1]) + if last.Read? then last.chunk else []
  }

  function Connected(st: Setting): Wire {
    Wire(View(st.conn, st.env, []), st.hub, [], 0, Serving, [], [], [])
  }

  function From(st: Setting, ios: seq<Io>): Wire {
    Run(st.engine, st.me, Connected(st), ios)
  }

  // ---- What is said of the input. ----

  /** The first `i` frames served in one read, that is, with the count of the start. */
  function Upto(st: Setting, frames: seq<RespValue>, i: nat): Served
    requires i <= |frames|
  {
    ServeAll(st.engine, st.conn, st.env, frames[..i])
  }

  /** Whether the connection would be in pub/sub mode if the read ended after `i` frames. */
  function ModeAt(st: Setting, frames: seq<RespValue>, i: nat): bool
    requires i <= |frames|
  {
    TellAll(Standing(st.hub, st.conn.subscriptions), st.me, Upto(st, frames, i).ops).count > 0
  }

  /** The i-th frame is reached and pub/sub mode refuses such frames. */
  predicate SensitiveIn(engine: Engine, c: Conn, e: Env, frames: seq<RespValue>, i: nat)
    requires i < |frames|
  {
    var s := ServeAll(engine, c, e, frames[..i]);
    s.end.Go? && Sensitive(engine, s.conn, frames[i])
  }

  predicate SensitiveAt(st: Setting, frames: seq<RespValue>, i: nat)
    requires i < |frames|
  {
    SensitiveIn(st.engine, st.conn, st.env, frames, i)
  }

  /** No operation before a sensitive frame takes the connection into pub/sub mode or out of it. */
  ghost predicate ModeHolds(st: Setting, frames: seq<RespValue>) {
    forall i, j :: 0 <= j <= i < |frames| && SensitiveAt(st, frames, i) ==>
      ModeAt(st, frames, j) == (st.conn.subscriptions > 0)
  }

  /** No operation comes before a frame that fails. */
  ghost predicate NoneDropped(st: Setting, input: Drained) {
    var s := ServeAll(st.engine, st.conn, st.env, input.values);
    Breaks(s, input.stop) ==> s.ops == []
  }

  /** All frames in one read, with the count of the start. */
  function Whole(st: Setting, received: bytes): Served {
    ServeAll(st.engine, st.conn, st.env, Drain(received).values)
  }

  /** What of a connection does not depend on how far its writes have come. */
  datatype Outcome = Outcome(view: View, hub: Hub, fate: Fate, replies: seq<RespValue>, told: seq<PubSubOp>)

  function OutcomeOf(w: Wire): Outcome {
    Outcome(w.view, w.hub, w.fate, w.replies, w.told)
  }

  /** However the input is cut, and however the writes go, the outcome is that of one read. */
  ghost predicate CutsAgree(st: Setting, input: bytes) {
    forall ios :: Received(ios) == input ==> OutcomeOf(From(st, ios)) == OutcomeOf(From(st, [Read(input)]))
  }

  // ---- When the cutting does not matter. ----

  lemma {:induction false} GroupKeepsCount(engine: Engine, c: Conn, e: Env, frames: seq<RespValue>)
    ensures ServeAll(engine, c, e, frames).conn.subscriptions == c.subscriptions
    decreases |frames|
  {
    hide Serve, Still;
    if frames != [] {
      var front := frames[..|frames| - 1];
      GroupKeepsCount(engine, c, e, front);
      var s := ServeAll(engine, c, e, front);
      CountStays(engine, s.conn, Still(engine, s.conn, s.env), frames[|frames| - 1]);
    }
  }

  /** The count changes the serving of some frames only if one of them is sensitive and the mode is another. */
  lemma {:induction false} GroupSame(engine: Engine, c: Conn, count: nat, e: Env, frames: seq<RespValue>)
    requires forall i :: 0 <= i < |frames| && SensitiveIn(engine, c, e, frames, i) ==>
      (count > 0) == (c.subscriptions > 0)
    ensures ServeAll(engine, Count(c, count), e, frames) == Counting(ServeAll(engine, c, e, frames), count)
    decreases |frames|
  {
    hide Serve, Undisturbed, Sensitive;
    if frames != [] {
      var n := |frames| - 1;
      var front := frames[..n];
      forall i | 0 <= i < n && SensitiveIn(engine, c, e, front, i) ensures (count > 0) == (c.subscriptions > 0) {
        assert front[..i] == frames[..i];
        assert SensitiveIn(engine, c, e, frames, i);
      }
      GroupSame(engine, c, count, e, front);
      GroupKeepsCount(engine, c, e, front);
      var s := ServeAll(engine, c, e, front);
      if s.end.Go? {
        assert Sensitive(engine, s.conn, frames[n]) ==> SensitiveIn(engine, c, e, frames, n);
        FrameCount(engine, s.conn, count, Still(engine, s.conn, s.env), frames[n]);
      }
    }
  }

  /** The connection stands where one read of everything received would have brought it. */
  ghost predicate InLine(st: Setting, w: Wire, received: bytes) {
    var s, stop := Whole(st, received), Drain(received).stop;
    var t := TellAll(Standing(st.hub, st.conn.subscriptions), st.me, Returned(s, stop));
    w.view == View(Count(s.conn, t.count), s.env, EncodeAll(s.replies)) && w.hub == t.hub
    && w.fate == FateOf(s, stop) && w.replies == s.replies && w.told == Returned(s, stop)
    && (w.fate.Serving? ==> stop == Waiting(w.unread))
  }

  lemma OneRead(st: Setting, input: bytes)
    ensures From(st, [Read(input)]) == Step(st.engine, st.me, Connected(st), Read(input))
    ensures Received([Read(input)]) == input
  {
    hide Step;
    assert [Read(input)][..0] == [] && [] + input == input;
    assert From(st, []) == Connected(st) && Received([]) == [];
  }

  lemma OneReadInLine(st: Setting, input: bytes)
    ensures InLine(st, From(st, [Read(input)]), input)
  {
    hide Drain, ServeAll, EncodeAll, TellAll;
    OneRead(st, input);
    assert [] + input == input;
    var s := Whole(st, input);
    GroupKeepsCount(st.engine, st.conn, st.env, Drain(input).values);
    assert [] + EncodeAll(s.replies) == EncodeAll(s.replies) && [] + s.replies == s.replies;
    assert [] + Returned(s, Drain(input).stop) == Returned(s, Drain(input).stop);
  }

  lemma InLineOutcome(st: Setting, w: Wire, v: Wire, received: bytes)
    requires InLine(st, w, received) && InLine(st, v, received)
    ensures OutcomeOf(w) == OutcomeOf(v)
  {
    hide Drain, ServeAll, EncodeAll, TellAll;
  }

  /** The conditions on an input are conditions on what has been received of it so far. */
  lemma {:induction false} PrefixHolds(st: Setting, a: bytes, b: bytes)
    requires ModeHolds(st, Drain(a + b).values) && NoneDropped(st, Drain(a + b))
    ensures ModeHolds(st, Drain(a).values) && NoneDropped(st, Drain(a))
  {
    hide Drain, SensitiveAt, ModeAt;
    DrainAppend(a, b);
    if Drain(a).stop.Waiting? {
      var p, all := Drain(a).values, Drain(a + b).values;
      PrefixMode(st, p, all);
      ServeAllConcat(st.engine, st.conn, st.env, p, all[|p|..]);
      assert p + all[|p|..] == all;
    }
  }

  lemma PrefixMode(st: Setting, p: seq<RespValue>, all: seq<RespValue>)
    requires p <= all && ModeHolds(st, all)
    ensures ModeHolds(st, p)
  {
    hide ServeAll, Sensitive, TellAll;
    forall i, j | 0 <= j <= i < |p| && SensitiveAt(st, p, i) ensures ModeAt(st, p, j) == (st.conn.subscriptions > 0) {
      assert p[..i] == all[..i] && p[..j] == all[..j];
      assert SensitiveAt(st, all, i);
      assert ModeAt(st, all, j) == (st.conn.subscriptions > 0);
    }
  }

  /** The frames of one more read, with the count the connection has by then. */
  lemma {:induction false} NextGroup(st: Setting, p: seq<RespValue>, g: seq<RespValue>)
    requires ModeHolds(st, p + g) && ServeAll(st.engine, st.conn, st.env, p).end.Go?
    ensures var s := ServeAll(st.engine, st.conn, st.env, p);
      var count := TellAll(Standing(st.hub, st.conn.subscriptions), st.me, s.ops).count;
      ServeAll(st.engine, Count(s.conn, count), s.env, g) == Counting(ServeAll(st.engine, s.conn, s.env, g), count)
  {
    hide ServeAll, Sensitive, TellAll;
    var s := ServeAll(st.engine, st.conn, st.env, p);
    var count := TellAll(Standing(st.hub, st.conn.subscriptions), st.me, s.ops).count;
    GroupKeepsCount(st.engine, st.conn, st.env, p);
    forall i | 0 <= i < |g| && SensitiveIn(st.engine, s.conn, s.env, g, i)
      ensures (count > 0) == (s.conn.subscriptions > 0)
    {
      ServeAllConcat(st.engine, st.conn, st.env, p, g[..i]);
      assert (p + g)[..|p| + i] == p + g[..i] && (p + g)[..|p|] == p && (p + g)[|p| + i] == g[i];
      assert SensitiveAt(st, p + g, |p| + i);
      assert ModeAt(st, p + g, |p|) == (st.conn.subscriptions > 0);
    }
    GroupSame(st.engine, s.conn, count, s.env, g);
  }

  lemma {:induction false} ReadInLine(st: Setting, w: Wire, received: bytes, chunk: bytes)
    requires InLine(st, w, received) && w.fate.Serving?
    requires ModeHolds(st, Drain(received + chunk).values) && NoneDropped(st, Drain(received + chunk))
    ensures InLine(st, Step(st.engine, st.me, w, Read(chunk)), received + chunk)
  {
    hide Drain, ServeAll, EncodeAll, TellAll, ModeHolds;
    DrainAppend(received, chunk);
    var p, input := Drain(received).values, Drain(w.unread + chunk);
    var s := Whole(st, received);
    var t := TellAll(Standing(st.hub, st.conn.subscriptions), st.me, s.ops);
    NextGroup(st, p, input.values);
    var v := ServeAll(st.engine, s.conn, s.env, input.values);
    ServeAllConcat(st.engine, st.conn, st.env, p, input.values);
    TellInTwo(Standing(st.hub, st.conn.subscriptions), st.me, s.ops, Returned(v, input.stop));
    EncodeAllConcat(s.replies, v.replies);
    assert Standing(t.hub, t.count) == t;
    assert s.ops + [] == s.ops;
  }

  lemma WriteInLine(st: Setting, w: Wire, received: bytes, n: nat)
    requires InLine(st, w, received)
    ensures InLine(st, Step(st.engine, st.me, w, Write(n)), received)
  {
    hide Drain, ServeAll, TellAll, EncodeAll;
  }

  /** What comes after the end of a connection changes nothing. */
  lemma {:induction false} EndedInLine(st: Setting, w: Wire, received: bytes, chunk: bytes)
    requires InLine(st, w, received) && !w.fate.Serving?
    ensures InLine(st, w, received + chunk)
    ensures Whole(st, received + chunk) == Whole(st, received)
    ensures Returned(Whole(st, received + chunk), Drain(received + chunk).stop)
      == Returned(Whole(st, received), Drain(received).stop)
  {
    hide Drain, ServeAll, TellAll, EncodeAll;
    DrainAppend(received, chunk);
    var p := Drain(received).values;
    if Drain(received).stop.Waiting? {
      var g := Drain(Drain(received).stop.rest + chunk).values;
      ServeAllConcat(st.engine, st.conn, st.env, p, g);
    }
  }

  lemma {:induction false} RunInLine(st: Setting, ios: seq<Io>)
    requires ModeHolds(st, Drain(Received(ios)).values) && NoneDropped(st, Drain(Received(ios)))
    ensures InLine(st, From(st, ios), Received(ios))
    decreases |ios|
  {
    hide InLine, Drain, Step, ModeHolds, NoneDropped;
    if ios == [] {
      NothingInLine(st);
    } else {
      var front, last := ios[..|ios| - 1], ios[|ios| - 1];
      if last.Read? {
        PrefixHolds(st, Received(front), last.chunk);
        RunInLine(st, front);
        var w := From(st, front);
        if w.fate.Serving? {
          ReadInLine(st, w, Received(front), last.chunk);
        } else {
          EndedInLine(st, w, Received(front), last.chunk);
          NoMoreReads(st, w, last.chunk);
        }
      } else {
        assert Received(front) + [] == Received(front);
        RunInLine(st, front);
        WriteInLine(st, From(st, front), Received(front), last.n);
      }
    }
  }

  lemma NoMoreReads(st: Setting, w: Wire, chunk: bytes)
    requires !w.fate.Serving?
    ensures Step(st.engine, st.me, w, Read(chunk)) == w
  {
  }

  lemma NothingInLine(st: Setting)
    ensures InLine(st, Connected(st), [])
  {
    NothingToDrain();
    assert Count(st.conn, st.conn.subscriptions) == st.conn;
  }

  lemma AgreeIfHolds(st: Setting, input: bytes)
    requires ModeHolds(st, Drain(input).values) && NoneDropped(st, Drain(input))
    ensures CutsAgree(st, input)
  {
    hide InLine, Drain, ModeHolds, NoneDropped, Received, From;
    OneReadInLine(st, input);
    forall ios | Received(ios) == input ensures OutcomeOf(From(st, ios)) == OutcomeOf(From(st, [Read(input)])) {
      RunInLine(st, ios);
      InLineOutcome(st, From(st, ios), From(st, [Read(input)]), input);
    }
  }

  /** Input without pub/sub operations is served the same however it is cut. */
  lemma WithoutOperations(st: Setting, input: bytes)
    requires Whole(st, input).ops == []
    ensures CutsAgree(st, input)
  {
    hide Drain, ServeAll, SensitiveAt;
    var frames := Drain(input).values;
    forall j | 0 <= j <= |frames| ensures Upto(st, frames, j).ops == [] {
      UptoIsPart(st, frames, j);
    }
    AgreeIfHolds(st, input);
  }

  lemma UptoIsPart(st: Setting, frames: seq<RespValue>, j: nat)
    requires j <= |frames|
    ensures var s, t := Upto(st, frames, j), ServeAll(st.engine, st.conn, st.env, frames);
      t == (if s.end.Go? then Then(s, ServeAll(st.engine, s.conn, s.env, frames[j..])) else s)
  {
    hide ServeAll;
    ServeAllConcat(st.engine, st.conn, st.env, frames[..j], frames[j..]);
    assert frames[..j] + frames[j..] == frames;
  }

  // ---- The count. ----

  /** After every read the connection's count is the number of subscriptions the manager keeps for it. */
  lemma {:induction false} CountIsRight(st: Setting, ios: seq<Io>)
    requires st.conn.subscriptions == Held(st.hub, st.me)
    ensures From(st, ios).view.conn.subscriptions == Held(From(st, ios).hub, st.me)
    decreases |ios|
  {
    hide Drain, ServeAll, TellAll, EncodeAll, Held;
    if ios != [] {
      var front, last := ios[..|ios| - 1], ios[|ios| - 1];
      CountIsRight(st, front);
      var w := From(st, front);
      if last.Read? && w.fate.Serving? {
        var input := Drain(w.unread + last.chunk);
        var s := ServeAll(st.engine, w.view.conn, w.view.env, input.values);
        GroupKeepsCount(st.engine, w.view.conn, w.view.env, input.values);
        CountIsHeld(Standing(w.hub, s.conn.subscriptions), st.me, Returned(s, input.stop));
      }
    }
  }
}
