/**
 * Exactly when the cutting of the input into reads matters to a connection that is alone, and
 * inputs on which it does.
 */
module ConnectionCuts {
  import opened Bytes
  import opened Resp
  import opened RespStream
  import opened Commands
  import opened Session
  import opened Network
  import opened PubSubLayer
  import opened ConnectionStream
  import Sub = Subscriptions

  /** The pub/sub layer when the connection begins. */
  function Before(st: Setting): Standing {
    Standing(st.hub, st.conn.subscriptions)
  }

  /** Input cut in two behind its first `j` frames. */
  lemma {:induction false} CutInTwo(st: Setting, input: bytes, j: nat) returns (ios: seq<Io>)
    requires j <= |Drain(input).values| && Upto(st, Drain(input).values, j).end.Go?
    ensures Received(ios) == input
    ensures var frames, s := Drain(input).values, Upto(st, Drain(input).values, j);
      var t := TellAll(Before(st), st.me, s.ops);
      var u := ServeAll(st.engine, Count(s.conn, t.count), s.env, frames[j..]);
      From(st, ios).replies == s.replies + u.replies && From(st, ios).told == s.ops + Returned(u, Drain(input).stop)
      && From(st, ios).view.env == u.env && From(st, ios).fate == FateOf(u, Drain(input).stop)
      && From(st, ios).answers
        == AllSaid(s.replies) + Layer(Before(st), st.me, s.ops) + AllSaid(u.replies)
           + Layer(t, st.me, Returned(u, Drain(input).stop))
  {
    hide Drain, ServeAll, TellAll, EncodeAll, Layer;
    var front, back := CutBehind(input, j);
    ios := [Read(front), Read(back)];
    TwoReads(st, front, back);
    assert [] + front == front && [] + back == back;
    GroupKeepsCount(st.engine, st.conn, st.env, Drain(front).values);
    var s := Upto(st, Drain(input).values, j);
    var t := TellAll(Before(st), st.me, s.ops);
    GroupKeepsCount(st.engine, Count(s.conn, t.count), s.env, Drain(input).values[j..]);
    assert Standing(t.hub, t.count) == t;
    assert [] + s.replies == s.replies && [] + s.ops == s.ops;
    assert [] + AllSaid(s.replies) == AllSaid(s.replies);
  }

  lemma TwoReads(st: Setting, front: bytes, back: bytes)
    ensures var ios := [Read(front), Read(back)];
      From(st, ios) == Step(st.engine, st.me, Step(st.engine, st.me, Connected(st), Read(front)), Read(back))
      && Received(ios) == front + back
  {
    hide Step;
    assert [Read(front), Read(back)][..1] == [Read(front)];
    OneRead(st, front);
  }

  lemma {:induction false} GroupRefusesNot(engine: Engine, c: Conn, e: Env, frames: seq<RespValue>)
    requires OwnTexts(engine) && c.subscriptions == 0
    ensures forall reply :: reply in ServeAll(engine, c, e, frames).replies ==> !Refusal(reply)
    decreases |frames|
  {
    hide Serve, OwnTexts, Still, Refusal;
    if frames != [] {
      var front := frames[..|frames| - 1];
      GroupRefusesNot(engine, c, e, front);
      GroupKeepsCount(engine, c, e, front);
      var s := ServeAll(engine, c, e, front);
      FrameRefusesNot(engine, s.conn, Still(engine, s.conn, s.env), frames[|frames| - 1]);
    }
  }

  lemma GroupStartsRefused(engine: Engine, c: Conn, e: Env, frames: seq<RespValue>)
    requires c.subscriptions > 0 && frames != [] && Sensitive(engine, c, frames[0])
    ensures ServeAll(engine, c, e, frames).replies != [] && Refusal(ServeAll(engine, c, e, frames).replies[0])
  {
    hide Serve, Still, Sensitive, Fail;
    SensitiveIsRefused(engine, c, Still(engine, c, e), frames[0]);
    ServeAllConcat(engine, c, e, frames[..1], frames[1..]);
    assert frames[..1] + frames[1..] == frames && frames[..1][..0] == [];
    assert ServeAll(engine, c, e, []) == Begin(c, e);
  }

  /** Frames that begin with a sensitive one, inside and outside pub/sub mode. */
  lemma ModesDiffer(engine: Engine, c: Conn, count: nat, e: Env, frames: seq<RespValue>)
    requires OwnTexts(engine) && frames != [] && Sensitive(engine, c, frames[0])
    requires (count > 0) != (c.subscriptions > 0)
    ensures ServeAll(engine, c, e, frames).replies != ServeAll(engine, Count(c, count), e, frames).replies
  {
    hide ServeAll, OwnTexts, ParseCommand, Fast, Refusal;
    var d := Count(c, count);
    assert Sensitive(engine, d, frames[0]);
    if count > 0 {
      GroupStartsRefused(engine, d, e, frames);
      GroupRefusesNot(engine, c, e, frames);
    } else {
      GroupStartsRefused(engine, c, e, frames);
      GroupRefusesNot(engine, d, e, frames);
    }
  }

  lemma {:induction false} FirstSensitive(st: Setting, frames: seq<RespValue>, i: nat, j: nat) returns (k: nat)
    requires j <= i < |frames| && SensitiveAt(st, frames, i)
    ensures j <= k <= i && SensitiveAt(st, frames, k) && forall l :: j <= l < k ==> !SensitiveAt(st, frames, l)
    decreases i
  {
    hide SensitiveAt;
    if l :| j <= l < i && SensitiveAt(st, frames, l) {
      k := FirstSensitive(st, frames, l, j);
    } else {
      k := i;
    }
  }

  /** From frame `j` on, with the count of the start and with the count of then. */
  lemma {:induction false} RestDiffers(st: Setting, frames: seq<RespValue>, j: nat, k: nat, count: nat)
    requires OwnTexts(st.engine) && j <= k < |frames| && SensitiveAt(st, frames, k)
    requires forall l :: j <= l < k ==> !SensitiveAt(st, frames, l)
    requires (count > 0) != (st.conn.subscriptions > 0)
    ensures var s := Upto(st, frames, j);
      s.end.Go?
      && ServeAll(st.engine, s.conn, s.env, frames[j..]).replies
        != ServeAll(st.engine, Count(s.conn, count), s.env, frames[j..]).replies
  {
    hide ServeAll, Sensitive, OwnTexts;
    var g, h := frames[j..k], frames[k..];
    var s := Upto(st, frames, j);
    ServeAllConcat(st.engine, st.conn, st.env, frames[..j], g);
    assert frames[..j] + g == frames[..k] && g + h == frames[j..];
    GroupKeepsCount(st.engine, st.conn, st.env, frames[..j]);
    forall l | 0 <= l < |g| ensures !SensitiveIn(st.engine, s.conn, s.env, g, l) {
      ServeAllConcat(st.engine, st.conn, st.env, frames[..j], g[..l]);
      assert frames[..j] + g[..l] == frames[..j + l] && g[l] == frames[j + l];
      assert !SensitiveAt(st, frames, j + l);
    }
    GroupSame(st.engine, s.conn, count, s.env, g);
    var v := ServeAll(st.engine, s.conn, s.env, g);
    GroupKeepsCount(st.engine, s.conn, s.env, g);
    ServeAllConcat(st.engine, s.conn, s.env, g, h);
    ServeAllConcat(st.engine, Count(s.conn, count), s.env, g, h);
    assert h[0] == frames[k];
    ModesDiffer(st.engine, v.conn, count, v.env, h);
    SamePrefix(v.replies, ServeAll(st.engine, v.conn, v.env, h).replies,
               ServeAll(st.engine, Count(v.conn, count), v.env, h).replies);
  }

  lemma OneReadAnswers(st: Setting, input: bytes)
    ensures var w, s := From(st, [Read(input)]), Whole(st, input);
      w.replies == s.replies && w.told == Returned(s, Drain(input).stop)
      && w.answers == AllSaid(s.replies) + Layer(Before(st), st.me, w.told)
  {
    hide Drain, ServeAll, TellAll, EncodeAll, Layer;
    OneRead(st, input);
    assert [] + input == input;
    var s := Whole(st, input);
    GroupKeepsCount(st.engine, st.conn, st.env, Drain(input).values);
    assert [] + s.replies == s.replies && [] + AllSaid(s.replies) == AllSaid(s.replies);
    assert [] + Returned(s, Drain(input).stop) == Returned(s, Drain(input).stop);
  }

  lemma {:induction false} ShiftDiffers(st: Setting, input: bytes, i: nat, j: nat)
    requires OwnTexts(st.engine) && j <= i < |Drain(input).values| && SensitiveAt(st, Drain(input).values, i)
    requires ModeAt(st, Drain(input).values, j) != (st.conn.subscriptions > 0)
    ensures !CutsAgree(st, input)
  {
    hide Drain, ServeAll, SensitiveAt, OwnTexts, Received, From, EncodeAll, TellAll;
    var frames := Drain(input).values;
    var k := FirstSensitive(st, frames, i, j);
    var s := Upto(st, frames, j);
    var count := TellAll(Before(st), st.me, s.ops).count;
    RestDiffers(st, frames, j, k, count);
    var ios := CutInTwo(st, input, j);
    OneReadAnswers(st, input);
    UptoIsPart(st, frames, j);
    SamePrefix(s.replies, ServeAll(st.engine, s.conn, s.env, frames[j..]).replies,
               ServeAll(st.engine, Count(s.conn, count), s.env, frames[j..]).replies);
    assert OutcomeOf(From(st, ios)) != OutcomeOf(From(st, [Read(input)]));
  }

  lemma SamePrefix<T>(a: seq<T>, b: seq<T>, c: seq<T>)
    requires b != c
    ensures a + b != a + c
  {
    assert (a + b)[|a|..] == b && (a + c)[|a|..] == c;
  }

  /** The frame that does not parse as a command, if that is what ended the serving. */
  lemma {:induction false} RejectedAt(engine: Engine, c: Conn, e: Env, frames: seq<RespValue>) returns (i: nat)
    requires ServeAll(engine, c, e, frames).end.Rejected?
    ensures i <= |frames|
    ensures var s := ServeAll(engine, c, e, frames[..i]);
      s.end.Go? && s.ops == ServeAll(engine, c, e, frames).ops
    decreases |frames|
  {
    hide Serve, Still;
    var n := |frames| - 1;
    var before := ServeAll(engine, c, e, frames[..n]);
    if before.end.Go? {
      i := n;
      OneReply(engine, before.conn, Still(engine, before.conn, before.env), frames[n]);
      assert before.ops + [] == before.ops;
    } else {
      i := RejectedAt(engine, c, e, frames[..n]);
      assert frames[..n][..i] == frames[..i];
    }
  }

  lemma {:induction false} DropDiffers(st: Setting, input: bytes)
    requires !NoneDropped(st, Drain(input))
    ensures !CutsAgree(st, input)
  {
    hide Drain, ServeAll, Received, From, EncodeAll, TellAll;
    var frames, s := Drain(input).values, Whole(st, input);
    var i := |frames|;
    if s.end.Rejected? {
      i := RejectedAt(st.engine, st.conn, st.env, frames);
    }
    assert frames[..|frames|] == frames;
    var ios := CutInTwo(st, input, i);
    OneReadAnswers(st, input);
    assert From(st, ios).told != From(st, [Read(input)]).told;
    assert OutcomeOf(From(st, ios)) != OutcomeOf(From(st, [Read(input)]));
  }

  /**
   * The outcome of an input does not depend on how it is cut into reads if and only if no
   * operation before a frame that pub/sub mode treats differently takes the connection into that
   * mode or out of it, and no operation comes before a frame that fails.
   */
  lemma {:induction false} CutsAgreeIff(st: Setting, input: bytes)
    requires OwnTexts(st.engine)
    ensures CutsAgree(st, input) <==> ModeHolds(st, Drain(input).values) && NoneDropped(st, Drain(input))
  {
    hide CutsAgree, NoneDropped, Drain, SensitiveAt, ModeAt, OwnTexts;
    if !NoneDropped(st, Drain(input)) {
      DropDiffers(st, input);
    } else if ModeHolds(st, Drain(input).values) {
      AgreeIfHolds(st, input);
    } else {
      var i, j :| 0 <= j <= i < |Drain(input).values| && SensitiveAt(st, Drain(input).values, i)
        && ModeAt(st, Drain(input).values, j) != (st.conn.subscriptions > 0);
      ShiftDiffers(st, input, i, j);
    }
  }

  // ---- The order of the answers. ----

  /** `s` is some frames served, `u` one frame more: nothing is answered out of turn. */
  predicate InTurn(st: Setting, s: Served, u: Served) {
    (Layer(Before(st), st.me, s.ops) != [] ==> u.replies == s.replies)
    && (Notices(Before(st), st.me, s.ops) != [] ==> Directs(u.ops) == Directs(s.ops))
  }

  /**
   * No frame that is replied to comes after an operation that is answered, and no PUBLISH or
   * PUBSUB after one that is acknowledged.
   */
  ghost predicate AllInTurn(st: Setting, frames: seq<RespValue>) {
    forall i :: 0 <= i < |frames| && Upto(st, frames, i).end.Go? ==>
      InTurn(st, Upto(st, frames, i), Upto(st, frames, i + 1))
  }

  /** The outcome is that of one read, and the client gets the same answers in the same order. */
  ghost predicate AnswersAgree(st: Setting, input: bytes) {
    forall ios :: Received(ios) == input ==>
      OutcomeOf(From(st, ios)) == OutcomeOf(From(st, [Read(input)]))
      && From(st, ios).answers == From(st, [Read(input)]).answers
  }

  lemma {:induction false} PrefixInTurn(st: Setting, p: seq<RespValue>, all: seq<RespValue>)
    requires p <= all && AllInTurn(st, all)
    ensures AllInTurn(st, p)
  {
    hide ServeAll, InTurn;
    forall i | 0 <= i < |p| && Upto(st, p, i).end.Go?
      ensures InTurn(st, Upto(st, p, i), Upto(st, p, i + 1))
    {
      assert p[..i] == all[..i] && p[..i + 1] == all[..i + 1];
      assert InTurn(st, Upto(st, all, i), Upto(st, all, i + 1));
    }
  }

  lemma InTurnTrans(st: Setting, s: Served, u: Served, v: Served, a: Served, b: Served)
    requires u == Then(s, a) && v == Then(u, b) && InTurn(st, s, u) && InTurn(st, u, v)
    ensures InTurn(st, s, v)
  {
    hide Directs, Notices;
    DirectsInTwo(s.ops, a.ops);
    NoticesInTwo(Before(st), st.me, s.ops, a.ops);
  }

  lemma InTurnSelf(st: Setting, s: Served)
    ensures InTurn(st, s, s)
  {
  }

  /** Nothing is answered out of turn in all the frames that follow the first `j`. */
  lemma {:induction false} FromThenOn(st: Setting, frames: seq<RespValue>, j: nat, k: nat)
    requires j <= k <= |frames| && AllInTurn(st, frames)
    ensures InTurn(st, Upto(st, frames, j), Upto(st, frames, k))
    decreases k
  {
    hide ServeAll, ServeAlone, InTurn;
    if j == k {
      InTurnSelf(st, Upto(st, frames, j));
    } else {
      FromThenOn(st, frames, j, k - 1);
      var s, before := Upto(st, frames, j), Upto(st, frames, k - 1);
      var a, b := ServeAll(st.engine, s.conn, s.env, frames[j..k - 1]),
        ServeAll(st.engine, before.conn, before.env, [frames[k - 1]]);
      ServeAllConcat(st.engine, st.conn, st.env, frames[..j], frames[j..k - 1]);
      ServeAllConcat(st.engine, st.conn, st.env, frames[..k - 1], [frames[k - 1]]);
      assert frames[..j] + frames[j..k - 1] == frames[..k - 1] && frames[..k - 1] + [frames[k - 1]] == frames[..k];
      if before.end.Go? {
        assert InTurn(st, Upto(st, frames, k - 1), Upto(st, frames, k - 1 + 1));
        InTurnTrans(st, s, before, Upto(st, frames, k), a, b);
      }
    }
  }

  /** The answers are all replies, then what the layer answers to all operations. */
  predicate AnswersInLine(st: Setting, w: Wire) {
    w.answers == AllSaid(w.replies) + Layer(Before(st), st.me, w.told)
  }

  lemma {:induction false} ReadAnswers(st: Setting, w: Wire, received: bytes, chunk: bytes)
    requires InLine(st, w, received) && InLine(st, Step(st.engine, st.me, w, Read(chunk)), received + chunk)
    requires w.fate.Serving? && AnswersInLine(st, w)
    requires AllInTurn(st, Drain(received + chunk).values) && NoneDropped(st, Drain(received + chunk))
    ensures AnswersInLine(st, Step(st.engine, st.me, w, Read(chunk)))
  {
    hide Drain, ServeAll, EncodeAll, TellAll, AllInTurn, Directs, Notices, Layer;
    var input := Drain(w.unread + chunk);
    var u := ServeAll(st.engine, w.view.conn, w.view.env, input.values);
    var frames := Drain(received + chunk).values;
    var v := Step(st.engine, st.me, w, Read(chunk));
    DrainAppend(received, chunk);
    var j := |Drain(received).values|;
    assert frames[..j] == Drain(received).values && frames[..|frames|] == frames;
    FromThenOn(st, frames, j, |frames|);
    var more := Returned(u, input.stop);
    assert v.replies == w.replies + u.replies && v.told == w.told + more;
    GroupKeepsCount(st.engine, w.view.conn, w.view.env, input.values);
    GroupKeepsCount(st.engine, st.conn, st.env, Drain(received).values);
    assert v.answers == w.answers + AllSaid(u.replies) + Layer(TellAll(Before(st), st.me, w.told), st.me, more);
    LayerInTurn(st, w.replies, u.replies, w.told, more, Whole(st, received), Whole(st, received + chunk));
  }

  lemma LayerInTurn(st: Setting, a: seq<RespValue>, b: seq<RespValue>, x: seq<PubSubOp>, y: seq<PubSubOp>,
                    s: Served, u: Served)
    requires InTurn(st, s, u) && s.replies == a && u.replies == a + b && s.ops == x && (u.ops == x + y || y == [])
    ensures AllSaid(a) + Layer(Before(st), st.me, x) + AllSaid(b) + Layer(TellAll(Before(st), st.me, x), st.me, y)
      == AllSaid(a + b) + Layer(Before(st), st.me, x + y)
  {
    hide TellAll, Directs, Notices, AllSaid, AllDirect, AllNoticed;
    var t := TellAll(Before(st), st.me, x);
    DirectsInTwo(x, y);
    NoticesInTwo(Before(st), st.me, x, y);
    Mapped(a, b, Directs(x), Directs(y), Notices(Before(st), st.me, x), Notices(t, st.me, y));
    if Layer(Before(st), st.me, x) != [] {
      assert |b| == 0;
    }
    if Notices(Before(st), st.me, x) != [] {
      NothingDirect(x, y, u.ops);
    }
    Regroup(AllSaid(a), AllSaid(b), AllDirect(Directs(x)), AllDirect(Directs(y)),
            AllNoticed(Notices(Before(st), st.me, x)), AllNoticed(Notices(t, st.me, y)));
  }

  lemma NothingDirect(x: seq<PubSubOp>, y: seq<PubSubOp>, z: seq<PubSubOp>)
    requires Directs(z) == Directs(x) && (z == x + y || y == [])
    ensures Directs(y) == []
  {
    DirectsInTwo(x, y);
    if z == x + y {
      assert |Directs(y)| == 0;
    }
  }

  lemma Mapped(a: seq<RespValue>, b: seq<RespValue>, c: seq<PubSubOp>, d: seq<PubSubOp>, e: seq<Notice>, f: seq<Notice>)
    ensures AllSaid(a + b) == AllSaid(a) + AllSaid(b) && AllDirect(c + d) == AllDirect(c) + AllDirect(d)
      && AllNoticed(e + f) == AllNoticed(e) + AllNoticed(f)
    ensures (b == [] <==> AllSaid(b) == []) && (d == [] <==> AllDirect(d) == []) && (e == [] <==> AllNoticed(e) == [])
      && (c == [] <==> AllDirect(c) == [])
  {
  }

  lemma Regroup(a: seq<Answer>, b: seq<Answer>, c: seq<Answer>, d: seq<Answer>, e: seq<Answer>, f: seq<Answer>)
    requires b == [] || (c == [] && e == [])
    requires d == [] || e == []
    ensures a + (c + e) + b + (d + f) == (a + b) + ((c + d) + (e + f))
  {
    if e == [] {
      assert c + e == c;
      if c == [] {
        assert a + [] == a;
      }
    }
  }

  lemma {:induction false} RunAnswers(st: Setting, ios: seq<Io>)
    requires ModeHolds(st, Drain(Received(ios)).values) && NoneDropped(st, Drain(Received(ios)))
    requires AllInTurn(st, Drain(Received(ios)).values)
    ensures InLine(st, From(st, ios), Received(ios)) && AnswersInLine(st, From(st, ios))
    decreases |ios|
  {
    hide InLine, Drain, Step, ModeHolds, NoneDropped, AllInTurn, AnswersInLine;
    RunInLine(st, ios);
    if ios == [] {
      NothingAnswered(st);
    } else {
      var front, last := ios[..|ios| - 1], ios[|ios| - 1];
      if last.Read? {
        PrefixHolds(st, Received(front), last.chunk);
        PrefixInTurnOf(st, Received(front), last.chunk);
        RunAnswers(st, front);
        var w := From(st, front);
        if w.fate.Serving? {
          ReadAnswers(st, w, Received(front), last.chunk);
        } else {
          NoMoreReads(st, w, last.chunk);
        }
      } else {
        assert Received(front) + [] == Received(front);
        RunAnswers(st, front);
        WriteLeavesAnswers(st, From(st, front), last.n);
      }
    }
  }

  lemma PrefixInTurnOf(st: Setting, a: bytes, b: bytes)
    requires AllInTurn(st, Drain(a + b).values)
    ensures AllInTurn(st, Drain(a).values)
  {
    hide Drain, AllInTurn;
    DrainAppend(a, b);
    PrefixInTurn(st, Drain(a).values, Drain(a + b).values);
  }

  lemma NothingAnswered(st: Setting)
    ensures AnswersInLine(st, From(st, []))
  {
  }

  lemma WriteLeavesAnswers(st: Setting, w: Wire, n: nat)
    requires AnswersInLine(st, w)
    ensures AnswersInLine(st, Step(st.engine, st.me, w, Write(n)))
  {
    hide Layer;
  }

  /** What is out of turn after frame `i` is so in the whole input. */
  lemma {:induction false} StaysOutOfTurn(st: Setting, frames: seq<RespValue>, i: nat)
    requires i < |frames| && Upto(st, frames, i).end.Go? && !InTurn(st, Upto(st, frames, i), Upto(st, frames, i + 1))
    ensures var s, all := Upto(st, frames, i), ServeAll(st.engine, st.conn, st.env, frames);
      (Layer(Before(st), st.me, s.ops) != [] && |all.replies| > |s.replies|)
      || (Notices(Before(st), st.me, s.ops) != [] && |Directs(all.ops)| > |Directs(s.ops)|)
  {
    hide ServeAll, Layer, Notices, Directs;
    var s, u := Upto(st, frames, i), Upto(st, frames, i + 1);
    UptoIsPart(st, frames, i + 1);
    ServeAllConcat(st.engine, st.conn, st.env, frames[..i], [frames[i]]);
    assert frames[..i] + [frames[i]] == frames[..i + 1];
    DirectsInTwo(s.ops, ServeAll(st.engine, s.conn, s.env, [frames[i]]).ops);
    DirectsInTwo(u.ops, ServeAll(st.engine, u.conn, u.env, frames[i + 1..]).ops);
  }

  /** `b` is said, `c` and `d` are answered directly, `e` and `f` are acknowledgements. */
  lemma OrderShows(a: seq<Answer>, b: seq<RespValue>, c: seq<PubSubOp>, d: seq<PubSubOp>, e: seq<Notice>,
                   f: seq<Notice>)
    requires (c != [] && b != []) || (e != [] && b != []) || (e != [] && d != [])
    ensures a + (AllDirect(c) + AllNoticed(e)) + AllSaid(b) + (AllDirect(d) + AllNoticed(f))
      != (a + AllSaid(b)) + (AllDirect(c + d) + AllNoticed(e + f))
  {
    var cut := a + (AllDirect(c) + AllNoticed(e)) + AllSaid(b) + (AllDirect(d) + AllNoticed(f));
    var whole := (a + AllSaid(b)) + (AllDirect(c + d) + AllNoticed(e + f));
    if b != [] {
      assert whole[|a|] == Said(b[0]);
      assert cut[|a|] == if c != [] then Direct(c[0]) else Noticed(e[0]);
    } else {
      assert whole[|a| + |c|] == Direct(d[0]);
      assert cut[|a| + |c|] == Noticed(e[0]);
    }
  }

  /** The answers to two groups of frames, and to both at once. */
  lemma GroupsShow(st: Setting, a: seq<RespValue>, b: seq<RespValue>, x: seq<PubSubOp>, y: seq<PubSubOp>)
    requires (Layer(Before(st), st.me, x) != [] && b != []) || (Notices(Before(st), st.me, x) != [] && Directs(y) != [])
    ensures AllSaid(a) + Layer(Before(st), st.me, x) + AllSaid(b) + Layer(TellAll(Before(st), st.me, x), st.me, y)
      != AllSaid(a + b) + Layer(Before(st), st.me, x + y)
  {
    hide TellAll, Directs, Notices, AllSaid;
    var t := TellAll(Before(st), st.me, x);
    DirectsInTwo(x, y);
    NoticesInTwo(Before(st), st.me, x, y);
    var c, d, e, f := Directs(x), Directs(y), Notices(Before(st), st.me, x), Notices(t, st.me, y);
    Mapped(a, b, c, d, e, f);
    OrderShows(AllSaid(a), b, c, d, e, f);
  }

  /** Cut before the frame that is out of turn, the answers come in another order. */
  lemma {:induction false} OrderDiffers(st: Setting, input: bytes)
    requires NoneDropped(st, Drain(input)) && !AllInTurn(st, Drain(input).values)
    ensures !AnswersAgree(st, input)
  {
    hide Drain, ServeAll, Received, From, EncodeAll, TellAll, InTurn, Layer, Directs, Notices, AllSaid;
    var frames, stop := Drain(input).values, Drain(input).stop;
    var i :| 0 <= i < |frames| && Upto(st, frames, i).end.Go?
      && !InTurn(st, Upto(st, frames, i), Upto(st, frames, i + 1));
    var s, whole := Upto(st, frames, i), Whole(st, input);
    var ios := CutInTwo(st, input, i);
    OneReadAnswers(st, input);
    StaysOutOfTurn(st, frames, i);
    UptoIsPart(st, frames, i);
    NothingAsked(st);
    var t := TellAll(Before(st), st.me, s.ops);
    var u := ServeAll(st.engine, Count(s.conn, t.count), s.env, frames[i..]);
    var y := Returned(u, stop);
    if whole.replies == s.replies + u.replies && Returned(whole, stop) == s.ops + y {
      DirectsInTwo(s.ops, y);
      assert whole.ops == [] ==> s.ops == [];
      GroupsShow(st, s.replies, u.replies, s.ops, y);
    }
  }

  lemma NothingAsked(st: Setting)
    ensures Directs([]) == [] && Notices(Before(st), st.me, []) == [] && Layer(Before(st), st.me, []) == []
  {
  }

  lemma AnswersAgreeIfHolds(st: Setting, input: bytes)
    requires ModeHolds(st, Drain(input).values) && NoneDropped(st, Drain(input)) && AllInTurn(st, Drain(input).values)
    ensures AnswersAgree(st, input)
  {
    hide InLine, Drain, ModeHolds, NoneDropped, AllInTurn, Received, From;
    OneReadInLine(st, input);
    OneReadAnswers(st, input);
    forall ios | Received(ios) == input
      ensures OutcomeOf(From(st, ios)) == OutcomeOf(From(st, [Read(input)]))
        && From(st, ios).answers == From(st, [Read(input)]).answers
    {
      RunAnswers(st, ios);
      InLineOutcome(st, From(st, ios), From(st, [Read(input)]), input);
    }
  }

  lemma AnswersIncludeOutcome(st: Setting, input: bytes)
    ensures AnswersAgree(st, input) ==> CutsAgree(st, input)
  {
  }

  /**
   * Taking in what the pub/sub layer answers, too: the client gets the same answers in the same
   * order under every cutting if and only if, besides, no frame that is replied to comes after an
   * operation that is answered, and no PUBLISH or PUBSUB after an acknowledged one; for of one
   * read the replies are written first and the acknowledgements last.
   */
  lemma {:induction false} AnswersAgreeIff(st: Setting, input: bytes)
    requires OwnTexts(st.engine)
    ensures AnswersAgree(st, input)
      <==> ModeHolds(st, Drain(input).values) && NoneDropped(st, Drain(input)) && AllInTurn(st, Drain(input).values)
  {
    hide AnswersAgree, CutsAgree, ModeHolds, NoneDropped, AllInTurn, Drain, OwnTexts;
    CutsAgreeIff(st, input);
    AnswersIncludeOutcome(st, input);
    if ModeHolds(st, Drain(input).values) && NoneDropped(st, Drain(input)) {
      if AllInTurn(st, Drain(input).values) {
        AnswersAgreeIfHolds(st, input);
      } else {
        OrderDiffers(st, input);
      }
    }
  }

  // ---- The inputs that show it. ----

  lemma {:induction false} TwoFrames(a: RespValue, b: RespValue)
    requires Representable(a) && Clean(a) && Representable(b) && Clean(b)
    ensures Drain(Encode(a) + Encode(b)) == Drained([a, b], Waiting([]))
  {
    hide Drain, Encode;
    assert [a, b][1..] == [b] && [b][1..] == [];
    assert EncodeAll([b]) == Encode(b) + EncodeAll([]) && Encode(b) + [] == Encode(b);
    assert EncodeAll([a, b]) == Encode(a) + EncodeAll([b]);
    DrainEncoded([a, b]);
  }

  lemma ServeOne(engine: Engine, c: Conn, e: Env, a: RespValue)
    ensures ServeAll(engine, c, e, [a]) == ServeAlone(engine, c, e, a)
  {
    hide ServeAlone;
    assert [a][..0] == [];
    assert ServeAll(engine, c, e, []) == Begin(c, e);
    var s := ServeAlone(engine, c, e, a);
    assert [] + s.replies == s.replies && [] + s.ops == s.ops && [] + s.ran == s.ran;
  }

  /** Two frames, the first of them an operation: in one read, and in two. */
  lemma {:induction false} TwoWays(st: Setting, first: RespValue, second: RespValue, op: PubSubOp)
    returns (ios: seq<Io>)
    requires ServeAlone(st.engine, st.conn, st.env, first) == Served(st.conn, st.env, [], [op], [], Go)
    requires Representable(first) && Clean(first) && Representable(second) && Clean(second)
    ensures var input := Encode(first) + Encode(second);
      var count := TellAll(Before(st), st.me, [op]).count;
      var one := ServeAlone(st.engine, st.conn, st.env, second);
      var two := ServeAlone(st.engine, Count(st.conn, count), st.env, second);
      var whole, cut := From(st, [Read(input)]), From(st, ios);
      Received(ios) == input
      && whole.replies == one.replies && whole.view.env == one.env
      && whole.told == (if one.end.Rejected? then [] else [op] + one.ops)
      && cut.replies == two.replies && cut.view.env == two.env
      && cut.told == [op] + (if two.end.Rejected? then [] else two.ops)
      && (whole.fate.Broke? <==> one.end.Rejected?) && (cut.fate.Broke? <==> two.end.Rejected?)
  {
    hide Encode, Drain, From, Received, TellAll, EncodeAll, ServeAlone;
    var input, frames := Encode(first) + Encode(second), [first, second];
    TwoFrames(first, second);
    ServeOne(st.engine, st.conn, st.env, first);
    ServeOne(st.engine, st.conn, st.env, second);
    assert frames[..1] == [first] && frames[1..] == [second] && [first] + [second] == frames;
    ServeAllConcat(st.engine, st.conn, st.env, [first], [second]);
    ios := CutInTwo(st, input, 1);
    OneReadServes(st, input);
    var later := Count(st.conn, TellAll(Before(st), st.me, [op]).count);
    ServeOne(st.engine, later, st.env, second);
    JoinedUp(ServeAlone(st.engine, st.conn, st.env, second).replies);
    JoinedUp(ServeAlone(st.engine, later, st.env, second).replies);
  }

  lemma JoinedUp<T>(s: seq<T>)
    ensures [] + s == s
  {
  }

  /** A client that is authenticated and has no subscription yet. */
  ghost predicate Unsubscribed(st: Setting, channel: bytes) {
    st.conn.authenticated && !st.conn.queuing && st.conn.subscriptions == 0 && Held(st.hub, st.me) == 0
    && st.me !in Sub.Subs(st.hub.channels, channel)
  }

  predicate IsSubscribe(engine: Engine, frame: RespValue, channel: bytes) {
    ParseCommand(engine, frame).Some? && ParseCommand(engine, frame).value.PubSub?
    && ParseCommand(engine, frame).value.op == Some(Subscribe([channel]))
  }

  lemma SubscribeServed(st: Setting, frame: RespValue, channel: bytes)
    requires Unsubscribed(st, channel) && IsSubscribe(st.engine, frame, channel)
    ensures ServeAlone(st.engine, st.conn, st.env, frame)
      == Served(st.conn, st.env, [], [Subscribe([channel])], [], Go)
    ensures TellAll(Standing(st.hub, 0), st.me, [Subscribe([channel])]).count == 1
  {
    hide ParseCommand, Undisturbed, Held;
    WordIsNotFast(st.engine, frame);
    SubscribeCounts(st, channel);
  }

  lemma SubscribeCounts(st: Setting, channel: bytes)
    requires Unsubscribed(st, channel)
    ensures TellAll(Standing(st.hub, 0), st.me, [Subscribe([channel])]).count == 1
  {
    var ops := [Subscribe([channel])];
    assert ops[..0] == [];
    assert TellAll(Standing(st.hub, 0), st.me, []) == Standing(st.hub, 0);
    JoinAcks(st.hub.channels, |Sub.Keys(st.hub.patterns, st.me)|, st.me, [channel]);
    assert [channel][1..] == [];
  }

  lemma ExpiringSetIsSlow(engine: Engine, frame: RespValue, key: bytes, value: bytes, ex: nat)
    requires ParseCommand(engine, frame) == Some(Set(key, value, Some(ex), None))
    ensures !Fast(frame)
  {
    hide ParseCommand;
    if Fast(frame) {
      FastParses(engine, frame);
    }
  }

  lemma OneReadServes(st: Setting, input: bytes)
    ensures var w, s := From(st, [Read(input)]), Whole(st, input);
      w.replies == s.replies && w.told == Returned(s, Drain(input).stop) && w.view.env == s.env
      && w.fate == FateOf(s, Drain(input).stop)
  {
    hide Drain, ServeAll, TellAll, EncodeAll;
    OneReadInLine(st, input);
  }

  lemma SetServed(engine: Engine, c: Conn, e: Env, frame: RespValue, key: bytes, value: bytes, ex: nat)
    requires c.authenticated && !c.queuing && ParseCommand(engine, frame) == Some(Set(key, value, Some(ex), None))
    ensures var s := ServeAlone(engine, c, e, frame);
      s.end.Go? && s.ops == []
      && if c.subscriptions > 0 then s.replies == [Fail(RESTRICTED)] && s.env == e
         else s.replies == [OK] && s.env == SetKey(e, key, value)
  {
    hide ParseCommand, Undisturbed, Fast, Fail, SetKey;
    ExpiringSetIsSlow(engine, frame, key, value, ex);
  }

  /** SUBSCRIBE and SET with an expiry: stored if they come in one read, refused if they come in two. */
  lemma {:induction false} SubscribeThenSet(st: Setting, first: RespValue, second: RespValue, channel: bytes,
                                             key: bytes, value: bytes, ex: nat)
    returns (ios: seq<Io>)
    requires Unsubscribed(st, channel) && IsSubscribe(st.engine, first, channel)
    requires ParseCommand(st.engine, second) == Some(Set(key, value, Some(ex), None))
    requires Representable(first) && Clean(first) && Representable(second) && Clean(second)
    ensures var input := Encode(first) + Encode(second);
      var whole, cut := From(st, [Read(input)]), From(st, ios);
      Received(ios) == input && whole.told == cut.told == [Subscribe([channel])]
      && whole.replies == [OK] && whole.view.env == SetKey(st.env, key, value)
      && cut.replies == [Fail(RESTRICTED)] && cut.view.env == st.env
  {
    hide ParseCommand, Encode, From, Received, TellAll, ServeAlone, SetKey, Fail, Representable, Clean;
    SubscribeServed(st, first, channel);
    SetServed(st.engine, st.conn, st.env, second, key, value, ex);
    SetServed(st.engine, Count(st.conn, 1), st.env, second, key, value, ex);
    ios := TwoWays(st, first, second, Subscribe([channel]));
  }

  /** SUBSCRIBE and a frame that is no command: dropped if they come in one read, carried out if in two. */
  lemma {:induction false} SubscribeThenRubbish(st: Setting, first: RespValue, second: RespValue, channel: bytes)
    returns (ios: seq<Io>)
    requires Unsubscribed(st, channel) && IsSubscribe(st.engine, first, channel)
    requires ParseCommand(st.engine, second) == None
    requires Representable(first) && Clean(first) && Representable(second) && Clean(second)
    ensures var input := Encode(first) + Encode(second);
      var whole, cut := From(st, [Read(input)]), From(st, ios);
      Received(ios) == input && whole.fate == cut.fate == Broke
      && whole.told == [] && cut.told == [Subscribe([channel])]
  {
    hide ParseCommand, Encode, From, Received, TellAll, ServeAlone, Representable, Clean;
    SubscribeServed(st, first, channel);
    RubbishServed(st.engine, st.conn, st.env, second);
    RubbishServed(st.engine, Count(st.conn, 1), st.env, second);
    ios := TwoWays(st, first, second, Subscribe([channel]));
  }

  lemma RubbishServed(engine: Engine, c: Conn, e: Env, frame: RespValue)
    requires ParseCommand(engine, frame) == None
    ensures ServeAlone(engine, c, e, frame).end.Rejected?
  {
    hide ParseCommand, Fast, Undisturbed;
    NoCommandIsSlow(engine, frame);
  }

  lemma NoCommandIsSlow(engine: Engine, frame: RespValue)
    requires ParseCommand(engine, frame) == None
    ensures !Fast(frame)
  {
    hide ParseCommand;
    if Fast(frame) {
      FastParses(engine, frame);
    }
  }
}
