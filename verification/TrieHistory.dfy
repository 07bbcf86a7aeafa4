/**
 The trie over its whole life: after any sequence of insertions and removals the search
 reports the live subscriptions whose pattern matches, and each as often as it should.
 */
module TrieHistory {
  import opened Bytes
  import opened Pattern
  import opened PatternTrie

  datatype Op = Insert(pattern: bytes, conn: Conn) | Remove(pattern: bytes, conn: Conn)

  ghost function Step(nodes: Nodes, op: Op): (r: Nodes)
    requires WellFormed(nodes)
    ensures WellFormed(r)
  {
    var e := Entry(op.pattern, op.conn);
    assert [] + Home(e) == Home(e);
    if op.Insert? then
      PlaceFacts(nodes, [], Tokens(op.pattern), e);
      Place(nodes, [], Tokens(op.pattern), e)
    else
      RemovedFacts(nodes, e);
      Removed(nodes, Home(e), e)
  }

  /** The tree after a history, starting from the empty tree. */
  ghost function Run(ops: seq<Op>): (r: Nodes)
    ensures WellFormed(r)
  {
    if ops == [] then map[[] := Fresh] else Step(Run(ops[..|ops| - 1]), ops[|ops| - 1])
  }

  /** How often an entry has been inserted since it was last removed. */
  ghost function Live(ops: seq<Op>, e: Entry): nat {
    if ops == [] then 0
    else
      var before, last := Live(ops[..|ops| - 1], e), ops[|ops| - 1];
      if Entry(last.pattern, last.conn) != e then before
      else if last.Insert? then before + 1
      else 0
  }

  lemma {:induction false} CopiesAreLive(ops: seq<Op>, e: Entry)
    ensures Copies(Run(ops), e) == Live(ops, e)
  {
    if ops != [] {
      var before, last := Run(ops[..|ops| - 1]), ops[|ops| - 1];
      CopiesAreLive(ops[..|ops| - 1], e);
      var f := Entry(last.pattern, last.conn);
      assert [] + Home(f) == Home(f);
      var subs := SubscribersAt(before, Home(e));
      if last.Insert? {
        PlaceFacts(before, [], Tokens(last.pattern), f);
        assert SubscribersAt(Run(ops), Home(e)) == subs + if Home(e) == Home(f) then [f] else [];
      } else {
        RemovedFacts(before, f);
        WithoutCount(subs, f);
      }
    }
  }

  // ---------------------------------------------------------------- where class slots come from

  /** This insertion asks for class `c` at the node `at`. */
  ghost predicate Asks(op: Op, at: Path, c: CharClass) {
    op.Insert?
    && var toks := Tokens(op.pattern);
       |at| < |toks| && |at| < |PathOf(toks)| && PathOf(toks)[..|at|] == at && toks[|at|] == Class(c)
  }

  /** Patterns that share a prefix of edges never ask for classes that differ at its end. */
  ghost predicate ClassesAgree(ops: seq<Op>) {
    forall i, j, at, c, d :: 0 <= i < |ops| && 0 <= j < |ops| && Asks(ops[i], at, c) && Asks(ops[j], at, d) ==>
      SameClass(c, d)
  }

  ghost predicate NewSlot(before: Nodes, after: Nodes, at: Path) {
    at in after && after[at].slot.Some? && !(at in before && before[at].slot == after[at].slot)
  }

  lemma GrowNewSlot(nodes: Nodes, cur: Path, tok: Token, at: Path)
    requires WellFormed(nodes) && cur in nodes
    ensures WellFormed(Grow(nodes, cur, tok)) && cur + [EdgeOf(tok)] in Grow(nodes, cur, tok)
    ensures NewSlot(nodes, Grow(nodes, cur, tok), at) ==>
      at == cur && tok == Class(Grow(nodes, cur, tok)[at].slot.value)
  {
    GrowFacts(nodes, cur, tok);
  }

  lemma {:induction false} PlaceSlots(nodes: Nodes, cur: Path, toks: seq<Token>, e: Entry, at: Path) returns (k: nat)
    requires WellFormed(nodes) && cur in nodes
    ensures |PathOf(toks)| == |toks|
    ensures NewSlot(nodes, Place(nodes, cur, toks, e), at) ==>
              k < |toks| && at == cur + PathOf(toks)[..k] && toks[k] == Class(Place(nodes, cur, toks, e)[at].slot.value)
    decreases |toks|
  {
    hide WellFormed, Grow;
    k := 0;
    PathOfIndex(toks);
    if toks != [] {
      GrowNewSlot(nodes, cur, toks[0], at);
      var grown, child := Grow(nodes, cur, toks[0]), cur + [EdgeOf(toks[0])];
      var placed := Place(grown, child, toks[1..], e);
      var m := PlaceSlots(grown, child, toks[1..], e, at);
      if NewSlot(grown, placed, at) {
        k := m + 1;
        assert cur + PathOf(toks)[..k] == child + PathOf(toks[1..])[..m];
      } else if NewSlot(nodes, placed, at) {
        assert cur + PathOf(toks)[..0] == cur;
      }
    }
  }

  /** The class an operation asks for at a path, if it asks for one. */
  ghost function AskedBy(op: Op, at: Path): Option<CharClass> {
    var toks := Tokens(op.pattern);
    if op.Insert? && |at| < |toks| && |at| < |PathOf(toks)| && PathOf(toks)[..|at|] == at && toks[|at|].Class?
    then Some(toks[|at|].members) else None
  }

  /** The first class ever asked for at a path. */
  ghost function FirstAsked(ops: seq<Op>, at: Path): Option<CharClass> {
    if ops == [] then None
    else
      var before := FirstAsked(ops[..|ops| - 1], at);
      if before.Some? then before else AskedBy(ops[|ops| - 1], at)
  }

  ghost function SlotAt(nodes: Nodes, at: Path): Option<CharClass> {
    if at in nodes then nodes[at].slot else None
  }

  /** A filled slot survives every later operation. */
  lemma SlotStays(nodes: Nodes, op: Op, at: Path)
    requires WellFormed(nodes) && at in nodes && nodes[at].slot.Some?
    ensures at in Step(nodes, op) && Step(nodes, op)[at].slot == nodes[at].slot
  {
    var e := Entry(op.pattern, op.conn);
    assert [] + Home(e) == Home(e);
    if op.Insert? {
      PlaceFacts(nodes, [], Tokens(op.pattern), e);
    } else {
      RemovedFacts(nodes, e);
    }
  }

  /** Walking past a node along a class edge fills its slot. */
  lemma {:induction false} PlaceFills(nodes: Nodes, cur: Path, toks: seq<Token>, e: Entry, k: nat)
    requires WellFormed(nodes) && cur in nodes && cur + PathOf(toks) == Home(e)
    requires k < |toks| == |PathOf(toks)| && toks[k].Class?
    ensures SlotAt(Place(nodes, cur, toks, e), cur + PathOf(toks)[..k]).Some?
    decreases |toks|
  {
    hide WellFormed, Home;
    GrowFacts(nodes, cur, toks[0]);
    var grown, child := Grow(nodes, cur, toks[0]), cur + [EdgeOf(toks[0])];
    assert child + PathOf(toks[1..]) == cur + PathOf(toks);
    if k == 0 {
      assert cur + PathOf(toks)[..0] == cur;
      PlaceFacts(grown, child, toks[1..], e);
    } else {
      PathOfIndex(toks[1..]);
      PlaceFills(grown, child, toks[1..], e, k - 1);
      assert child + PathOf(toks[1..])[..k - 1] == cur + PathOf(toks)[..k];
    }
  }

  /** One operation fills an empty slot exactly if it asks for a class there, and with that class. */
  lemma SlotStep(nodes: Nodes, op: Op, at: Path)
    requires WellFormed(nodes)
    ensures SlotAt(Step(nodes, op), at)
            == if SlotAt(nodes, at).Some? then SlotAt(nodes, at) else AskedBy(op, at)
  {
    var e := Entry(op.pattern, op.conn);
    var toks := Tokens(op.pattern);
    PathOfIndex(toks);
    if SlotAt(nodes, at).Some? {
      SlotStays(nodes, op, at);
    } else if op.Remove? {
      RemovedFacts(nodes, e);
    } else {
      assert [] + Home(e) == Home(e);
      if AskedBy(op, at).Some? {
        PlaceFills(nodes, [], toks, e, |at|);
        assert [] + PathOf(toks)[..|at|] == at;
      }
      var k := PlaceSlots(nodes, [], toks, e, at);
      if NewSlot(nodes, Place(nodes, [], toks, e), at) {
        assert [] + PathOf(toks)[..k] == PathOf(toks)[..k] == at;
        assert |at| == k;
      }
    }
  }

  /** A slot holds the first class ever asked for at its path, and is filled by the first to ask. */
  lemma {:induction false} SlotIsFirstAsked(ops: seq<Op>, at: Path)
    ensures SlotAt(Run(ops), at) == FirstAsked(ops, at)
    decreases |ops|
  {
    hide WellFormed, Step, AskedBy;
    if ops == [] {
    } else {
      SlotIsFirstAsked(ops[..|ops| - 1], at);
      SlotStep(Run(ops[..|ops| - 1]), ops[|ops| - 1], at);
    }
  }

  lemma {:induction false} FirstAskedOrigin(ops: seq<Op>, at: Path) returns (i: nat)
    requires FirstAsked(ops, at).Some?
    ensures i < |ops| && Asks(ops[i], at, FirstAsked(ops, at).value)
    ensures forall j, c :: 0 <= j < i ==> !Asks(ops[j], at, c)
  {
    var front, last := ops[..|ops| - 1], ops[|ops| - 1];
    if FirstAsked(front, at).Some? {
      i := FirstAskedOrigin(front, at);
    } else {
      i := |ops| - 1;
      forall j, c | 0 <= j < i ensures !Asks(ops[j], at, c) {
        NobodyAsked(front, at, j, c);
      }
    }
  }

  lemma {:induction false} NobodyAsked(ops: seq<Op>, at: Path, j: nat, c: CharClass)
    requires FirstAsked(ops, at).None? && j < |ops|
    ensures !Asks(ops[j], at, c)
  {
    if j < |ops| - 1 {
      NobodyAsked(ops[..|ops| - 1], at, j, c);
    }
  }

  /** Every filled slot holds what the first insertion that asked for a class there asked for. */
  lemma {:induction false} SlotOrigin(ops: seq<Op>, at: Path) returns (i: nat)
    requires at in Run(ops) && Run(ops)[at].slot.Some?
    ensures i < |ops| && Asks(ops[i], at, Run(ops)[at].slot.value)
    ensures forall j, c :: 0 <= j < i ==> !Asks(ops[j], at, c)
  {
    SlotIsFirstAsked(ops, at);
    i := FirstAskedOrigin(ops, at);
  }

  lemma {:induction false} InsertedIfLive(ops: seq<Op>, e: Entry) returns (i: nat)
    requires Live(ops, e) > 0
    ensures i < |ops| && ops[i] == Insert(e.pattern, e.conn)
  {
    var last := ops[|ops| - 1];
    if last == Insert(e.pattern, e.conn) {
      i := |ops| - 1;
    } else {
      i := InsertedIfLive(ops[..|ops| - 1], e);
    }
  }

  lemma SlotAgrees(ops: seq<Op>, e: Entry, k: nat)
    requires ClassesAgree(ops) && Live(ops, e) > 0 && k < |Home(e)| == |Tokens(e.pattern)|
    requires Tokens(e.pattern)[k].Class?
    ensures SameToken(TokenOf(Run(ops), Home(e)[..k], Home(e)[k]), Tokens(e.pattern)[k])
  {
    var at := Home(e)[..k];
    PathOfIndex(Tokens(e.pattern));
    LiveSlot(ops, e, k);
    var i := InsertedIfLive(ops, e);
    var j := SlotOrigin(ops, at);
    hide Tokens, Live, Run, PathOf, WellFormed;
    assert Asks(ops[i], at, Tokens(e.pattern)[k].members);
  }

  /** Along the path of a live pattern every class edge hangs from a filled slot. */
  lemma {:induction false} LiveSlot(ops: seq<Op>, e: Entry, k: nat)
    requires Live(ops, e) > 0 && k < |Home(e)| && Home(e)[k] == ClassEdge
    ensures Home(e)[..k] in Run(ops) && Run(ops)[Home(e)[..k]].slot.Some?
  {
    CopiesAreLive(ops, e);
    PathSlot(Run(ops), Home(e), k);
  }

  lemma PathSlot(nodes: Nodes, path: Path, k: nat)
    requires WellFormed(nodes) && path in nodes && k < |path| && path[k] == ClassEdge
    ensures path[..k] in nodes && nodes[path[..k]].slot.Some?
  {
    hide AtHome, Home;
    assert path[..k] + [ClassEdge] == path[..k + 1];
    PrefixPresent(nodes, path[..k + 1], path);
    ParentPresent(nodes, path[..k], ClassEdge);
  }

  /** With agreeing classes the tree reads a live pattern as the pattern was written. */
  lemma {:induction false} ReadingIsTokens(ops: seq<Op>, e: Entry, k: nat)
    requires ClassesAgree(ops) && Live(ops, e) > 0 && k <= |Home(e)| == |Tokens(e.pattern)|
    ensures SameTokens(Reading(Run(ops), Home(e), k), Tokens(e.pattern)[k..])
    decreases |Home(e)| - k
  {
    hide Tokens, Live, Run, ClassesAgree, SameToken, SameTokens, TokenOf;
    PathOfIndex(Tokens(e.pattern));
    var nodes, toks, home := Run(ops), Tokens(e.pattern), Home(e);
    if k < |home| {
      ReadingIsTokens(ops, e, k + 1);
      if toks[k].Class? {
        SlotAgrees(ops, e, k);
      } else {
        SameItself(toks[k]);
        PlainEdge(nodes, toks[k], home[..k]);
      }
      assert toks[k..] == [toks[k]] + toks[k + 1..];
      SameCons(TokenOf(nodes, home[..k], home[k]), toks[k], Reading(nodes, home, k + 1), toks[k + 1..]);
    } else {
      SameNil(Reading(nodes, home, k), toks[k..]);
    }
  }

  lemma PlainEdge(nodes: Nodes, tok: Token, at: Path)
    requires !tok.Class?
    ensures TokenOf(nodes, at, EdgeOf(tok)) == tok
  {
  }

  lemma SameNil(a: seq<Token>, b: seq<Token>)
    requires a == b == []
    ensures SameTokens(a, b)
  {
  }

  lemma SameCons(a: Token, b: Token, more: seq<Token>, others: seq<Token>)
    requires SameToken(a, b) && SameTokens(more, others)
    ensures SameTokens([a] + more, [b] + others)
  {
  }

  lemma SameItself(tok: Token)
    ensures SameToken(tok, tok)
  {
  }

  lemma {:induction false} TrieCounts(ops: seq<Op>, e: Entry, channel: bytes)
    requires ClassesAgree(ops)
    ensures multiset(Find(Run(ops), [], channel))[e] == Ways(Tokens(e.pattern), channel) * Live(ops, e)
  {
    hide WellFormed, Find, Tokens, Run, Live, Ways, ClassesAgree, SameTokens;
    var nodes, toks := Run(ops), Tokens(e.pattern);
    SearchCounts(nodes, e, channel);
    CopiesAreLive(ops, e);
    if Live(ops, e) > 0 {
      PathOfIndex(toks);
      ReadingIsTokens(ops, e, 0);
      assert toks[0..] == toks;
      WaysSame(Reading(nodes, Home(e), 0), toks, channel);
    }
  }

  /**
   Trie refinement, over every history with agreeing classes and every channel: an entry is
   reported once per live copy and way of matching; so, unless its pattern ends in two
   stars, it is reported if and only if it is live and the pattern matches, and a pattern
   with at most one star is reported no more often than it is live.
   */
  lemma {:induction false} TrieRefinement(ops: seq<Op>, e: Entry, channel: bytes)
    requires ClassesAgree(ops)
    ensures var found := multiset(Find(Run(ops), [], channel))[e];
            var toks := Tokens(e.pattern);
            && found == Ways(toks, channel) * Live(ops, e)
            && (!EndsInTwoStars(toks) ==> (found > 0 <==> Live(ops, e) > 0 && Matches(toks, channel)))
            && (AtMostOneStar(toks) ==> found <= Live(ops, e))
  {
    hide WellFormed, Find, Tokens, Run, Live, Ways, ClassesAgree, Matches, Canon;
    var toks := Tokens(e.pattern);
    TrieCounts(ops, e, channel);
    Product(Ways(toks, channel), Live(ops, e));
    WaysExact(toks, channel);
    CanonChanges(toks);
    if AtMostOneStar(toks) {
      OneWay(toks, channel);
    }
  }

  lemma Product(a: nat, b: nat)
    ensures a * b > 0 <==> a > 0 && b > 0
    ensures a <= 1 ==> a * b <= b
  {
  }

  // ---------------------------------------------------------------- classes that disagree

  lemma SingleClass(b: byte) returns (tok: Token)
    requires b !in [CLOSE, CARET, BACKSLASH]
    ensures tok == Class(CharClass([b], false)) && Tokens([OPEN, b, CLOSE]) == [tok]
  {
    var p := [OPEN, b, CLOSE];
    tok := Class(CharClass([b], false));
    assert [] + [b] == [b];
    assert ClassScan(p, 1, [], false) == ClassScan(p, 2, [b], false) == Some(([b], 3));
    assert p[3..] == [];
  }

  lemma PlaceOneClass(tok: Token, e: Entry)
    requires tok.Class?
    ensures var placed := Place(map[[] := Fresh], [], [tok], e);
            [] in placed && placed[[]].slot == Some(tok.members)
  {
    var grown := Grow(map[[] := Fresh], [], tok);
    assert [tok][1..] == [] && [] + [ClassEdge] == [ClassEdge];
    assert Place(map[[] := Fresh], [], [tok], e) == Place(grown, [ClassEdge], [], e);
  }

  lemma FirstSlot(b: byte, conn: Conn)
    requires b !in [CLOSE, CARET, BACKSLASH]
    ensures var nodes := Run([Insert([OPEN, b, CLOSE], conn)]);
            [] in nodes && nodes[[]].slot == Some(CharClass([b], false))
  {
    hide WellFormed, Place, Tokens;
    var op := Insert([OPEN, b, CLOSE], conn);
    var tok := SingleClass(b);
    PlaceOneClass(tok, Entry(op.pattern, conn));
    assert [op][..0] == [] && Run([op]) == Step(Run([]), op);
  }

  /** `[a]` and then `[b]`: the second subscription is live, matches `b`, and is not found. */
  lemma FirstClassWins()
    ensures var pa: bytes, pb: bytes := [OPEN, 97, CLOSE], [OPEN, 98, CLOSE];
            var ops := [Insert(pa, 1), Insert(pb, 2)];
            && Live(ops, Entry(pb, 2)) == 1 && Matches(Tokens(pb), [98])
            && Entry(pb, 2) !in Find(Run(ops), [], [98])
  {
    hide WellFormed, Place, ClassScan, Step, Find, PathOf, Reading;
    var pa: bytes, pb: bytes := [OPEN, 97, CLOSE], [OPEN, 98, CLOSE];
    var ops, e := [Insert(pa, 1), Insert(pb, 2)], Entry(pb, 2);
    assert ops[..1] == [Insert(pa, 1)] && ops[..1][..0] == [];
    assert Live(ops[..1], e) == 0;
    FirstSlot(97, 1);
    SlotStays(Run(ops[..1]), ops[1], []);
    var tb := SingleClass(98);
    assert [tb][1..] == [] && [98][1..] == [] && Matches([tb][1..], [98][1..]);
    SearchCounts(Run(ops), e, [98]);
    ReadsFirstClass(Run(ops), e, tb);
  }

  lemma ReadsFirstClass(nodes: Nodes, e: Entry, tok: Token)
    requires [] in nodes && nodes[[]].slot == Some(CharClass([97], false))
    requires Tokens(e.pattern) == [tok] && tok.Class?
    ensures Ways(Reading(nodes, Home(e), 0), [98]) == 0
  {
    assert [tok][1..] == [] && PathOf([tok]) == [ClassEdge] + PathOf([]);
    assert Home(e) == [ClassEdge] && Home(e)[..0] == [];
    assert Reading(nodes, Home(e), 1) == [];
    assert Reading(nodes, Home(e), 0) == [Class(CharClass([97], false))];
  }
}
