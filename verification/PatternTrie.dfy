/**
 The pattern trie of one worker. Every box of the source's tree has a single owner, so a
 node is identified by the edges that lead to it from the root: the tree is a map from
 paths to nodes, and the cursor that walks the boxes is a path.
 */
module PatternTrie {
  import opened Bytes
  import opened Pattern
  import Glob

  type Conn = nat

  datatype Entry = Entry(pattern: bytes, conn: Conn)

  datatype Edge = LitEdge(b: byte) | AnyEdge | StarEdge | ClassEdge

  type Path = seq<Edge>

  /** The class slot belongs to the node's only class child. */
  datatype Node = Node(slot: Option<CharClass>, subscribers: seq<Entry>)

  type Nodes = map<Path, Node>

  const Fresh: Node := Node(None, [])

  function EdgeOf(tok: Token): Edge {
    match tok
    case Lit(b) => LitEdge(b)
    case AnyByte => AnyEdge
    case Star => StarEdge
    case Class(_) => ClassEdge
  }

  function PathOf(toks: seq<Token>): Path {
    if toks == [] then [] else [EdgeOf(toks[0])] + PathOf(toks[1..])
  }

  function Home(e: Entry): Path {
    PathOf(Tokens(e.pattern))
  }

  lemma {:induction false} PathOfIndex(toks: seq<Token>)
    ensures |PathOf(toks)| == |toks|
    ensures forall i :: 0 <= i < |toks| ==> PathOf(toks)[i] == EdgeOf(toks[i])
  {
    if toks != [] {
      PathOfIndex(toks[1..]);
    }
  }

  // ---------------------------------------------------------------- insert

  /** Make sure the edge for `tok` exists below `cur`; an existing class slot is kept. */
  function Grow(nodes: Nodes, cur: Path, tok: Token): Nodes
    requires cur in nodes
  {
    var slotted :=
      if tok.Class? && nodes[cur].slot.None? then nodes[cur := nodes[cur].(slot := Some(tok.members))] else nodes;
    var child := cur + [EdgeOf(tok)];
    if child in nodes then slotted else slotted[child := Fresh]
  }

  function Place(nodes: Nodes, cur: Path, toks: seq<Token>, e: Entry): Nodes
    requires cur in nodes
    decreases |toks|
  {
    if toks == [] then nodes[cur := nodes[cur].(subscribers := nodes[cur].subscribers + [e])]
    else Place(Grow(nodes, cur, toks[0]), cur + [EdgeOf(toks[0])], toks[1..], e)
  }

  // ---------------------------------------------------------------- remove

  function Without(subs: seq<Entry>, e: Entry): (r: seq<Entry>)
    ensures e !in r
    ensures |r| <= |subs|
    ensures |r| == |subs| ==> r == subs
    ensures |r| < |subs| <==> e in subs
  {
    if subs == [] then []
    else if subs[0] == e then Without(subs[1..], e)
    else [subs[0]] + Without(subs[1..], e)
  }

  function Removed(nodes: Nodes, path: Path, e: Entry): Nodes {
    if path in nodes then nodes[path := nodes[path].(subscribers := Without(nodes[path].subscribers, e))] else nodes
  }

  lemma RemovedAbsent(nodes: Nodes, path: Path, e: Entry)
    requires path !in nodes
    ensures Removed(nodes, path, e) == nodes && SubscribersAt(nodes, path) == []
  {
  }

  // ---------------------------------------------------------------- search

  ghost function Deeper(nodes: Nodes, depth: nat): set<Path> {
    set p | p in nodes.Keys && |p| >= depth
  }

  lemma GoesDeeper(nodes: Nodes, cur: Path)
    requires cur in nodes
    ensures Deeper(nodes, |cur| + 1) < Deeper(nodes, |cur|)
  {
    assert cur in Deeper(nodes, |cur|) && cur !in Deeper(nodes, |cur| + 1);
  }

  function SubscribersAt(nodes: Nodes, path: Path): seq<Entry> {
    if path in nodes then nodes[path].subscribers else []
  }

  /** What the search collects below `cur` for the rest `s` of the channel. */
  function Find(nodes: Nodes, cur: Path, s: bytes): seq<Entry>
    requires cur in nodes
    decreases Deeper(nodes, |cur|), 0
  {
    GoesDeeper(nodes, cur);
    if s == [] then
      nodes[cur].subscribers + SubscribersAt(nodes, cur + [StarEdge])
    else
      (if cur + [LitEdge(s[0])] in nodes then Find(nodes, cur + [LitEdge(s[0])], s[1..]) else [])
      + (if cur + [AnyEdge] in nodes then Find(nodes, cur + [AnyEdge], s[1..]) else [])
      + (if cur + [ClassEdge] in nodes && nodes[cur].slot.Some? && InClass(nodes[cur].slot.value, s[0])
         then Find(nodes, cur + [ClassEdge], s[1..]) else [])
      + (if cur + [StarEdge] in nodes then FindAfterStar(nodes, cur + [StarEdge], s) else [])
  }

  function FindAfterStar(nodes: Nodes, child: Path, s: bytes): seq<Entry>
    requires child in nodes
    decreases Deeper(nodes, |child|), |s| + 1
  {
    Find(nodes, child, s) + (if s == [] then [] else FindAfterStar(nodes, child, s[1..]))
  }

  // ---------------------------------------------------------------- the shape of the tree

  ghost predicate PrefixClosed(nodes: Nodes) {
    [] in nodes && forall p :: p in nodes && p != [] ==> p[..|p| - 1] in nodes
  }

  /** A class slot is filled exactly when the class child exists. */
  ghost predicate SlotsHaveChildren(nodes: Nodes) {
    forall p :: p in nodes ==> (nodes[p].slot.Some? <==> p + [ClassEdge] in nodes)
  }

  /** Every subscriber sits at the end of its own pattern's path. */
  ghost predicate AtHome(nodes: Nodes) {
    forall p, e :: p in nodes && e in nodes[p].subscribers ==> Home(e) == p
  }

  ghost predicate WellFormed(nodes: Nodes) {
    PrefixClosed(nodes) && SlotsHaveChildren(nodes) && AtHome(nodes)
  }

  lemma {:induction false} PrefixPresent(nodes: Nodes, p: Path, q: Path)
    requires PrefixClosed(nodes) && p <= q && q in nodes
    ensures p in nodes
    decreases |q|
  {
    if p != q {
      PrefixPresent(nodes, p, q[..|q| - 1]);
    }
  }

  lemma SnocInjective(p: Path, a: Edge, q: Path, b: Edge)
    requires p + [a] == q + [b]
    ensures p == q && a == b
  {
    assert (p + [a])[..|p|] == p && (q + [b])[..|q|] == q;
    assert (p + [a])[|p|] == a;
  }

  lemma ParentPresent(nodes: Nodes, p: Path, edge: Edge)
    requires PrefixClosed(nodes) && p + [edge] in nodes
    ensures p in nodes
  {
    PrefixPresent(nodes, p, p + [edge]);
  }

  lemma GrowSlotAt(nodes: Nodes, cur: Path, tok: Token, p: Path)
    requires PrefixClosed(nodes) && SlotsHaveChildren(nodes) && cur in nodes
    requires p in Grow(nodes, cur, tok)
    ensures Grow(nodes, cur, tok)[p].slot.Some? <==> p + [ClassEdge] in Grow(nodes, cur, tok)
  {
    hide PrefixClosed;
    if p + [ClassEdge] == cur + [EdgeOf(tok)] {
      SnocInjective(p, ClassEdge, cur, EdgeOf(tok));
    } else if p !in nodes && p + [ClassEdge] in nodes {
      ParentPresent(nodes, p, ClassEdge);
    }
  }

  lemma GrowSlots(nodes: Nodes, cur: Path, tok: Token)
    requires WellFormed(nodes) && cur in nodes
    ensures SlotsHaveChildren(Grow(nodes, cur, tok))
  {
    forall p | p in Grow(nodes, cur, tok)
      ensures Grow(nodes, cur, tok)[p].slot.Some? <==> p + [ClassEdge] in Grow(nodes, cur, tok)
    {
      GrowSlotAt(nodes, cur, tok, p);
    }
  }

  lemma GrowForm(nodes: Nodes, cur: Path, tok: Token)
    requires WellFormed(nodes) && cur in nodes
    ensures WellFormed(Grow(nodes, cur, tok))
  {
    GrowSlots(nodes, cur, tok);
    hide SlotsHaveChildren, Home;
    var child := cur + [EdgeOf(tok)];
    assert child[..|child| - 1] == cur;
  }

  lemma GrowFacts(nodes: Nodes, cur: Path, tok: Token)
    requires WellFormed(nodes) && cur in nodes
    ensures var grown := Grow(nodes, cur, tok);
            && WellFormed(grown) && nodes.Keys <= grown.Keys && cur + [EdgeOf(tok)] in grown
            && (forall p :: SubscribersAt(grown, p) == SubscribersAt(nodes, p))
            && (forall p :: p in nodes && p != cur ==> grown[p] == nodes[p])
            && (forall p :: p in grown && p !in nodes ==> grown[p] == Fresh)
            && (tok.Class? ==> grown[cur].slot == if nodes[cur].slot.Some? then nodes[cur].slot else Some(tok.members))
            && (!tok.Class? ==> grown[cur].slot == nodes[cur].slot)
  {
    GrowForm(nodes, cur, tok);
    hide WellFormed;
  }

  lemma SettleForm(nodes: Nodes, e: Entry)
    requires WellFormed(nodes) && Home(e) in nodes
    ensures WellFormed(Place(nodes, Home(e), [], e))
  {
    hide Home;
  }

  lemma SettleFacts(nodes: Nodes, e: Entry)
    requires WellFormed(nodes) && Home(e) in nodes
    ensures var placed := Place(nodes, Home(e), [], e);
            && WellFormed(placed) && nodes.Keys == placed.Keys
            && (forall p :: SubscribersAt(placed, p) == SubscribersAt(nodes, p) + if p == Home(e) then [e] else [])
            && (forall p :: p in nodes ==> placed[p].slot == nodes[p].slot)
  {
    hide Home, WellFormed;
    SettleForm(nodes, e);
    assert forall p :: SubscribersAt(nodes, p) + [] == SubscribersAt(nodes, p);
  }

  /** Placing an entry adds it at its path and disturbs no other subscriber and no filled slot. */
  lemma {:induction false} PlaceFacts(nodes: Nodes, cur: Path, toks: seq<Token>, e: Entry)
    requires WellFormed(nodes) && cur in nodes && cur + PathOf(toks) == Home(e)
    ensures var placed := Place(nodes, cur, toks, e);
            && WellFormed(placed) && nodes.Keys <= placed.Keys && Home(e) in placed
            && (forall p :: SubscribersAt(placed, p) == SubscribersAt(nodes, p) + if p == Home(e) then [e] else [])
            && (forall p :: p in nodes && nodes[p].slot.Some? ==> placed[p].slot == nodes[p].slot)
    decreases |toks|
  {
    hide Grow, WellFormed, Home, SubscribersAt;
    if toks == [] {
      assert cur + [] == cur;
      SettleFacts(nodes, e);
    } else {
      GrowFacts(nodes, cur, toks[0]);
      assert cur + [EdgeOf(toks[0])] + PathOf(toks[1..]) == cur + PathOf(toks);
      PlaceFacts(Grow(nodes, cur, toks[0]), cur + [EdgeOf(toks[0])], toks[1..], e);
    }
  }

  lemma PlaceKeepsForm(nodes: Nodes, e: Entry)
    requires WellFormed(nodes)
    ensures WellFormed(Place(nodes, [], Tokens(e.pattern), e))
  {
    assert [] + Home(e) == Home(e);
    PlaceFacts(nodes, [], Tokens(e.pattern), e);
  }

  lemma {:induction false} RemovedFacts(nodes: Nodes, e: Entry)
    requires WellFormed(nodes)
    ensures var gone := Removed(nodes, Home(e), e);
            && WellFormed(gone) && gone.Keys == nodes.Keys
            && (forall p :: p in nodes ==> gone[p].slot == nodes[p].slot)
            && (forall p :: SubscribersAt(gone, p)
                            == if p == Home(e) then Without(SubscribersAt(nodes, p), e) else SubscribersAt(nodes, p))
  {
    if Home(e) in nodes {
      WithoutCount(nodes[Home(e)].subscribers, e);
    }
  }

  lemma {:induction false} WithoutCountOf(subs: seq<Entry>, e: Entry, f: Entry)
    ensures multiset(Without(subs, e))[f] == if f == e then 0 else multiset(subs)[f]
  {
    if subs != [] {
      WithoutCountOf(subs[1..], e, f);
      assert subs == [subs[0]] + subs[1..];
    }
  }

  lemma WithoutCount(subs: seq<Entry>, e: Entry)
    ensures multiset(Without(subs, e))[e] == 0
    ensures forall f :: f != e ==> multiset(Without(subs, e))[f] == multiset(subs)[f]
    ensures forall f :: f in Without(subs, e) ==> f in subs
  {
    hide Without;
    forall f ensures multiset(Without(subs, e))[f] == if f == e then 0 else multiset(subs)[f] {
      WithoutCountOf(subs, e, f);
    }
    forall f | f in Without(subs, e) ensures f in subs {
      assert f in multiset(Without(subs, e));
      assert f in multiset(subs);
    }
  }

  /** One turn of the loop in `Insert`. */
  lemma {:induction false} InsertStep(nodes: Nodes, cur: Path, pattern: bytes, i: nat, e: Entry)
    requires WellFormed(nodes) && cur in nodes && i < |pattern|
    ensures var step := NextToken(pattern[i..]);
            var grown, child := Grow(nodes, cur, step.0), cur + [EdgeOf(step.0)];
            && i + step.1 <= |pattern|
            && WellFormed(grown) && child in grown
            && (step.0.Class? ==> (nodes[cur].slot.Some? <==> child in nodes))
            && Place(nodes, cur, Tokens(pattern[i..]), e) == Place(grown, child, Tokens(pattern[i + step.1..]), e)
  {
    var step := NextToken(pattern[i..]);
    GrowFacts(nodes, cur, step.0);
    hide Grow;
    assert pattern[i..][step.1..] == pattern[i + step.1..];
    assert Tokens(pattern[i..])[1..] == Tokens(pattern[i + step.1..]);
  }

  lemma NoTokens(rest: bytes)
    requires rest == []
    ensures Tokens(rest) == []
  {
  }

  lemma HomeStep(pattern: bytes, pos: nat)
    requires pos < |pattern|
    ensures var step := NextToken(pattern[pos..]);
            && pos + step.1 <= |pattern|
            && PathOf(Tokens(pattern[pos..])) == [EdgeOf(step.0)] + PathOf(Tokens(pattern[pos + step.1..]))
  {
    hide NextToken;
    var step := NextToken(pattern[pos..]);
    assert pattern[pos..][step.1..] == pattern[pos + step.1..];
    assert Tokens(pattern[pos..])[1..] == Tokens(pattern[pos + step.1..]);
  }

  lemma FormIsClosed(nodes: Nodes)
    requires WellFormed(nodes)
    ensures PrefixClosed(nodes)
  {
  }

  /** One turn of the recursion in `RemoveFromNode`. */
  lemma {:induction false} RemoveStep(nodes: Nodes, cur: Path, pattern: bytes, pos: nat)
    requires WellFormed(nodes) && pos < |pattern|
    ensures var step := NextToken(pattern[pos..]);
            var home := cur + PathOf(Tokens(pattern[pos..]));
            && pos + step.1 <= |pattern|
            && home == (cur + [EdgeOf(step.0)]) + PathOf(Tokens(pattern[pos + step.1..]))
            && (cur + [EdgeOf(step.0)] !in nodes ==> home !in nodes)
  {
    hide PathOf, Tokens, NextToken, WellFormed;
    var step := NextToken(pattern[pos..]);
    var home := cur + PathOf(Tokens(pattern[pos..]));
    HomeStep(pattern, pos);
    FormIsClosed(nodes);
    var rest := PathOf(Tokens(pattern[pos + step.1..]));
    assert cur + ([EdgeOf(step.0)] + rest) == (cur + [EdgeOf(step.0)]) + rest;
    if home in nodes {
      PrefixPresent(nodes, cur + [EdgeOf(step.0)], home);
    }
  }

  /** The token a class edge, or any other edge, stands for: a class edge reads the slot it hangs from. */
  ghost function TokenOf(nodes: Nodes, at: Path, edge: Edge): Token {
    match edge
    case LitEdge(b) => Lit(b)
    case AnyEdge => AnyByte
    case StarEdge => Star
    case ClassEdge => Class(if at in nodes && nodes[at].slot.Some? then nodes[at].slot.value else CharClass([], false))
  }

  /** What the search collects along one edge when the channel goes on. */
  ghost function Branch(nodes: Nodes, cur: Path, edge: Edge, s: bytes): seq<Entry>
    requires s != []
  {
    var child := cur + [edge];
    if child !in nodes then []
    else if edge.StarEdge? then FindAfterStar(nodes, child, s)
    else if Fits(TokenOf(nodes, cur, edge), s[0]) then Find(nodes, child, s[1..])
    else []
  }

  lemma FindByBranch(nodes: Nodes, cur: Path, s: bytes)
    requires cur in nodes && s != []
    ensures Find(nodes, cur, s) == Branch(nodes, cur, LitEdge(s[0]), s) + Branch(nodes, cur, AnyEdge, s)
                                   + Branch(nodes, cur, ClassEdge, s) + Branch(nodes, cur, StarEdge, s)
  {
    hide FindAfterStar, Deeper;
  }

  lemma Regroup(found: seq<Entry>, a: seq<Entry>, b: seq<Entry>, c: seq<Entry>, d: seq<Entry>)
    ensures found + a + b + c + d == found + (a + b + c + d)
  {
  }

  lemma FindAtEnd(nodes: Nodes, cur: Path, s: bytes)
    requires cur in nodes && s == []
    ensures Find(nodes, cur, s) == nodes[cur].subscribers + SubscribersAt(nodes, cur + [StarEdge])
  {
  }

  lemma AfterStarStep(nodes: Nodes, child: Path, channel: bytes, i: nat)
    requires child in nodes && i <= |channel|
    ensures FindAfterStar(nodes, child, channel[i..])
            == Find(nodes, child, channel[i..])
            + (if i < |channel| then FindAfterStar(nodes, child, channel[i + 1..]) else [])
  {
    hide Find;
    assert i < |channel| ==> channel[i..][1..] == channel[i + 1..];
  }

  // ---------------------------------------------------------------- the trie object

  class PatternTrie {
    var nodes: Nodes

    ghost predicate Valid()
      reads this
    {
      WellFormed(nodes)
    }

    constructor ()
      ensures Valid() && nodes == map[[] := Fresh]
    {
      nodes := map[[] := Fresh];
    }

    /** The case distinction on the next pattern byte. */
    static method ReadToken(pattern: bytes, i: nat) returns (tok: Token, next: nat)
      requires i < |pattern|
      ensures var step := NextToken(pattern[i..]);
              tok == step.0 && next == i + step.1
    {
      hide ClassScan;
      if pattern[i] == Glob.STAR {
        tok, next := Star, i + 1;
      } else if pattern[i] == Glob.QUESTION {
        tok, next := AnyByte, i + 1;
      } else if pattern[i] == OPEN {
        var charClass := ParseCharClass(pattern[i..]);
        if charClass.Some? {
          tok, next := Class(charClass.value.0), i + charClass.value.1;
        } else {
          tok, next := Lit(pattern[i]), i + 1;
        }
      } else if pattern[i] == BACKSLASH && i + 1 < |pattern| {
        tok, next := Lit(pattern[i + 1]), i + 2;
      } else {
        tok, next := Lit(pattern[i]), i + 1;
      }
    }

    /** Creates the child for a token unless it is there; an existing class slot is kept. */
    method EnsureChild(cur: Path, tok: Token)
      requires cur in nodes
      requires tok.Class? ==> (nodes[cur].slot.Some? <==> cur + [EdgeOf(tok)] in nodes)
      modifies this
      ensures nodes == Grow(old(nodes), cur, tok)
    {
      match tok
      case Class(members) =>
        if nodes[cur].slot.None? {
          nodes := nodes[cur := nodes[cur].(slot := Some(members))][cur + [ClassEdge] := Fresh];
        }
      case _ =>
        if cur + [EdgeOf(tok)] !in nodes {
          nodes := nodes[cur + [EdgeOf(tok)] := Fresh];
        }
    }

    method Insert(pattern: bytes, conn: Conn)
      requires Valid()
      modifies this
      ensures Valid()
      ensures nodes == Place(old(nodes), [], Tokens(pattern), Entry(pattern, conn))
    {
      PlaceKeepsForm(nodes, Entry(pattern, conn));
      var cur := Walk(pattern, Entry(pattern, conn));
      hide WellFormed, Tokens;
      nodes := nodes[cur := nodes[cur].(subscribers := nodes[cur].subscribers + [Entry(pattern, conn)])];
    }

    /** The loop of `insert`: the cursor goes down along the pattern, creating what is missing. */
    method Walk(pattern: bytes, ghost e: Entry) returns (cur: Path)
      requires WellFormed(nodes) && [] in nodes
      modifies this
      ensures cur in nodes
      ensures Place(nodes, cur, [], e) == Place(old(nodes), [], Tokens(pattern), e)
    {
      hide *;
      cur := [];
      var i := 0;
      assert pattern[0..] == pattern;
      while i < |pattern|
        invariant 0 <= i <= |pattern| && cur in nodes && WellFormed(nodes)
        invariant Place(nodes, cur, Tokens(pattern[i..]), e) == Place(old(nodes), [], Tokens(pattern), e)
      {
        InsertStep(nodes, cur, pattern, i, e);
        var tok, next := ReadToken(pattern, i);
        EnsureChild(cur, tok);
        cur := cur + [EdgeOf(tok)];
        i := next;
      }
      NoTokens(pattern[i..]);
    }

    method Remove(pattern: bytes, conn: Conn) returns (removed: bool)
      requires Valid()
      modifies this
      ensures Valid()
      ensures nodes == Removed(old(nodes), Home(Entry(pattern, conn)), Entry(pattern, conn))
      ensures removed <==> Entry(pattern, conn) in SubscribersAt(old(nodes), Home(Entry(pattern, conn)))
    {
      RemovedFacts(nodes, Entry(pattern, conn));
      assert pattern[0..] == pattern && [] + Home(Entry(pattern, conn)) == Home(Entry(pattern, conn));
      removed := RemoveFromNode([], pattern, 0, conn);
    }

    method RemoveFromNode(cur: Path, pattern: bytes, pos: nat, conn: Conn) returns (removed: bool)
      requires Valid() && cur in nodes && pos <= |pattern|
      modifies this
      ensures var home := cur + PathOf(Tokens(pattern[pos..]));
              nodes == Removed(old(nodes), home, Entry(pattern, conn))
              && (removed <==> Entry(pattern, conn) in SubscribersAt(old(nodes), home))
      decreases |pattern| - pos
    {
      if pos == |pattern| {
        assert pattern[pos..] == [] && cur + [] == cur;
        var kept := Without(nodes[cur].subscribers, Entry(pattern, conn));
        removed := |kept| < |nodes[cur].subscribers|;
        nodes := nodes[cur := nodes[cur].(subscribers := kept)];
        return;
      }
      RemoveStep(nodes, cur, pattern, pos);
      hide Tokens, PathOf, WellFormed, NextToken, Removed;
      var tok, next := ReadToken(pattern, pos);
      if cur + [EdgeOf(tok)] in nodes {
        removed := RemoveFromNode(cur + [EdgeOf(tok)], pattern, next, conn);
      } else {
        RemovedAbsent(nodes, cur + PathOf(Tokens(pattern[pos..])), Entry(pattern, conn));
        removed := false;
      }
    }

    method FindMatches(channel: bytes) returns (matches: seq<Entry>)
      requires Valid()
      ensures matches == Find(nodes, [], channel)
    {
      assert channel[0..] == channel;
      matches := FindInNode([], channel, 0, []);
      assert [] + Find(nodes, [], channel) == Find(nodes, [], channel);
    }

    method FindInNode(cur: Path, channel: bytes, pos: nat, found: seq<Entry>) returns (matches: seq<Entry>)
      requires Valid() && cur in nodes && pos <= |channel|
      ensures matches == found + Find(nodes, cur, channel[pos..])
      decreases Deeper(nodes, |cur|), 0
    {
      GoesDeeper(nodes, cur);
      hide WellFormed, Find, FindAfterStar, Deeper, Branch;
      matches := found;
      if pos == |channel| {
        FindAtEnd(nodes, cur, channel[pos..]);
        matches := matches + nodes[cur].subscribers;
        if cur + [StarEdge] in nodes {
          matches := matches + nodes[cur + [StarEdge]].subscribers;
        }
        return;
      }
      FindByBranch(nodes, cur, channel[pos..]);
      matches := FindAlong(cur, LitEdge(channel[pos]), channel, pos, matches);
      matches := FindAlong(cur, AnyEdge, channel, pos, matches);
      matches := FindAlong(cur, ClassEdge, channel, pos, matches);
      matches := FindAlong(cur, StarEdge, channel, pos, matches);
      Regroup(found, Branch(nodes, cur, LitEdge(channel[pos]), channel[pos..]),
              Branch(nodes, cur, AnyEdge, channel[pos..]),
              Branch(nodes, cur, ClassEdge, channel[pos..]), Branch(nodes, cur, StarEdge, channel[pos..]));
    }

    /** Follows one kind of child if it exists and accepts the next byte. */
    method FindAlong(cur: Path, edge: Edge, channel: bytes, pos: nat, found: seq<Entry>) returns (matches: seq<Entry>)
      requires Valid() && cur in nodes && pos < |channel|
      requires edge.LitEdge? ==> edge.b == channel[pos]
      ensures matches == found + Branch(nodes, cur, edge, channel[pos..])
      decreases Deeper(nodes, |cur|), -1
    {
      GoesDeeper(nodes, cur);
      hide WellFormed, Find, FindAfterStar, Deeper;
      assert channel[pos..][0] == channel[pos] && channel[pos..][1..] == channel[pos + 1..];
      matches := found;
      if cur + [edge] in nodes {
        match edge
        case StarEdge =>
          matches := FindBelowStar(cur + [edge], channel, pos, matches);
        case ClassEdge =>
          if nodes[cur].slot.Some? && InClass(nodes[cur].slot.value, channel[pos]) {
            matches := FindInNode(cur + [edge], channel, pos + 1, matches);
          }
        case _ =>
          matches := FindInNode(cur + [edge], channel, pos + 1, matches);
      }
    }

    /** The wildcard loop: the star takes the channel up to each later position in turn. */
    method FindBelowStar(child: Path, channel: bytes, pos: nat, found: seq<Entry>) returns (matches: seq<Entry>)
      requires Valid() && child in nodes && pos <= |channel|
      ensures matches == found + FindAfterStar(nodes, child, channel[pos..])
      decreases Deeper(nodes, |child|), 1
    {
      hide WellFormed, Find, FindAfterStar;
      matches := found;
      for i := pos to |channel| + 1
        invariant matches + (if i <= |channel| then FindAfterStar(nodes, child, channel[i..]) else [])
                  == found + FindAfterStar(nodes, child, channel[pos..])
      {
        AfterStarStep(nodes, child, channel, i);
        matches := FindInNode(child, channel, i, matches);
      }
    }
  }

  // ---------------------------------------------------------------- what the search counts

  /** How the tree reads a path from depth `k` on. */
  ghost function Reading(nodes: Nodes, path: Path, k: nat): seq<Token>
    requires k <= |path|
    decreases |path| - k
  {
    if k == |path| then [] else [TokenOf(nodes, path[..k], path[k])] + Reading(nodes, path, k + 1)
  }

  ghost function Copies(nodes: Nodes, e: Entry): nat {
    multiset(SubscribersAt(nodes, Home(e)))[e]
  }

  /** Every copy of an entry is reported once for each way its path reads the channel. */
  ghost function Expected(nodes: Nodes, cur: Path, e: Entry, s: bytes): nat {
    if cur <= Home(e) then Ways(Reading(nodes, Home(e), |cur|), s) * Copies(nodes, e) else 0
  }

  ghost function ExpectedAfterStar(nodes: Nodes, child: Path, e: Entry, s: bytes): nat {
    if child <= Home(e) then WaysAfterStar(Reading(nodes, Home(e), |child|), s) * Copies(nodes, e) else 0
  }

  lemma Distribute(a: nat, b: nat, n: nat)
    ensures (a + b) * n == a * n + b * n
  {
  }

  /** An entry is counted at one node only. */
  lemma CountAt(nodes: Nodes, path: Path, e: Entry)
    requires WellFormed(nodes)
    ensures multiset(SubscribersAt(nodes, path))[e] == if path == Home(e) then Copies(nodes, e) else 0
  {
    if path in nodes && e in nodes[path].subscribers {
      assert Home(e) == path;
    }
  }

  lemma AbsentHome(nodes: Nodes, cur: Path, e: Entry)
    requires WellFormed(nodes) && cur <= Home(e) && cur !in nodes
    ensures Copies(nodes, e) == 0
  {
    if Home(e) in nodes {
      PrefixPresent(nodes, cur, Home(e));
    }
  }

  /** The step from a node to the next edge of an entry's path. */
  lemma NextEdge(nodes: Nodes, cur: Path, e: Entry, edge: Edge)
    ensures cur + [edge] <= Home(e) <==> cur <= Home(e) && |cur| < |Home(e)| && Home(e)[|cur|] == edge
    ensures cur + [edge] <= Home(e) ==>
              Reading(nodes, Home(e), |cur|) == [TokenOf(nodes, cur, edge)] + Reading(nodes, Home(e), |cur| + 1)
  {
    var home := Home(e);
    if cur <= home && |cur| < |home| && home[|cur|] == edge {
      assert home[..|cur| + 1] == cur + [edge];
    }
    if cur + [edge] <= home {
      assert home[..|cur|] == (cur + [edge])[..|cur|] == cur;
      assert home[|cur|] == (cur + [edge])[|cur|];
    }
  }

  /** What the branch along one edge contributes when the channel goes on. */
  ghost function BranchExpected(nodes: Nodes, cur: Path, edge: Edge, e: Entry, s: bytes): nat
    requires s != []
  {
    if cur + [edge] <= Home(e) && (edge.StarEdge? || Fits(TokenOf(nodes, cur, edge), s[0])) then
      if edge.StarEdge? then ExpectedAfterStar(nodes, cur + [edge], e, s)
      else Expected(nodes, cur + [edge], e, s[1..])
    else 0
  }

  /** The four branches cover the entry's path exactly once. */
  lemma BranchesCover(nodes: Nodes, cur: Path, e: Entry, s: bytes)
    requires s != []
    ensures Expected(nodes, cur, e, s)
            == BranchExpected(nodes, cur, LitEdge(s[0]), e, s) + BranchExpected(nodes, cur, AnyEdge, e, s)
               + BranchExpected(nodes, cur, ClassEdge, e, s) + BranchExpected(nodes, cur, StarEdge, e, s)
  {
    NextEdge(nodes, cur, e, LitEdge(s[0]));
    NextEdge(nodes, cur, e, AnyEdge);
    NextEdge(nodes, cur, e, ClassEdge);
    NextEdge(nodes, cur, e, StarEdge);
    var home := Home(e);
    if cur <= home && |cur| < |home| {
      var edge := home[|cur|];
      NextEdge(nodes, cur, e, edge);
      var reading := Reading(nodes, home, |cur|);
      assert reading[1..] == Reading(nodes, home, |cur| + 1);
    } else if cur <= home {
      assert Reading(nodes, home, |cur|) == [];
    }
  }

  /** The search at a node, branch by branch. */
  lemma {:induction false} FindCount(nodes: Nodes, cur: Path, s: bytes, e: Entry)
    requires WellFormed(nodes) && cur in nodes
    ensures multiset(Find(nodes, cur, s))[e] == Expected(nodes, cur, e, s)
    decreases Deeper(nodes, |cur|), 0
  {
    if s == [] {
      EndCount(nodes, cur, e);
    } else {
      hide WellFormed, Find, Expected, Branch, BranchExpected;
      BranchesCover(nodes, cur, e, s);
      BranchCount(nodes, cur, LitEdge(s[0]), s, e);
      BranchCount(nodes, cur, AnyEdge, s, e);
      BranchCount(nodes, cur, ClassEdge, s, e);
      BranchCount(nodes, cur, StarEdge, s, e);
      FindByBranch(nodes, cur, s);
    }
  }

  lemma {:induction false} EndCount(nodes: Nodes, cur: Path, e: Entry)
    requires WellFormed(nodes) && cur in nodes
    ensures multiset(Find(nodes, cur, []))[e] == Expected(nodes, cur, e, [])
  {
    CountAt(nodes, cur, e);
    CountAt(nodes, cur + [StarEdge], e);
    EmptyRest(nodes, cur, e);
    hide WellFormed, Expected, Copies, FindAfterStar;
    assert cur in nodes ==> SubscribersAt(nodes, cur) == nodes[cur].subscribers;
  }

  lemma {:induction false} BranchCount(nodes: Nodes, cur: Path, edge: Edge, s: bytes, e: Entry)
    requires WellFormed(nodes) && cur in nodes && s != []
    ensures multiset(Branch(nodes, cur, edge, s))[e] == BranchExpected(nodes, cur, edge, e, s)
    decreases Deeper(nodes, |cur|), -1
  {
    var child := cur + [edge];
    GoesDeeper(nodes, cur);
    if child !in nodes {
      if child <= Home(e) {
        AbsentHome(nodes, child, e);
      }
    } else if edge.StarEdge? {
      FindAfterStarCount(nodes, child, s, e);
    } else if Fits(TokenOf(nodes, cur, edge), s[0]) {
      FindCount(nodes, child, s[1..], e);
    }
  }

  lemma {:induction false} FindAfterStarCount(nodes: Nodes, child: Path, s: bytes, e: Entry)
    requires WellFormed(nodes) && child in nodes
    ensures multiset(FindAfterStar(nodes, child, s))[e] == ExpectedAfterStar(nodes, child, e, s)
    decreases Deeper(nodes, |child|), |s| + 1
  {
    hide WellFormed, Find, Expected, ExpectedAfterStar;
    FindCount(nodes, child, s, e);
    AfterStarExpected(nodes, child, e, s);
    if s != [] {
      FindAfterStarCount(nodes, child, s[1..], e);
    }
  }

  lemma AfterStarExpected(nodes: Nodes, child: Path, e: Entry, s: bytes)
    ensures ExpectedAfterStar(nodes, child, e, s)
            == Expected(nodes, child, e, s) + (if s == [] then 0 else ExpectedAfterStar(nodes, child, e, s[1..]))
  {
    hide Copies, Reading, Ways;
    if child <= Home(e) && s != [] {
      var reading := Reading(nodes, Home(e), |child|);
      Distribute(Ways(reading, s), WaysAfterStar(reading, s[1..]), Copies(nodes, e));
    }
  }

  /** At the end of the channel: the node's own subscribers and those one star below. */
  lemma EmptyRest(nodes: Nodes, cur: Path, e: Entry)
    ensures Expected(nodes, cur, e, [])
            == (if cur == Home(e) then Copies(nodes, e) else 0)
               + (if cur + [StarEdge] == Home(e) then Copies(nodes, e) else 0)
  {
    var home := Home(e);
    if cur <= home {
      var reading := Reading(nodes, home, |cur|);
      if |cur| == |home| {
        assert reading == [];
      } else {
        NextEdge(nodes, cur, e, home[|cur|]);
        assert home[..|cur| + 1] == cur + [home[|cur|]];
        if |cur| + 1 == |home| {
          assert Reading(nodes, home, |cur| + 1) == [] && home == cur + [home[|cur|]];
          assert reading == [TokenOf(nodes, cur, home[|cur|])];
        } else {
          assert |Reading(nodes, home, |cur| + 1)| > 0;
          assert |reading| >= 2;
        }
      }
    }
  }

  /** What `FindMatches` returns, with multiplicity, for any tree. */
  lemma {:induction false} SearchCounts(nodes: Nodes, e: Entry, channel: bytes)
    requires WellFormed(nodes)
    ensures multiset(Find(nodes, [], channel))[e] == Ways(Reading(nodes, Home(e), 0), channel) * Copies(nodes, e)
  {
    FindCount(nodes, [], channel, e);
  }
}
