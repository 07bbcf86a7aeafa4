/**
 * Subscription patterns by what is written in them. A pattern is put together from pieces; its
 * text is split back into them and matches exactly what the pieces, one after the other, stand
 * for. All special bytes are given by their values here.
 */
module PatternText {
  import opened Bytes
  import opened Pattern

  /** A member of a class, `\x` if escaped, and the end of the range `x-y` that it begins, if it does. */
  datatype Item = Item(escaped: bool, b: byte, end: Option<byte>)

  /** `dashFirst` and `dashLast` are literal `-` at either end of a class. */
  datatype Members = Members(negated: bool, dashFirst: bool, items: seq<Item>, dashLast: bool)

  datatype Piece = Plain(b: byte) | Quoted(b: byte) | Question | Stars | OneOf(members: Members)

  // ---- What is written. ----

  function ItemText(item: Item): bytes {
    (if item.escaped then [92] else []) + [item.b] + (if item.end.Some? then [45, item.end.value] else [])
  }

  function ItemsText(items: seq<Item>): bytes {
    if items == [] then [] else ItemText(items[0]) + ItemsText(items[1..])
  }

  /** What stands between the brackets, after the caret. */
  function Inside(m: Members): bytes {
    (if m.dashFirst then [45] else []) + (ItemsText(m.items) + (if m.dashLast then [45] else []))
  }

  function ClassText(m: Members): bytes {
    [91] + ((if m.negated then [94] else []) + (Inside(m) + [93]))
  }

  function PieceText(piece: Piece): bytes {
    match piece
    case Plain(b) => [b]
    case Quoted(b) => [92, b]
    case Question => [63]
    case Stars => [42]
    case OneOf(m) => ClassText(m)
  }

  function Text(pieces: seq<Piece>): bytes {
    if pieces == [] then [] else PieceText(pieces[0]) + Text(pieces[1..])
  }

  // ---- What can be written so. ----

  predicate ItemOk(item: Item) {
    (!item.escaped ==> item.b != 92 && item.b != 93 && item.b != 45) && item.end != Some(93)
  }

  predicate ClassOk(m: Members) {
    (forall i :: 0 <= i < |m.items| ==> ItemOk(m.items[i]))
    && (!m.negated && !m.dashFirst && m.items != [] ==> m.items[0].escaped || m.items[0].b != 94)
  }

  predicate PieceOk(piece: Piece) {
    match piece
    case Plain(b) => b != 42 && b != 63 && b != 91 && b != 92
    case OneOf(m) => ClassOk(m)
    case _ => true
  }

  predicate AllOk(pieces: seq<Piece>) {
    forall i :: 0 <= i < |pieces| ==> PieceOk(pieces[i])
  }

  // ---- What it stands for. ----

  /** A range takes in its start; a start of 255 wraps around, as the byte arithmetic does. */
  predicate Takes(item: Item, x: byte) {
    x == item.b
    || (item.end.Some? && if item.b == 255 then x <= item.end.value else item.b < x <= item.end.value)
  }

  predicate Holds(m: Members, x: byte) {
    (m.dashFirst && x == 45) || (m.dashLast && x == 45) || exists i :: 0 <= i < |m.items| && Takes(m.items[i], x)
  }

  predicate OneByte(piece: Piece, x: byte)
    requires !piece.Stars?
  {
    match piece
    case Plain(b) => x == b
    case Quoted(b) => x == b
    case Question => true
    case OneOf(m) => Holds(m, x) != m.negated
  }

  /** The pieces take the text in order: stars any part of it, every other piece one byte. */
  predicate Means(pieces: seq<Piece>, s: bytes)
    decreases |pieces|
  {
    if pieces == [] then s == []
    else if pieces[0].Stars? then exists i :: 0 <= i <= |s| && Means(pieces[1..], s[i..])
    else s != [] && OneByte(pieces[0], s[0]) && Means(pieces[1..], s[1..])
  }

  // ---- Classes. ----

  predicate Adds(items: seq<Item>, x: byte) {
    exists i :: 0 <= i < |items| && Takes(items[i], x)
  }

  lemma AddsCons(items: seq<Item>, x: byte)
    requires items != []
    ensures Adds(items, x) <==> Takes(items[0], x) || Adds(items[1..], x)
  {
    assert forall i :: 0 < i < |items| ==> items[i] == items[1..][i - 1];
  }

  /** The bytes of `chars` are joined by those of `more`. */
  ghost predicate Joined(chars: bytes, more: bytes, items: seq<Item>) {
    forall x: byte :: x in more <==> x in chars || Adds(items, x)
  }

  lemma ScanItem(p: bytes, i: nat, chars: bytes, item: Item) returns (more: bytes)
    requires ItemOk(item) && i <= |p| && ItemText(item) <= p[i..]
    ensures ClassScan(p, i, chars, false) == ClassScan(p, i + |ItemText(item)|, more, false)
    ensures forall x: byte :: x in more <==> x in chars || Takes(item, x)
  {
    var text := ItemText(item);
    assert forall k {:trigger text[k]} :: 0 <= k < |text| ==> p[i + k] == text[k];
    var j := if item.escaped then i + 1 else i;
    assert p[j] == item.b;
    var one := chars + [item.b];
    assert ClassScan(p, i, chars, false) == ClassScan(p, j + 1, one, false);
    if item.end.Some? {
      assert p[j + 1] == 45 && p[j + 2] == item.end.value;
      more := one + RangeTail(item.b, item.end.value);
      assert one[|one| - 1] == item.b;
      assert ClassScan(p, j + 1, one, false) == ClassScan(p, j + 3, more, false);
    } else {
      more := one;
    }
  }

  lemma {:induction false} ScanItems(p: bytes, i: nat, chars: bytes, items: seq<Item>) returns (more: bytes)
    requires (forall k :: 0 <= k < |items| ==> ItemOk(items[k])) && i <= |p| && ItemsText(items) <= p[i..]
    ensures ClassScan(p, i, chars, false) == ClassScan(p, i + |ItemsText(items)|, more, false)
    ensures Joined(chars, more, items)
    decreases |items|
  {
    hide ClassScan, ItemOk, ItemText, Takes;
    if items == [] {
      more := chars;
    } else {
      var first, rest := ItemText(items[0]), ItemsText(items[1..]);
      assert first <= first + rest <= p[i..];
      var next := ScanItem(p, i, chars, items[0]);
      assert p[i + |first|..] == p[i..][|first|..] && (first + rest)[|first|..] == rest;
      more := ScanItems(p, i + |first|, next, items[1..]);
      forall x: byte ensures x in more <==> x in chars || Adds(items, x) {
        AddsCons(items, x);
      }
    }
  }

  lemma ScanDash(p: bytes, i: nat, chars: bytes)
    requires i < |p| && p[i] == 45 && (chars == [] || (i + 1 < |p| && p[i + 1] == 93))
    ensures ClassScan(p, i, chars, false) == ClassScan(p, i + 1, chars + [45], false)
  {
  }

  lemma ScanClose(p: bytes, i: nat, chars: bytes)
    requires i < |p| && p[i] == 93
    ensures ClassScan(p, i, chars, false) == Some((chars, i + 1))
  {
  }

  /** From behind the caret on: everything written inside is read, in any order of its kinds. */
  lemma {:induction false} ScanInside(p: bytes, i: nat, m: Members) returns (chars: bytes)
    requires ClassOk(m) && i <= |p| && Inside(m) + [93] <= p[i..]
    ensures ClassScan(p, i, [], false) == Some((chars, i + |Inside(m)| + 1))
    ensures forall x: byte :: x in chars <==> Holds(m, x)
  {
    hide ClassScan, ItemOk, ItemsText, Takes;
    var text := Inside(m) + [93];
    assert forall k {:trigger text[k]} :: 0 <= k < |text| ==> p[i + k] == text[k];
    var j, start: bytes := i, [];
    if m.dashFirst {
      assert text[0] == 45;
      ScanDash(p, i, []);
      j, start := i + 1, [] + [45];
    }
    var items := ItemsText(m.items);
    assert items <= p[j..] by {
      assert text[j - i..] == items + ((if m.dashLast then [45] else []) + [93]);
      assert p[j..] == p[i..][j - i..] && text[j - i..] <= p[j..];
    }
    chars := ScanItems(p, j, start, m.items);
    var k := j + |items|;
    if m.dashLast {
      assert text[k - i] == 45 && text[k - i + 1] == 93;
      ScanDash(p, k, chars);
      chars, k := chars + [45], k + 1;
    }
    assert text[k - i] == 93;
    ScanClose(p, k, chars);
  }

  /**
   * A class accepts the union of what its members, escaped bytes and ranges accept, or with a
   * caret everything else, and is as long as it is written; whatever follows it.
   */
  lemma {:induction false} ClassIsUnion(m: Members, rest: bytes, x: byte)
    requires ClassOk(m)
    ensures var c := ClassAt(ClassText(m) + rest);
      c.Some? && c.value.1 == |ClassText(m)| && (InClass(c.value.0, x) <==> Holds(m, x) != m.negated)
  {
    hide ClassScan, ItemOk, Holds, Inside;
    var p := ClassText(m) + rest;
    var i := if m.negated then 2 else 1;
    FirstInside(m);
    assert p[i..] == Inside(m) + [93] + rest;
    assert p[1] == if m.negated then 94 else (Inside(m) + [93])[0];
    var chars := ScanInside(p, i, m);
  }

  lemma FirstInside(m: Members)
    requires ClassOk(m)
    ensures !m.negated ==> (Inside(m) + [93])[0] != 94
  {
    if m.items != [] {
      assert ItemsText(m.items)[0] == ItemText(m.items[0])[0];
    }
  }

  // ---- The whole pattern. ----

  ghost predicate Reads(tok: Token, piece: Piece) {
    if piece.Stars? then tok.Star? else !tok.Star? && forall x: byte :: Fits(tok, x) <==> OneByte(piece, x)
  }

  lemma {:induction false} FirstToken(piece: Piece, rest: bytes) returns (tok: Token)
    requires PieceOk(piece)
    ensures Tokens(PieceText(piece) + rest) == [tok] + Tokens(rest) && Reads(tok, piece)
  {
    hide ClassAt, ClassText, ClassOk, Holds;
    var p := PieceText(piece) + rest;
    assert p[|PieceText(piece)|..] == rest;
    match piece
    case OneOf(m) =>
      ClassIsUnion(m, rest, 0);
      StartsOpen(m);
      tok := Class(ClassAt(p).value.0);
      forall x: byte ensures Fits(tok, x) <==> OneByte(piece, x) {
        ClassIsUnion(m, rest, x);
      }
    case Plain(b) => tok := Lit(b);
    case Quoted(b) => tok := Lit(b);
    case Question => tok := AnyByte;
    case Stars => tok := Star;
  }

  lemma StartsOpen(m: Members)
    ensures |ClassText(m)| >= 2 && ClassText(m)[0] == 91
  {
  }

  lemma {:induction false} StarTakesAny(toks: seq<Token>, s: bytes)
    requires toks != [] && toks[0].Star?
    ensures Matches(toks, s) <==> exists i :: 0 <= i <= |s| && Matches(toks[1..], s[i..])
    decreases |s|
  {
    if Matches(toks[1..], s) {
      assert s[0..] == s;
    }
    if s == [] {
      assert forall i :: 0 <= i <= |s| ==> s[i..] == s;
    } else {
      StarTakesAny(toks, s[1..]);
      if i :| 0 <= i <= |s[1..]| && Matches(toks[1..], s[1..][i..]) {
        assert s[1..][i..] == s[i + 1..];
      }
      if i :| 0 <= i <= |s| && Matches(toks[1..], s[i..]) {
        if i > 0 {
          assert s[1..][i - 1..] == s[i..];
        } else {
          assert s[0..] == s;
        }
      }
    }
  }

  /** A pattern written piece by piece matches exactly the texts its pieces stand for. */
  lemma {:induction false} PatternMeans(pieces: seq<Piece>, s: bytes)
    requires AllOk(pieces)
    ensures Matches(Tokens(Text(pieces)), s) <==> Means(pieces, s)
    decreases |pieces|
  {
    hide Tokens, Fits, OneByte;
    if pieces == [] {
      NoTokens();
    } else {
      var rest := Text(pieces[1..]);
      var tok := FirstToken(pieces[0], rest);
      var toks := [tok] + Tokens(rest);
      assert toks[1..] == Tokens(rest);
      if pieces[0].Stars? {
        StarTakesAny(toks, s);
        forall i | 0 <= i <= |s| ensures Matches(Tokens(rest), s[i..]) <==> Means(pieces[1..], s[i..]) {
          PatternMeans(pieces[1..], s[i..]);
        }
      } else if s != [] {
        PatternMeans(pieces[1..], s[1..]);
      }
    }
  }

  lemma NoTokens()
    ensures Tokens([]) == []
  {
  }

  // ---- Particular classes. ----

  function Singles(t: bytes): (items: seq<Item>)
    ensures |items| == |t| && forall i :: 0 <= i < |t| ==> items[i] == Item(false, t[i], None)
  {
    seq(|t|, i requires 0 <= i < |t| => Item(false, t[i], None))
  }

  lemma {:induction false} SinglesText(t: bytes)
    ensures ItemsText(Singles(t)) == t
  {
    if t != [] {
      assert Singles(t)[1..] == Singles(t[1..]);
      SinglesText(t[1..]);
    }
  }

  /** `[abc]` accepts its bytes, and `[^abc]` all others. */
  lemma {:induction false} BytesOfClass(t: bytes, negated: bool, rest: bytes, x: byte)
    requires 92 !in t && 93 !in t && 45 !in t && (negated || t == [] || t[0] != 94)
    ensures var c := ClassAt([91] + (if negated then [94] else []) + t + [93] + rest);
      c.Some? && c.value.1 == |t| + (if negated then 3 else 2) && (InClass(c.value.0, x) <==> (x in t) != negated)
  {
    hide ClassAt;
    var m := Members(negated, false, Singles(t), false);
    SinglesText(t);
    assert Inside(m) == t;
    assert ClassText(m) + rest == [91] + (if negated then [94] else []) + t + [93] + rest;
    ClassIsUnion(m, rest, x);
    if x in t {
      var i :| 0 <= i < |t| && t[i] == x;
      assert Takes(m.items[i], x);
    }
  }

  /** An open bracket that nothing closes is itself. */
  lemma {:induction false} NeverClosed(p: bytes, i: nat, chars: bytes, escaped: bool)
    requires 93 !in p
    ensures ClassScan(p, i, chars, escaped) == None
    decreases |p| - i
  {
    if i < |p| {
      assert p[i] in p;
      if escaped {
        NeverClosed(p, i + 1, chars + [p[i]], false);
      } else if p[i] == BACKSLASH {
        NeverClosed(p, i + 1, chars, true);
      } else if p[i] == DASH && chars != [] && i + 1 < |p| {
        assert p[i + 1] in p;
        NeverClosed(p, i + 2, chars + RangeTail(chars[|chars| - 1], p[i + 1]), false);
      } else {
        NeverClosed(p, i + 1, chars + [p[i]], false);
      }
    }
  }

  lemma OpenAlone(rest: bytes)
    requires 93 !in rest
    ensures Tokens([91] + rest) == [Lit(91)] + Tokens(rest)
  {
    var p := [91] + rest;
    assert p[1..] == rest;
    NeverClosed(p, 1, [], false);
    NeverClosed(p, 2, [], false);
  }

  /** A backslash at the very end stands for itself. */
  lemma BackslashAtEnd()
    ensures Tokens([92]) == [Lit(92)]
  {
    assert [92][1..] == [];
  }
}
