/**
 Subscription patterns: how a pattern text splits into tokens, what the tokens mean, and
 the reading the trie search gives them.
 */
module Pattern {
  import opened Bytes
  import Glob

  const OPEN: byte := 91
  const CLOSE: byte := 93
  const CARET: byte := 94
  const DASH: byte := 45
  const BACKSLASH: byte := 92

  datatype CharClass = CharClass(chars: bytes, negated: bool)

  datatype Token = Lit(b: byte) | AnyByte | Star | Class(members: CharClass)

  predicate InClass(c: CharClass, b: byte) {
    (b in c.chars) != c.negated
  }

  // ---------------------------------------------------------------- character classes

  /** `lo..=hi` on bytes. */
  function Span(lo: byte, hi: byte): (r: bytes)
    ensures forall b: byte :: b in r <==> lo <= b <= hi
    decreases hi - lo
  {
    if lo > hi then [] else if lo == hi then [lo] else [lo] + Span(lo + 1, hi)
  }

  /** The bytes a range adds: everything after its start (wrapping at 255) up to its end. */
  function RangeTail(start: byte, end: byte): bytes {
    Span((start + 1) % 256, end)
  }

  function ClassScan(p: bytes, i: nat, chars: bytes, escaped: bool): (r: Option<(bytes, nat)>)
    ensures r.Some? ==> i < r.value.1 <= |p|
    decreases |p| - i
  {
    if i >= |p| then None
    else if escaped then ClassScan(p, i + 1, chars + [p[i]], false)
    else if p[i] == BACKSLASH then ClassScan(p, i + 1, chars, true)
    else if p[i] == CLOSE then Some((chars, i + 1))
    else if p[i] == DASH && chars != [] && i + 1 < |p| && p[i + 1] != CLOSE then
      ClassScan(p, i + 2, chars + RangeTail(chars[|chars| - 1], p[i + 1]), false)
    else ClassScan(p, i + 1, chars + [p[i]], false)
  }

  /** The class at the start of `p` and its length; `None` when it is never closed. */
  function ClassAt(p: bytes): (r: Option<(CharClass, nat)>)
    requires p != [] && p[0] == OPEN
    ensures r.Some? ==> 1 < r.value.1 <= |p|
  {
    var negated := 1 < |p| && p[1] == CARET;
    match ClassScan(p, if negated then 2 else 1, [], false)
    case None => None
    case Some((chars, next)) => Some((CharClass(chars, negated), next))
  }

  method ParseCharClass(p: bytes) returns (r: Option<(CharClass, nat)>)
    ensures r == if p == [] || p[0] != OPEN then None else ClassAt(p)
  {
    if p == [] || p[0] != OPEN {
      return None;
    }
    var i := 1;
    var negated := 1 < |p| && p[1] == CARET;
    if negated {
      i := 2;
    }
    var chars, escaped := [], false;
    ghost var whole := ClassScan(p, i, [], false);
    while i < |p|
      invariant 0 <= i
      invariant ClassScan(p, i, chars, escaped) == whole
      decreases |p| - i
    {
      if escaped {
        chars := chars + [p[i]];
        escaped := false;
      } else if p[i] == BACKSLASH {
        escaped := true;
      } else if p[i] == CLOSE {
        return Some((CharClass(chars, negated), i + 1));
      } else if p[i] == DASH && chars != [] && i + 1 < |p| && p[i + 1] != CLOSE {
        var start, end := chars[|chars| - 1], p[i + 1];
        chars := chars + RangeTail(start, end);
        i := i + 1;
      } else {
        chars := chars + [p[i]];
      }
      i := i + 1;
    }
    return None;
  }

  /** `[lo-hi]` is the interval and `[^lo-hi]` its complement. */
  lemma SimpleRange(lo: byte, hi: byte, negated: bool, b: byte)
    requires lo <= hi && lo < 255
    requires lo !in [BACKSLASH, CLOSE, CARET] && hi != CLOSE
    ensures var p := [OPEN] + (if negated then [CARET] else []) + [lo, DASH, hi, CLOSE];
            ClassAt(p).Some? && ClassAt(p).value.1 == |p|
            && (InClass(ClassAt(p).value.0, b) <==> (lo <= b <= hi) != negated)
  {
    var p := [OPEN] + (if negated then [CARET] else []) + [lo, DASH, hi, CLOSE];
    var i := if negated then 2 else 1;
    assert p[i] == lo && p[i + 1] == DASH && p[i + 2] == hi && p[i + 3] == CLOSE;
    assert [] + [lo] == [lo];
    var chars := [lo] + RangeTail(lo, hi);
    assert ClassScan(p, i, [], false) == ClassScan(p, i + 1, [lo], false);
    assert ClassScan(p, i + 1, [lo], false) == ClassScan(p, i + 3, chars, false);
    assert ClassScan(p, i + 3, chars, false) == Some((chars, |p|));
  }

  // ---------------------------------------------------------------- tokens

  function NextToken(p: bytes): (r: (Token, nat))
    requires p != []
    ensures 1 <= r.1 <= |p|
  {
    if p[0] == Glob.STAR then (Star, 1)
    else if p[0] == Glob.QUESTION then (AnyByte, 1)
    else if p[0] == OPEN then
      match ClassAt(p)
      case Some((members, next)) => (Class(members), next)
      case None => (Lit(OPEN), 1)
    else if p[0] == BACKSLASH && 1 < |p| then (Lit(p[1]), 2)
    else (Lit(p[0]), 1)
  }

  function Tokens(p: bytes): seq<Token> {
    if p == [] then []
    else
      var (tok, n) := NextToken(p);
      [tok] + Tokens(p[n..])
  }

  /** One byte against one token other than a star. */
  predicate Fits(tok: Token, b: byte) {
    match tok
    case Lit(c) => b == c
    case AnyByte => true
    case Star => false
    case Class(members) => InClass(members, b)
  }

  /** The declarative reading of a token list. */
  predicate Matches(toks: seq<Token>, s: bytes)
    decreases |toks| + |s|
  {
    if toks == [] then s == []
    else if toks[0].Star? then Matches(toks[1..], s) || (s != [] && Matches(toks, s[1..]))
    else s != [] && Fits(toks[0], s[0]) && Matches(toks[1..], s[1..])
  }

  /** On patterns without classes and escapes this is the `*`/`?` relation of `Glob`. */
  lemma {:induction false} PlainTokens(p: bytes, s: bytes)
    requires OPEN !in p && BACKSLASH !in p
    ensures Matches(Tokens(p), s) <==> Glob.Matches(p, s)
    decreases |p| + |s|
  {
    if p != [] {
      assert p[0] in p && forall b :: b in p[1..] ==> b in p;
      assert Tokens(p)[1..] == Tokens(p[1..]);
      if p[0] == Glob.STAR {
        PlainTokens(p[1..], s);
      }
      if s != [] {
        if p[0] == Glob.STAR {
          PlainTokens(p, s[1..]);
        } else {
          PlainTokens(p[1..], s[1..]);
        }
      }
    }
  }

  // ---------------------------------------------------------------- the reading of the trie search

  /**
   In how many ways the search reaches the end of a token list. At the end of the channel
   it looks one star further and no deeper.
   */
  function Ways(toks: seq<Token>, s: bytes): nat
    decreases |toks|, 0
  {
    if s == [] then (if toks == [] || toks == [Star] then 1 else 0)
    else if toks == [] then 0
    else if toks[0].Star? then WaysAfterStar(toks[1..], s)
    else if Fits(toks[0], s[0]) then Ways(toks[1..], s[1..])
    else 0
  }

  /** The star may take any number of bytes, none and all included. */
  function WaysAfterStar(toks: seq<Token>, s: bytes): nat
    decreases |toks|, |s| + 1
  {
    Ways(toks, s) + (if s == [] then 0 else WaysAfterStar(toks, s[1..]))
  }

  predicate AllStars(toks: seq<Token>) {
    forall i :: 0 <= i < |toks| ==> toks[i].Star?
  }

  /** Two or more closing stars count as one star and one obligatory byte. */
  function Canon(toks: seq<Token>): seq<Token> {
    if |toks| >= 2 && AllStars(toks) then [Star, AnyByte]
    else if toks == [] then []
    else [toks[0]] + Canon(toks[1..])
  }

  ghost predicate EndsInTwoStars(toks: seq<Token>) {
    |toks| >= 2 && toks[|toks| - 1].Star? && toks[|toks| - 2].Star?
  }

  lemma {:induction false} CanonChanges(toks: seq<Token>)
    ensures Canon(toks) != toks <==> EndsInTwoStars(toks)
  {
    if |toks| >= 2 && AllStars(toks) {
    } else if toks != [] {
      CanonChanges(toks[1..]);
      assert toks == [toks[0]] + toks[1..];
      if |toks| == 2 {
        assert !toks[0].Star? || !toks[1].Star?;
      }
    }
  }

  lemma {:induction false} StarTakesAll(toks: seq<Token>, s: bytes)
    requires toks == [Star, AnyByte] || toks == [Star, Star, AnyByte] || toks == [Star] || toks == [Star, Star]
    requires s != [] || AllStars(toks)
    ensures Matches(toks, s)
    decreases |toks| + |s|
  {
    if s == [] || toks[1..] == [Star] || toks[1..] == [Star, AnyByte] {
      if toks == [Star] {
        assert Matches(toks[1..], s);
      } else {
        StarTakesAll(toks[1..], s);
      }
    } else if |s| == 1 && toks == [Star, AnyByte] {
      assert Matches(toks[1..][1..], s[1..]);
      assert Matches(toks[1..], s);
    } else {
      StarTakesAll(toks, s[1..]);
    }
  }

  lemma {:induction false} OnlyStarsMatchEmpty(toks: seq<Token>)
    ensures Matches(toks, []) <==> AllStars(toks)
  {
    if toks != [] {
      OnlyStarsMatchEmpty(toks[1..]);
      if toks[0].Star? && AllStars(toks[1..]) {
        forall i | 0 <= i < |toks|
          ensures toks[i].Star?
        {
          assert i > 0 ==> toks[1..][i - 1].Star?;
        }
      }
    }
  }

  /** The search succeeds exactly on the declarative matches of the canonical tokens. */
  lemma {:induction false} WaysExact(toks: seq<Token>, s: bytes)
    ensures Ways(toks, s) > 0 <==> Matches(Canon(toks), s)
    decreases |toks|, 0
  {
    if s == [] {
      OnlyStarsMatchEmpty(Canon(toks));
      CanonAllStars(toks);
    } else if toks != [] {
      if toks[0].Star? {
        WaysAfterStarExact(toks[1..], s);
        if AllStars(toks) {
          assert toks[1..] == [] || toks[1..] == [Star] || Canon(toks[1..]) == [Star, AnyByte];
          StarTakesAll([Star] + Canon(toks[1..]), s);
          StarTakesAll(Canon(toks), s);
        }
      } else {
        WaysExact(toks[1..], s[1..]);
      }
      assert ([toks[0]] + Canon(toks[1..]))[1..] == Canon(toks[1..]);
    }
  }

  lemma {:induction false} WaysAfterStarExact(toks: seq<Token>, s: bytes)
    ensures WaysAfterStar(toks, s) > 0 <==> Matches([Star] + Canon(toks), s)
    decreases |toks|, |s| + 1
  {
    assert ([Star] + Canon(toks))[1..] == Canon(toks);
    WaysExact(toks, s);
    if s != [] {
      WaysAfterStarExact(toks, s[1..]);
    }
  }

  lemma {:induction false} CanonAllStars(toks: seq<Token>)
    ensures AllStars(Canon(toks)) <==> toks == [] || toks == [Star]
  {
    if |toks| >= 2 && AllStars(toks) {
      assert !Canon(toks)[1].Star?;
    } else if toks != [] {
      CanonAllStars(toks[1..]);
      if AllStars(Canon(toks)) {
        assert Canon(toks)[1..] == Canon(toks[1..]);
        assert Canon(toks)[0].Star?;
      }
    }
  }

  // ---------------------------------------------------------------- exactly when the search is right

  /** A canonical match always leaves a shorter text that the pattern should match. */
  lemma {:induction false} ShorterMatch(toks: seq<Token>, s: bytes) returns (j: nat)
    requires Canon(toks) != toks && Matches(Canon(toks), s)
    ensures j < |s| && Matches(toks, s[..j])
    decreases |toks| + |s|
  {
    if |toks| >= 2 && AllStars(toks) {
      OnlyStarsMatchEmpty(Canon(toks));
      assert !Canon(toks)[1].Star?;
      OnlyStarsMatchEmpty(toks);
      j := 0;
    } else {
      var c := Canon(toks[1..]);
      assert Canon(toks)[1..] == c && toks == [toks[0]] + toks[1..];
      if toks[0].Star? && Matches(c, s) {
        j := ShorterMatch(toks[1..], s);
      } else if toks[0].Star? {
        var k := ShorterMatch(toks, s[1..]);
        j := k + 1;
        assert s[..j][1..] == s[1..][..k];
      } else {
        var k := ShorterMatch(toks[1..], s[1..]);
        j := k + 1;
        assert s[..j][1..] == s[1..][..k];
      }
    }
  }

  /** A text the pattern matches and the search misses. */
  lemma {:induction false} MissedText(toks: seq<Token>, s: bytes) returns (missed: bytes)
    requires Canon(toks) != toks && Matches(toks, s)
    ensures Matches(toks, missed) && Ways(toks, missed) == 0
    decreases |s|
  {
    WaysExact(toks, s);
    if Ways(toks, s) == 0 {
      missed := s;
    } else {
      var j := ShorterMatch(toks, s);
      missed := MissedText(toks, s[..j]);
    }
  }

  /** The search never reports a pattern that does not match. */
  lemma WaysSound(toks: seq<Token>, s: bytes)
    requires Ways(toks, s) > 0
    ensures Matches(toks, s)
  {
    WaysExact(toks, s);
    CanonSound(toks, s);
  }

  lemma {:induction false} CanonSound(toks: seq<Token>, s: bytes)
    requires Matches(Canon(toks), s)
    ensures Matches(toks, s)
    decreases |toks| + |s|
  {
    if |toks| >= 2 && AllStars(toks) {
      StarsMatchAll(toks, s);
    } else if toks != [] {
      var c := Canon(toks[1..]);
      assert Canon(toks)[1..] == c;
      if !toks[0].Star? {
        CanonSound(toks[1..], s[1..]);
      } else if Matches(c, s) {
        CanonSound(toks[1..], s);
      } else {
        CanonSound(toks, s[1..]);
      }
    }
  }

  lemma {:induction false} StarsMatchAll(toks: seq<Token>, s: bytes)
    requires toks != [] && AllStars(toks)
    ensures Matches(toks, s)
    decreases |s|
  {
    if s == [] {
      OnlyStarsMatchEmpty(toks);
    } else {
      StarsMatchAll(toks, s[1..]);
    }
  }

  /**
   The search agrees with the declarative reading on every channel exactly for the patterns
   that do not end in two stars, or that match no channel at all.
   */
  lemma SearchExact(toks: seq<Token>)
    ensures (forall s :: (Ways(toks, s) > 0) == Matches(toks, s))
            <==> !EndsInTwoStars(toks) || (forall s :: !Matches(toks, s))
  {
    CanonChanges(toks);
    forall s
      ensures Ways(toks, s) > 0 ==> Matches(toks, s)
      ensures Ways(toks, s) > 0 <==> Matches(Canon(toks), s)
    {
      WaysExact(toks, s);
      if Ways(toks, s) > 0 {
        WaysSound(toks, s);
      }
    }
    if EndsInTwoStars(toks) && exists s :: Matches(toks, s) {
      var s :| Matches(toks, s);
      var missed := MissedText(toks, s);
    }
  }

  /** The pattern `a**` is not reported for the channel `a`. */
  lemma TwoStarsMissed()
    ensures var toks := Tokens([97, Glob.STAR, Glob.STAR]);
            Matches(toks, [97]) && Ways(toks, [97]) == 0
  {
    var p: bytes := [97, Glob.STAR, Glob.STAR];
    assert p[1..] == [Glob.STAR, Glob.STAR] && p[1..][1..] == [Glob.STAR] && [Glob.STAR][1..] == [];
    var toks := Tokens(p);
    assert Tokens([Glob.STAR]) == [Star] + Tokens([]);
    assert Tokens(p[1..]) == [Star] + Tokens([Glob.STAR]) == [Star, Star];
    assert toks == [Lit(97)] + Tokens(p[1..]) == [Lit(97), Star, Star];
    assert toks[1..] == [Star, Star] && [97][1..] == [];
    OnlyStarsMatchEmpty(toks[1..]);
  }

  // ---------------------------------------------------------------- duplicates

  ghost predicate NoStar(toks: seq<Token>) {
    forall i :: 0 <= i < |toks| ==> !toks[i].Star?
  }

  ghost predicate AtMostOneStar(toks: seq<Token>) {
    forall i, j :: 0 <= i < j < |toks| ==> !(toks[i].Star? && toks[j].Star?)
  }

  lemma {:induction false} StarFreeLength(toks: seq<Token>, s: bytes)
    requires NoStar(toks)
    ensures Ways(toks, s) <= 1
    ensures Ways(toks, s) > 0 ==> |s| == |toks|
  {
    if s == [] {
      assert toks != [] ==> !toks[0].Star?;
    } else if toks != [] {
      StarFreeLength(toks[1..], s[1..]);
    }
  }

  lemma {:induction false} OneWayAfterStar(toks: seq<Token>, s: bytes)
    requires NoStar(toks)
    ensures WaysAfterStar(toks, s) <= 1
    ensures WaysAfterStar(toks, s) > 0 ==> |toks| <= |s|
    decreases |s|
  {
    StarFreeLength(toks, s);
    if s != [] {
      OneWayAfterStar(toks, s[1..]);
    }
  }

  /** A pattern with at most one star is found at most once. */
  lemma {:induction false} OneWay(toks: seq<Token>, s: bytes)
    requires AtMostOneStar(toks)
    ensures Ways(toks, s) <= 1
  {
    if s != [] && toks != [] {
      if toks[0].Star? {
        assert NoStar(toks[1..]);
        OneWayAfterStar(toks[1..], s);
      } else {
        OneWay(toks[1..], s[1..]);
      }
    }
  }

  // ---------------------------------------------------------------- equal classes

  ghost predicate SameClass(c: CharClass, d: CharClass) {
    forall b: byte :: InClass(c, b) == InClass(d, b)
  }

  /** Tokens that read the same bytes. */
  ghost predicate SameToken(a: Token, b: Token) {
    a == b || (a.Class? && b.Class? && SameClass(a.members, b.members))
  }

  ghost predicate SameTokens(a: seq<Token>, b: seq<Token>) {
    |a| == |b| && forall i :: 0 <= i < |a| ==> SameToken(a[i], b[i])
  }

  lemma {:induction false} WaysSame(a: seq<Token>, b: seq<Token>, s: bytes)
    requires SameTokens(a, b)
    ensures Ways(a, s) == Ways(b, s)
    decreases |a|, 0
  {
    if s != [] && a != [] {
      assert SameToken(a[0], b[0]) && SameTokens(a[1..], b[1..]);
      if a[0].Star? {
        WaysAfterStarSame(a[1..], b[1..], s);
      } else {
        WaysSame(a[1..], b[1..], s[1..]);
      }
    } else if s == [] && |a| == 1 {
      assert SameToken(a[0], b[0]);
    }
  }

  lemma {:induction false} WaysAfterStarSame(a: seq<Token>, b: seq<Token>, s: bytes)
    requires SameTokens(a, b)
    ensures WaysAfterStar(a, s) == WaysAfterStar(b, s)
    decreases |a|, |s| + 1
  {
    WaysSame(a, b, s);
    if s != [] {
      WaysAfterStarSame(a, b, s[1..]);
    }
  }
}
