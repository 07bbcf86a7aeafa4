/**
 Glob matching with `*` and `?`: one declarative relation, and the two greedy
 backtracking loops of the server measured against it.
 */
module Glob {
  import opened Bytes

  const STAR: byte := 42
  const QUESTION: byte := 63

  /** `*` stands for any run of bytes, `?` for one byte, everything else for itself. */
  predicate Matches(p: bytes, t: bytes)
    decreases |p| + |t|
  {
    if p == [] then t == []
    else if p[0] == STAR then Matches(p[1..], t) || (t != [] && Matches(p, t[1..]))
    else t != [] && (p[0] == QUESTION || p[0] == t[0]) && Matches(p[1..], t[1..])
  }

  ghost predicate StarFree(s: bytes) {
    STAR !in s
  }

  /** A star-free piece of pattern consumes exactly its own length. */
  lemma {:induction false} PieceConsumes(piece: bytes, q: bytes, t: bytes)
    requires StarFree(piece) && Matches(piece + q, t)
    ensures |piece| <= |t| && Matches(q, t[|piece|..])
  {
    if piece == [] {
      assert piece + q == q && t[0..] == t;
    } else {
      assert (piece + q)[0] == piece[0] && (piece + q)[1..] == piece[1..] + q;
      assert piece[0] in piece && forall b :: b in piece[1..] ==> b in piece;
      PieceConsumes(piece[1..], q, t[1..]);
      assert t[1..][|piece| - 1..] == t[|piece|..];
    }
  }

  /**
   The last star suffices: if an earlier star could still match by taking more text, then
   the pattern from the later star on matches what follows the shortest reading.
   */
  lemma {:induction false} LastStarSuffices(piece: bytes, q: bytes, t: bytes)
    requires StarFree(piece) && Matches([STAR] + piece + q, t)
    requires q == [] || q[0] == STAR
    ensures |piece| <= |t|
    ensures q != [] ==> Matches(q, t[|piece|..])
    decreases |t|
  {
    var p := [STAR] + piece + q;
    assert p[1..] == piece + q;
    if Matches(p[1..], t) {
      PieceConsumes(piece, q, t);
    } else {
      LastStarSuffices(piece, q, t[1..]);
      if q != [] {
        assert t[1..][|piece|..] == t[|piece| + 1..] == t[|piece|..][1..];
      }
    }
  }

  // ---------------------------------------------------------------- the loop state

  /** Both loops: pattern index, text index, last star and the text index it was met at. */
  datatype Cursor = Cursor(p: nat, t: nat, star: Option<nat>, mark: nat)

  predicate InRange(pattern: bytes, text: bytes, c: Cursor) {
    c.p <= |pattern| && c.t <= |text| && c.mark <= c.t
    && (c.star.Some? ==> c.star.value < c.p && pattern[c.star.value] == STAR)
  }

  /** Since the last star only plain pattern bytes have been matched, one for one. */
  ghost predicate Straight(pattern: bytes, text: bytes, c: Cursor) {
    InRange(pattern, text, c)
    && (c.star.Some? ==> c.p - c.star.value - 1 == c.t - c.mark && StarFree(pattern[c.star.value + 1..c.p]))
  }

  /** What can still be found: match on from here, or let the last star take more text. */
  ghost predicate Open(pattern: bytes, text: bytes, c: Cursor)
    requires InRange(pattern, text, c)
  {
    Matches(pattern[c.p..], text[c.t..])
    || (c.star.Some? && c.mark < |text| && Matches(pattern[c.star.value..], text[c.mark + 1..]))
  }

  lemma NewStar(pattern: bytes, text: bytes, c: Cursor)
    requires Straight(pattern, text, c) && c.p < |pattern| && pattern[c.p] == STAR
    ensures var d := Cursor(c.p + 1, c.t, Some(c.p), c.t);
            Straight(pattern, text, d) && Open(pattern, text, d) == Open(pattern, text, c)
  {
    var q := pattern[c.p..];
    if c.star.Some? && c.mark < |text| && Matches(pattern[c.star.value..], text[c.mark + 1..]) {
      var piece := pattern[c.star.value + 1..c.p];
      assert pattern[c.star.value..] == [STAR] + piece + q;
      LastStarSuffices(piece, q, text[c.mark + 1..]);
      assert text[c.mark + 1..][|piece|..] == text[c.t + 1..] == text[c.t..][1..];
    }
    if c.t < |text| {
      assert text[c.t..][1..] == text[c.t + 1..];
    }
    assert q[1..] == pattern[c.p + 1..];
  }

  lemma Advance(pattern: bytes, text: bytes, c: Cursor)
    requires Straight(pattern, text, c) && c.p < |pattern| && c.t < |text|
    requires pattern[c.p] != STAR && (pattern[c.p] == QUESTION || pattern[c.p] == text[c.t])
    ensures var d := c.(p := c.p + 1, t := c.t + 1);
            Straight(pattern, text, d) && Open(pattern, text, d) == Open(pattern, text, c)
  {
    assert pattern[c.p..][1..] == pattern[c.p + 1..] && text[c.t..][1..] == text[c.t + 1..];
    if c.star.Some? {
      assert pattern[c.star.value + 1..c.p + 1] == pattern[c.star.value + 1..c.p] + [pattern[c.p]];
    }
  }

  /** Nothing matches at this point: only a last star can help. */
  predicate Stuck(pattern: bytes, text: bytes, c: Cursor)
    requires InRange(pattern, text, c)
  {
    c.t < |text|
    && (c.p == |pattern| || (pattern[c.p] != STAR && pattern[c.p] != QUESTION && pattern[c.p] != text[c.t]))
  }

  lemma Retry(pattern: bytes, text: bytes, c: Cursor)
    requires InRange(pattern, text, c) && Stuck(pattern, text, c)
    ensures c.star.None? ==> !Open(pattern, text, c)
    ensures c.star.Some? ==>
              var d := Cursor(c.star.value + 1, c.mark + 1, c.star, c.mark + 1);
              Straight(pattern, text, d) && Open(pattern, text, d) == Open(pattern, text, c)
  {
    if c.star.Some? {
      var s := c.star.value;
      assert pattern[s..][1..] == pattern[s + 1..];
      if c.mark + 1 < |text| {
        assert text[c.mark + 1..][1..] == text[c.mark + 2..];
      }
      assert pattern[s + 1..s + 1] == [];
    }
  }

  lemma {:induction false} OnlyStarsLeft(p: bytes)
    ensures Matches(p, []) <==> forall i :: 0 <= i < |p| ==> p[i] == STAR
  {
    if p != [] {
      OnlyStarsLeft(p[1..]);
      if p[0] == STAR && Matches(p[1..], []) {
        forall i | 0 <= i < |p|
          ensures p[i] == STAR
        {
          assert i > 0 ==> p[1..][i - 1] == STAR;
        }
      }
    }
  }

  lemma TextDone(pattern: bytes, text: bytes, c: Cursor)
    requires Straight(pattern, text, c) && c.t == |text|
    ensures Open(pattern, text, c) == Matches(pattern[c.p..], [])
  {
    assert text[c.t..] == [];
    if c.star.Some? && c.mark < |text| && Matches(pattern[c.star.value..], text[c.mark + 1..]) {
      var piece := pattern[c.star.value + 1..c.p];
      assert pattern[c.star.value..] == [STAR] + piece + pattern[c.p..];
      TooShort(piece, pattern[c.p..], text[c.mark + 1..]);
    }
  }

  /** A star and a star-free piece need at least the piece's length of text. */
  lemma {:induction false} TooShort(piece: bytes, q: bytes, t: bytes)
    requires StarFree(piece) && Matches([STAR] + piece + q, t)
    ensures |piece| <= |t|
    decreases |t|
  {
    assert ([STAR] + piece + q)[1..] == piece + q;
    if Matches(piece + q, t) {
      PieceConsumes(piece, q, t);
    } else {
      TooShort(piece, q, t[1..]);
    }
  }

  // ---------------------------------------------------------------- KEYS and SCAN

  /** The executor's loop decides the relation on every pattern and text. */
  method ExecutorMatch(pattern: bytes, text: bytes) returns (r: bool)
    ensures r == Matches(pattern, text)
  {
    hide Matches;
    var p: nat, t: nat, star: Option<nat>, mark: nat := 0, 0, None, 0;
    while t < |text|
      invariant Straight(pattern, text, Cursor(p, t, star, mark))
      invariant Open(pattern, text, Cursor(p, t, star, mark)) == Matches(pattern, text)
      decreases |pattern| - (if star.Some? then star.value else -1), |text| - mark, |pattern| - p
    {
      ghost var c := Cursor(p, t, star, mark);
      if p < |pattern| {
        if pattern[p] == STAR {
          NewStar(pattern, text, c);
          star, mark, p := Some(p), t, p + 1;
        } else if pattern[p] == QUESTION {
          Advance(pattern, text, c);
          p, t := p + 1, t + 1;
        } else if pattern[p] == text[t] {
          Advance(pattern, text, c);
          p, t := p + 1, t + 1;
        } else if star.Some? {
          Retry(pattern, text, c);
          p, mark := star.value + 1, mark + 1;
          t := mark;
        } else {
          Retry(pattern, text, c);
          return false;
        }
      } else if star.Some? {
        Retry(pattern, text, c);
        p, mark := star.value + 1, mark + 1;
        t := mark;
      } else {
        Retry(pattern, text, c);
        return false;
      }
    }
    TextDone(pattern, text, Cursor(p, t, star, mark));
    r := SkipStars(pattern, p);
  }

  /** The loop after the loop: only stars may be left over. */
  method SkipStars(pattern: bytes, from: nat) returns (r: bool)
    requires from <= |pattern|
    ensures r == Matches(pattern[from..], [])
  {
    OnlyStarsLeft(pattern[from..]);
    var p := from;
    while p < |pattern| && pattern[p] == STAR
      invariant from <= p <= |pattern|
      invariant forall i :: from <= i < p ==> pattern[i] == STAR
    {
      p := p + 1;
    }
    assert p < |pattern| ==> pattern[from..][p - from] != STAR;
    return p == |pattern|;
  }

  // ---------------------------------------------------------------- PUBLISH and PUBSUB CHANNELS

  /** The registry's loop: it compares bytes before it looks for a star. */
  predicate RegistryRun(pattern: bytes, text: bytes, c: Cursor)
    requires InRange(pattern, text, c)
    decreases |pattern| - (if c.star.Some? then c.star.value else -1), |text| - c.mark, |pattern| - c.p
  {
    if c.t == |text| then Matches(pattern[c.p..], [])
    else if c.p < |pattern| && (pattern[c.p] == text[c.t] || pattern[c.p] == QUESTION) then
      RegistryRun(pattern, text, c.(p := c.p + 1, t := c.t + 1))
    else if c.p < |pattern| && pattern[c.p] == STAR then
      RegistryRun(pattern, text, Cursor(c.p + 1, c.t, Some(c.p), c.t))
    else if c.star.Some? then
      RegistryRun(pattern, text, Cursor(c.star.value + 1, c.mark + 1, c.star, c.mark + 1))
    else false
  }

  predicate RegistryMatches(pattern: bytes, text: bytes) {
    RegistryRun(pattern, text, Cursor(0, 0, None, 0))
  }

  method RegistryMatch(pattern: bytes, text: bytes) returns (r: bool)
    ensures r == RegistryMatches(pattern, text)
    ensures r ==> Matches(pattern, text)
    ensures StarFree(pattern) || StarFree(text) ==> r == Matches(pattern, text)
  {
    RegistrySound(pattern, text);
    if StarFree(pattern) || StarFree(text) {
      RegistryComplete(pattern, text, Cursor(0, 0, None, 0));
    }
    var p: nat, t: nat, star: Option<nat>, mark: nat := 0, 0, None, 0;
    while t < |text|
      invariant InRange(pattern, text, Cursor(p, t, star, mark))
      invariant RegistryRun(pattern, text, Cursor(p, t, star, mark)) == RegistryMatches(pattern, text)
      decreases |pattern| - (if star.Some? then star.value else -1), |text| - mark, |pattern| - p
    {
      if p < |pattern| && (pattern[p] == text[t] || pattern[p] == QUESTION) {
        p, t := p + 1, t + 1;
      } else if p < |pattern| && pattern[p] == STAR {
        star, mark, p := Some(p), t, p + 1;
      } else if star.Some? {
        p, mark := star.value + 1, mark + 1;
        t := mark;
      } else {
        return false;
      }
    }
    r := SkipStars(pattern, p);
  }

  /** Whatever the registry accepts does match. */
  lemma {:induction false} RegistryRunSound(pattern: bytes, text: bytes, c: Cursor)
    requires InRange(pattern, text, c) && RegistryRun(pattern, text, c)
    ensures Open(pattern, text, c)
    decreases |pattern| - (if c.star.Some? then c.star.value else -1), |text| - c.mark, |pattern| - c.p
  {
    if c.t == |text| {
      assert text[c.t..] == [];
    } else if c.p < |pattern| && (pattern[c.p] == text[c.t] || pattern[c.p] == QUESTION) {
      RegistryRunSound(pattern, text, c.(p := c.p + 1, t := c.t + 1));
      assert pattern[c.p..][1..] == pattern[c.p + 1..] && text[c.t..][1..] == text[c.t + 1..];
    } else if c.p < |pattern| && pattern[c.p] == STAR {
      RegistryRunSound(pattern, text, Cursor(c.p + 1, c.t, Some(c.p), c.t));
      assert pattern[c.p..][1..] == pattern[c.p + 1..] && text[c.t..][1..] == text[c.t + 1..];
    } else {
      RegistryRunSound(pattern, text, Cursor(c.star.value + 1, c.mark + 1, c.star, c.mark + 1));
      Retry(pattern, text, c);
    }
  }

  lemma RegistrySound(pattern: bytes, text: bytes)
    ensures RegistryMatches(pattern, text) ==> Matches(pattern, text)
  {
    if RegistryMatches(pattern, text) {
      RegistryRunSound(pattern, text, Cursor(0, 0, None, 0));
    }
  }

  lemma {:induction false} RegistryComplete(pattern: bytes, text: bytes, c: Cursor)
    requires StarFree(pattern) || StarFree(text)
    requires Straight(pattern, text, c)
    ensures RegistryRun(pattern, text, c) == Open(pattern, text, c)
    decreases |pattern| - (if c.star.Some? then c.star.value else -1), |text| - c.mark, |pattern| - c.p
  {
    if c.t == |text| {
      TextDone(pattern, text, c);
    } else if c.p < |pattern| && (pattern[c.p] == text[c.t] || pattern[c.p] == QUESTION) {
      assert pattern[c.p] != STAR by {
        assert pattern[c.p] in pattern && text[c.t] in text;
      }
      Advance(pattern, text, c);
      RegistryComplete(pattern, text, c.(p := c.p + 1, t := c.t + 1));
    } else if c.p < |pattern| && pattern[c.p] == STAR {
      NewStar(pattern, text, c);
      RegistryComplete(pattern, text, Cursor(c.p + 1, c.t, Some(c.p), c.t));
    } else {
      Retry(pattern, text, c);
      if c.star.Some? {
        RegistryComplete(pattern, text, Cursor(c.star.value + 1, c.mark + 1, c.star, c.mark + 1));
      }
    }
  }

  // ---------------------------------------------------------------- exactly which texts are safe

  /** `i` question marks, then a star, and one more question mark when nothing follows. */
  function Fooling(text: bytes, i: nat): bytes
    requires i < |text|
  {
    seq(i, _ => QUESTION) + [STAR] + (if i + 1 == |text| then [QUESTION] else [])
  }

  lemma {:induction false} QuestionsConsume(n: nat, q: bytes, t: bytes)
    requires n <= |t|
    ensures Matches(seq(n, _ => QUESTION) + q, t) == Matches(q, t[n..])
  {
    var p := seq(n, _ => QUESTION) + q;
    if n == 0 {
      assert p == q && t[0..] == t;
    } else {
      assert p[1..] == seq(n - 1, _ => QUESTION) + q;
      QuestionsConsume(n - 1, q, t[1..]);
      assert t[1..][n - 1..] == t[n..];
    }
  }

  lemma {:induction false} AnyTextMatchesStar(t: bytes)
    ensures Matches([STAR], t)
  {
    if t != [] {
      AnyTextMatchesStar(t[1..]);
    }
  }

  lemma {:induction false} QuestionsRun(pattern: bytes, text: bytes, i: nat, k: nat)
    requires k <= i <= |text| && i <= |pattern|
    requires forall j :: 0 <= j < i ==> pattern[j] == QUESTION
    ensures RegistryRun(pattern, text, Cursor(k, k, None, 0)) == RegistryRun(pattern, text, Cursor(i, i, None, 0))
    decreases i - k
  {
    if k < i {
      QuestionsRun(pattern, text, i, k + 1);
    }
  }

  lemma FoolingIsMissed(text: bytes, i: nat)
    requires i < |text| && text[i] == STAR
    ensures Matches(Fooling(text, i), text) && !RegistryMatches(Fooling(text, i), text)
  {
    var pattern := Fooling(text, i);
    var tail := if i + 1 == |text| then [QUESTION] else [];
    assert pattern == seq(i, _ => QUESTION) + ([STAR] + tail);
    QuestionsConsume(i, [STAR] + tail, text);
    if tail == [] {
      assert [STAR] + tail == [STAR];
      AnyTextMatchesStar(text[i..]);
    } else {
      assert ([STAR] + tail)[1..] == [QUESTION] && text[i..][1..] == [];
      assert Matches([QUESTION][1..], text[i..][1..]);
      assert Matches([QUESTION], text[i..]);
    }
    QuestionsRun(pattern, text, i, 0);
    assert pattern[i] == STAR;
  }

  /**
   The registry's matcher agrees with the relation on every pattern exactly for the texts
   that contain no `*` byte.
   */
  lemma RegistryExact(text: bytes)
    ensures (forall pattern :: RegistryMatches(pattern, text) == Matches(pattern, text)) <==> StarFree(text)
  {
    if StarFree(text) {
      forall pattern
        ensures RegistryMatches(pattern, text) == Matches(pattern, text)
      {
        RegistryComplete(pattern, text, Cursor(0, 0, None, 0));
      }
    } else {
      var i :| 0 <= i < |text| && text[i] == STAR;
      FoolingIsMissed(text, i);
    }
  }

  // ---------------------------------------------------------------- patterns without wildcards

  lemma {:induction false} PlainPattern(p: bytes, t: bytes)
    requires STAR !in p && QUESTION !in p
    ensures Matches(p, t) <==> p == t
  {
    if p != [] && t != [] {
      assert p[0] in p && forall b :: b in p[1..] ==> b in p;
      PlainPattern(p[1..], t[1..]);
      assert p == [p[0]] + p[1..] && t == [t[0]] + t[1..];
    } else if p != [] {
      assert p[0] in p;
    }
  }

  /** Every match starts with the wildcard-free prefix of the pattern. */
  lemma {:induction false} MatchStartsWith(prefix: bytes, rest: bytes, t: bytes)
    requires STAR !in prefix && QUESTION !in prefix && Matches(prefix + rest, t)
    ensures prefix <= t
  {
    if prefix != [] {
      assert (prefix + rest)[1..] == prefix[1..] + rest;
      assert prefix[0] in prefix && forall b :: b in prefix[1..] ==> b in prefix;
      MatchStartsWith(prefix[1..], rest, t[1..]);
      assert t == [t[0]] + t[1..] && prefix == [prefix[0]] + prefix[1..];
    }
  }

  // ---------------------------------------------------------------- what a glob stands for

  /** `*` takes any part of the text, `?` one byte, and every other byte itself. */
  predicate Means(p: bytes, t: bytes)
    decreases |p|
  {
    if p == [] then t == []
    else if p[0] == 42 then exists i :: 0 <= i <= |t| && Means(p[1..], t[i..])
    else t != [] && (p[0] == 63 || p[0] == t[0]) && Means(p[1..], t[1..])
  }

  lemma {:induction false} StarMeansAny(p: bytes, t: bytes)
    requires p != [] && p[0] == 42
    ensures Matches(p, t) <==> exists i :: 0 <= i <= |t| && Matches(p[1..], t[i..])
    decreases |t|
  {
    assert t[0..] == t;
    if t != [] {
      StarMeansAny(p, t[1..]);
      if i :| 0 <= i <= |t[1..]| && Matches(p[1..], t[1..][i..]) {
        assert t[1..][i..] == t[i + 1..];
      }
      if i :| 0 <= i <= |t| && Matches(p[1..], t[i..]) {
        if i > 0 {
          assert t[1..][i - 1..] == t[i..];
        }
      }
    }
  }

  lemma {:induction false} MatchesMeans(p: bytes, t: bytes)
    ensures Matches(p, t) <==> Means(p, t)
    decreases |p|
  {
    if p != [] {
      if p[0] == 42 {
        StarMeansAny(p, t);
        forall i | 0 <= i <= |t| ensures Matches(p[1..], t[i..]) <==> Means(p[1..], t[i..]) {
          MatchesMeans(p[1..], t[i..]);
        }
      } else if t != [] {
        MatchesMeans(p[1..], t[1..]);
      }
    }
  }
}
