/**
 Exactly when the trie search is right for a live pattern, over every history. A node keeps the
 first class ever asked for at its path, so a pattern is read with those classes.
 */
module TrieExact {
  import opened Bytes
  import opened Pattern
  import opened PatternTrie
  import opened TrieHistory
  import opened ShortTexts

  /** The pattern as the trie reads it: every class replaced by the first one asked for there. */
  ghost function ReadAs(ops: seq<Op>, e: Entry, k: nat): seq<Token>
    requires k <= |Home(e)|
    decreases |Home(e)| - k
  {
    if k == |Home(e)| then []
    else
      var first := FirstAsked(ops, Home(e)[..k]);
      var tok := match Home(e)[k]
        case LitEdge(b) => Lit(b)
        case AnyEdge => AnyByte
        case StarEdge => Star
        case ClassEdge => Class(if first.Some? then first.value else CharClass([], false));
      [tok] + ReadAs(ops, e, k + 1)
  }

  lemma {:induction false} ReadingIsReadAs(ops: seq<Op>, e: Entry, k: nat)
    requires k <= |Home(e)|
    ensures Reading(Run(ops), Home(e), k) == ReadAs(ops, e, k)
    decreases |Home(e)| - k
  {
    hide Run, Home;
    if k < |Home(e)| {
      ReadingIsReadAs(ops, e, k + 1);
      SlotIsFirstAsked(ops, Home(e)[..k]);
    }
  }

  /** At every class of the pattern the first class asked for there accepts the same bytes. */
  ghost predicate ClassesAsFirstAsked(ops: seq<Op>, e: Entry) {
    var toks := Tokens(e.pattern);
    |toks| == |Home(e)|
    && forall k :: 0 <= k < |toks| && toks[k].Class? ==>
      var first := FirstAsked(ops, Home(e)[..k]);
      first.Some? && SameClass(first.value, toks[k].members)
  }

  lemma {:induction false} ReadAsAt(ops: seq<Op>, e: Entry, k: nat, i: nat)
    requires k <= |Home(e)|
    ensures |ReadAs(ops, e, k)| == |Home(e)| - k
    ensures k <= i < |Home(e)| ==> ReadAs(ops, e, k)[i - k] == ReadAs(ops, e, i)[0]
    decreases |Home(e)| - k
  {
    hide Home, FirstAsked;
    if k < |Home(e)| {
      ReadAsAt(ops, e, k + 1, i);
    }
  }

  lemma ReadAsShape(ops: seq<Op>, e: Entry)
    ensures |Home(e)| == |Tokens(e.pattern)| && SameShape(ReadAs(ops, e, 0), Tokens(e.pattern))
    ensures forall i :: 0 <= i < |Home(e)| && !Tokens(e.pattern)[i].Class? ==>
      ReadAs(ops, e, 0)[i] == Tokens(e.pattern)[i]
    ensures forall i :: 0 <= i < |Home(e)| && Tokens(e.pattern)[i].Class? ==>
      var first := FirstAsked(ops, Home(e)[..i]);
      ReadAs(ops, e, 0)[i] == Class(if first.Some? then first.value else CharClass([], false))
  {
    hide FirstAsked, Tokens;
    var toks := Tokens(e.pattern);
    PathOfIndex(toks);
    ReadAsAt(ops, e, 0, 0);
    forall i | 0 <= i < |Home(e)|
      ensures ReadAs(ops, e, 0)[i] == ReadAs(ops, e, i)[0] && Home(e)[i] == EdgeOf(toks[i])
    {
      ReadAsAt(ops, e, 0, i);
    }
  }

  /** For a live pattern every class position has been asked for, by the pattern itself if by nobody before. */
  lemma LiveIsAsked(ops: seq<Op>, e: Entry, k: nat)
    requires Live(ops, e) > 0 && k < |Home(e)| && Home(e)[k] == ClassEdge
    ensures FirstAsked(ops, Home(e)[..k]).Some?
  {
    LiveSlot(ops, e, k);
    SlotIsFirstAsked(ops, Home(e)[..k]);
  }

  lemma SameFitsIff(ops: seq<Op>, e: Entry)
    requires Live(ops, e) > 0
    ensures |ReadAs(ops, e, 0)| == |Tokens(e.pattern)|
    ensures SameFits(ReadAs(ops, e, 0), Tokens(e.pattern)) <==> ClassesAsFirstAsked(ops, e)
  {
    hide Live, Run, FirstAsked, ReadAs, Tokens;
    var toks, read := Tokens(e.pattern), ReadAs(ops, e, 0);
    ReadAsShape(ops, e);
    PathOfIndex(toks);
    forall k | 0 <= k < |toks| && toks[k].Class? ensures FirstAsked(ops, Home(e)[..k]).Some? {
      LiveIsAsked(ops, e, k);
    }
    if SameFits(read, toks) {
      forall k | 0 <= k < |toks| && toks[k].Class?
        ensures SameClass(FirstAsked(ops, Home(e)[..k]).value, toks[k].members)
      {
        forall b: byte ensures InClass(read[k].members, b) == InClass(toks[k].members, b) {
          assert Fits(read[k], b) == Fits(toks[k], b);
        }
      }
    }
  }

  /** A live pattern is found exactly for the channels that its canonical reading matches. */
  lemma FoundIff(ops: seq<Op>, e: Entry, s: bytes)
    requires Live(ops, e) > 0
    ensures e in Find(Run(ops), [], s) <==> Matches(Canon(ReadAs(ops, e, 0)), s)
  {
    hide Find, Run, Live, Ways, Matches, Canon, ReadAs, Reading, Copies;
    SearchCounts(Run(ops), e, s);
    CopiesAreLive(ops, e);
    ReadingIsReadAs(ops, e, 0);
    WaysExact(ReadAs(ops, e, 0), s);
    Product(Ways(ReadAs(ops, e, 0), s), Live(ops, e));
  }

  /** The shortest text of a list that ends in two stars is too short for the search. */
  lemma DoubledStarDiffers(read: seq<Token>, toks: seq<Token>)
    requires SameShape(read, toks) && EndsInTwoStars(read) && Satisfiable(toks)
    ensures !SameTexts(Canon(read), toks)
  {
    CanonLength(read);
    SameShapeLength(read, toks);
    var s: bytes := ShortestText(toks);
    assert !Matches(Canon(read), s) by {
      if Matches(Canon(read), s) {
        MatchesNeedsLength(Canon(read), s);
      }
    }
  }

  /** A search for `read` against what `toks` means, for lists of one shape. */
  lemma CanonSameTexts(read: seq<Token>, toks: seq<Token>)
    requires SameShape(read, toks)
    ensures SameTexts(Canon(read), toks)
            <==> (SameFits(read, toks) && !EndsInTwoStars(toks)) || (MatchesNothing(read) && MatchesNothing(toks))
  {
    hide Canon, Satisfiable, SameFits;
    CanonChanges(read);
    CanonSatisfiable(read);
    MatchesNothingIff(read);
    MatchesNothingIff(toks);
    MatchesNothingIff(Canon(read));
    assert EndsInTwoStars(read) == EndsInTwoStars(toks);
    if !EndsInTwoStars(read) {
      assert Canon(read) == read;
      SameTextsIff(read, toks);
    } else if Satisfiable(toks) {
      DoubledStarDiffers(read, toks);
    }
  }

  /** The search finds an entry for exactly the channels its pattern matches. */
  ghost predicate FindsWhatMatches(ops: seq<Op>, e: Entry) {
    forall s: bytes :: e in Find(Run(ops), [], s) <==> Matches(Tokens(e.pattern), s)
  }

  ghost predicate ReadsRight(ops: seq<Op>, e: Entry) {
    (!EndsInTwoStars(Tokens(e.pattern)) && ClassesAsFirstAsked(ops, e))
    || (MatchesNothing(Tokens(e.pattern)) && MatchesNothing(ReadAs(ops, e, 0)))
  }

  /**
   Over every history, a live pattern is found for exactly the channels it matches if and only
   if it does not end in two stars and every one of its classes accepts the bytes of the first
   class ever asked for at that place; or it matches no channel, written or as the trie reads it.
   */
  lemma SearchRightIff(ops: seq<Op>, e: Entry)
    requires Live(ops, e) > 0
    ensures FindsWhatMatches(ops, e) <==> ReadsRight(ops, e)
  {
    hide Find, Run, Live, Canon, ReadAs, Tokens, SameFits, ClassesAsFirstAsked, EndsInTwoStars, MatchesNothing;
    var toks, read := Tokens(e.pattern), ReadAs(ops, e, 0);
    ReadAsShape(ops, e);
    SameFitsIff(ops, e);
    CanonSameTexts(read, toks);
    forall s: bytes ensures e in Find(Run(ops), [], s) <==> Matches(Canon(read), s) {
      FoundIff(ops, e, s);
    }
    if SameTexts(Canon(read), toks) {
      forall s: bytes ensures e in Find(Run(ops), [], s) <==> Matches(toks, s) {
        assert Matches(Canon(read), s) == Matches(toks, s);
      }
    } else {
      var s: bytes :| Matches(Canon(read), s) != Matches(toks, s);
      assert (e in Find(Run(ops), [], s)) != Matches(toks, s);
    }
  }
}
