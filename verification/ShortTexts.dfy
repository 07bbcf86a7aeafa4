/**
 The shortest texts of a token list: as long as its tokens other than stars, so every star is
 empty and every other token reads one byte. They tell any two lists of one shape apart.
 */
module ShortTexts {
  import opened Bytes
  import opened Pattern

  function NonStars(toks: seq<Token>): nat {
    if toks == [] then 0 else (if toks[0].Star? then 0 else 1) + NonStars(toks[1..])
  }

  /** Every star empty, every other token against the next byte. */
  predicate Tight(toks: seq<Token>, s: bytes) {
    if toks == [] then s == []
    else if toks[0].Star? then Tight(toks[1..], s)
    else s != [] && Fits(toks[0], s[0]) && Tight(toks[1..], s[1..])
  }

  lemma {:induction false} MatchesNeedsLength(toks: seq<Token>, s: bytes)
    requires Matches(toks, s)
    ensures NonStars(toks) <= |s|
    decreases |toks| + |s|
  {
    if toks != [] {
      if toks[0].Star? && !Matches(toks[1..], s) {
        MatchesNeedsLength(toks, s[1..]);
      } else if toks[0].Star? {
        MatchesNeedsLength(toks[1..], s);
      } else {
        MatchesNeedsLength(toks[1..], s[1..]);
      }
    }
  }

  lemma {:induction false} TightIsMatch(toks: seq<Token>, s: bytes)
    requires |s| == NonStars(toks)
    ensures Matches(toks, s) <==> Tight(toks, s)
  {
    if toks != [] {
      if toks[0].Star? {
        TightIsMatch(toks[1..], s);
        if s != [] && Matches(toks, s[1..]) {
          MatchesNeedsLength(toks, s[1..]);
        }
      } else if s != [] {
        TightIsMatch(toks[1..], s[1..]);
      }
    }
  }

  /** Some byte fits the token; stars need none. */
  ghost predicate Possible(tok: Token) {
    tok.Star? || exists b: byte :: Fits(tok, b)
  }

  ghost predicate Satisfiable(toks: seq<Token>) {
    forall i :: 0 <= i < |toks| ==> Possible(toks[i])
  }

  lemma {:induction false} MatchesArePossible(toks: seq<Token>, s: bytes)
    requires Matches(toks, s)
    ensures Satisfiable(toks)
    decreases |toks| + |s|
  {
    if toks != [] {
      if toks[0].Star? && !Matches(toks[1..], s) {
        MatchesArePossible(toks, s[1..]);
      } else {
        var rest := if toks[0].Star? then s else s[1..];
        MatchesArePossible(toks[1..], rest);
        forall i | 0 <= i < |toks| ensures Possible(toks[i]) {
          if i > 0 {
            assert toks[i] == toks[1..][i - 1];
          } else if !toks[0].Star? {
            assert Fits(toks[0], s[0]);
          }
        }
      }
    }
  }

  ghost function Witness(tok: Token): byte
    requires Possible(tok) && !tok.Star?
    ensures Fits(tok, Witness(tok))
  {
    var b: byte :| Fits(tok, b);
    b
  }

  /** A shortest text with byte `x` for token `k`, and a fitting byte for every other token. */
  ghost function Filled(toks: seq<Token>, k: nat, x: byte): (s: bytes)
    requires Satisfiable(toks)
    ensures |s| == NonStars(toks)
  {
    if toks == [] then []
    else
      assert Possible(toks[0]);
      SatisfiableTail(toks);
      var rest := if k == 0 then Filled(toks[1..], |toks|, x) else Filled(toks[1..], k - 1, x);
      if toks[0].Star? then rest else [if k == 0 then x else Witness(toks[0])] + rest
  }

  lemma SatisfiableTail(toks: seq<Token>)
    requires toks != [] && Satisfiable(toks)
    ensures Satisfiable(toks[1..])
  {
    forall i | 0 <= i < |toks| - 1 ensures Possible(toks[1..][i]) {
      assert toks[1..][i] == toks[i + 1];
    }
  }

  ghost predicate SameShape(a: seq<Token>, b: seq<Token>) {
    |a| == |b| && forall i :: 0 <= i < |a| ==> (a[i].Star? <==> b[i].Star?)
  }

  lemma SameShapeTail(a: seq<Token>, b: seq<Token>)
    requires a != [] && SameShape(a, b)
    ensures SameShape(a[1..], b[1..]) && (a[0].Star? <==> b[0].Star?)
  {
  }

  lemma {:induction false} SameShapeLength(a: seq<Token>, b: seq<Token>)
    requires SameShape(a, b)
    ensures NonStars(a) == NonStars(b)
  {
    if a != [] {
      SameShapeTail(a, b);
      SameShapeLength(a[1..], b[1..]);
    }
  }

  /** The text filled for `a` fits `a` but for token `k`, and fits `b` only if `x` fits its token `k`. */
  lemma {:induction false} FilledFits(a: seq<Token>, b: seq<Token>, k: nat, x: byte)
    requires Satisfiable(a) && SameShape(a, b)
    ensures k < |a| && !a[k].Star? && !Fits(b[k], x) ==> !Tight(b, Filled(a, k, x))
    ensures k >= |a| || a[k].Star? || Fits(a[k], x) ==> Tight(a, Filled(a, k, x))
  {
    if a != [] {
      assert Possible(a[0]);
      SatisfiableTail(a);
      SameShapeTail(a, b);
      var s := Filled(a, k, x);
      if k == 0 {
        FilledFits(a[1..], b[1..], |a|, x);
      } else {
        FilledFits(a[1..], b[1..], k - 1, x);
      }
      if !a[0].Star? {
        assert s[1..] == if k == 0 then Filled(a[1..], |a|, x) else Filled(a[1..], k - 1, x);
      }
    }
  }

  /** A satisfiable list matches a shortest text. */
  lemma ShortestText(toks: seq<Token>) returns (s: bytes)
    requires Satisfiable(toks)
    ensures |s| == NonStars(toks) && Matches(toks, s)
  {
    s := Filled(toks, |toks|, 0);
    FilledFits(toks, toks, |toks|, 0);
    TightIsMatch(toks, s);
  }

  /** Byte `x` at token `k` fits `a` and not `b`: some text matches one of the lists only. */
  lemma ApartAt(a: seq<Token>, b: seq<Token>, k: nat, x: byte) returns (s: bytes)
    requires SameShape(a, b) && k < |a| && !a[k].Star?
    requires Fits(a[k], x) && !Fits(b[k], x) && (Satisfiable(a) || Satisfiable(b))
    ensures Matches(a, s) != Matches(b, s)
  {
    if Satisfiable(a) {
      s := Filled(a, k, x);
      FilledFits(a, b, k, x);
      SameShapeLength(a, b);
      TightIsMatch(a, s);
      TightIsMatch(b, s);
    } else {
      s := ShortestText(b);
      if Matches(a, s) {
        MatchesArePossible(a, s);
      }
    }
  }

  /** The same bytes fit token by token. */
  ghost predicate SameFits(a: seq<Token>, b: seq<Token>)
    requires |a| == |b|
  {
    forall k, x: byte :: 0 <= k < |a| ==> Fits(a[k], x) == Fits(b[k], x)
  }

  lemma {:induction false} SameFitsMatch(a: seq<Token>, b: seq<Token>, s: bytes)
    requires SameShape(a, b) && SameFits(a, b)
    ensures Matches(a, s) == Matches(b, s)
    decreases |a| + |s|
  {
    if a != [] {
      SameShapeTail(a, b);
      assert SameFits(a[1..], b[1..]) by {
        forall k, x: byte | 0 <= k < |a| - 1 ensures Fits(a[1..][k], x) == Fits(b[1..][k], x) {
          assert Fits(a[k + 1], x) == Fits(b[k + 1], x);
        }
      }
      if a[0].Star? {
        SameFitsMatch(a[1..], b[1..], s);
        if s != [] {
          SameFitsMatch(a, b, s[1..]);
        }
      } else if s != [] {
        assert Fits(a[0], s[0]) == Fits(b[0], s[0]);
        SameFitsMatch(a[1..], b[1..], s[1..]);
      }
    }
  }

  ghost predicate SameTexts(a: seq<Token>, b: seq<Token>) {
    forall s: bytes :: Matches(a, s) == Matches(b, s)
  }

  /** Two lists of one shape match the same texts exactly if the same bytes fit, or nothing matches. */
  lemma SameTextsIff(a: seq<Token>, b: seq<Token>)
    requires SameShape(a, b)
    ensures SameTexts(a, b)
            <==> SameFits(a, b) || (!Satisfiable(a) && !Satisfiable(b))
  {
    hide Matches, Satisfiable;
    if SameFits(a, b) {
      forall s ensures Matches(a, s) == Matches(b, s) {
        SameFitsMatch(a, b, s);
      }
    } else if Satisfiable(a) || Satisfiable(b) {
      var k, x: byte :| 0 <= k < |a| && Fits(a[k], x) != Fits(b[k], x);
      if Fits(a[k], x) {
        var s: bytes := ApartAt(a, b, k, x);
      } else {
        var s: bytes := ApartAt(b, a, k, x);
      }
    } else {
      forall s ensures Matches(a, s) == Matches(b, s) {
        if Matches(a, s) {
          MatchesArePossible(a, s);
        }
        if Matches(b, s) {
          MatchesArePossible(b, s);
        }
      }
    }
  }

  ghost predicate MatchesNothing(toks: seq<Token>) {
    forall s: bytes :: !Matches(toks, s)
  }

  /** A list matches nothing exactly if no byte fits one of its tokens. */
  lemma MatchesNothingIff(toks: seq<Token>)
    ensures MatchesNothing(toks) <==> !Satisfiable(toks)
  {
    if Satisfiable(toks) {
      var s: bytes := ShortestText(toks);
      assert !MatchesNothing(toks);
    } else {
      forall s: bytes ensures !Matches(toks, s) {
        if Matches(toks, s) {
          MatchesArePossible(toks, s);
        }
      }
    }
  }

  lemma {:induction false} NoNonStars(toks: seq<Token>)
    requires AllStars(toks)
    ensures NonStars(toks) == 0 && Satisfiable(toks)
  {
    if toks != [] {
      assert toks[0].Star?;
      NoNonStars(toks[1..]);
    }
  }

  lemma StarsCanonLength(toks: seq<Token>)
    requires |toks| >= 2 && AllStars(toks)
    ensures NonStars(toks) == 0 && NonStars(Canon(toks)) == 1 && EndsInTwoStars(toks)
  {
    NoNonStars(toks);
    assert Canon(toks) == [Star, AnyByte] && Canon(toks)[1..] == [AnyByte] && [AnyByte][1..] == [];
  }

  lemma TwoStarsTail(toks: seq<Token>)
    requires toks != [] && (|toks| < 2 || !AllStars(toks))
    ensures EndsInTwoStars(toks) <==> EndsInTwoStars(toks[1..])
  {
    if |toks| == 2 {
      assert !toks[0].Star? || !toks[1].Star?;
    }
  }

  lemma CanonTail(toks: seq<Token>)
    requires toks != [] && (|toks| < 2 || !AllStars(toks))
    ensures Canon(toks) == [toks[0]] + Canon(toks[1..])
  {
  }

  lemma NonStarsCons(tok: Token, rest: seq<Token>)
    ensures NonStars([tok] + rest) == (if tok.Star? then 0 else 1) + NonStars(rest)
  {
    assert ([tok] + rest)[1..] == rest;
  }

  /** The canonical list needs one byte more exactly when the list ends in two stars. */
  lemma {:induction false} CanonLength(toks: seq<Token>)
    ensures NonStars(Canon(toks)) == NonStars(toks) + if EndsInTwoStars(toks) then 1 else 0
  {
    hide NonStars, EndsInTwoStars, Canon, AllStars;
    if |toks| >= 2 && AllStars(toks) {
      StarsCanonLength(toks);
    } else if toks != [] {
      CanonLength(toks[1..]);
      TwoStarsTail(toks);
      CanonTail(toks);
      NonStarsCons(toks[0], toks[1..]);
      NonStarsCons(toks[0], Canon(toks[1..]));
      assert toks == [toks[0]] + toks[1..];
    } else {
      EmptyCanonLength();
    }
  }

  lemma EmptyCanonLength()
    ensures NonStars(Canon([])) == NonStars([]) == 0 && !EndsInTwoStars([])
  {
  }

  /** And it is satisfiable exactly when the list is. */
  lemma {:induction false} CanonSatisfiable(toks: seq<Token>)
    ensures Satisfiable(Canon(toks)) <==> Satisfiable(toks)
  {
    hide Satisfiable, Possible;
    if |toks| >= 2 && AllStars(toks) {
      StarsSatisfiable(toks);
    } else if toks != [] {
      var rest := Canon(toks[1..]);
      CanonSatisfiable(toks[1..]);
      SatisfiableCons(toks[0], rest);
      SatisfiableCons(toks[0], toks[1..]);
      assert toks == [toks[0]] + toks[1..];
    }
  }

  lemma StarsSatisfiable(toks: seq<Token>)
    requires AllStars(toks)
    ensures Satisfiable(toks) && Satisfiable([Star, AnyByte])
  {
    assert Fits(AnyByte, 0);
    assert Possible(AnyByte);
  }

  lemma SatisfiableCons(tok: Token, rest: seq<Token>)
    ensures Satisfiable([tok] + rest) <==> Possible(tok) && Satisfiable(rest)
  {
    hide Possible;
    var all := [tok] + rest;
    if Satisfiable(all) {
      assert Possible(all[0]);
      forall i | 0 <= i < |rest| ensures Possible(rest[i]) {
        assert rest[i] == all[i + 1];
      }
    }
  }
}
