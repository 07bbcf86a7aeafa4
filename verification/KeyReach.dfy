/**
 * Which keys KEYS and SCAN find: the literal part of a pattern, the ranges that are read for it,
 * and the keys for which these make no difference. Special bytes and limits are spelled out.
 */
module KeyReach {
  import opened Bytes
  import opened Store
  import opened Keyspace
  import opened Scan
  import Glob

  /** The literal part ends at the first `*`, `?` or `[`, and not before. */
  lemma {:induction false} LiteralPart(pattern: bytes)
    ensures var p := ExtractPrefix(pattern);
      p <= pattern && 42 !in p && 63 !in p && 91 !in p && (|p| < |pattern| ==> pattern[|p|] in {42, 63, 91})
  {
    if pattern != [] && pattern[0] !in {42, 63, 91} {
      LiteralPart(pattern[1..]);
      assert pattern == [pattern[0]] + pattern[1..];
    }
  }

  /** At most 255 bytes, all of them below `~`: every ASCII text of that length without tildes. */
  predicate Ordinary(k: bytes) {
    |k| <= 255 && forall i :: 0 <= i < |k| ==> k[i] < 126
  }

  lemma {:induction false} LeqWhenBelow(k: bytes, top: bytes)
    requires |k| <= |top| && forall i :: 0 <= i < |k| ==> k[i] <= top[i]
    ensures Leq(k, top)
  {
    if k != [] {
      LeqWhenBelow(k[1..], top[1..]);
    }
  }

  /** Every key of at most 255 bytes lies below the upper end of a full scan. */
  lemma ShortKeysBelowTop(k: bytes)
    requires |k| <= 255
    ensures Leq(k, Top())
  {
    LeqWhenBelow(k, Top());
  }

  lemma {:induction false} SmallEnough(d: Data, range: set<bytes>)
    requires range <= d.Keys
    ensures |range| <= |d|
  {
    assert d.Keys == range + (d.Keys - range);
  }

  lemma RangeOfStore(d: Data, pattern: bytes)
    ensures KeysRange(d, pattern) <= d.Keys
  {
  }

  /** In a store of at most 100000 keys, KEYS finds an ordinary key exactly if it is stored and matches. */
  lemma KeysFinds(d: Data, pattern: bytes, k: bytes)
    requires Ordinary(k) && |d| <= 100000
    ensures k in KeysAnswer(d, pattern) <==> k in d && Glob.Matches(pattern, k)
  {
    hide KeysAnswer, KeysRange, Sorted, Glob.Matches, Plain, Top;
    KeysReach(d, pattern, k);
    ShortKeysBelowTop(k);
    RangeOfStore(d, pattern);
    SmallEnough(d, KeysRange(d, pattern));
  }

  /** A full scan without MATCH sees every key of at most 255 bytes. */
  lemma ShortKeysAreVisible(d: Data, k: bytes)
    requires |k| <= 255
    ensures k in Visible(d) <==> k in d
  {
    hide Top, Visible;
    VisibleKeys(d, k);
    ShortKeysBelowTop(k);
  }

  /**
   * The range SCAN searches for a pattern: with a literal part and a `*`, the keys that begin with
   * it and go on below `~`, or with `~` and nothing more; otherwise everything a full scan sees.
   */
  lemma SearchedIs(d: Data, pattern: bytes, k: bytes)
    ensures var p := ExtractPrefix(pattern);
      k in Searched(d, pattern)
      <==> k in d
           && if p != [] && 42 in pattern
              then p <= k && (|k| == |p| || k[|p|] < 126 || (k[|p|] == 126 && |k| == |p| + 1))
              else Leq(k, Top())
  {
    hide Top, ExtractPrefix;
    PrefixRange(ExtractPrefix(pattern), k, 126);
  }

  /** Ordinary keys that match are in the range SCAN searches. */
  lemma ScanSearches(d: Data, pattern: bytes, k: bytes)
    requires Ordinary(k) && k in d && Glob.Matches(pattern, k)
    ensures k in Searched(d, pattern)
  {
    hide Searched, Top, Glob.Matches, ExtractPrefix;
    SearchedIs(d, pattern, k);
    ShortKeysBelowTop(k);
    LiteralPart(pattern);
    var p := ExtractPrefix(pattern);
    assert pattern == p + pattern[|p|..];
    Glob.MatchStartsWith(p, pattern[|p|..], k);
  }

  /** Iteration with MATCH whose pages reach all matches finds an ordinary key exactly if it is stored and matches. */
  lemma ScanFinds(d: Data, count: nat, pattern: bytes, k: bytes)
    requires Positive(count) && Ordinary(k) && PagesReach(Searched(d, pattern), 0, count, pattern)
    ensures k in FollowMatch(d, ZERO_CURSOR, count, pattern, 0) <==> k in d && Glob.Matches(pattern, k)
  {
    hide Searched, Top, Glob.Matches, FollowMatch, PagesReach;
    MatchIterationComplete(d, count, pattern);
    FilterMembers(Searched(d, pattern), pattern, k);
    SearchedIs(d, pattern, k);
    if k in d && Glob.Matches(pattern, k) {
      ScanSearches(d, pattern, k);
    }
  }

  /** The cursor `0` begins an iteration, as no cursor does, and ends it. */
  lemma Cursors(cursor: bytes, keys: seq<bytes>)
    ensures StartOf([48]) == StartOf([]) == []
    ensures cursor != [] && cursor != [48] ==> StartOf(cursor) == cursor
    ensures CursorText(Page(keys, None)) == [48] && CursorText(Page(keys, Some(cursor))) == cursor
  {
  }

  /** A page asks for one key more than COUNT, with MATCH for twice as many and one, while that fits in 64 bits. */
  lemma Fetches(count: nat, pattern: bytes)
    ensures count < 18446744073709551615 ==> Fetch(count, None) == count + 1
    ensures count == 18446744073709551615 ==> Fetch(count, None) == 0
    ensures count < 9223372036854775808 ==> Fetch(count, Some(pattern)) == 2 * count + 1
  {
  }
}
