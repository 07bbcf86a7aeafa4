/** SCAN: pages of a key range, and a client that follows the cursors it is given. */
module Scan {
  import opened Bytes
  import opened Store
  import opened Keyspace
  import Binary
  import Glob

  /** COUNT -1, cast to an unsigned word. */
  const MAX_COUNT: nat := Binary.TWO_64 - 1

  const ZERO_CURSOR: bytes := [48]

  /** One reply: the keys of the page, and the key the next page starts at, if any. */
  datatype Page = Page(keys: seq<bytes>, next: Option<bytes>)

  predicate Accepts(pattern: Option<bytes>, k: bytes) {
    pattern.None? || Glob.Matches(pattern.value, k)
  }

  /** Walk the window until `count` keys were collected; the key met then is the cursor. */
  function Collect(window: seq<bytes>, pattern: Option<bytes>, count: nat, got: nat): Page {
    if window == [] then Page([], None)
    else if got >= count then Page([], Some(window[0]))
    else if Accepts(pattern, window[0]) then
      var more := Collect(window[1..], pattern, count, got + 1);
      Page([window[0]] + more.keys, more.next)
    else Collect(window[1..], pattern, count, got)
  }

  /** An empty cursor and "0" both start from the beginning. */
  function StartOf(cursor: bytes): bytes {
    if cursor == [] || cursor == ZERO_CURSOR then [] else cursor
  }

  /** A pattern with a literal prefix and a `*` narrows the range. */
  predicate Narrow(pattern: Option<bytes>) {
    pattern.Some? && ExtractPrefix(pattern.value) != [] && Glob.STAR in pattern.value
  }

  function LowEnd(cursor: bytes, pattern: Option<bytes>): bytes {
    var start := StartOf(cursor);
    if Narrow(pattern) && start == [] then ExtractPrefix(pattern.value) else start
  }

  function HighEnd(pattern: Option<bytes>): bytes {
    if Narrow(pattern) then ExtractPrefix(pattern.value) + [TILDE] else Top()
  }

  /** How many keys a page asks for, in unsigned 64-bit words that wrap around. */
  function Fetch(count: nat, pattern: Option<bytes>): nat {
    ((if pattern.Some? then count * 2 else count) % Binary.TWO_64 + 1) % Binary.TWO_64
  }

  function Window(d: Data, cursor: bytes, count: nat, pattern: Option<bytes>): seq<bytes> {
    Range(d, LowEnd(cursor, pattern), HighEnd(pattern), Fetch(count, pattern))
  }

  function Answer(d: Data, cursor: bytes, count: nat, pattern: Option<bytes>): Page {
    Collect(Window(d, cursor, count, pattern), pattern, count, 0)
  }

  /** What goes over the wire: the cursor "0" means the iteration is over. */
  function CursorText(page: Page): bytes {
    if page.next.Some? then page.next.value else ZERO_CURSOR
  }

  lemma CollectStep(window: seq<bytes>, i: nat, pattern: Option<bytes>, count: nat, keys: seq<bytes>)
    requires i < |window|
    ensures var now := Collect(window[i..], pattern, count, |keys|);
      if |keys| >= count then now == Page([], Some(window[i]))
      else if Accepts(pattern, window[i]) then
        var later := Collect(window[i + 1..], pattern, count, |keys| + 1);
        keys + now.keys == (keys + [window[i]]) + later.keys && now.next == later.next
      else now == Collect(window[i + 1..], pattern, count, |keys|)
  {
    hide Accepts;
    assert window[i..][0] == window[i] && window[i..][1..] == window[i + 1..];
  }

  method ScanCommand(store: FeoxStore, cursor: bytes, count: nat, pattern: Option<bytes>)
    returns (next: bytes, keys: seq<bytes>)
    requires count <= MAX_COUNT
    ensures var page := Answer(store.data, cursor, count, pattern);
      keys == page.keys && next == CursorText(page)
  {
    hide Sorted, Within, Glob.Matches, Top, Collect, ExtractPrefix, Take;
    var startKey := if cursor == [] || cursor == ZERO_CURSOR then [] else cursor;
    var lo, hi := startKey, Top();
    if pattern.Some? {
      var prefix := ExtractPrefix(pattern.value);
      if prefix != [] && prefix <= pattern.value && Glob.STAR in pattern.value {
        hi := prefix + [TILDE];
        lo := if |startKey| > |prefix| && prefix <= startKey then startKey
              else if startKey == [] then prefix
              else startKey;
      }
    }
    var fetchCount := (if pattern.Some? then count * 2 else count) % Binary.TWO_64;
    var limit := (fetchCount + 1) % Binary.TWO_64;
    var pairs := store.RangeQuery(lo, hi, limit);
    ghost var window := Window(store.data, cursor, count, pattern);
    assert window == Range(store.data, lo, hi, limit);
    next, keys := Walk(pairs, window, count, pattern);
  }

  method Walk(pairs: seq<(bytes, bytes)>, ghost window: seq<bytes>, count: nat, pattern: Option<bytes>)
    returns (next: bytes, keys: seq<bytes>)
    requires |pairs| == |window| && forall i :: 0 <= i < |pairs| ==> pairs[i].0 == window[i]
    ensures var page := Collect(window, pattern, count, 0);
      keys == page.keys && next == CursorText(page)
  {
    hide Glob.Matches, Collect;
    ghost var whole := Collect(window, pattern, count, 0);
    keys := [];
    var i, stop := 0, false;
    next := ZERO_CURSOR;
    assert window[0..] == window && [] + whole.keys == whole.keys;
    while i < |pairs| && !stop
      invariant 0 <= i <= |pairs|
      invariant !stop ==> next == ZERO_CURSOR
      invariant !stop ==> whole.keys == keys + Collect(window[i..], pattern, count, |keys|).keys
      invariant !stop ==> whole.next == Collect(window[i..], pattern, count, |keys|).next
      invariant stop ==> whole == Page(keys, Some(next))
      decreases |pairs| - i, !stop
    {
      CollectStep(window, i, pattern, count, keys);
      if |keys| >= count {
        next, stop := pairs[i].0, true;
        assert keys + [] == keys;
      } else {
        var accepted := true;
        if pattern.Some? {
          accepted := Glob.ExecutorMatch(pattern.value, pairs[i].0);
        }
        if accepted {
          keys := keys + [pairs[i].0];
        }
        i := i + 1;
      }
    }
    CollectNone(pattern, count, |keys|);
    assert !stop ==> window[i..] == [] && keys + [] == keys;
  }

  lemma CollectNone(pattern: Option<bytes>, count: nat, got: nat)
    ensures Collect([], pattern, count, got) == Page([], None)
  {
  }

  // ---- Following the cursors without MATCH. ----

  /** Without MATCH a page is the first `count` keys, and the cursor is the one after them. */
  lemma {:induction false} CollectPlain(window: seq<bytes>, count: nat, got: nat)
    requires got <= count
    ensures Collect(window, None, count, got)
      == if |window| > count - got then Page(window[..count - got], Some(window[count - got])) else Page(window, None)
  {
    if window != [] && got < count {
      CollectPlain(window[1..], count, got + 1);
      assert window == [window[0]] + window[1..];
      if |window| > count - got {
        assert window[..count - got] == [window[0]] + window[1..][..count - got - 1];
      }
    }
  }

  /** The keys a full scan can see, in order. */
  function Visible(d: Data): seq<bytes> {
    Sorted(Within(d, [], Top()))
  }

  lemma PlainPage(d: Data, cursor: bytes, count: nat)
    requires count < MAX_COUNT
    ensures var from := Sorted(Within(d, StartOf(cursor), Top()));
      Answer(d, cursor, count, None)
      == if |from| > count then Page(from[..count], Some(from[count])) else Page(from, None)
  {
    hide Collect, Sorted, Within, Top;
    var from := Sorted(Within(d, StartOf(cursor), Top()));
    var window := Window(d, cursor, count, None);
    CollectPlain(window, count, 0);
    if |from| > count + 1 {
      assert window[..count] == from[..count];
    }
  }

  /** The cursor points at position `i` of the visible keys. */
  predicate PointsAt(d: Data, cursor: bytes, i: nat) {
    (i == 0 && StartOf(cursor) == []) || (i < |Visible(d)| && StartOf(cursor) == Visible(d)[i])
  }

  lemma PageAt(d: Data, i: nat, cursor: bytes, count: nat)
    requires count < MAX_COUNT && PointsAt(d, cursor, i)
    ensures i <= |Visible(d)|
    ensures var all := Visible(d);
      Answer(d, cursor, count, None)
      == if |all| - i > count then Page(all[i..i + count], Some(all[i + count])) else Page(all[i..], None)
  {
    hide Sorted, Within, Top, Answer;
    var all := Visible(d);
    PlainPage(d, cursor, count);
    if i == 0 && StartOf(cursor) == [] {
      assert all[0..] == all;
    } else {
      SuffixIsRange(d, [], Top(), i);
    }
    if |all| - i > count {
      assert all[i..][..count] == all[i..i + count];
    }
  }

  /**
   * A client that asks for page after page, giving back each cursor, until it gets "0". The
   * measure shows that this ends: every cursor is above the one before.
   */
  function Follow(d: Data, cursor: bytes, count: nat): seq<bytes>
    requires 1 <= count <= MAX_COUNT
    decreases |Within(d, StartOf(cursor), Top())|
  {
    var page := Answer(d, cursor, count, None);
    if CursorText(page) == ZERO_CURSOR then page.keys
    else
      CursorAdvances(d, cursor, count);
      page.keys + Follow(d, CursorText(page), count)
  }

  /** COUNT -1 asks for no key at all: the first page is empty and ends the iteration. */
  lemma CountMinusOneEnds(d: Data, cursor: bytes)
    ensures Answer(d, cursor, MAX_COUNT, None) == Page([], None)
  {
    hide Sorted, Within;
    assert Fetch(MAX_COUNT, None) == 0;
  }

  lemma CursorAdvances(d: Data, cursor: bytes, count: nat)
    requires 1 <= count <= MAX_COUNT && CursorText(Answer(d, cursor, count, None)) != ZERO_CURSOR
    ensures |Within(d, StartOf(CursorText(Answer(d, cursor, count, None))), Top())|
      < |Within(d, StartOf(cursor), Top())|
  {
    hide Answer;
    var start := StartOf(cursor);
    var from := Sorted(Within(d, start, Top()));
    CountMinusOneEnds(d, cursor);
    PlainPage(d, cursor, count);
    SortedAscending(Within(d, start, Top()));
    assert |from| > count && Lt(from[0], from[count]);
    assert from[count] != [];
    SuffixIsRange(d, start, Top(), count);
    assert |Sorted(Within(d, from[count], Top()))| < |from|;
  }

  /** Where the client stops: at the end, or at a page that would start with the key "0". */
  function Cut(all: seq<bytes>, i: nat, count: nat): (j: nat)
    requires count >= 1 && i <= |all|
    ensures i <= j <= |all|
    decreases |all| - i
  {
    if |all| - i <= count then |all|
    else if all[i + count] == ZERO_CURSOR then i + count
    else Cut(all, i + count, count)
  }

  lemma {:induction false} FollowFrom(d: Data, i: nat, cursor: bytes, count: nat)
    requires 1 <= count < MAX_COUNT && PointsAt(d, cursor, i) && i <= |Visible(d)|
    ensures Follow(d, cursor, count) == Visible(d)[i..Cut(Visible(d), i, count)]
    decreases |Visible(d)| - i
  {
    hide Answer, Visible, Within;
    var all := Visible(d);
    PageAt(d, i, cursor, count);
    if |all| - i > count && all[i + count] != ZERO_CURSOR {
      LaterKeysNotEmpty(d, i + count);
      FollowFrom(d, i + count, all[i + count], count);
      assert all[i..i + count] + all[i + count..Cut(all, i, count)] == all[i..Cut(all, i, count)];
    }
  }

  lemma LaterKeysNotEmpty(d: Data, j: nat)
    requires 0 < j < |Visible(d)|
    ensures Visible(d)[j] != []
  {
    SortedAscending(Within(d, [], Top()));
    assert Lt(Visible(d)[0], Visible(d)[j]);
  }

  lemma {:induction false} CutIsEnd(all: seq<bytes>, i: nat, count: nat)
    requires count >= 1 && i <= |all|
    ensures Cut(all, i, count) == |all| <==> forall k: nat :: !ZeroStartsPage(all, i, count, k)
    decreases |all| - i
  {
    if |all| - i > count {
      var next := i + count;
      assert i + 1 * count == next;
      if all[next] == ZERO_CURSOR {
        assert ZeroStartsPage(all, i, count, 1);
      } else {
        CutIsEnd(all, next, count);
        forall k: nat | ZeroStartsPage(all, i, count, k) ensures exists h: nat :: ZeroStartsPage(all, next, count, h) {
          PageShift(i, count, k);
          assert k != 1;
          assert ZeroStartsPage(all, next, count, k - 1);
        }
        forall k: nat ensures ZeroStartsPage(all, next, count, k) ==> ZeroStartsPage(all, i, count, k + 1) {
          PageShift(i, count, k + 1);
        }
      }
    } else {
      forall k: nat ensures !ZeroStartsPage(all, i, count, k) {
        if k >= 1 {
          PageShift(i, count, k);
        }
      }
    }
  }

  lemma PageShift(i: nat, count: nat, k: nat)
    requires k >= 1
    ensures i + k * count == (i + count) + (k - 1) * count >= i + count
  {
    assert (k - 1) * count >= 0;
  }

  /** The key "0" is the first key of page `k`, counting from 0 at position `i`. */
  predicate ZeroStartsPage(all: seq<bytes>, i: nat, count: nat, k: nat) {
    k >= 1 && i + k * count < |all| && all[i + k * count] == ZERO_CURSOR
  }

  /**
   * Full iteration without MATCH returns every visible key exactly once, in order, if and only
   * if the key "0" does not start one of the later pages, and the count is not -1 unless there is
   * no key; otherwise exactly the keys below that "0", and for -1 none.
   */
  lemma {:induction false} FullIteration(d: Data, count: nat)
    requires 1 <= count <= MAX_COUNT
    ensures Ascending(Visible(d))
    ensures Follow(d, ZERO_CURSOR, count) == Visible(d)
      <==> (count == MAX_COUNT ==> Visible(d) == []) && forall k: nat :: !ZeroStartsPage(Visible(d), 0, count, k)
    ensures Follow(d, ZERO_CURSOR, count)
      == if count == MAX_COUNT then [] else Visible(d)[..Cut(Visible(d), 0, count)]
  {
    hide Follow, Cut, ZeroStartsPage, Answer, PointsAt, Within, Sorted, Top;
    BeginsAtZero(d);
    SortedAscending(Within(d, [], Top()));
    var all := Visible(d);
    CutIsEnd(all, 0, count);
    assert all[..|all|] == all;
    if count == MAX_COUNT {
      FollowMinusOne(d);
      NoZeroInNothing(count);
    } else {
      FollowFrom(d, 0, ZERO_CURSOR, count);
    }
  }

  lemma BeginsAtZero(d: Data)
    ensures PointsAt(d, ZERO_CURSOR, 0)
  {
  }

  lemma FollowMinusOne(d: Data)
    ensures Follow(d, ZERO_CURSOR, MAX_COUNT) == []
  {
    hide Answer;
    CountMinusOneEnds(d, ZERO_CURSOR);
  }

  lemma NoZeroInNothing(count: nat)
    ensures forall k: nat :: !ZeroStartsPage([], 0, count, k)
  {
  }

  /** The visible keys are all keys up to 255 bytes of 0xFF. */
  lemma VisibleKeys(d: Data, k: bytes)
    ensures k in Visible(d) <==> k in d && Leq(k, Top())
  {
  }

  // ---- With MATCH. ----

  lemma {:induction false} FilterCons(k: bytes, keys: seq<bytes>, pattern: bytes)
    ensures Filter([k] + keys, pattern) == (if Glob.Matches(pattern, k) then [k] else []) + Filter(keys, pattern)
  {
    hide Glob.Matches;
    if keys == [] {
      assert [k] + keys == [k] && [k][..0] == [];
    } else {
      var front := keys[..|keys| - 1];
      assert ([k] + keys)[..|keys|] == [k] + front;
      FilterCons(k, front, pattern);
    }
  }

  /** A page is the matches of the part of the window walked so far; nothing is skipped. */
  lemma {:induction false} CollectIsFilter(window: seq<bytes>, pattern: bytes, count: nat, got: nat) returns (j: nat)
    requires got <= count
    ensures var page := Collect(window, Some(pattern), count, got);
      j <= |window| && page.keys == Filter(window[..j], pattern)
      && (page.next.None? ==> j == |window|)
      && (page.next.Some? ==> j < |window| && page.next.value == window[j] && |page.keys| == count - got)
  {
    hide Glob.Matches;
    j := 0;
    if window != [] && got < count {
      var hit := Accepts(Some(pattern), window[0]);
      var rest := CollectIsFilter(window[1..], pattern, count, if hit then got + 1 else got);
      j := rest + 1;
      FilterCons(window[0], window[1..][..rest], pattern);
      assert window[..j] == [window[0]] + window[1..][..rest];
    }
  }

  /** Every key a page returns exists and matches, whatever the cursor and the count. */
  lemma MatchSound(d: Data, cursor: bytes, count: nat, pattern: bytes, k: bytes)
    requires k in Answer(d, cursor, count, Some(pattern)).keys
    ensures k in d && Glob.Matches(pattern, k)
  {
    hide Glob.Matches, Collect;
    var window := Window(d, cursor, count, Some(pattern));
    var j := CollectIsFilter(window, pattern, count, 0);
    FilterMembers(window[..j], pattern, k);
    RangeIsStored(d, LowEnd(cursor, Some(pattern)), HighEnd(Some(pattern)), Fetch(count, Some(pattern)));
    var i :| 0 <= i < |window[..j]| && window[..j][i] == k;
    assert window[i] == k;
  }

  /**
   * When a page ends the iteration, keys of the range may remain unseen: the window holds only
   * 2 * count + 1 keys, less if that wraps around. Nothing is lost exactly when no key past the
   * window matches.
   */
  lemma MatchMayRunDry(d: Data, cursor: bytes, count: nat, pattern: bytes)
    requires Answer(d, cursor, count, Some(pattern)).next.None?
    ensures var range := Within(d, LowEnd(cursor, Some(pattern)), HighEnd(Some(pattern)));
      AllSeen(range, pattern, Answer(d, cursor, count, Some(pattern)).keys)
      <==> NoneFrom(range, pattern, Fetch(count, Some(pattern)))
  {
    hide Glob.Matches, Collect, LowEnd, HighEnd, Within, Take, Filter, Sorted, AllSeen, NoneFrom;
    var range := Within(d, LowEnd(cursor, Some(pattern)), HighEnd(Some(pattern)));
    var all := Sorted(range);
    var window := Window(d, cursor, count, Some(pattern));
    var keys := Answer(d, cursor, count, Some(pattern)).keys;
    var j := CollectIsFilter(window, pattern, count, 0);
    assert window[..j] == window;
    SortedAscending(range);
    forall i | 0 <= i < |all|
      ensures all[i] in keys <==> i < Fetch(count, Some(pattern)) && Glob.Matches(pattern, all[i])
    {
      InTake(all, Fetch(count, Some(pattern)), i);
      FilterMembers(window, pattern, all[i]);
    }
    SeenOrNot(range, keys, pattern, Fetch(count, Some(pattern)));
  }

  // ---- Following the cursors with MATCH. ----

  /** How many keys of the window a page walks past. */
  function Walked(window: seq<bytes>, pattern: bytes, count: nat, got: nat): (j: nat)
    ensures j <= |window|
  {
    if window == [] || got >= count then 0
    else if Glob.Matches(pattern, window[0]) then 1 + Walked(window[1..], pattern, count, got + 1)
    else 1 + Walked(window[1..], pattern, count, got)
  }

  /** The cursor after walking `j` keys of the window. */
  function CursorAfter(window: seq<bytes>, j: nat): Option<bytes> {
    if j < |window| then Some(window[j]) else None
  }

  lemma FilterPrefix(window: seq<bytes>, pattern: bytes, j: nat)
    requires window != [] && j < |window|
    ensures Filter(window[..j + 1], pattern)
      == (if Glob.Matches(pattern, window[0]) then [window[0]] else []) + Filter(window[1..][..j], pattern)
    ensures CursorAfter(window, j + 1) == CursorAfter(window[1..], j)
  {
    FilterCons(window[0], window[1..][..j], pattern);
    assert window[..j + 1] == [window[0]] + window[1..][..j];
  }

  lemma {:induction false} CollectWalks(window: seq<bytes>, pattern: bytes, count: nat, got: nat)
    requires got <= count
    ensures Collect(window, Some(pattern), count, got).keys
      == Filter(window[..Walked(window, pattern, count, got)], pattern)
    ensures Collect(window, Some(pattern), count, got).next
      == CursorAfter(window, Walked(window, pattern, count, got))
    ensures got < count && window != [] ==> Walked(window, pattern, count, got) >= 1
  {
    hide Glob.Matches, Filter, CursorAfter;
    if window == [] || got >= count {
      NothingWalked(window, pattern);
    } else if Glob.Matches(pattern, window[0]) {
      CollectWalks(window[1..], pattern, count, got + 1);
      FilterPrefix(window, pattern, Walked(window[1..], pattern, count, got + 1));
    } else {
      CollectWalks(window[1..], pattern, count, got);
      FilterPrefix(window, pattern, Walked(window[1..], pattern, count, got));
      assert [] + Filter(window[1..][..Walked(window[1..], pattern, count, got)], pattern)
        == Filter(window[1..][..Walked(window[1..], pattern, count, got)], pattern);
    }
  }

  lemma NothingWalked(window: seq<bytes>, pattern: bytes)
    ensures Filter(window[..0], pattern) == []
    ensures CursorAfter(window, 0) == if window == [] then None else Some(window[0])
  {
  }

  lemma {:induction false} FilterConcat(a: seq<bytes>, b: seq<bytes>, pattern: bytes)
    ensures Filter(a + b, pattern) == Filter(a, pattern) + Filter(b, pattern)
  {
    hide Glob.Matches;
    if b == [] {
      assert a + b == a;
    } else {
      assert (a + b)[..|a + b| - 1] == a + b[..|b| - 1];
      FilterConcat(a, b[..|b| - 1], pattern);
    }
  }

  /** The keys a SCAN with this pattern looks through. */
  function Searched(d: Data, pattern: bytes): seq<bytes> {
    Sorted(Within(d, LowEnd([], Some(pattern)), HighEnd(Some(pattern))))
  }

  function WindowAt(all: seq<bytes>, i: nat, count: nat): seq<bytes>
    requires i <= |all|
  {
    Take(all[i..], 2 * count + 1)
  }

  /** Positive counts: COUNT is a signed 64-bit number. */
  predicate Positive(count: nat) {
    1 <= count <= MAX_COUNT / 2
  }

  lemma PositiveFetch(count: nat, pattern: bytes)
    requires count <= MAX_COUNT / 2
    ensures Fetch(count, Some(pattern)) == 2 * count + 1
  {
  }

  /** The lowest COUNT wraps to a page of one key, whether it matches or not. */
  lemma LowestCountSeesOneKey(d: Data, cursor: bytes, pattern: bytes)
    ensures |Window(d, cursor, MAX_COUNT / 2 + 1, Some(pattern))| <= 1
    ensures Answer(d, cursor, MAX_COUNT / 2 + 1, Some(pattern)).next.None?
  {
    hide Sorted, Within, Glob.Matches;
    assert Fetch(MAX_COUNT / 2 + 1, Some(pattern)) == 1;
    var window := Window(d, cursor, MAX_COUNT / 2 + 1, Some(pattern));
    if window != [] {
      assert window[1..] == [];
      CollectNone(Some(pattern), MAX_COUNT / 2 + 1, 0);
      CollectNone(Some(pattern), MAX_COUNT / 2 + 1, 1);
    }
  }

  predicate PointsInto(d: Data, pattern: bytes, cursor: bytes, i: nat) {
    (i == 0 && StartOf(cursor) == [])
    || (i < |Searched(d, pattern)| && cursor == Searched(d, pattern)[i] && StartOf(cursor) != [])
  }

  lemma WindowFrom(d: Data, pattern: bytes, cursor: bytes, i: nat, count: nat)
    requires count <= MAX_COUNT / 2 && PointsInto(d, pattern, cursor, i)
    ensures i <= |Searched(d, pattern)|
    ensures Window(d, cursor, count, Some(pattern)) == WindowAt(Searched(d, pattern), i, count)
    ensures |Within(d, LowEnd(cursor, Some(pattern)), HighEnd(Some(pattern)))| == |Searched(d, pattern)| - i
  {
    hide Sorted, Within, Top, ExtractPrefix;
    PositiveFetch(count, pattern);
    var all := Searched(d, pattern);
    if i == 0 && StartOf(cursor) == [] {
      assert all[0..] == all;
    } else {
      SuffixIsRange(d, LowEnd([], Some(pattern)), HighEnd(Some(pattern)), i);
    }
    assert |Sorted(Within(d, LowEnd(cursor, Some(pattern)), HighEnd(Some(pattern))))| == |all| - i;
  }

  /** One page from position `i`, and where its cursor points. */
  lemma MatchPage(d: Data, pattern: bytes, cursor: bytes, i: nat, count: nat)
    requires count <= MAX_COUNT / 2 && PointsInto(d, pattern, cursor, i) && i <= |Searched(d, pattern)|
    ensures var all := Searched(d, pattern);
      var page := Answer(d, cursor, count, Some(pattern));
      var j := Walked(WindowAt(all, i, count), pattern, count, 0);
      i + j <= |all| && page.keys == Filter(all[i..i + j], pattern)
      && page.next == CursorAfter(WindowAt(all, i, count), j)
      && (page.next.Some? ==> i + j < |all| && page.next.value == all[i + j] && (count >= 1 ==> j >= 1))
  {
    hide *;
    var all := Searched(d, pattern);
    WindowFrom(d, pattern, cursor, i, count);
    WindowIsPart(all, i, count);
    var window := WindowAt(all, i, count);
    CollectWalks(window, pattern, count, 0);
    var j := Walked(window, pattern, count, 0);
    PartOfPart(all, i, i + |window|, j);
    AnswerCollects(d, cursor, count, pattern);
    CursorIsKey(window, j);
  }

  lemma AnswerCollects(d: Data, cursor: bytes, count: nat, pattern: bytes)
    ensures Answer(d, cursor, count, Some(pattern))
      == Collect(Window(d, cursor, count, Some(pattern)), Some(pattern), count, 0)
  {
  }

  lemma CursorIsKey(window: seq<bytes>, j: nat)
    ensures CursorAfter(window, j) == if j < |window| then Some(window[j]) else None
  {
  }

  lemma PartOfPart(all: seq<bytes>, i: nat, end: nat, j: nat)
    requires i <= end <= |all| && j <= end - i
    ensures all[i..end][..j] == all[i..i + j] && (j < end - i ==> all[i..end][j] == all[i + j])
  {
  }

  lemma WindowIsPart(all: seq<bytes>, i: nat, count: nat)
    requires i <= |all|
    ensures var end := i + |WindowAt(all, i, count)|;
      end <= |all| && WindowAt(all, i, count) == all[i..end]
      && |WindowAt(all, i, count)| == (if |all| - i <= 2 * count + 1 then |all| - i else 2 * count + 1)
  {
  }

  lemma NextPointsInto(d: Data, pattern: bytes, cursor: bytes, i: nat, count: nat)
    requires Positive(count) && PointsInto(d, pattern, cursor, i) && i <= |Searched(d, pattern)|
    requires CursorText(Answer(d, cursor, count, Some(pattern))) != ZERO_CURSOR
    ensures var j := Walked(WindowAt(Searched(d, pattern), i, count), pattern, count, 0);
      j >= 1 && PointsInto(d, pattern, CursorText(Answer(d, cursor, count, Some(pattern))), i + j)
  {
    hide Answer, Walked, Searched, WindowAt, Filter, Lt;
    var all := Searched(d, pattern);
    MatchPage(d, pattern, cursor, i, count);
    var j := Walked(WindowAt(all, i, count), pattern, count, 0);
    LaterSearchedNotEmpty(d, pattern, i + j);
  }

  lemma LaterSearchedNotEmpty(d: Data, pattern: bytes, j: nat)
    requires 0 < j < |Searched(d, pattern)|
    ensures Searched(d, pattern)[j] != []
  {
    hide Within, Sorted, LowEnd, HighEnd, Lt;
    SortedAscending(Within(d, LowEnd([], Some(pattern)), HighEnd(Some(pattern))));
    var all := Searched(d, pattern);
    assert Lt(all[0], all[j]);
    NothingBelowEmpty(all[0], all[j]);
  }

  lemma NothingBelowEmpty(a: bytes, b: bytes)
    requires Lt(a, b)
    ensures b != []
  {
  }

  /** Where a client that follows the cursors stops looking. */
  function StopAt(all: seq<bytes>, i: nat, count: nat, pattern: bytes): (stop: nat)
    requires count >= 1 && i <= |all|
    ensures i <= stop <= |all|
    decreases |all| - i
  {
    var window := WindowAt(all, i, count);
    var j := Walked(window, pattern, count, 0);
    if j == |window| || window[j] == ZERO_CURSOR then i + j
    else
      assert j >= 1 by {
        CollectWalks(window, pattern, count, 0);
      }
      StopAt(all, i + j, count, pattern)
  }

  /** The client's loop with MATCH; `i` is where its cursor points, and grows with every page. */
  function FollowMatch(d: Data, cursor: bytes, count: nat, pattern: bytes, ghost i: nat): seq<bytes>
    requires Positive(count) && PointsInto(d, pattern, cursor, i) && i <= |Searched(d, pattern)|
    decreases |Searched(d, pattern)| - i
  {
    var page := Answer(d, cursor, count, Some(pattern));
    if CursorText(page) == ZERO_CURSOR then page.keys
    else
      NextPointsInto(d, pattern, cursor, i, count);
      MatchPage(d, pattern, cursor, i, count);
      page.keys + FollowMatch(d, CursorText(page), count, pattern,
                              i + Walked(WindowAt(Searched(d, pattern), i, count), pattern, count, 0))
  }

  /** With MATCH the iteration ends too, and shows the matches of the range up to where it stops. */
  lemma {:induction false} MatchIteration(d: Data, cursor: bytes, count: nat, pattern: bytes, i: nat)
    requires Positive(count) && PointsInto(d, pattern, cursor, i) && i <= |Searched(d, pattern)|
    ensures var all := Searched(d, pattern);
      FollowMatch(d, cursor, count, pattern, i) == Filter(all[i..StopAt(all, i, count, pattern)], pattern)
    decreases |Searched(d, pattern)| - i
  {
    hide Answer, Searched, Walked, Filter, PointsInto, WindowAt, Within;
    var all := Searched(d, pattern);
    MatchPage(d, pattern, cursor, i, count);
    WindowIsPart(all, i, count);
    var page := Answer(d, cursor, count, Some(pattern));
    var j := Walked(WindowAt(all, i, count), pattern, count, 0);
    if CursorText(page) != ZERO_CURSOR {
      NextPointsInto(d, pattern, cursor, i, count);
      MatchIteration(d, CursorText(page), count, pattern, i + j);
      FilterInTwo(all, i, i + j, StopAt(all, i + j, count, pattern), pattern);
    }
  }

  lemma FilterInTwo(all: seq<bytes>, i: nat, j: nat, k: nat, pattern: bytes)
    requires i <= j <= k <= |all|
    ensures Filter(all[i..j], pattern) + Filter(all[j..k], pattern) == Filter(all[i..k], pattern)
  {
    hide Filter;
    FilterConcat(all[i..j], all[j..k], pattern);
    assert all[i..j] + all[j..k] == all[i..k];
  }

  // The positions of the matches, page by page.

  function HitsFrom(all: seq<bytes>, i: nat, pattern: bytes): (hits: seq<nat>)
    requires i <= |all|
    ensures forall h :: 0 <= h < |hits| ==> i <= hits[h] < |all|
    decreases |all| - i
  {
    if i == |all| then []
    else (if Glob.Matches(pattern, all[i]) then [i] else []) + HitsFrom(all, i + 1, pattern)
  }

  /**
   * From position `i` on: as long as more than `count` matches are left, the count-th of them is
   * among the next 2 * count keys and the key behind it is not "0"; the last ones are among the
   * next 2 * count + 1 keys.
   */
  predicate PagesReach(all: seq<bytes>, i: nat, count: nat, pattern: bytes)
    requires count >= 1 && i <= |all|
    decreases |all| - i
  {
    var hits := HitsFrom(all, i, pattern);
    if |hits| <= count then hits == [] || hits[|hits| - 1] <= i + 2 * count
    else
      hits[count - 1] < i + 2 * count && hits[count - 1] + 1 < |all| && all[hits[count - 1] + 1] != ZERO_CURSOR
      && PagesReach(all, hits[count - 1] + 1, count, pattern)
  }

  lemma WalkedStep(all: seq<bytes>, i: nat, end: nat, pattern: bytes, count: nat, got: nat)
    requires i < end <= |all| && got < count
    ensures Walked(all[i..end], pattern, count, got)
      == 1 + Walked(all[i + 1..end], pattern, count, if Glob.Matches(pattern, all[i]) then got + 1 else got)
  {
    hide Glob.Matches;
    assert all[i..end][0] == all[i] && all[i..end][1..] == all[i + 1..end];
  }

  lemma HitsStep(all: seq<bytes>, i: nat, pattern: bytes)
    requires i < |all|
    ensures HitsFrom(all, i, pattern)
      == if Glob.Matches(pattern, all[i]) then [i] + HitsFrom(all, i + 1, pattern) else HitsFrom(all, i + 1, pattern)
  {
    hide Glob.Matches;
    assert [] + HitsFrom(all, i + 1, pattern) == HitsFrom(all, i + 1, pattern);
  }

  lemma WalkedNone(all: seq<bytes>, i: nat, end: nat, pattern: bytes, count: nat, got: nat)
    requires i <= end <= |all| && (i == end || got >= count)
    ensures Walked(all[i..end], pattern, count, got) == 0
  {
  }

  lemma {:induction false} WalkedByHits(all: seq<bytes>, i: nat, end: nat, pattern: bytes, count: nat, got: nat)
    requires i <= end <= |all| && got <= count
    ensures var hits := HitsFrom(all, i, pattern);
      Walked(all[i..end], pattern, count, got)
      == if got == count then 0
         else if |hits| >= count - got && hits[count - got - 1] < end then hits[count - got - 1] + 1 - i
         else end - i
    decreases end - i
  {
    hide Glob.Matches, Walked, HitsFrom;
    if i < end && got < count {
      WalkedStep(all, i, end, pattern, count, got);
      HitsStep(all, i, pattern);
      WalkedByHits(all, i + 1, end, pattern, count, if Glob.Matches(pattern, all[i]) then got + 1 else got);
    } else {
      WalkedNone(all, i, end, pattern, count, got);
    }
  }

  lemma {:induction false} NoHits(all: seq<bytes>, i: nat, pattern: bytes)
    requires i <= |all|
    ensures Filter(all[i..], pattern) == [] <==> HitsFrom(all, i, pattern) == []
    decreases |all| - i
  {
    hide Glob.Matches;
    if i < |all| {
      NoHits(all, i + 1, pattern);
      assert all[i..] == [all[i]] + all[i + 1..];
      FilterCons(all[i], all[i + 1..], pattern);
    }
  }

  /** No match is left from `k` on exactly if the last one lies before it. */
  lemma {:induction false} HitsPast(all: seq<bytes>, i: nat, k: nat, pattern: bytes)
    requires i <= k <= |all|
    ensures var hits := HitsFrom(all, i, pattern);
      HitsFrom(all, k, pattern) == [] <==> hits == [] || hits[|hits| - 1] < k
    decreases k - i
  {
    hide *;
    if i < k {
      HitsStep(all, i, pattern);
      HitsPast(all, i + 1, k, pattern);
      LastOf(i, HitsFrom(all, i + 1, pattern));
    }
  }

  lemma ConsSlice(i: nat, more: seq<nat>, n: nat)
    requires n <= |more|
    ensures ([i] + more)[n + 1..] == more[n..]
    ensures ([i] + more)[n] == if n == 0 then i else more[n - 1]
  {
    assert more[0..] == more;
  }

  lemma LastOf(i: nat, more: seq<nat>)
    ensures ([i] + more)[|[i] + more| - 1] == if more == [] then i else more[|more| - 1]
  {
  }

  lemma SomethingLeft(all: seq<bytes>, i: nat, pattern: bytes)
    requires i <= |all| && HitsFrom(all, i, pattern) != []
    ensures i < |all|
  {
  }

  lemma {:induction false} HitsAfter(all: seq<bytes>, i: nat, n: nat, pattern: bytes)
    requires i < |all| && n < |HitsFrom(all, i, pattern)|
    ensures var hits := HitsFrom(all, i, pattern);
      HitsFrom(all, hits[n] + 1, pattern) == hits[n + 1..]
    decreases |all| - i
  {
    hide *;
    var hits, more := HitsFrom(all, i, pattern), HitsFrom(all, i + 1, pattern);
    HitsStep(all, i, pattern);
    if !Glob.Matches(pattern, all[i]) {
      SomethingLeft(all, i + 1, pattern);
      HitsAfter(all, i + 1, n, pattern);
    } else if n > 0 {
      SomethingLeft(all, i + 1, pattern);
      HitsAfter(all, i + 1, n - 1, pattern);
      ConsSlice(i, more, n);
    } else {
      ConsSlice(i, more, 0);
    }
  }

  lemma PagesStep(all: seq<bytes>, i: nat, count: nat, pattern: bytes)
    requires count >= 1 && i <= |all|
    ensures var hits := HitsFrom(all, i, pattern);
      PagesReach(all, i, count, pattern)
      == if |hits| <= count then hits == [] || hits[|hits| - 1] <= i + 2 * count
         else
           hits[count - 1] < i + 2 * count && hits[count - 1] + 1 < |all| && all[hits[count - 1] + 1] != ZERO_CURSOR
           && PagesReach(all, hits[count - 1] + 1, count, pattern)
  {
    hide Glob.Matches, HitsFrom;
  }

  lemma StopStep(all: seq<bytes>, i: nat, count: nat, pattern: bytes)
    requires count >= 1 && i <= |all|
    ensures var window := WindowAt(all, i, count);
      var j := Walked(window, pattern, count, 0);
      (j < |window| && window[j] != ZERO_CURSOR ==> j >= 1)
      && StopAt(all, i, count, pattern)
        == if j == |window| || window[j] == ZERO_CURSOR then i + j else StopAt(all, i + j, count, pattern)
  {
    hide Glob.Matches, Walked, Collect, Filter;
    CollectWalks(WindowAt(all, i, count), pattern, count, 0);
  }

  /** The iteration stops with this page. */
  lemma StopsHere(all: seq<bytes>, i: nat, count: nat, pattern: bytes, j: nat)
    requires count >= 1 && i <= |all| && j == Walked(WindowAt(all, i, count), pattern, count, 0)
    requires j == |WindowAt(all, i, count)| || WindowAt(all, i, count)[j] == ZERO_CURSOR
    ensures i + j <= |all| && (HitsFrom(all, i + j, pattern) == [] <==> PagesReach(all, i, count, pattern))
  {
    hide *;
    var end := i + |WindowAt(all, i, count)|;
    WindowIsPart(all, i, count);
    var hits := HitsFrom(all, i, pattern);
    PagesStep(all, i, count, pattern);
    WalkedByHits(all, i, end, pattern, count, 0);
    PartOfPart(all, i, end, j);
    HitsPast(all, i, i + j, pattern);
    if |hits| > count {
      SomethingLeft(all, i, pattern);
      HitsAfter(all, i, count - 1, pattern);
      assert hits[|hits| - 1] == hits[count..][|hits| - 1 - count];
    }
  }

  /** The iteration goes on behind the count-th match. */
  lemma GoesOn(all: seq<bytes>, i: nat, count: nat, pattern: bytes, j: nat)
    requires count >= 1 && i <= |all| && j == Walked(WindowAt(all, i, count), pattern, count, 0)
    requires j < |WindowAt(all, i, count)| && WindowAt(all, i, count)[j] != ZERO_CURSOR
    ensures i + j <= |all| && (PagesReach(all, i + j, count, pattern) <==> PagesReach(all, i, count, pattern))
  {
    hide *;
    var end := i + |WindowAt(all, i, count)|;
    WindowIsPart(all, i, count);
    PagesStep(all, i, count, pattern);
    WalkedByHits(all, i, end, pattern, count, 0);
    PartOfPart(all, i, end, j);
    SomethingLeft(all, i, pattern);
    HitsAfter(all, i, count - 1, pattern);
    PagesStep(all, i + j, count, pattern);
  }

  /** Stopping where the pages lead leaves no match behind exactly if the pages reach them all. */
  lemma {:induction false} StopLeavesNone(all: seq<bytes>, i: nat, count: nat, pattern: bytes)
    requires count >= 1 && i <= |all|
    ensures HitsFrom(all, StopAt(all, i, count, pattern), pattern) == [] <==> PagesReach(all, i, count, pattern)
    decreases |all| - i
  {
    hide *;
    var window := WindowAt(all, i, count);
    var j := Walked(window, pattern, count, 0);
    StopStep(all, i, count, pattern);
    if j < |window| && window[j] != ZERO_CURSOR {
      GoesOn(all, i, count, pattern, j);
      StopLeavesNone(all, i + j, count, pattern);
    } else {
      StopsHere(all, i, count, pattern, j);
    }
  }

  /** It shows every match of the range if and only if the pages reach all of them. */
  lemma MatchIterationComplete(d: Data, count: nat, pattern: bytes)
    requires Positive(count)
    ensures FollowMatch(d, ZERO_CURSOR, count, pattern, 0) == Filter(Searched(d, pattern), pattern)
      <==> PagesReach(Searched(d, pattern), 0, count, pattern)
  {
    hide Searched, Filter, StopAt, FollowMatch, PagesReach, HitsFrom;
    var all := Searched(d, pattern);
    MatchIteration(d, ZERO_CURSOR, count, pattern, 0);
    var stop := StopAt(all, 0, count, pattern);
    FilterConcat(all[..stop], all[stop..], pattern);
    assert all[0..stop] == all[..stop] && all[..stop] + all[stop..] == all;
    NoHits(all, stop, pattern);
    StopLeavesNone(all, 0, count, pattern);
  }

  /** COUNT 0 never advances: the page is empty and the cursor is the key it started at. */
  lemma CountZeroStalls(d: Data, cursor: bytes, pattern: Option<bytes>)
    requires Window(d, cursor, 0, pattern) != []
    ensures Answer(d, cursor, 0, pattern) == Page([], Some(Window(d, cursor, 0, pattern)[0]))
  {
  }
}
