/** Ascending key sequences, and KEYS and SCAN as range queries over them. */
module Keyspace {
  import opened Bytes
  import opened Store
  import Glob

  predicate Lt(a: bytes, b: bytes) {
    Leq(a, b) && a != b
  }

  ghost predicate Ascending(s: seq<bytes>) {
    forall i, j :: 0 <= i < j < |s| ==> Lt(s[i], s[j])
  }

  lemma {:induction false} SortedAscending(s: set<bytes>)
    ensures Ascending(Sorted(s))
    decreases |s|
  {
    if s != {} {
      var m := Least(s);
      var rest := Sorted(s - {m});
      SortedAscending(s - {m});
      forall j | 0 <= j < |rest| ensures Lt(m, rest[j]) {
        assert rest[j] in rest;
      }
    }
  }

  /** An ascending sequence is determined by its elements. */
  lemma {:induction false} AscendingUnique(a: seq<bytes>, b: seq<bytes>)
    requires Ascending(a) && Ascending(b)
    requires forall k :: k in a <==> k in b
    ensures a == b
  {
    if a == [] {
      assert forall j :: 0 <= j < |b| ==> b[j] in b;
    } else {
      assert a[0] in a && a[0] in b;
      SameHead(a, b);
      TailElements(a);
      TailElements(b);
      AscendingUnique(a[1..], b[1..]);
      assert a == [a[0]] + a[1..] && b == [b[0]] + b[1..];
    }
  }

  lemma SameHead(a: seq<bytes>, b: seq<bytes>)
    requires Ascending(a) && Ascending(b) && a != [] && b != []
    requires forall k :: k in a <==> k in b
    ensures a[0] == b[0]
  {
    assert a[0] in b && b[0] in a;
    var i :| 0 <= i < |b| && b[i] == a[0];
    var j :| 0 <= j < |a| && a[j] == b[0];
    if i > 0 && j > 0 {
      LeqAntisymmetric(a[0], b[0]);
    }
  }

  lemma TailElements(a: seq<bytes>)
    requires Ascending(a) && a != []
    ensures Ascending(a[1..])
    ensures forall k :: k in a[1..] <==> k in a && k != a[0]
  {
    forall k ensures k in a[1..] <==> k in a && k != a[0] {
      if k in a && k != a[0] {
        var i :| 0 <= i < |a| && a[i] == k;
        assert a[1..][i - 1] == k;
      }
      if k in a[1..] {
        var i :| 0 <= i < |a[1..]| && a[1..][i] == k;
        assert a[i + 1] == k;
      }
    }
  }

  /** Keys from position `i` on are the keys not below the one at position `i`. */
  lemma SuffixIsRange(d: Data, lo: bytes, hi: bytes, i: nat)
    requires i < |Sorted(Within(d, lo, hi))|
    ensures var all := Sorted(Within(d, lo, hi));
      Sorted(Within(d, all[i], hi)) == all[i..]
  {
    var all := Sorted(Within(d, lo, hi));
    var from := Sorted(Within(d, all[i], hi));
    SortedAscending(Within(d, lo, hi));
    SortedAscending(Within(d, all[i], hi));
    forall k ensures k in from <==> k in all[i..] {
      SuffixMember(d, lo, hi, i, k);
    }
    AscendingUnique(from, all[i..]);
  }

  lemma SuffixMember(d: Data, lo: bytes, hi: bytes, i: nat, k: bytes)
    requires i < |Sorted(Within(d, lo, hi))|
    ensures var all := Sorted(Within(d, lo, hi));
      k in Within(d, all[i], hi) <==> k in all[i..]
  {
    var all := Sorted(Within(d, lo, hi));
    SortedAscending(Within(d, lo, hi));
    assert all[i] in all;
    if k in all[i..] {
      var j :| 0 <= j < |all[i..]| && all[i..][j] == k;
      assert all[i + j] == k && k in all;
      LeqReflexive(k);
    }
    if k in Within(d, all[i], hi) {
      LeqTransitive(lo, all[i], k);
      assert k in all;
      var j :| 0 <= j < |all| && all[j] == k;
      if j < i {
        LeqAntisymmetric(k, all[i]);
      }
      assert all[i..][j - i] == k;
    }
  }

  // ---- KEYS ----

  const TILDE: byte := 126
  const BRACKET: byte := 91
  const KEYS_LIMIT: nat := 100000

  /** The upper end of a full scan: 255 bytes of 0xFF. */
  function Top(): (s: bytes)
    ensures |s| == 255 && forall i :: 0 <= i < 255 ==> s[i] == 255
  {
    seq(255, _ => 255)
  }

  /** Everything before the first `*`, `?` or `[`. */
  function ExtractPrefix(pattern: bytes): (prefix: bytes)
    ensures prefix <= pattern
    ensures Glob.STAR !in prefix && Glob.QUESTION !in prefix
  {
    if pattern == [] || pattern[0] in [Glob.STAR, Glob.QUESTION, BRACKET] then []
    else [pattern[0]] + ExtractPrefix(pattern[1..])
  }

  function Filter(keys: seq<bytes>, pattern: bytes): seq<bytes> {
    if keys == [] then []
    else
      var last := keys[|keys| - 1];
      Filter(keys[..|keys| - 1], pattern) + if Glob.Matches(pattern, last) then [last] else []
  }

  lemma {:induction false} FilterMembers(keys: seq<bytes>, pattern: bytes, k: bytes)
    ensures k in Filter(keys, pattern) <==> k in keys && Glob.Matches(pattern, k)
  {
    if keys != [] {
      FilterMembers(keys[..|keys| - 1], pattern, k);
      assert keys == keys[..|keys| - 1] + [keys[|keys| - 1]];
    }
  }

  /** The range KEYS reads. */
  function KeysRange(d: Data, pattern: bytes): set<bytes> {
    var prefix := ExtractPrefix(pattern);
    if prefix == [] then Within(d, [], Top()) else Within(d, prefix, prefix + [TILDE])
  }

  function KeysAnswer(d: Data, pattern: bytes): seq<bytes> {
    var prefix := ExtractPrefix(pattern);
    if prefix != [] && pattern == prefix then if prefix in d then [prefix] else []
    else Filter(Take(Sorted(KeysRange(d, pattern)), KEYS_LIMIT), pattern)
  }

  /** The keys KEYS is documented to return. */
  ghost predicate Wanted(d: Data, pattern: bytes, k: bytes) {
    k in d && Glob.Matches(pattern, k)
  }

  /**
   * Keys the range cannot reach: those that continue the prefix with a byte above `~`, or with
   * `~` and something after it; without a prefix, those above 255 bytes of 0xFF.
   */
  predicate OutOfReach(pattern: bytes, k: bytes) {
    var prefix := ExtractPrefix(pattern);
    if prefix == [] then !Leq(k, Top())
    else if pattern == prefix then false
    else |k| > |prefix| && (k[|prefix|] > 126 || (k[|prefix|] == 126 && |k| > |prefix| + 1))
  }

  lemma LeqUnit(f: bytes, b: byte)
    ensures Leq(f, [b]) <==> f == [] || f[0] < b || f == [b]
  {
    if f != [] {
      assert f == [f[0]] + f[1..];
    }
  }

  lemma {:induction false} PrefixRange(prefix: bytes, k: bytes, b: byte)
    ensures Leq(prefix, k) && Leq(k, prefix + [b])
      <==> prefix <= k && (|k| == |prefix| || k[|prefix|] < b || (k[|prefix|] == b && |k| == |prefix| + 1))
  {
    if Leq(prefix, k) && Leq(k, prefix + [b]) {
      LeqBetween(prefix, k, [b]);
    }
    if prefix <= k {
      var f := k[|prefix|..];
      assert k == prefix + f && prefix == prefix + [];
      LeqPrefix(prefix, [], f);
      LeqPrefix(prefix, f, [b]);
      LeqUnit(f, b);
    }
  }

  lemma InTake(all: seq<bytes>, n: nat, i: nat)
    requires Ascending(all) && i < |all|
    ensures all[i] in Take(all, n) <==> i < n
  {
    if i < n {
      assert Take(all, n)[i] == all[i];
    }
    if all[i] in Take(all, n) {
      var h :| 0 <= h < |Take(all, n)| && Take(all, n)[h] == all[i];
      assert all[h] == all[i];
    }
  }

  /** Every matching key of the range is among `keys`. */
  ghost predicate AllSeen(range: set<bytes>, pattern: bytes, keys: seq<bytes>) {
    forall k :: k in range && Glob.Matches(pattern, k) ==> k in keys
  }

  /** No key of the range from position `n` on matches. */
  ghost predicate NoneFrom(range: set<bytes>, pattern: bytes, n: nat) {
    forall i :: n <= i < |Sorted(range)| ==> !Glob.Matches(pattern, Sorted(range)[i])
  }

  lemma SeenOrNot(range: set<bytes>, keys: seq<bytes>, pattern: bytes, n: nat)
    requires forall i :: 0 <= i < |Sorted(range)| ==>
      (Sorted(range)[i] in keys <==> i < n && Glob.Matches(pattern, Sorted(range)[i]))
    ensures AllSeen(range, pattern, keys) <==> NoneFrom(range, pattern, n)
  {
    hide Glob.Matches;
    var all := Sorted(range);
    if AllSeen(range, pattern, keys) {
      forall i | n <= i < |all| ensures !Glob.Matches(pattern, all[i]) {
        assert all[i] in all && all[i] in range;
      }
    }
    if NoneFrom(range, pattern, n) {
      forall k | k in range && Glob.Matches(pattern, k) ensures k in keys {
        assert k in all;
        var i :| 0 <= i < |all| && all[i] == k;
        assert !(n <= i);
      }
    }
  }

  /** No wildcard at all: KEYS looks the key up instead of scanning. */
  predicate Plain(pattern: bytes) {
    ExtractPrefix(pattern) != [] && pattern == ExtractPrefix(pattern)
  }

  /** A key is in the answer exactly if it is wanted, the range reaches it, and it is not past the limit. */
  lemma KeysReach(d: Data, pattern: bytes, k: bytes)
    ensures k in KeysAnswer(d, pattern)
      <==> Wanted(d, pattern, k) && !OutOfReach(pattern, k)
           && (Plain(pattern) || k in Take(Sorted(KeysRange(d, pattern)), 100000))
    ensures Wanted(d, pattern, k) && !OutOfReach(pattern, k) ==> Plain(pattern) || k in KeysRange(d, pattern)
  {
    var prefix := ExtractPrefix(pattern);
    var rest := pattern[|prefix|..];
    assert pattern == prefix + rest;
    if Plain(pattern) {
      Glob.PlainPattern(pattern, k);
    } else {
      var range := KeysRange(d, pattern);
      FilterMembers(Take(Sorted(range), KEYS_LIMIT), pattern, k);
      TakeMembers(Sorted(range), KEYS_LIMIT, k);
      if prefix != [] {
        PrefixRange(prefix, k, TILDE);
        if Glob.Matches(pattern, k) {
          Glob.MatchStartsWith(prefix, rest, k);
        }
      }
    }
  }

  lemma TakeMembers(all: seq<bytes>, n: nat, k: bytes)
    ensures k in Take(all, n) ==> k in all
  {
  }

  lemma RangeIsKept(d: Data, pattern: bytes, k: bytes)
    requires k in KeysRange(d, pattern)
    ensures k in d
  {
  }

  /** KEYS returns what filtering all keys would. */
  ghost predicate Complete(d: Data, pattern: bytes) {
    forall k :: k in KeysAnswer(d, pattern) <==> Wanted(d, pattern, k)
  }

  ghost predicate AllReached(d: Data, pattern: bytes) {
    forall k :: Wanted(d, pattern, k) ==> !OutOfReach(pattern, k)
  }

  /**
   * KEYS equals filtering all keys if and only if no matching key is out of reach of the range,
   * and none of them comes after the first 100000 keys of it.
   */
  lemma KeysIsFilter(d: Data, pattern: bytes)
    ensures Complete(d, pattern)
      <==> AllReached(d, pattern) && (Plain(pattern) || NoneFrom(KeysRange(d, pattern), pattern, 100000))
  {
    hide Sorted, Take, KeysRange, OutOfReach, KeysAnswer, Plain, Glob.Matches;
    var range := KeysRange(d, pattern);
    var window := Take(Sorted(range), KEYS_LIMIT);
    forall k
      ensures k in KeysAnswer(d, pattern)
        <==> Wanted(d, pattern, k) && !OutOfReach(pattern, k) && (Plain(pattern) || k in window)
      ensures Wanted(d, pattern, k) && !OutOfReach(pattern, k) ==> Plain(pattern) || k in range
    {
      KeysReach(d, pattern, k);
    }
    if !Plain(pattern) {
      WindowSeen(d, pattern);
      forall k | k in range ensures k in d {
        RangeIsKept(d, pattern, k);
      }
      hide NoneFrom;
    }
  }

  lemma WindowSeen(d: Data, pattern: bytes)
    ensures var range := KeysRange(d, pattern);
      var window := Take(Sorted(range), KEYS_LIMIT);
      (forall k :: k in range && Glob.Matches(pattern, k) ==> k in window) <==> NoneFrom(range, pattern, KEYS_LIMIT)
  {
    hide Sorted, Take, KeysRange, Glob.Matches, NoneFrom;
    var range := KeysRange(d, pattern);
    var window := Take(Sorted(range), KEYS_LIMIT);
    SortedAscending(range);
    forall i | 0 <= i < |Sorted(range)|
      ensures Sorted(range)[i] in Filter(window, pattern)
        <==> i < KEYS_LIMIT && Glob.Matches(pattern, Sorted(range)[i])
    {
      InTake(Sorted(range), KEYS_LIMIT, i);
      FilterMembers(window, pattern, Sorted(range)[i]);
    }
    SeenOrNot(range, Filter(window, pattern), pattern, KEYS_LIMIT);
    forall k ensures k in Filter(window, pattern) <==> k in window && Glob.Matches(pattern, k) {
      FilterMembers(window, pattern, k);
    }
  }

  /** The answer is ascending and names no key twice. */
  lemma KeysAscending(d: Data, pattern: bytes)
    ensures Ascending(KeysAnswer(d, pattern))
  {
    SortedAscending(KeysRange(d, pattern));
    FilterAscending(Take(Sorted(KeysRange(d, pattern)), KEYS_LIMIT), pattern);
  }

  lemma {:induction false} FilterAscending(keys: seq<bytes>, pattern: bytes)
    requires Ascending(keys)
    ensures Ascending(Filter(keys, pattern))
  {
    if keys != [] {
      var front, last := keys[..|keys| - 1], keys[|keys| - 1];
      FilterAscending(front, pattern);
      var f := Filter(front, pattern);
      forall i | 0 <= i < |f| ensures Lt(f[i], last) {
        FilterMembers(front, pattern, f[i]);
        var j :| 0 <= j < |front| && front[j] == f[i];
        assert keys[j] == f[i];
      }
    }
  }

  method Keys(store: FeoxStore, pattern: bytes) returns (keys: seq<bytes>)
    ensures keys == KeysAnswer(store.data, pattern)
  {
    hide Sorted, Within, Glob.Matches, Top;
    var prefix := ExtractPrefix(pattern);
    var lo, hi := [], Top();
    if prefix != [] {
      if pattern == prefix {
        var got := store.GetBytes(prefix);
        return if got.Ok? then [prefix] else [];
      }
      lo, hi := prefix, prefix + [TILDE];
    }
    var pairs := store.RangeQuery(lo, hi, KEYS_LIMIT);
    ghost var window := Range(store.data, lo, hi, KEYS_LIMIT);
    keys := [];
    var i := 0;
    while i < |pairs|
      invariant 0 <= i <= |pairs|
      invariant keys == Filter(window[..i], pattern)
    {
      assert window[..i + 1][..i] == window[..i];
      var matches := Glob.ExecutorMatch(pattern, pairs[i].0);
      if matches {
        keys := keys + [pairs[i].0];
      }
      i := i + 1;
    }
    assert window[..i] == window;
  }
}
