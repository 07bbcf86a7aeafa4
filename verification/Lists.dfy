/**
 * List commands over the store, run alone. Every operation is a loop of read, compare-and-swap
 * and value access; each is proved to act on the list's cells as a plain sequence operation.
 */
module Lists {
  import opened Bytes
  import opened Store
  import opened ListState
  import Decimal

  type Cell = Option<bytes>

  /** The values present, in order; gaps are invisible to readers. */
  function Somes(cells: seq<Cell>): seq<bytes> {
    if cells == [] then [] else (if cells[0].Some? then [cells[0].value] else []) + Somes(cells[1..])
  }

  function Full(values: seq<bytes>): (cells: seq<Cell>)
    ensures |cells| == |values|
  {
    seq(|values|, i requires 0 <= i < |values| => Some(values[i]))
  }

  function Reversed<T>(s: seq<T>): (r: seq<T>)
    ensures |r| == |s|
  {
    if s == [] then [] else Reversed(s[1..]) + [s[0]]
  }

  lemma {:induction false} ReversedAt<T>(s: seq<T>, i: nat)
    requires i < |s|
    ensures Reversed(s)[i] == s[|s| - 1 - i]
  {
    if i < |s| - 1 {
      ReversedAt(s[1..], i);
    }
  }

  lemma {:induction false} SomesConcat(a: seq<Cell>, b: seq<Cell>)
    ensures Somes(a + b) == Somes(a) + Somes(b)
  {
    if a == [] {
      assert a + b == b;
    } else {
      assert (a + b)[1..] == a[1..] + b;
      SomesConcat(a[1..], b);
    }
  }

  lemma {:induction false} SomesOfFull(values: seq<bytes>)
    ensures Somes(Full(values)) == values
  {
    if values != [] {
      assert Full(values)[1..] == Full(values[1..]);
      SomesOfFull(values[1..]);
    }
  }

  lemma SomesUnit(cell: Cell)
    ensures Somes([cell]) == if cell.Some? then [cell.value] else []
  {
    var unit: seq<Cell> := [cell];
    assert unit[1..] == [];
  }

  predicate NoGaps(cells: seq<Cell>) {
    forall i :: 0 <= i < |cells| ==> cells[i].Some?
  }

  lemma {:induction false} NoGapsAt(cells: seq<Cell>)
    requires NoGaps(cells)
    ensures Full(Somes(cells)) == cells
  {
    if cells != [] {
      NoGapsAt(cells[1..]);
      var s := Somes(cells);
      assert s[1..] == Somes(cells[1..]);
      assert Full(s)[1..] == Full(s[1..]);
      assert Full(s) == [cells[0]] + cells[1..];
    }
  }

  /** Popping steps over gaps until `k` values were found or nothing is left. */
  datatype Popped = Popped(values: seq<bytes>, rest: seq<Cell>)

  function PopLeft(cells: seq<Cell>, k: nat): Popped {
    if k == 0 || cells == [] then Popped([], cells)
    else if cells[0].None? then PopLeft(cells[1..], k)
    else
      var r := PopLeft(cells[1..], k - 1);
      Popped([cells[0].value] + r.values, r.rest)
  }

  function PopRight(cells: seq<Cell>, k: nat): Popped {
    if k == 0 || cells == [] then Popped([], cells)
    else if cells[|cells| - 1].None? then PopRight(cells[..|cells| - 1], k)
    else
      var r := PopRight(cells[..|cells| - 1], k - 1);
      Popped([cells[|cells| - 1].value] + r.values, r.rest)
  }

  function Max(a: int, b: int): int {
    if a >= b then a else b
  }

  function Min(a: int, b: int): int {
    if a <= b then a else b
  }

  /** What is left is a suffix. */
  lemma {:induction false} PopLeftLeaves(cells: seq<Cell>, k: nat)
    ensures var rest := PopLeft(cells, k).rest; |rest| <= |cells| && rest == cells[|cells| - |rest|..]
  {
    if k > 0 && cells != [] {
      var left := if cells[0].None? then k else k - 1;
      PopLeftLeaves(cells[1..], left);
      var rest := PopLeft(cells[1..], left).rest;
      assert cells[1..][|cells| - 1 - |rest|..] == cells[|cells| - |rest|..];
    }
  }

  /** LPOP k takes the first k values, in order, and leaves the others. */
  lemma {:induction false} PopLeftTakesPrefix(cells: seq<Cell>, k: nat)
    ensures var r := PopLeft(cells, k);
      r.values + Somes(r.rest) == Somes(cells)
      && |r.values| == Min(k, |Somes(cells)|)
      && |r.rest| <= |cells| && r.rest == cells[|cells| - |r.rest|..]
  {
    PopLeftLeaves(cells, k);
    if k == 0 || cells == [] {
    } else if cells[0].None? {
      PopLeftTakesPrefix(cells[1..], k);
    } else {
      PopLeftTakesPrefix(cells[1..], k - 1);
      var r := PopLeft(cells[1..], k - 1);
      assert [cells[0].value] + (r.values + Somes(r.rest)) == ([cells[0].value] + r.values) + Somes(r.rest);
    }
  }

  lemma {:induction false} ReversedSnoc<T>(s: seq<T>, x: T)
    ensures Reversed(s + [x]) == [x] + Reversed(s)
  {
    if s != [] {
      assert (s + [x])[1..] == s[1..] + [x];
      ReversedSnoc(s[1..], x);
    }
  }

  lemma {:induction false} ReversedConcat<T>(a: seq<T>, b: seq<T>)
    ensures Reversed(a + b) == Reversed(b) + Reversed(a)
  {
    if a == [] {
      assert a + b == b;
    } else {
      assert (a + b)[1..] == a[1..] + b;
      ReversedConcat(a[1..], b);
    }
  }

  lemma ReversedCons<T>(x: T, s: seq<T>)
    ensures Reversed([x] + s) == Reversed(s) + [x]
  {
    assert ([x] + s)[1..] == s;
  }

  lemma {:induction false} SomesSnoc(cells: seq<Cell>)
    requires cells != []
    ensures Somes(cells) == Somes(cells[..|cells| - 1])
      + if cells[|cells| - 1].Some? then [cells[|cells| - 1].value] else []
  {
    var last := [cells[|cells| - 1]];
    assert cells == cells[..|cells| - 1] + last;
    SomesConcat(cells[..|cells| - 1], last);
    assert last[1..] == [];
  }

  /** RPOP k takes the last k values, last one first, and leaves the others. */
  lemma {:induction false} PopRightTakesSuffix(cells: seq<Cell>, k: nat)
    ensures var r := PopRight(cells, k);
      Somes(r.rest) + Reversed(r.values) == Somes(cells)
      && |r.values| == Min(k, |Somes(cells)|)
      && |r.rest| <= |cells| && r.rest == cells[..|r.rest|]
  {
    if k != 0 && cells != [] {
      SomesSnoc(cells);
      var front := cells[..|cells| - 1];
      if cells[|cells| - 1].None? {
        PopRightTakesSuffix(front, k);
      } else {
        PopRightTakesSuffix(front, k - 1);
        var r := PopRight(front, k - 1);
        ReversedCons(cells[|cells| - 1].value, r.values);
        assert Somes(r.rest) + (Reversed(r.values) + [cells[|cells| - 1].value])
            == (Somes(r.rest) + Reversed(r.values)) + [cells[|cells| - 1].value];
      }
    }
  }

  /** One more turn of a popping loop: what was popped so far plus what is still to come. */
  lemma {:induction false} PopLeftInTwo(cells: seq<Cell>, k: nat, more: nat)
    ensures var r := PopLeft(cells, k);
      var s := PopLeft(r.rest, more);
      PopLeft(cells, k + more) == Popped(r.values + s.values, s.rest)
  {
    if k == 0 || cells == [] {
      assert [] + PopLeft(cells, more).values == PopLeft(cells, more).values;
    } else if cells[0].None? {
      PopLeftInTwo(cells[1..], k, more);
    } else {
      PopLeftInTwo(cells[1..], k - 1, more);
      var r := PopLeft(cells[1..], k - 1);
      var s := PopLeft(r.rest, more);
      assert [cells[0].value] + (r.values + s.values) == ([cells[0].value] + r.values) + s.values;
    }
  }

  lemma {:induction false} PopRightInTwo(cells: seq<Cell>, k: nat, more: nat)
    ensures var r := PopRight(cells, k);
      var s := PopRight(r.rest, more);
      PopRight(cells, k + more) == Popped(r.values + s.values, s.rest)
  {
    if k == 0 || cells == [] {
      assert [] + PopRight(cells, more).values == PopRight(cells, more).values;
    } else if cells[|cells| - 1].None? {
      PopRightInTwo(cells[..|cells| - 1], k, more);
    } else {
      PopRightInTwo(cells[..|cells| - 1], k - 1, more);
      var last := cells[|cells| - 1].value;
      var r := PopRight(cells[..|cells| - 1], k - 1);
      var s := PopRight(r.rest, more);
      assert [last] + (r.values + s.values) == ([last] + r.values) + s.values;
    }
  }

  /** The elements whose index lies between the two ends: what LRANGE is documented to return. */
  function Between<T>(s: seq<T>, lo: int, hi: int): seq<T> {
    if s == [] then []
    else
      var last := |s| - 1;
      Between(s[..last], lo, hi) + if lo <= last <= hi then [s[last]] else []
  }

  /** A negative index counts from the end. */
  function FromEnd(len: nat, i: int): int {
    if i < 0 then len + i else i
  }

  /** A slice one element longer, or the same. */
  lemma SliceSnoc<T>(s: seq<T>, a: nat, hi: int)
    requires s != [] && a <= Min(hi, |s| - 1)
    ensures var n := |s| - 1;
      s[a..Min(hi, n) + 1]
      == (if a <= Min(hi, n - 1) then s[..n][a..Min(hi, n - 1) + 1] else []) + if hi >= n then [s[n]] else []
  {
  }

  lemma {:induction false} BetweenIsSlice<T>(s: seq<T>, lo: int, hi: int)
    ensures var a := if lo < 0 then 0 else lo;
      var b := Min(hi, |s| - 1);
      Between(s, lo, hi) == if a <= b then s[a..b + 1] else []
  {
    if s != [] {
      BetweenIsSlice(s[..|s| - 1], lo, hi);
      var a := if lo < 0 then 0 else lo;
      if a <= Min(hi, |s| - 1) {
        SliceSnoc(s, a, hi);
      }
    }
  }

  lemma {:induction false} BetweenOne<T>(s: seq<T>, i: int)
    ensures Between(s, i, i) == if 0 <= i < |s| then [s[i]] else []
  {
    if s != [] {
      BetweenOne(s[..|s| - 1], i);
    }
  }

  /** Without gaps, a range over positions is the range over values. */
  lemma {:induction false} RangeWithoutGaps(cells: seq<Cell>, lo: int, hi: int)
    requires NoGaps(cells)
    ensures |Somes(cells)| == |cells|
    ensures Somes(Between(cells, lo, hi)) == Between(Somes(cells), lo, hi)
  {
    if cells != [] {
      var last := |cells| - 1;
      RangeWithoutGaps(cells[..last], lo, hi);
      hide Somes;
      SomesSnoc(cells);
      assert Somes(cells)[..last] == Somes(cells[..last]);
      SomesUnit(cells[last]);
      var front := Between(cells[..last], lo, hi);
      SomesConcat(front, [cells[last]]);
      assert front + [] == front && Between(Somes(cells[..last]), lo, hi) + [] == Between(Somes(cells[..last]), lo, hi);
    }
  }

  function At(cells: seq<Cell>, index: int): Option<bytes> {
    var i := FromEnd(|cells|, index);
    if 0 <= i < |cells| then cells[i] else None
  }

  /** What LRANGE answers: the values between the two ends, gaps skipped. */
  function RangeAnswer(cells: seq<Cell>, start: int, stop: int): seq<bytes> {
    Somes(Between(cells, FromEnd(|cells|, start), FromEnd(|cells|, stop)))
  }

  /** LINDEX i is LRANGE i i. */
  lemma IndexIsUnitRange(cells: seq<Cell>, i: int)
    ensures RangeAnswer(cells, i, i)
      == if At(cells, i).Some? then [At(cells, i).value] else []
  {
    var j := FromEnd(|cells|, i);
    BetweenOne(cells, j);
    if 0 <= j < |cells| {
      SomesUnit(cells[j]);
    }
  }

  lemma SomesNone()
    ensures Somes([]) == []
  {
  }

  lemma SomesGrow(cells: seq<Cell>, a: nat, b: nat)
    requires a <= b < |cells|
    ensures Somes(cells[a..b + 1]) == Somes(cells[a..b]) + if cells[b].Some? then [cells[b].value] else []
  {
    assert cells[a..b + 1][..b - a] == cells[a..b];
    SomesSnoc(cells[a..b + 1]);
  }

  lemma PushOneMore(values: seq<bytes>, i: nat, cells: seq<Cell>)
    requires i < |values|
    ensures [Some(values[i])] + (Full(Reversed(values[..i])) + cells) == Full(Reversed(values[..i + 1])) + cells
    ensures (cells + Full(values[..i])) + [Some(values[i])] == cells + Full(values[..i + 1])
  {
    var done, v := values[..i], values[i];
    assert values[..i + 1] == done + [v];
    ReversedSnoc(done, v);
    assert Full([v] + Reversed(done)) == [Some(v)] + Full(Reversed(done));
    assert Full(done + [v]) == Full(done) + [Some(v)];
  }

  lemma Overwrite(d: Data, key: bytes, a: bytes, b: bytes)
    ensures d[key := a][key := b] == d[key := b]
  {
  }

  /** The special case for an empty list makes no difference: head and tail coincide. */
  lemma EmptyWindowLeft(d: Data, name: bytes, v: bytes)
    requires Sound(d, name)
    ensures var m := MetaOf(d, name);
      var tail := if m.count == 0 then m.head else m.tail;
      d[MetaKey(name) := BuildMeta(m.head - 1, tail, m.count + 1)][ValueKey(name, m.head - 1) := v]
          == PushedLeft(d, name, v)
  {
  }

  lemma EmptyWindowRight(d: Data, name: bytes, v: bytes)
    requires Sound(d, name)
    ensures var m := MetaOf(d, name);
      var head := if m.count == 0 then m.tail else m.head;
      d[MetaKey(name) := BuildMeta(head, m.tail + 1, m.count + 1)][ValueKey(name, m.tail) := v]
          == PushedRight(d, name, v)
  {
  }

  /** One value was pushed. */
  ghost predicate PushedOne(d: Data, e: Data, name: bytes, v: bytes, left: bool) {
    Sound(d, name) && Sound(e, name) && MetaKey(name) in e
    && Becomes(d, e, name, MetaOf(d, name).head - (if left then 1 else 0),
               if left then [Some(v)] + Cells(d, name) else Cells(d, name) + [Some(v)])
  }

  lemma PushOneView(d: Data, name: bytes, v: bytes)
    requires Sound(d, name) && Room(d, name, 1)
    ensures PushedOne(d, PushedLeft(d, name, v), name, v, true)
    ensures PushedOne(d, PushedRight(d, name, v), name, v, false)
  {
    hide PushedLeft, PushedRight, Cells, MetaOf, Exact, Frame;
    PushLeftView(d, name, v);
    PushRightView(d, name, v);
  }

  /** The first `i` values have been pushed, and the others still fit. */
  ghost predicate PushedSoFar(d: Data, e: Data, name: bytes, values: seq<bytes>, i: nat, left: bool)
    requires i <= |values|
  {
    Sound(d, name) && Sound(e, name) && Room(e, name, |values| - i)
    && (i == 0 ==> d == e)
    && (i > 0 ==> MetaKey(name) in e)
    && Becomes(d, e, name, MetaOf(d, name).head - (if left then i else 0),
               if left then Full(Reversed(values[..i])) + Cells(d, name) else Cells(d, name) + Full(values[..i]))
  }

  lemma ReadyToPush(d: Data, e: Data, name: bytes, values: seq<bytes>, i: nat, left: bool)
    requires i < |values| && PushedSoFar(d, e, name, values, i, left)
    ensures Sound(e, name) && Room(e, name, 1)
  {
    hide Becomes, MetaOf;
  }

  lemma NothingPushed(d: Data, name: bytes, values: seq<bytes>, left: bool)
    requires Sound(d, name) && Room(d, name, |values|)
    ensures PushedSoFar(d, d, name, values, 0, left)
  {
    BecomesItself(d, name);
    hide Becomes, Sound, Room, MetaOf, Cells;
    assert Full(Reversed(values[..0])) + Cells(d, name) == Cells(d, name);
    assert Cells(d, name) + Full(values[..0]) == Cells(d, name);
  }

  lemma {:induction false} PushedSize(d: Data, e: Data, f: Data, name: bytes, values: seq<bytes>, i: nat, left: bool)
    requires i < |values| && PushedSoFar(d, e, name, values, i, left)
    requires PushedOne(e, f, name, values[i], left)
    ensures Sound(e, name) && Sound(f, name) && Room(f, name, |values| - i - 1)
    ensures MetaOf(e, name).head == MetaOf(d, name).head - (if left then i else 0)
    ensures Cells(e, name)
        == if left then Full(Reversed(values[..i])) + Cells(d, name) else Cells(d, name) + Full(values[..i])
    ensures Becomes(d, e, name, MetaOf(e, name).head, Cells(e, name))
  {
    hide MetaOf, Exact, Frame, Full, Reversed, MetaKey;
  }

  lemma {:induction false} PushedOneMore(d: Data, e: Data, f: Data, name: bytes, values: seq<bytes>, i: nat, left: bool)
    requires i < |values| && PushedSoFar(d, e, name, values, i, left)
    requires PushedOne(e, f, name, values[i], left)
    ensures PushedSoFar(d, f, name, values, i + 1, left)
  {
    hide Becomes, Room, MetaKey, Full, Reversed, Sound, Cells, MetaOf;
    PushedSize(d, e, f, name, values, i, left);
    var h, c := MetaOf(e, name).head, Cells(e, name);
    PushOneMore(values, i, Cells(d, name));
    BecomesTransitive(d, e, f, name, h, c, h - (if left then 1 else 0),
                      if left then [Some(values[i])] + c else c + [Some(values[i])]);
  }

  /** The operations that change a list. */
  datatype Op = LPush(values: seq<bytes>) | RPush(values: seq<bytes>) | LPop(n: nat) | RPop(n: nat)

  function After(cells: seq<Cell>, op: Op): seq<Cell> {
    match op
    case LPush(values) => Full(Reversed(values)) + cells
    case RPush(values) => cells + Full(values)
    case LPop(n) => PopLeft(cells, n).rest
    case RPop(n) => PopRight(cells, n).rest
  }

  /** Where the first cell sits afterwards: only the left-hand operations move it. */
  function HeadAfter(head: int, cells: seq<Cell>, op: Op): int {
    match op
    case LPush(values) => head - |values|
    case RPush(_) => head
    case LPop(n) => head + |cells| - |PopLeft(cells, n).rest|
    case RPop(_) => head
  }

  /** What an operation does to the store: this list changes as stated, and nothing else does. */
  ghost predicate Acts(d: Data, e: Data, name: bytes, op: Op) {
    Sound(d, name)
    && Becomes(d, e, name, HeadAfter(MetaOf(d, name).head, Cells(d, name), op), After(Cells(d, name), op))
  }

  lemma PushedAll(d: Data, e: Data, name: bytes, values: seq<bytes>, left: bool)
    requires PushedSoFar(d, e, name, values, |values|, left)
    ensures Sound(d, name) && Sound(e, name)
    ensures MetaKey(name) in e <==> values != [] || MetaKey(name) in d
    ensures |Cells(e, name)| == |Cells(d, name)| + |values|
    ensures Acts(d, e, name, if left then LPush(values) else RPush(values))
  {
    assert values[..|values|] == values;
    hide Exact, Frame, Sound, Room, MetaOf, MetaKey;
  }

  /** What is left after popping on one side. */
  ghost predicate LeftWith(d: Data, e: Data, name: bytes, rest: seq<Cell>, left: bool) {
    Sound(d, name)
    && Becomes(d, e, name, MetaOf(d, name).head + (if left then |Cells(d, name)| - |rest| else 0), rest)
  }

  lemma {:induction false} PopLeftStep(d: Data, e: Data, name: bytes)
    requires Sound(e, name) && LeftWith(d, e, name, Cells(e, name), true) && Cells(e, name) != []
    ensures LeftWith(d, PoppedLeft(e, name), name, Cells(e, name)[1..], true)
  {
    var h := MetaOf(d, name).head + |Cells(d, name)|;
    var cells := Cells(e, name);
    assert MetaOf(e, name).head == h - |cells|;
    PopLeftView(e, name);
    hide Becomes, MetaOf, Cells, Sound, PoppedLeft;
    BecomesTransitive(d, e, PoppedLeft(e, name), name, h - |cells|, cells, h - |cells| + 1, cells[1..]);
  }

  lemma {:induction false} PopRightStep(d: Data, e: Data, name: bytes)
    requires Sound(e, name) && LeftWith(d, e, name, Cells(e, name), false) && Cells(e, name) != []
    ensures LeftWith(d, PoppedRight(e, name), name, Cells(e, name)[..|Cells(e, name)| - 1], false)
  {
    var cells := Cells(e, name);
    assert MetaOf(e, name).head == MetaOf(d, name).head;
    PopRightView(e, name);
    hide Becomes, MetaOf, Cells, Sound, PoppedRight;
    BecomesTransitive(d, e, PoppedRight(e, name), name, MetaOf(d, name).head, cells,
                      MetaOf(d, name).head, cells[..|cells| - 1]);
  }

  /** How one turn of a popping loop can end. */
  datatype Turn = Empty | Took(value: bytes) | Gap | Contended

  function PopSide(cells: seq<Cell>, k: nat, left: bool): Popped {
    if left then PopLeft(cells, k) else PopRight(cells, k)
  }

  /** Only gaps were removed so far. */
  ghost predicate Skipping(d: Data, e: Data, name: bytes, left: bool) {
    Sound(d, name) && Sound(e, name) && LeftWith(d, e, name, Cells(e, name), left)
    && PopSide(Cells(d, name), 1, left) == PopSide(Cells(e, name), 1, left)
  }

  /** One pop has ended: `v` is the value found, if any. */
  ghost predicate PoppedOne(d: Data, e: Data, name: bytes, v: Option<bytes>, left: bool) {
    Sound(d, name) && Sound(e, name) && LeftWith(d, e, name, Cells(e, name), left)
    && PopSide(Cells(d, name), 1, left) == Popped(if v.Some? then [v.value] else [], Cells(e, name))
  }

  /** `i` of the `n` pops have ended, and gave `popped`. */
  ghost predicate PoppedSoFar(d: Data, e: Data, name: bytes, n: nat, popped: seq<bytes>, i: nat, left: bool) {
    Sound(d, name) && Sound(e, name) && i <= n && LeftWith(d, e, name, Cells(e, name), left)
    && PopSide(Cells(d, name), i, left) == Popped(popped, Cells(e, name))
  }

  lemma PoppedNone(d: Data, name: bytes, n: nat, left: bool)
    requires Sound(d, name)
    ensures PoppedSoFar(d, d, name, n, [], 0, left)
  {
    BecomesItself(d, name);
    hide Becomes, Sound, MetaOf, Cells;
  }

  lemma PoppedSound(d: Data, e: Data, name: bytes, n: nat, popped: seq<bytes>, i: nat, left: bool)
    requires PoppedSoFar(d, e, name, n, popped, i, left)
    ensures Sound(e, name)
  {
  }

  lemma PopInTwo(cells: seq<Cell>, k: nat, more: nat, left: bool)
    ensures var r := PopSide(cells, k, left);
      var s := PopSide(r.rest, more, left);
      PopSide(cells, k + more, left) == Popped(r.values + s.values, s.rest)
  {
    if left {
      PopLeftInTwo(cells, k, more);
    } else {
      PopRightInTwo(cells, k, more);
    }
  }

  /** A pop that finds nothing has emptied the list, so the remaining pops find nothing either. */
  lemma {:induction false} NothingMore(cells: seq<Cell>, k: nat, left: bool)
    requires PopSide(cells, 1, left).values == [] && k >= 1
    ensures PopSide(cells, k, left) == PopSide(cells, 1, left)
    decreases |cells|
  {
    if cells != [] {
      NothingMore(if left then cells[1..] else cells[..|cells| - 1], k, left);
    }
  }

  lemma PopSum(c: seq<Cell>, mid: seq<Cell>, rest: seq<Cell>, i: nat, n: nat, popped: seq<bytes>,
               v: Option<bytes>, left: bool)
    requires i < n && PopSide(c, i, left) == Popped(popped, mid)
    requires PopSide(mid, 1, left) == Popped(if v.Some? then [v.value] else [], rest)
    ensures v.Some? ==> PopSide(c, i + 1, left) == Popped(popped + [v.value], rest)
    ensures v.None? ==> PopSide(c, n, left) == Popped(popped, rest)
  {
    if v.Some? {
      PopInTwo(c, i, 1, left);
    } else {
      PopInTwo(c, i, n - i, left);
      NothingMore(mid, n - i, left);
      assert popped + [] == popped;
    }
  }

  lemma {:induction false} PoppedOneMore(d: Data, e: Data, f: Data, name: bytes, n: nat, popped: seq<bytes>, i: nat,
                      v: Option<bytes>, left: bool)
    requires i < n && PoppedSoFar(d, e, name, n, popped, i, left) && PoppedOne(e, f, name, v, left)
    ensures v.Some? ==> PoppedSoFar(d, f, name, n, popped + [v.value], i + 1, left)
    ensures v.None? ==> PoppedSoFar(d, f, name, n, popped, n, left)
  {
    hide PopSide, LeftWith, Sound, Cells;
    LeftWithTransitive(d, e, f, name, Cells(e, name), Cells(f, name), left);
    PopSum(Cells(d, name), Cells(e, name), Cells(f, name), i, n, popped, v, left);
  }

  lemma PoppedAll(d: Data, e: Data, name: bytes, n: nat, popped: seq<bytes>, left: bool)
    requires PoppedSoFar(d, e, name, n, popped, n, left)
    ensures Sound(d, name)
        && popped == if left then PopLeft(Cells(d, name), n).values else PopRight(Cells(d, name), n).values
    ensures Acts(d, e, name, if left then Op.LPop(n) else Op.RPop(n))
  {
    hide Becomes, Sound, MetaOf, Cells;
  }

  lemma LeftWithTransitive(d: Data, e: Data, f: Data, name: bytes, mid: seq<Cell>, rest: seq<Cell>, left: bool)
    requires LeftWith(d, e, name, mid, left) && LeftWith(e, f, name, rest, left)
    ensures LeftWith(d, f, name, rest, left)
  {
    var h, h1 := MetaOf(d, name).head, MetaOf(e, name).head;
    var c, c1 := Cells(d, name), Cells(e, name);
    assert Sound(e, name) && c1 == mid && h1 == h + if left then |c| - |mid| else 0;
    hide Becomes, Sound, Cells, MetaOf;
    BecomesTransitive(d, e, f, name, h1, mid, h1 + (if left then |mid| - |rest| else 0), rest);
  }

  lemma SkippedNothing(d: Data, name: bytes, left: bool)
    requires Sound(d, name)
    ensures Skipping(d, d, name, left)
  {
    BecomesItself(d, name);
    hide Becomes, Sound, MetaOf, Cells;
  }

  lemma NothingLeft(d: Data, e: Data, name: bytes, left: bool)
    requires Skipping(d, e, name, left) && Cells(e, name) == []
    ensures PoppedOne(d, e, name, None, left)
  {
    hide Sound, Cells, LeftWith;
  }

  lemma PopFirst(cells: seq<Cell>, left: bool)
    requires cells != []
    ensures var cell := if left then cells[0] else cells[|cells| - 1];
      var rest := if left then cells[1..] else cells[..|cells| - 1];
      PopSide(cells, 1, left) == if cell.Some? then Popped([cell.value], rest) else PopSide(rest, 1, left)
  {
    var rest := if left then cells[1..] else cells[..|cells| - 1];
    assert PopSide(rest, 0, left) == Popped([], rest);
    var cell := if left then cells[0] else cells[|cells| - 1];
    if cell.Some? {
      assert [cell.value] + [] == [cell.value];
    }
  }

  lemma {:induction false} TurnTaken(d: Data, e: Data, name: bytes, left: bool)
    requires Skipping(d, e, name, left) && Cells(e, name) != []
    ensures var f := if left then PoppedLeft(e, name) else PoppedRight(e, name);
      var cell := if left then Cells(e, name)[0] else Cells(e, name)[|Cells(e, name)| - 1];
      Sound(f, name)
      && (cell.Some? ==> PoppedOne(d, f, name, cell, left))
      && (cell.None? ==> Skipping(d, f, name, left) && |Cells(f, name)| < |Cells(e, name)|)
  {
    var f := if left then PoppedLeft(e, name) else PoppedRight(e, name);
    var rest := if left then Cells(e, name)[1..] else Cells(e, name)[..|Cells(e, name)| - 1];
    if left {
      PopLeftStep(d, e, name);
    } else {
      PopRightStep(d, e, name);
    }
    assert LeftWith(d, f, name, rest, left);
    assert Sound(f, name) && Cells(f, name) == rest;
    PopFirst(Cells(e, name), left);
    hide LeftWith, Sound, Cells, PoppedLeft, PoppedRight, PopSide;
  }

  class ListOperations {
    const store: FeoxStore

    constructor (s: FeoxStore)
      ensures store == s
    {
      store := s;
    }

    /** The metadata, created first when the list does not exist. */
    method ReadOrCreate(name: bytes) returns (data: bytes, isNew: bool)
      modifies store
      ensures isNew == (MetaKey(name) !in old(store.data))
      ensures store.data == old(store.data)[MetaKey(name) := data]
      ensures ParseMeta(data) == MetaOf(old(store.data), name)
    {
      var got := store.GetBytes(MetaKey(name));
      isNew := got.Err?;
      if got.Ok? {
        data := got.value;
      } else {
        MetaRoundTrip(FRESH);
        data := BuildMeta(INITIAL_POSITION, INITIAL_POSITION, 0);
        var _ := store.Insert(MetaKey(name), data);
      }
    }

    /** A new list is written directly, an existing one by compare-and-swap. */
    method Commit(name: bytes, data: bytes, newMeta: bytes, isNew: bool) returns (swapped: bool)
      requires MetaKey(name) in store.data
      modifies store
      ensures swapped == (isNew || old(store.data)[MetaKey(name)] == data)
      ensures store.data == if swapped then old(store.data)[MetaKey(name) := newMeta] else old(store.data)
    {
      if isNew {
        var _ := store.Insert(MetaKey(name), newMeta);
        swapped := true;
      } else {
        swapped := store.CompareAndSwap(MetaKey(name), data, newMeta);
      }
    }

    /** One turn of the retry loop of LPUSH. Alone, the compare-and-swap cannot fail. */
    method TryPushLeft(name: bytes, value: bytes) returns (pushed: bool)
      requires Sound(store.data, name)
      modifies store
      ensures pushed && store.data == PushedLeft(old(store.data), name, value)
    {
      hide *;
      EmptyWindowLeft(store.data, name, value);
      ghost var before := store.data;
      var data, isNew := ReadOrCreate(name);
      var m := ParseMeta(data);
      var newHead := m.head - 1;
      var newTail := if m.count == 0 then m.head else m.tail;
      var newMeta := BuildMeta(newHead, newTail, m.count + 1);
      Overwrite(before, MetaKey(name), data, newMeta);
      pushed := Commit(name, data, newMeta, isNew);
      if pushed {
        var _ := store.Insert(ValueKey(name, newHead), value);
      }
    }

    method TryPushRight(name: bytes, value: bytes) returns (pushed: bool)
      requires Sound(store.data, name)
      modifies store
      ensures pushed && store.data == PushedRight(old(store.data), name, value)
    {
      hide *;
      EmptyWindowRight(store.data, name, value);
      ghost var before := store.data;
      var data, isNew := ReadOrCreate(name);
      var m := ParseMeta(data);
      var insertPos := m.tail;
      var newHead := if m.count == 0 then m.tail else m.head;
      var newMeta := BuildMeta(newHead, m.tail + 1, m.count + 1);
      Overwrite(before, MetaKey(name), data, newMeta);
      pushed := Commit(name, data, newMeta, isNew);
      if pushed {
        var _ := store.Insert(ValueKey(name, insertPos), value);
      }
    }

    /** The retry loop of LPUSH for one value. */
    method LPushOne(name: bytes, value: bytes) returns (r: Result<int>)
      requires Sound(store.data, name) && Room(store.data, name, 1)
      modifies store
      ensures r.Ok? && PushedOne(old(store.data), store.data, name, value, true)
    {
      hide *;
      PushOneView(store.data, name, value);
      r := Err(Contention);
      var retries, done := 0, false;
      while !done
        invariant 0 <= retries
        invariant !done ==> store.data == old(store.data)
        invariant done ==> r.Ok? && PushedOne(old(store.data), store.data, name, value, true)
        decreases !done, MAX_RETRIES - retries
      {
        var pushed := TryPushLeft(name, value);
        if pushed {
          r, done := Ok(0), true;
        } else {
          retries := retries + 1;
          done := retries >= MAX_RETRIES;
        }
      }
    }

    method RPushOne(name: bytes, value: bytes) returns (r: Result<int>)
      requires Sound(store.data, name) && Room(store.data, name, 1)
      modifies store
      ensures r.Ok? && PushedOne(old(store.data), store.data, name, value, false)
    {
      hide *;
      PushOneView(store.data, name, value);
      r := Err(Contention);
      var retries, done := 0, false;
      while !done
        invariant 0 <= retries
        invariant !done ==> store.data == old(store.data)
        invariant done ==> r.Ok? && PushedOne(old(store.data), store.data, name, value, false)
        decreases !done, MAX_RETRIES - retries
      {
        var pushed := TryPushRight(name, value);
        if pushed {
          r, done := Ok(0), true;
        } else {
          retries := retries + 1;
          done := retries >= MAX_RETRIES;
        }
      }
    }

    /** LPUSH: values are pushed one by one, so they end up in reverse order at the front. */
    method LPush(name: bytes, values: seq<bytes>) returns (r: Result<int>)
      requires Sound(store.data, name) && Room(store.data, name, |values|)
      modifies store
      ensures Acts(old(store.data), store.data, name, Op.LPush(values))
      ensures r == if values == [] && MetaKey(name) !in old(store.data) then Err(KeyNotFound)
                   else Ok(|old(Cells(store.data, name))| + |values|)
    {
      hide *;
      ghost var d := store.data;
      NothingPushed(d, name, values, true);
      r := LPushAll(name, values, d);
      PushedAll(d, store.data, name, values, true);
      if r.Ok? {
        r := FinalCount(name);
      }
    }

    /** RPUSH: values are appended in order. */
    method RPush(name: bytes, values: seq<bytes>) returns (r: Result<int>)
      requires Sound(store.data, name) && Room(store.data, name, |values|)
      modifies store
      ensures Acts(old(store.data), store.data, name, Op.RPush(values))
      ensures r == if values == [] && MetaKey(name) !in old(store.data) then Err(KeyNotFound)
                   else Ok(|old(Cells(store.data, name))| + |values|)
    {
      hide *;
      ghost var d := store.data;
      NothingPushed(d, name, values, false);
      r := RPushAll(name, values, d);
      PushedAll(d, store.data, name, values, false);
      if r.Ok? {
        r := FinalCount(name);
      }
    }

    /** The outer loop of LPUSH, over the values in order. */
    method LPushAll(name: bytes, values: seq<bytes>, ghost d: Data) returns (r: Result<int>)
      requires d == store.data && PushedSoFar(d, d, name, values, 0, true)
      modifies store
      ensures r.Ok? && PushedSoFar(d, store.data, name, values, |values|, true)
    {
      hide *;
      r := Ok(0);
      var i := 0;
      while i < |values| && r.Ok?
        invariant 0 <= i <= |values| && r.Ok?
        invariant PushedSoFar(d, store.data, name, values, i, true)
      {
        ghost var e := store.data;
        ReadyToPush(d, e, name, values, i, true);
        r := LPushOne(name, values[i]);
        PushedOneMore(d, e, store.data, name, values, i, true);
        i := i + 1;
      }
    }

    /** The outer loop of RPUSH, over the values in order. */
    method RPushAll(name: bytes, values: seq<bytes>, ghost d: Data) returns (r: Result<int>)
      requires d == store.data && PushedSoFar(d, d, name, values, 0, false)
      modifies store
      ensures r.Ok? && PushedSoFar(d, store.data, name, values, |values|, false)
    {
      hide *;
      r := Ok(0);
      var i := 0;
      while i < |values| && r.Ok?
        invariant 0 <= i <= |values| && r.Ok?
        invariant PushedSoFar(d, store.data, name, values, i, false)
      {
        ghost var e := store.data;
        ReadyToPush(d, e, name, values, i, false);
        r := RPushOne(name, values[i]);
        PushedOneMore(d, e, store.data, name, values, i, false);
        i := i + 1;
      }
    }

    /** The count both pushes answer with. */
    method FinalCount(name: bytes) returns (r: Result<int>)
      requires Sound(store.data, name)
      ensures r == if MetaKey(name) in store.data then Ok(|Cells(store.data, name)|) else Err(KeyNotFound)
    {
      hide ParseMeta, MetaKey;
      var got := store.GetBytes(MetaKey(name));
      if got.Err? {
        return Err(KeyNotFound);
      }
      r := Ok(Binary.Signed(ParseMeta(got.value).count));
    }

    method TryPopLeft(name: bytes) returns (turn: Turn)
      requires Sound(store.data, name)
      modifies store
      ensures old(Cells(store.data, name)) == [] ==> turn == Empty && store.data == old(store.data)
      ensures old(Cells(store.data, name)) != [] ==> store.data == PoppedLeft(old(store.data), name)
      ensures old(Cells(store.data, name)) != [] ==>
        var first := old(Cells(store.data, name))[0];
        turn == if first.Some? then Took(first.value) else Gap
    {
      hide ParseMeta, BuildMeta, MetaKey, ValueKey;
      ghost var d := store.data;
      var got := store.GetBytes(MetaKey(name));
      if got.Err? {
        return Empty;
      }
      var m := ParseMeta(got.value);
      if m.count == 0 || m.head >= m.tail {
        return Empty;
      }
      assert Cells(d, name)[0] == Slot(d, name, m.head);
      var newMeta := BuildMeta(m.head + 1, m.tail, m.count - 1);
      var swapped := store.CompareAndSwap(MetaKey(name), got.value, newMeta);
      turn := Contended;
      if swapped {
        SlotAfterMeta(d, name, newMeta, m.head);
        var value := store.GetBytes(ValueKey(name, m.head));
        if value.Ok? {
          var _ := store.Delete(ValueKey(name, m.head));
        }
        turn := if value.Ok? then Took(value.value) else Gap;
      }
    }

    method TryPopRight(name: bytes) returns (turn: Turn)
      requires Sound(store.data, name)
      modifies store
      ensures old(Cells(store.data, name)) == [] ==> turn == Empty && store.data == old(store.data)
      ensures old(Cells(store.data, name)) != [] ==> store.data == PoppedRight(old(store.data), name)
      ensures old(Cells(store.data, name)) != [] ==>
        var last := old(Cells(store.data, name))[|old(Cells(store.data, name))| - 1];
        turn == if last.Some? then Took(last.value) else Gap
    {
      hide ParseMeta, BuildMeta, MetaKey, ValueKey;
      ghost var d := store.data;
      var got := store.GetBytes(MetaKey(name));
      if got.Err? {
        return Empty;
      }
      var m := ParseMeta(got.value);
      if m.count == 0 || m.head >= m.tail {
        return Empty;
      }
      assert Cells(d, name)[m.count - 1] == Slot(d, name, m.tail - 1);
      var newTail := m.tail - 1;
      var newMeta := BuildMeta(m.head, newTail, m.count - 1);
      var swapped := store.CompareAndSwap(MetaKey(name), got.value, newMeta);
      turn := Contended;
      if swapped {
        SlotAfterMeta(d, name, newMeta, newTail);
        var value := store.GetBytes(ValueKey(name, newTail));
        if value.Ok? {
          var _ := store.Delete(ValueKey(name, newTail));
        }
        turn := if value.Ok? then Took(value.value) else Gap;
      }
    }

    /** The inner loop of LPOP: skips gaps, gives up after too many lost races. */
    method LPopOne(name: bytes) returns (v: Option<bytes>)
      requires Sound(store.data, name)
      modifies store
      ensures PoppedOne(old(store.data), store.data, name, v, true)
    {
      hide *;
      SkippedNothing(store.data, name, true);
      ghost var d := store.data;
      v := None;
      var retries, done := 0, false;
      while !done
        invariant 0 <= retries && Sound(store.data, name)
        invariant !done ==> v.None?
        invariant !done ==> Skipping(d, store.data, name, true)
        invariant done ==> PoppedOne(d, store.data, name, v, true)
        decreases !done, |Cells(store.data, name)|, MAX_RETRIES - retries
      {
        if Cells(store.data, name) == [] {
          NothingLeft(d, store.data, name, true);
        } else {
          TurnTaken(d, store.data, name, true);
        }
        var turn := TryPopLeft(name);
        match turn {
          case Empty => done := true;
          case Took(value) => v, done := Some(value), true;
          case Gap =>
          case Contended =>
            retries := retries + 1;
            done := retries >= MAX_RETRIES;
        }
      }
    }

    /** The inner loop of RPOP: skips gaps, gives up after too many lost races. */
    method RPopOne(name: bytes) returns (v: Option<bytes>)
      requires Sound(store.data, name)
      modifies store
      ensures PoppedOne(old(store.data), store.data, name, v, false)
    {
      hide *;
      SkippedNothing(store.data, name, false);
      ghost var d := store.data;
      v := None;
      var retries, done := 0, false;
      while !done
        invariant 0 <= retries && Sound(store.data, name)
        invariant !done ==> v.None?
        invariant !done ==> Skipping(d, store.data, name, false)
        invariant done ==> PoppedOne(d, store.data, name, v, false)
        decreases !done, |Cells(store.data, name)|, MAX_RETRIES - retries
      {
        if Cells(store.data, name) == [] {
          NothingLeft(d, store.data, name, false);
        } else {
          TurnTaken(d, store.data, name, false);
        }
        var turn := TryPopRight(name);
        match turn {
          case Empty => done := true;
          case Took(value) => v, done := Some(value), true;
          case Gap =>
          case Contended =>
            retries := retries + 1;
            done := retries >= MAX_RETRIES;
        }
      }
    }

    /** LPOP: stops early when the list runs out. */
    method LPop(name: bytes, count: Option<nat>) returns (popped: seq<bytes>)
      requires Sound(store.data, name)
      modifies store
      ensures popped == PopLeft(old(Cells(store.data, name)), if count.Some? then count.value else 1).values
      ensures Acts(old(store.data), store.data, name, Op.LPop(if count.Some? then count.value else 1))
    {
      hide *;
      ghost var d := store.data;
      var n := if count.Some? then count.value else 1;
      PoppedNone(d, name, n, true);
      popped := [];
      var i, done := 0, false;
      while i < n && !done
        invariant 0 <= i <= n
        invariant PoppedSoFar(d, store.data, name, n, popped, if done then n else i, true)
        decreases n - i, !done
      {
        ghost var e := store.data;
        PoppedSound(d, e, name, n, popped, i, true);
        var v := LPopOne(name);
        PoppedOneMore(d, e, store.data, name, n, popped, i, v, true);
        if v.Some? {
          popped := popped + [v.value];
          i := i + 1;
        } else {
          done := true;
        }
      }
      PoppedAll(d, store.data, name, n, popped, true);
    }

    /** RPOP: stops early when the list runs out. */
    method RPop(name: bytes, count: Option<nat>) returns (popped: seq<bytes>)
      requires Sound(store.data, name)
      modifies store
      ensures popped == PopRight(old(Cells(store.data, name)), if count.Some? then count.value else 1).values
      ensures Acts(old(store.data), store.data, name, Op.RPop(if count.Some? then count.value else 1))
    {
      hide *;
      ghost var d := store.data;
      var n := if count.Some? then count.value else 1;
      PoppedNone(d, name, n, false);
      popped := [];
      var i, done := 0, false;
      while i < n && !done
        invariant 0 <= i <= n
        invariant PoppedSoFar(d, store.data, name, n, popped, if done then n else i, false)
        decreases n - i, !done
      {
        ghost var e := store.data;
        PoppedSound(d, e, name, n, popped, i, false);
        var v := RPopOne(name);
        PoppedOneMore(d, e, store.data, name, n, popped, i, v, false);
        if v.Some? {
          popped := popped + [v.value];
          i := i + 1;
        } else {
          done := true;
        }
      }
      PoppedAll(d, store.data, name, n, popped, false);
    }

    /** LLEN counts positions, so a gap still counts. */
    method LLen(name: bytes) returns (len: int)
      requires Sound(store.data, name)
      ensures len == |Cells(store.data, name)|
    {
      hide ParseMeta, MetaKey;
      var got := store.GetBytes(MetaKey(name));
      len := if got.Ok? then Binary.Signed(ParseMeta(got.value).count) else 0;
    }

    /** The metadata of an existing, non-empty list. */
    method Window(name: bytes) returns (m: Option<Meta>)
      requires Sound(store.data, name)
      ensures m == if Cells(store.data, name) == [] then None else Some(MetaOf(store.data, name))
    {
      hide ParseMeta, MetaKey;
      var got := store.GetBytes(MetaKey(name));
      if got.Err? {
        return None;
      }
      var parsed := ParseMeta(got.value);
      m := if parsed.count == 0 then None else Some(parsed);
    }

    /** The values stored at positions `from` to `to` of a list, both inclusive. */
    method Collect(name: bytes, head: int, from: nat, to: nat) returns (results: seq<bytes>)
      requires Sound(store.data, name) && head == MetaOf(store.data, name).head
      requires from <= to < |Cells(store.data, name)|
      ensures results == Somes(Cells(store.data, name)[from..to + 1])
    {
      hide MetaOf, Sound, Somes, ValueKey;
      ghost var cells := Cells(store.data, name);
      results := [];
      var i := from;
      SomesNone();
      assert cells[from..from] == [];
      while i <= to
        invariant from <= i <= to + 1
        invariant results == Somes(cells[from..i])
      {
        SomesGrow(cells, from, i);
        assert cells[i] == Slot(store.data, name, head + i);
        var value := store.GetBytes(ValueKey(name, head + i));
        if value.Ok? {
          results := results + [value.value];
        }
        i := i + 1;
      }
    }

    /** LRANGE: negative indices count from the end, both ends are clamped, gaps are skipped. */
    method LRange(name: bytes, start: int, stop: int) returns (results: seq<bytes>)
      requires Sound(store.data, name) && Decimal.IsI64(start) && Decimal.IsI64(stop)
      ensures results == RangeAnswer(Cells(store.data, name), start, stop)
    {
      hide Between, Somes, Cells, MetaOf;
      ghost var cells := Cells(store.data, name);
      BetweenIsSlice(cells, FromEnd(|cells|, start), FromEnd(|cells|, stop));
      SomesNone();
      var m := Window(name);
      if m.None? {
        return [];
      }
      var len := m.value.tail - m.value.head;
      var first := if start < 0 then Max(len + start, 0) else start;
      var last := if stop < 0 then len + stop else stop;
      if first >= len || last < 0 {
        return [];
      }
      var from, to := Min(Max(first, 0), len - 1), Min(Max(last, 0), len - 1);
      if from > to {
        return [];
      }
      results := Collect(name, m.value.head, from, to);
    }

    method LIndex(name: bytes, index: int) returns (v: Option<bytes>)
      requires Sound(store.data, name) && Decimal.IsI64(index)
      ensures v == At(Cells(store.data, name), index)
    {
      hide ParseMeta, MetaKey, ValueKey;
      var m := Window(name);
      if m.None? {
        return None;
      }
      var len := m.value.tail - m.value.head;
      var actual := index;
      if index < 0 {
        actual := len + index;
        if actual < 0 {
          return None;
        }
      } else if index >= len {
        return None;
      }
      assert Cells(store.data, name)[actual] == Slot(store.data, name, m.value.head + actual);
      var got := store.GetBytes(ValueKey(name, m.value.head + actual));
      v := if got.Ok? then Some(got.value) else None;
    }
  }
}
