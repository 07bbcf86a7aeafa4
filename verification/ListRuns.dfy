/** What any sequence of list commands does to an initially empty store. */
module ListRuns {
  import opened Bytes
  import opened Store
  import opened ListState
  import opened Lists

  datatype Event = Event(name: bytes, op: Op)

  /** The mathematical deque the documentation describes. */
  function Deque(s: seq<bytes>, op: Op): seq<bytes> {
    match op
    case LPush(values) => Reversed(values) + s
    case RPush(values) => s + values
    case LPop(n) => s[Min(n, |s|)..]
    case RPop(n) => s[..|s| - Min(n, |s|)]
  }

  function Replay(events: seq<Event>, name: bytes): seq<bytes> {
    if events == [] then []
    else
      var last := events[|events| - 1];
      var before := Replay(events[..|events| - 1], name);
      if last.name == name then Deque(before, last.op) else before
  }

  /** The stores between the commands of a run, starting empty; each command acts alone. */
  ghost predicate Run(stores: seq<Data>, events: seq<Event>) {
    |stores| == |events| + 1 && stores[0] == map[]
    && forall i :: 0 <= i < |events| ==> Acts(stores[i], stores[i + 1], events[i].name, events[i].op)
  }

  /** Hidden gaps or not, the values a reader sees change as the deque does. */
  lemma ActsAsDeque(cells: seq<Cell>, op: Op)
    ensures Somes(After(cells, op)) == Deque(Somes(cells), op)
  {
    match op
    case LPush(values) =>
      SomesConcat(Full(Reversed(values)), cells);
      SomesOfFull(Reversed(values));
    case RPush(values) =>
      SomesConcat(cells, Full(values));
      SomesOfFull(values);
    case LPop(n) =>
      PopLeftTakesPrefix(cells, n);
      var r := PopLeft(cells, n);
      assert (r.values + Somes(r.rest))[|r.values|..] == Somes(r.rest);
    case RPop(n) =>
      PopRightTakesSuffix(cells, n);
      var r := PopRight(cells, n);
      assert (Somes(r.rest) + Reversed(r.values))[..|Somes(r.rest)|] == Somes(r.rest);
  }

  /** LPOP answers the first values in order, RPOP the last ones in reverse. */
  lemma PopsAnswer(cells: seq<Cell>, n: nat)
    ensures PopLeft(cells, n).values == Somes(cells)[..Min(n, |Somes(cells)|)]
    ensures PopRight(cells, n).values == Reversed(Somes(cells)[|Somes(cells)| - Min(n, |Somes(cells)|)..])
  {
    PopLeftTakesPrefix(cells, n);
    PopRightTakesSuffix(cells, n);
    var l, r := PopLeft(cells, n), PopRight(cells, n);
    assert (l.values + Somes(l.rest))[..|l.values|] == l.values;
    assert (Somes(r.rest) + Reversed(r.values))[|Somes(r.rest)|..] == Reversed(r.values);
    ReversedTwice(r.values);
  }

  lemma {:induction false} ReversedTwice<T>(s: seq<T>)
    ensures Reversed(Reversed(s)) == s
  {
    if s != [] {
      ReversedSnoc(Reversed(s[1..]), s[0]);
      ReversedTwice(s[1..]);
    }
  }

  lemma NewStore(name: bytes)
    ensures Sound(map[], name) && Exact(map[], name) && Cells(map[], name) == []
  {
  }

  /**
   * After any run, every list holds exactly what the deque holds, its positions are exactly the
   * window [head, tail), and commands on other names had no effect on it.
   */
  lemma {:induction false} RunsAreDeques(stores: seq<Data>, events: seq<Event>, name: bytes)
    requires Run(stores, events)
    ensures var d := stores[|events|];
      Sound(d, name) && Exact(d, name) && Somes(Cells(d, name)) == Replay(events, name)
    decreases |events|
  {
    hide Sound, Exact, Cells, Somes, Deque, After, HeadAfter;
    if events == [] {
      NewStore(name);
      SomesNone();
    } else {
      var n := |events| - 1;
      var last := events[n];
      RunsAreDeques(stores[..n + 1], events[..n], name);
      assert Acts(stores[n], stores[n + 1], last.name, last.op);
      if last.name == name {
        ActsAsDeque(Cells(stores[n], name), last.op);
      } else {
        OtherListsUntouched(stores[n], stores[n + 1], last.name, name);
      }
    }
  }

  lemma ExactHasNoGaps(d: Data, name: bytes)
    requires Sound(d, name) && Exact(d, name)
    ensures NoGaps(Cells(d, name))
  {
    var m, cells := MetaOf(d, name), Cells(d, name);
    hide MetaOf, Slot;
    forall i | 0 <= i < |cells| ensures cells[i].Some? {
      assert cells[i] == Slot(d, name, m.head + i);
    }
  }

  /** In such a store there are no gaps: LLEN is the number of values, LRANGE a plain slice. */
  lemma {:induction false} ReadersSeeTheDeque(d: Data, name: bytes, lo: int, hi: int)
    requires Sound(d, name) && Exact(d, name)
    ensures |Cells(d, name)| == |Somes(Cells(d, name))|
    ensures Somes(Between(Cells(d, name), lo, hi)) == Between(Somes(Cells(d, name)), lo, hi)
  {
    hide Sound, Exact, Between, Somes;
    ExactHasNoGaps(d, name);
    RangeWithoutGaps(Cells(d, name), lo, hi);
  }

  /** LPUSH puts its values in front, the last one first; RPUSH behind, in order; the pops take from either end. */
  lemma DequeOrder(s: seq<bytes>, values: seq<bytes>, n: nat, i: nat)
    ensures var l, r := Deque(s, LPush(values)), Deque(s, RPush(values));
      |l| == |r| == |values| + |s| && l[|values|..] == s && r[..|s|] == s
      && (i < |values| ==> l[i] == values[|values| - 1 - i] && r[|s| + i] == values[i])
    ensures Deque(s, LPop(n)) == (if n <= |s| then s[n..] else [])
    ensures Deque(s, RPop(n)) == (if n <= |s| then s[..|s| - n] else [])
  {
    if i < |values| {
      ReversedAt(values, i);
    }
  }
}
