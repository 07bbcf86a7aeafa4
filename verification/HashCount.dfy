/** The deferred count agrees with the true number of fields, over every run. */
module HashCount {
  import opened Bytes
  import opened Binary
  import opened Store
  import opened HashKeys
  import opened Hashes
  import Decimal

  /** The names in use; no two of them share a storage key. */
  ghost predicate Apart(names: set<bytes>) {
    forall m, n :: m in names && n in names && m != n ==> !Clash(m, n)
  }

  /** Stored counter plus pending change is the number of fields. */
  predicate Kept(t: Tally, name: bytes) {
    Counter(t.data, CountKey(name))
      == Some(|FieldKeys(t.data, name)| - Pending(t.pending, CountKey(name)))
  }

  ghost predicate OnlyCounters(u: Updates, names: set<bytes>) {
    forall key :: key in u ==> exists n :: n in names && key == CountKey(n)
  }

  ghost predicate TallyOk(t: Tally, names: set<bytes>) {
    (forall n :: n in names ==> Kept(t, n)) && OnlyCounters(t.pending, names)
  }

  /** The tally is right except that `delta` fields of `name` are not noted yet. */
  ghost predicate OffBy(t: Tally, names: set<bytes>, name: bytes, delta: int) {
    OnlyCounters(t.pending, names) && name in names
    && forall n :: n in names ==>
      Counter(t.data, CountKey(n))
      == Some(|FieldKeys(t.data, n)| - Pending(t.pending, CountKey(n)) - if n == name then delta else 0)
  }

  /** The store holds fewer than 2^63 - 1 keys. */
  predicate Bounded(d: Data) {
    |d| < Decimal.I64_MAX
  }

  lemma FieldKeysBounded(d: Data, name: bytes)
    ensures |FieldKeys(d, name)| <= |d|
  {
    SubsetSize(FieldKeys(d, name), d.Keys);
  }

  lemma {:induction false} SubsetSize<T>(a: set<T>, b: set<T>)
    requires a <= b
    ensures |a| <= |b|
  {
    assert b == a + (b - a);
  }

  /** A counter is never one of the fields of a name in use. */
  lemma CountersAreNotFields(m: bytes, n: bytes, names: set<bytes>)
    requires Apart(names) && m in names && n in names
    ensures !(Prefix(m) <= CountKey(n))
  {
    if Prefix(m) <= CountKey(n) {
      CounterAmongFields(m, n);
    }
  }

  lemma {:induction false} FlushedFields(d: Data, u: Updates, names: set<bytes>, n: bytes)
    requires Apart(names) && n in names && OnlyCounters(u, names)
    ensures FieldKeys(Flushed(d, u), n) == FieldKeys(d, n)
  {
    hide Prefix, CountKey, Counter;
    forall key | Prefix(n) <= key ensures key !in u {
      if key in u {
        var m :| m in names && key == CountKey(m);
        CountersAreNotFields(n, m, names);
      }
    }
  }

  lemma FlushedCounter(d: Data, u: Updates, key: bytes, total: int)
    requires Counter(d, key) == Some(total - Pending(u, key)) && Decimal.IsI64(total)
    ensures Counter(Flushed(d, u), key) == Some(total)
  {
    hide Little, ReadUnsigned, Signed;
    WordSigned(total);
  }

  lemma {:induction false} FlushOff(t: Tally, names: set<bytes>, name: bytes, delta: int, n: bytes)
    requires Apart(names) && OffBy(t, names, name, delta) && Bounded(t.data) && n in names && -1 <= delta <= 0
    ensures FieldKeys(Flush(t).data, n) == FieldKeys(t.data, n)
    ensures Counter(Flush(t).data, CountKey(n)) == Some(|FieldKeys(t.data, n)| - if n == name then delta else 0)
  {
    hide FieldKeys, CountKey, Flushed, Counter, Apart;
    FlushedFields(t.data, t.pending, names, n);
    FieldKeysBounded(t.data, n);
    FlushedCounter(t.data, t.pending, CountKey(n), |FieldKeys(t.data, n)| - if n == name then delta else 0);
  }

  /** Flushing loses nothing and counts nothing twice. */
  lemma {:induction false} FlushKeeps(t: Tally, names: set<bytes>, name: bytes, delta: int)
    requires Apart(names) && OffBy(t, names, name, delta) && Bounded(t.data) && -1 <= delta <= 0
    ensures OffBy(Flush(t), names, name, delta)
  {
    hide Counter, FieldKeys, Flushed, Apart, CountKey;
    forall n | n in names
      ensures Counter(Flush(t).data, CountKey(n))
        == Some(|FieldKeys(Flush(t).data, n)| - Pending(map[], CountKey(n)) - if n == name then delta else 0)
    {
      FlushOff(t, names, name, delta, n);
    }
  }

  /** HLEN answers the number of fields. */
  lemma {:induction false} HLenIsCardinality(t: Tally, names: set<bytes>, name: bytes)
    requires Apart(names) && TallyOk(t, names) && Bounded(t.data) && name in names
    ensures HLenAnswer(t, name) == |FieldKeys(t.data, name)|
  {
    hide Flushed, CountKey, FieldKeys, ReadSigned, Apart, TallyOk, OffBy;
    Balanced(t, names, name);
    FlushOff(t, names, name, 0, name);
    var d := Flush(t).data;
    var key := CountKey(name);
    if key in d {
      assert |d[key]| == 8;
      assert d[key][..8] == d[key];
    }
  }

  /** Writing a key that only `name` uses, and that is not its counter. */
  lemma FieldWritten(t: Tally, names: set<bytes>, name: bytes, field: bytes, value: bytes)
    requires Apart(names) && name in names && OnlyCounters(t.pending, names)
    ensures var key := FieldKey(name, field);
      var e := t.data[key := value];
      FieldKeys(e, name) == FieldKeys(t.data, name) + {key}
      && (forall n :: n in names && n != name ==> FieldKeys(e, n) == FieldKeys(t.data, n))
      && (forall n :: n in names ==> Counter(e, CountKey(n)) == Counter(t.data, CountKey(n)))
  {
    var key := FieldKey(name, field);
    assert Prefix(name) <= key;
    forall n | n in names ensures key != CountKey(n) {
      CountersAreNotFields(name, n, names);
    }
    forall n | n in names && n != name ensures !(Prefix(n) <= key) {
      if Prefix(n) <= key {
        BothPrefixes(Prefix(name), Prefix(n), key);
      }
    }
  }

  lemma FieldErased(t: Tally, names: set<bytes>, name: bytes, field: bytes)
    requires Apart(names) && name in names && OnlyCounters(t.pending, names)
    ensures var key := FieldKey(name, field);
      var e := t.data - {key};
      FieldKeys(e, name) == FieldKeys(t.data, name) - {key}
      && (forall n :: n in names && n != name ==> FieldKeys(e, n) == FieldKeys(t.data, n))
      && (forall n :: n in names ==> Counter(e, CountKey(n)) == Counter(t.data, CountKey(n)))
  {
    var key := FieldKey(name, field);
    assert Prefix(name) <= key;
    forall n | n in names ensures key != CountKey(n) {
      CountersAreNotFields(name, n, names);
    }
    forall n | n in names && n != name ensures !(Prefix(n) <= key) {
      if Prefix(n) <= key {
        BothPrefixes(Prefix(name), Prefix(n), key);
      }
    }
  }

  lemma FieldThere(d: Data, name: bytes, field: bytes)
    ensures FieldKey(name, field) in d <==> FieldKey(name, field) in FieldKeys(d, name)
  {
  }

  lemma WroteOne(t: Tally, names: set<bytes>, name: bytes, delta: int, field: bytes, value: bytes)
    requires Apart(names) && OffBy(t, names, name, delta)
    ensures var key := FieldKey(name, field);
      OffBy(t.(data := t.data[key := value]), names, name, delta + if key in t.data then 0 else 1)
  {
    hide Counter, FieldKey, CountKey, FieldKeys, Apart, OnlyCounters, Pending;
    FieldWritten(t, names, name, field, value);
    FieldThere(t.data, name, field);
  }

  lemma ErasedOne(t: Tally, names: set<bytes>, name: bytes, delta: int, field: bytes)
    requires Apart(names) && OffBy(t, names, name, delta)
    ensures var key := FieldKey(name, field);
      OffBy(t.(data := t.data - {key}), names, name, delta - if key in t.data then 1 else 0)
  {
    hide Counter, FieldKey, CountKey, FieldKeys, Apart, OnlyCounters, Pending;
    FieldErased(t, names, name, field);
    FieldThere(t.data, name, field);
  }

  lemma Balanced(t: Tally, names: set<bytes>, name: bytes)
    requires name in names && TallyOk(t, names)
    ensures OffBy(t, names, name, 0)
  {
    hide Counter, FieldKeys, CountKey, OnlyCounters;
    forall n | n in names
      ensures Counter(t.data, CountKey(n)) == Some(|FieldKeys(t.data, n)| - Pending(t.pending, CountKey(n)))
    {
      assert Kept(t, n);
    }
  }

  lemma {:induction false} WroteOff(t: Tally, names: set<bytes>, name: bytes, fields: seq<(bytes, bytes)>)
    requires Apart(names) && name in names && TallyOk(t, names)
    ensures OffBy(Tally(Wrote(t.data, name, fields), t.pending), names, name, Added(t.data, name, fields))
    decreases |fields|
  {
    hide OffBy, TallyOk, Apart, FieldKey;
    if fields == [] {
      Balanced(t, names, name);
    } else {
      var front := fields[..|fields| - 1];
      var last := fields[|fields| - 1];
      WroteOff(t, names, name, front);
      WroteOne(Tally(Wrote(t.data, name, front), t.pending), names, name, Added(t.data, name, front), last.0, last.1);
    }
  }

  lemma {:induction false} ErasedOff(t: Tally, names: set<bytes>, name: bytes, fields: seq<bytes>)
    requires Apart(names) && name in names && TallyOk(t, names)
    ensures OffBy(Tally(Erased(t.data, name, fields), t.pending), names, name, 0 - Removed(t.data, name, fields))
    decreases |fields|
  {
    hide OffBy, TallyOk, Apart, FieldKey;
    if fields == [] {
      Balanced(t, names, name);
    } else {
      var front := fields[..|fields| - 1];
      ErasedOff(t, names, name, front);
      ErasedOne(Tally(Erased(t.data, name, front), t.pending), names, name, 0 - Removed(t.data, name, front),
                fields[|fields| - 1]);
    }
  }

  /** Noting a change shifts what is not noted, flushed or not. */
  lemma NoteOff(t: Tally, names: set<bytes>, name: bytes, owed: int, delta: int, due: bool)
    requires Apart(names) && OffBy(t, names, name, owed) && Bounded(t.data)
    requires -1 <= owed - delta <= 0
    ensures OffBy(Note(t, name, delta, due), names, name, owed - delta)
  {
    hide Counter, FieldKeys, Flushed, Apart, CountKey;
    var noted := Tally(t.data, Bumped(t.pending, CountKey(name), delta));
    forall n | n in names
      ensures Pending(noted.pending, CountKey(n)) == Pending(t.pending, CountKey(n)) + if n == name then delta else 0
    {
      if n != name && CountKey(n) == CountKey(name) {
        CountKeyInjective(n, name);
      }
    }
    if due {
      FlushKeeps(noted, names, name, owed - delta);
    }
  }

  lemma NoteElsewhere(t: Tally, name: bytes, delta: int, due: bool, field: bytes, names: set<bytes>)
    requires Apart(names) && name in names && OnlyCounters(t.pending, names)
    ensures var key := FieldKey(name, field);
      key in Note(t, name, delta, due).data <==> key in t.data
  {
    var noted := Tally(t.data, Bumped(t.pending, CountKey(name), delta));
    var key := FieldKey(name, field);
    forall n | n in names ensures key != CountKey(n) {
      assert Prefix(name) <= key;
      CountersAreNotFields(name, n, names);
    }
    assert key !in noted.pending;
  }

  lemma Settled(t: Tally, names: set<bytes>, name: bytes)
    requires OffBy(t, names, name, 0)
    ensures TallyOk(t, names)
  {
    hide Counter, FieldKeys, CountKey, OnlyCounters;
  }

  lemma {:induction false} HSetKeeps(t: Tally, names: set<bytes>, name: bytes, fields: seq<(bytes, bytes)>, due: bool)
    requires Apart(names) && name in names && TallyOk(t, names)
    requires Bounded(Wrote(t.data, name, fields))
    ensures TallyOk(AfterHSet(t, name, fields, due), names)
  {
    hide TallyOk, OffBy, Note, Apart, Wrote, Added;
    WroteOff(t, names, name, fields);
    var n := Added(t.data, name, fields);
    var wrote := Tally(Wrote(t.data, name, fields), t.pending);
    if n > 0 {
      NoteOff(wrote, names, name, n, n, due);
    }
    Settled(AfterHSet(t, name, fields, due), names, name);
  }

  lemma {:induction false} HDelKeeps(t: Tally, names: set<bytes>, name: bytes, fields: seq<bytes>, due: bool)
    requires Apart(names) && name in names && TallyOk(t, names)
    requires Bounded(Erased(t.data, name, fields))
    ensures TallyOk(AfterHDel(t, name, fields, due), names)
  {
    hide TallyOk, OffBy, Note, Apart, Erased, Removed;
    ErasedOff(t, names, name, fields);
    var n: int := Removed(t.data, name, fields);
    var erased := Tally(Erased(t.data, name, fields), t.pending);
    if n > 0 {
      NoteOff(erased, names, name, -n, -n, due);
    }
    Settled(AfterHDel(t, name, fields, due), names, name);
  }

  /** HINCRBY notes a new field before storing it; by the end the order makes no difference. */
  lemma {:induction false} HIncrByKeeps(t: Tally, names: set<bytes>, name: bytes, field: bytes, delta: int, due: bool)
    requires Apart(names) && name in names && TallyOk(t, names) && Bounded(t.data)
    ensures TallyOk(AfterHIncrBy(t, name, field, delta, due), names)
  {
    var key := FieldKey(name, field);
    var n := Incremented(t.data, key, delta);
    assert key !in t.data ==> n.Some?;
    hide TallyOk, OffBy, Note, Apart, FieldKey, Incremented;
    Balanced(t, names, name);
    if key in t.data {
      if n.Some? {
        WroteOne(t, names, name, 0, field, Decimal.Print(n.value));
        Settled(AfterHIncrBy(t, name, field, delta, due), names, name);
      }
    } else {
      NoteOff(t, names, name, 0, 1, due);
      KeysKnown(t, names);
      NoteElsewhere(t, name, 1, due, field, names);
      WroteOne(Note(t, name, 1, due), names, name, -1, field, Decimal.Print(n.value));
      Settled(AfterHIncrBy(t, name, field, delta, due), names, name);
    }
  }

  lemma KeysKnown(t: Tally, names: set<bytes>)
    requires TallyOk(t, names)
    ensures OnlyCounters(t.pending, names)
  {
  }

  lemma {:induction false} HLenKeeps(t: Tally, names: set<bytes>, name: bytes)
    requires Apart(names) && name in names && TallyOk(t, names) && Bounded(t.data)
    ensures TallyOk(Flush(t), names)
  {
    hide *;
    Balanced(t, names, name);
    FlushKeeps(t, names, name, 0);
    Settled(Flush(t), names, name);
  }

  /** HSET answers by how many fields the hash grew: a repeated or existing field counts once or not at all. */
  lemma {:induction false} HSetCountsGrowth(d: Data, name: bytes, fields: seq<(bytes, bytes)>)
    ensures |FieldKeys(Wrote(d, name, fields), name)| == |FieldKeys(d, name)| + Added(d, name, fields)
    decreases |fields|
  {
    if fields != [] {
      var front, last := fields[..|fields| - 1], fields[|fields| - 1];
      HSetCountsGrowth(d, name, front);
      var key := FieldKey(name, last.0);
      assert FieldKeys(Wrote(d, name, fields), name) == FieldKeys(Wrote(d, name, front), name) + {key};
    }
  }

  lemma {:induction false} HDelCountsLoss(d: Data, name: bytes, fields: seq<bytes>)
    ensures |FieldKeys(Erased(d, name, fields), name)| == |FieldKeys(d, name)| - Removed(d, name, fields)
    decreases |fields|
  {
    if fields != [] {
      var front, last := fields[..|fields| - 1], fields[|fields| - 1];
      HDelCountsLoss(d, name, front);
      var key := FieldKey(name, last);
      assert FieldKeys(Erased(d, name, fields), name) == FieldKeys(Erased(d, name, front), name) - {key};
    }
  }

  /** After HSET a named field holds the last value given for it. */
  lemma {:induction false} HSetLastValueWins(d: Data, name: bytes, fields: seq<(bytes, bytes)>, i: nat)
    requires i < |fields| && forall j :: i < j < |fields| ==> fields[j].0 != fields[i].0
    ensures var key := FieldKey(name, fields[i].0);
      key in Wrote(d, name, fields) && Wrote(d, name, fields)[key] == fields[i].1
    decreases |fields|
  {
    hide FieldKey;
    var last := fields[|fields| - 1];
    if i < |fields| - 1 {
      HSetLastValueWins(d, name, fields[..|fields| - 1], i);
      DifferentFields(name, fields[i].0, last.0);
    }
  }

  lemma DifferentFields(name: bytes, f: bytes, g: bytes)
    requires f != g
    ensures FieldKey(name, f) != FieldKey(name, g)
  {
    if FieldKey(name, f) == FieldKey(name, g) {
      FieldKeyInjective(name, f, g);
    }
  }

  /** Every key that is not a named field is as before. */
  lemma {:induction false} HSetLeavesOthers(d: Data, name: bytes, fields: seq<(bytes, bytes)>, key: bytes)
    requires forall j :: 0 <= j < |fields| ==> key != FieldKey(name, fields[j].0)
    ensures key in Wrote(d, name, fields) <==> key in d
    ensures key in d ==> Wrote(d, name, fields)[key] == d[key]
    decreases |fields|
  {
    hide FieldKey;
    if fields != [] {
      HSetLeavesOthers(d, name, fields[..|fields| - 1], key);
    }
  }

  /** Anything else that happens in the store, away from the hashes in use. */
  ghost predicate Away(d: Data, e: Data, names: set<bytes>) {
    forall n, key :: n in names && Uses(n, key) ==> (key in d <==> key in e) && (key in d ==> d[key] == e[key])
  }

  lemma AwayKeeps(t: Tally, e: Data, names: set<bytes>)
    requires TallyOk(t, names) && Away(t.data, e, names)
    ensures TallyOk(t.(data := e), names)
  {
    hide Prefix, CountKey;
    forall n | n in names ensures Kept(t.(data := e), n) {
      assert Kept(t, n) && Uses(n, CountKey(n));
      forall key ensures key in FieldKeys(t.data, n) <==> key in FieldKeys(e, n) {
        if Prefix(n) <= key {
          assert Uses(n, key);
        }
      }
      assert FieldKeys(t.data, n) == FieldKeys(e, n);
    }
  }

  datatype Op =
    | HSet(name: bytes, fields: seq<(bytes, bytes)>, due: bool)
    | HDel(name: bytes, keys: seq<bytes>, due: bool)
    | HIncrBy(name: bytes, field: bytes, delta: int, due: bool)
    | HLen(name: bytes)
    | Elsewhere(data: Data)

  ghost predicate Step(t: Tally, op: Op, u: Tally, names: set<bytes>) {
    match op
    case HSet(name, fields, due) =>
      name in names && u == AfterHSet(t, name, fields, due) && Bounded(Wrote(t.data, name, fields))
    case HDel(name, keys, due) =>
      name in names && u == AfterHDel(t, name, keys, due) && Bounded(Erased(t.data, name, keys))
    case HIncrBy(name, field, delta, due) => name in names && u == AfterHIncrBy(t, name, field, delta, due)
    case HLen(name) => name in names && u == Flush(t)
    case Elsewhere(e) => Away(t.data, e, names) && u == t.(data := e)
  }

  /** Commands of any connections, one at a time, starting with no hash and nothing pending. */
  ghost predicate Run(states: seq<Tally>, ops: seq<Op>, names: set<bytes>) {
    |states| == |ops| + 1
    && states[0].pending == map[] && (forall n, key :: n in names && Uses(n, key) ==> key !in states[0].data)
    && (forall i :: 0 <= i < |states| ==> Bounded(states[i].data))
    && forall i :: 0 <= i < |ops| ==> Step(states[i], ops[i], states[i + 1], names)
  }

  lemma {:induction false} StepKeeps(t: Tally, op: Op, u: Tally, names: set<bytes>)
    requires Apart(names) && TallyOk(t, names) && Bounded(t.data) && Step(t, op, u, names)
    ensures TallyOk(u, names)
  {
    hide TallyOk, Apart, AfterHSet, AfterHDel, AfterHIncrBy, Flush, Away, Wrote, Erased;
    match op
    case HSet(name, fields, due) => HSetKeeps(t, names, name, fields, due);
    case HDel(name, keys, due) => HDelKeeps(t, names, name, keys, due);
    case HIncrBy(name, field, delta, due) => HIncrByKeeps(t, names, name, field, delta, due);
    case HLen(name) => HLenKeeps(t, names, name);
    case Elsewhere(e) => AwayKeeps(t, e, names);
  }

  lemma FreshStart(t: Tally, names: set<bytes>)
    requires t.pending == map[] && (forall n, key :: n in names && Uses(n, key) ==> key !in t.data)
    ensures TallyOk(t, names)
  {
    hide Prefix, CountKey;
    forall n | n in names ensures Kept(t, n) {
      assert Uses(n, CountKey(n));
      assert forall key :: Prefix(n) <= key ==> Uses(n, key);
      assert FieldKeys(t.data, n) == {};
    }
  }

  /** In every run, counter plus pending change is the number of fields, and HLEN answers it. */
  lemma {:induction false} CountIsCardinality(states: seq<Tally>, ops: seq<Op>, names: set<bytes>)
    requires Apart(names) && Run(states, ops, names)
    ensures TallyOk(states[|ops|], names)
    ensures forall n :: n in names ==> HLenAnswer(states[|ops|], n) == |FieldKeys(states[|ops|].data, n)|
    decreases |ops|
  {
    hide TallyOk, Apart, Step, Uses, HLenAnswer, FieldKeys, Bounded;
    var k := |ops|;
    if k == 0 {
      FreshStart(states[0], names);
    } else {
      CountIsCardinality(states[..k], ops[..k - 1], names);
      StepKeeps(states[k - 1], ops[k - 1], states[k], names);
    }
    forall n | n in names ensures HLenAnswer(states[k], n) == |FieldKeys(states[k].data, n)| {
      HLenIsCardinality(states[k], names, n);
    }
  }

  // ---- Other hashes. ----

  /** The fields of a hash and their values are the same in both states. */
  ghost predicate SameFields(d: Data, e: Data, n: bytes) {
    forall key :: Prefix(n) <= key ==> (key in d <==> key in e) && (key in d ==> d[key] == e[key])
  }

  lemma {:induction false} NotOfOthers(names: set<bytes>, name: bytes, other: bytes, field: bytes)
    requires Apart(names) && name in names && other in names && name != other
    ensures !(Prefix(other) <= FieldKey(name, field))
  {
    var key := FieldKey(name, field);
    assert Prefix(name) <= key;
    if Prefix(other) <= key {
      BothPrefixes(Prefix(name), Prefix(other), key);
    }
  }

  lemma {:induction false} WroteElsewhere(d: Data, names: set<bytes>, name: bytes, other: bytes,
                                          fields: seq<(bytes, bytes)>)
    requires Apart(names) && name in names && other in names && name != other
    ensures SameFields(d, Wrote(d, name, fields), other)
    decreases |fields|
  {
    hide Prefix, FieldKey, Apart;
    if fields != [] {
      WroteElsewhere(d, names, name, other, fields[..|fields| - 1]);
      NotOfOthers(names, name, other, fields[|fields| - 1].0);
    }
  }

  lemma {:induction false} ErasedElsewhere(d: Data, names: set<bytes>, name: bytes, other: bytes, fields: seq<bytes>)
    requires Apart(names) && name in names && other in names && name != other
    ensures SameFields(d, Erased(d, name, fields), other)
    decreases |fields|
  {
    hide Prefix, FieldKey, Apart;
    if fields != [] {
      ErasedElsewhere(d, names, name, other, fields[..|fields| - 1]);
      NotOfOthers(names, name, other, fields[|fields| - 1]);
    }
  }

  lemma {:induction false} FlushElsewhere(d: Data, u: Updates, names: set<bytes>, n: bytes)
    requires Apart(names) && n in names && OnlyCounters(u, names)
    ensures SameFields(d, Flushed(d, u), n)
  {
    hide Prefix, CountKey, Counter, Apart;
    forall key | Prefix(n) <= key ensures key !in u {
      if key in u {
        var m :| m in names && key == CountKey(m);
        CountersAreNotFields(n, m, names);
      }
    }
  }

  lemma {:induction false} NoteLeavesFields(t: Tally, names: set<bytes>, name: bytes, other: bytes, delta: int,
                                             due: bool)
    requires Apart(names) && name in names && other in names && OnlyCounters(t.pending, names)
    ensures SameFields(t.data, Note(t, name, delta, due).data, other)
  {
    hide SameFields, Flushed, Apart;
    var noted := Bumped(t.pending, CountKey(name), delta);
    FlushElsewhere(t.data, noted, names, other);
    SameFieldsReflexive(t.data, other);
  }

  lemma SameFieldsReflexive(d: Data, n: bytes)
    ensures SameFields(d, d, n)
  {
  }

  lemma SameFieldsTransitive(d: Data, e: Data, f: Data, n: bytes)
    requires SameFields(d, e, n) && SameFields(e, f, n)
    ensures SameFields(d, f, n)
  {
    hide Prefix;
  }

  predicate OnHash(op: Op, name: bytes) {
    match op
    case HSet(n, _, _) => n == name
    case HDel(n, _, _) => n == name
    case HIncrBy(n, _, _, _) => n == name
    case HLen(n) => n == name
    case Elsewhere(_) => false
  }

  lemma {:induction false} OtherFields(t: Tally, op: Op, u: Tally, names: set<bytes>, name: bytes, other: bytes)
    requires Apart(names) && name in names && other in names && name != other && OnHash(op, name)
    requires OnlyCounters(t.pending, names) && Step(t, op, u, names)
    ensures SameFields(t.data, u.data, other)
  {
    hide SameFields, Apart, Flushed, OnlyCounters, Wrote, Added, Erased, Removed, Incremented, Note, Bounded;
    SameFieldsReflexive(t.data, other);
    match op
    case HSet(_, fields, due) =>
      WroteElsewhere(t.data, names, name, other, fields);
      var wrote := Tally(Wrote(t.data, name, fields), t.pending);
      NoteLeavesFields(wrote, names, name, other, Added(t.data, name, fields), due);
      SameFieldsTransitive(t.data, wrote.data, Note(wrote, name, Added(t.data, name, fields), due).data, other);
    case HDel(_, keys, due) =>
      ErasedElsewhere(t.data, names, name, other, keys);
      var erased := Tally(Erased(t.data, name, keys), t.pending);
      var n: int := Removed(t.data, name, keys);
      NoteLeavesFields(erased, names, name, other, -n, due);
      SameFieldsTransitive(t.data, erased.data, Note(erased, name, -n, due).data, other);
    case HIncrBy(_, field, delta, due) => IncrementElsewhere(t, names, name, other, field, delta, due);
    case HLen(_) => FlushElsewhere(t.data, t.pending, names, other);
  }

  lemma {:induction false} IncrementElsewhere(t: Tally, names: set<bytes>, name: bytes, other: bytes, field: bytes,
                                              delta: int, due: bool)
    requires Apart(names) && name in names && other in names && name != other && OnlyCounters(t.pending, names)
    ensures SameFields(t.data, AfterHIncrBy(t, name, field, delta, due).data, other)
  {
    hide Prefix, FieldKey, Apart, OnlyCounters, Incremented, Note;
    NoteLeavesFields(t, names, name, other, 1, due);
    NotOfOthers(names, name, other, field);
  }

  /** A command on one hash leaves the fields, values and count of every other hash as they were. */
  lemma {:induction false} OtherHashesUntouched(t: Tally, op: Op, u: Tally, names: set<bytes>, name: bytes,
                                                 other: bytes)
    requires Apart(names) && name in names && other in names && name != other && OnHash(op, name)
    requires TallyOk(t, names) && Bounded(t.data) && Bounded(u.data) && Step(t, op, u, names)
    ensures SameFields(t.data, u.data, other)
    ensures HLenAnswer(u, other) == HLenAnswer(t, other)
  {
    hide Apart, TallyOk, Step, HLenAnswer, Bounded, Prefix, OnHash;
    KeysKnown(t, names);
    OtherFields(t, op, u, names, name, other);
    StepKeeps(t, op, u, names);
    HLenIsCardinality(t, names, other);
    HLenIsCardinality(u, names, other);
    assert FieldKeys(t.data, other) == FieldKeys(u.data, other);
  }
}
