/**
 * Hash commands. The number of fields is not counted on demand: every command adds its change to
 * a shared tracker, and the tracker is flushed into the stored counters now and then, so that
 * counter plus pending change is the true number of fields.
 */
module Hashes {
  import opened Bytes
  import opened Binary
  import opened Store
  import opened HashKeys
  import Decimal
  import Utf8

  type Updates = map<bytes, int>

  function Pending(u: Updates, key: bytes): int {
    if key in u then u[key] else 0
  }

  function Bumped(u: Updates, key: bytes, delta: int): Updates {
    u[key := Pending(u, key) + delta]
  }

  /** The counters a flush moves: those with a change, that hold a counter or nothing. */
  predicate Moves(d: Data, u: Updates, key: bytes) {
    key in u && u[key] != 0 && Counter(d, key).Some?
  }

  function Flushed(d: Data, u: Updates): Data {
    map key | key in d.Keys + u.Keys && (key in d || Moves(d, u, key))
      :: if Moves(d, u, key) then Word(Counter(d, key).value + u[key]) else d[key]
  }

  function Only(u: Updates, keys: set<bytes>): Updates {
    map key | key in u && key in keys :: u[key]
  }

  lemma {:induction false} FlushOneMore(d: Data, u: Updates, done: set<bytes>, key: bytes)
    requires key in u && key !in done
    ensures var e := Flushed(d, Only(u, done));
      var v := Counter(d, key);
      Counter(e, key) == v
      && Flushed(d, Only(u, done + {key})) == if u[key] != 0 && v.Some? then e[key := Word(v.value + u[key])] else e
  {
    hide Word, ReadSigned, Counter;
    var a, b := Only(u, done), Only(u, done + {key});
    forall k | k != key ensures Moves(d, a, k) == Moves(d, b, k) && (k in a ==> k in b && a[k] == b[k]) {
    }
    assert !Moves(d, a, key);
    FlushedElsewhere(d, a, b, key);
    assert key in Flushed(d, a) <==> key in d;
    assert Counter(Flushed(d, a), key) == Counter(d, key) by {
      SameCounter(Flushed(d, a), d, key);
    }
  }

  lemma SameCounter(d: Data, e: Data, key: bytes)
    requires key in d <==> key in e
    requires key in d ==> d[key] == e[key]
    ensures Counter(d, key) == Counter(e, key)
  {
  }

  lemma FlushedElsewhere(d: Data, a: Updates, b: Updates, key: bytes)
    requires forall k :: k != key ==> Moves(d, a, k) == Moves(d, b, k) && (k in a ==> k in b && a[k] == b[k])
    ensures forall k :: k != key ==> (k in Flushed(d, a) <==> k in Flushed(d, b))
    ensures forall k :: k != key && k in Flushed(d, a) ==> Flushed(d, a)[k] == Flushed(d, b)[k]
  {
    hide Word, Counter;
  }

  /** The number of values HSET adds and HDEL removes, one after the other. */
  function Wrote(d: Data, name: bytes, fields: seq<(bytes, bytes)>): Data {
    if fields == [] then d
    else
      var last := fields[|fields| - 1];
      Wrote(d, name, fields[..|fields| - 1])[FieldKey(name, last.0) := last.1]
  }

  function Added(d: Data, name: bytes, fields: seq<(bytes, bytes)>): nat {
    if fields == [] then 0
    else
      var front := fields[..|fields| - 1];
      Added(d, name, front) + if FieldKey(name, fields[|fields| - 1].0) in Wrote(d, name, front) then 0 else 1
  }

  function Erased(d: Data, name: bytes, fields: seq<bytes>): Data {
    if fields == [] then d
    else Erased(d, name, fields[..|fields| - 1]) - {FieldKey(name, fields[|fields| - 1])}
  }

  function Removed(d: Data, name: bytes, fields: seq<bytes>): nat {
    if fields == [] then 0
    else
      var front := fields[..|fields| - 1];
      Removed(d, name, front) + if FieldKey(name, fields[|fields| - 1]) in Erased(d, name, front) then 1 else 0
  }

  /** The store and the tracker together. */
  datatype Tally = Tally(data: Data, pending: Updates)

  function Flush(t: Tally): Tally {
    Tally(Flushed(t.data, t.pending), map[])
  }

  /** The tracker notes a change, and is flushed when it is full or its interval has passed. */
  function Note(t: Tally, name: bytes, delta: int, due: bool): Tally {
    var noted := Tally(t.data, Bumped(t.pending, CountKey(name), delta));
    if due then Flush(noted) else noted
  }

  function Saturate(n: int): int {
    if n > Decimal.I64_MAX then Decimal.I64_MAX else if n < Decimal.I64_MIN then Decimal.I64_MIN else n
  }

  /** A field's value as a number: decimal text, or eight raw bytes when it is not text. */
  function NumberIn(value: bytes): Option<int> {
    if Utf8.Valid(value) then Decimal.Parse(value)
    else if |value| == 8 then Some(ReadSigned(value))
    else None
  }

  /** What HINCRBY stores, or `None` when the field is not a number. */
  function Incremented(d: Data, key: bytes, delta: int): Option<int> {
    if key !in d then Some(delta)
    else
      var current := NumberIn(d[key]);
      if current.Some? then Some(Saturate(current.value + delta)) else None
  }

  function HIncrByAnswer(d: Data, name: bytes, field: bytes, delta: int): Result<int> {
    var n := Incremented(d, FieldKey(name, field), delta);
    if n.Some? then Ok(n.value) else Err(NotAnInteger)
  }

  function AfterHSet(t: Tally, name: bytes, fields: seq<(bytes, bytes)>, due: bool): Tally {
    var n := Added(t.data, name, fields);
    var wrote := Tally(Wrote(t.data, name, fields), t.pending);
    if n > 0 then Note(wrote, name, n, due) else wrote
  }

  function AfterHDel(t: Tally, name: bytes, fields: seq<bytes>, due: bool): Tally {
    var n: int := Removed(t.data, name, fields);
    var erased := Tally(Erased(t.data, name, fields), t.pending);
    if n > 0 then Note(erased, name, -n, due) else erased
  }

  function AfterHIncrBy(t: Tally, name: bytes, field: bytes, delta: int, due: bool): Tally {
    var key := FieldKey(name, field);
    var noted := if key in t.data then t else Note(t, name, 1, due);
    var n := Incremented(t.data, key, delta);
    if n.Some? then noted.(data := noted.data[key := Decimal.Print(n.value)]) else noted
  }

  /** HLEN flushes, then reads the counter. */
  function HLenAnswer(t: Tally, name: bytes): int {
    var d := Flush(t).data;
    if CountKey(name) in d && |d[CountKey(name)]| >= 8 then ReadSigned(d[CountKey(name)][..8]) else 0
  }

  lemma IncrementIsNumber(d: Data, key: bytes, delta: int)
    requires Decimal.IsI64(delta)
    ensures Incremented(d, key, delta).Some? ==> Decimal.IsI64(Incremented(d, key, delta).value)
  {
  }

  /** Two increments in a row add up; the first one's text reads back as the number it printed. */
  lemma IncrementTwice(d: Data, key: bytes, a: int, b: int)
    requires Decimal.IsI64(a) && Decimal.IsI64(b)
    requires Incremented(d, key, a).Some?
    ensures var n := Incremented(d, key, a).value;
      Incremented(d[key := Decimal.Print(n)], key, b) == Some(Saturate(n + b))
  {
    var n := Incremented(d, key, a).value;
    IncrementIsNumber(d, key, a);
    Decimal.ParsePrint(n);
    PrintIsAscii(n);
    Utf8.AsciiIsValid(Decimal.Print(n));
  }

  lemma PrintIsAscii(n: int)
    ensures forall i :: 0 <= i < |Decimal.Print(n)| ==> Decimal.Print(n)[i] < 0x80
  {
    var digits := Decimal.Digits(if n < 0 then -n else n);
    assert Decimal.AllDigits(digits);
    forall i | 0 <= i < |Decimal.Print(n)| ensures Decimal.Print(n)[i] < 0x80 {
      if n < 0 && i > 0 {
        assert Decimal.IsDigit(digits[i - 1]);
      } else if n >= 0 {
        assert Decimal.IsDigit(digits[i]);
      }
    }
  }

  class MetadataTracker {
    var pending: Updates

    constructor ()
      ensures pending == map[]
    {
      pending := map[];
    }

    method AddUpdate(key: bytes, delta: int)
      modifies this
      ensures pending == Bumped(old(pending), key, delta)
    {
      pending := pending[key := (if key in pending then pending[key] else 0) + delta];
    }

    method TakeUpdates() returns (updates: Updates)
      modifies this
      ensures updates == old(pending) && pending == map[]
    {
      updates := pending;
      pending := map[];
    }
  }

  class HashOperations {
    const store: FeoxStore
    const tracker: MetadataTracker

    constructor (s: FeoxStore, t: MetadataTracker)
      ensures store == s && tracker == t
    {
      store := s;
      tracker := t;
    }

    ghost function State(): Tally
      reads store, tracker
    {
      Tally(store.data, tracker.pending)
    }

    /** The updates are applied in whatever order the map yields them; failures are ignored. */
    method FlushMetadata()
      modifies store, tracker
      ensures State() == Flush(old(State()))
    {
      hide Flushed, Only;
      ghost var d := store.data;
      var updates := tracker.TakeUpdates();
      var rest := updates.Keys;
      ghost var done: set<bytes> := {};
      NothingFlushed(d, updates);
      while rest != {}
        invariant rest !! done && rest + done == updates.Keys
        invariant store.data == Flushed(d, Only(updates, done)) && tracker.pending == map[]
        decreases |rest|
      {
        var key :| key in rest;
        FlushOneMore(d, updates, done, key);
        var delta := updates[key];
        if delta != 0 {
          var _ := store.AtomicIncrement(key, delta);
        }
        done := done + {key};
        rest := rest - {key};
      }
      assert done == updates.Keys;
      AllFlushed(updates);
    }

    method MaybeFlushMetadata(due: bool)
      modifies store, tracker
      ensures State() == if due then Flush(old(State())) else old(State())
    {
      if due {
        FlushMetadata();
      }
    }

    method HSet(name: bytes, fields: seq<(bytes, bytes)>, due: bool) returns (added: int)
      modifies store, tracker
      ensures added == Added(old(store.data), name, fields)
      ensures State() == AfterHSet(old(State()), name, fields, due)
    {
      hide Flushed, FieldKey, CountKey;
      ghost var d := store.data;
      added := 0;
      var i := 0;
      while i < |fields|
        invariant 0 <= i <= |fields|
        invariant store.data == Wrote(d, name, fields[..i]) && added == Added(d, name, fields[..i])
        invariant tracker.pending == old(tracker.pending)
      {
        assert fields[..i + 1][..i] == fields[..i];
        var isNew := store.Insert(FieldKey(name, fields[i].0), fields[i].1);
        if isNew {
          added := added + 1;
        }
        i := i + 1;
      }
      assert fields[..i] == fields;
      if added > 0 {
        tracker.AddUpdate(CountKey(name), added);
        MaybeFlushMetadata(due);
      }
    }

    method HDel(name: bytes, fields: seq<bytes>, due: bool) returns (removed: int)
      modifies store, tracker
      ensures removed == Removed(old(store.data), name, fields)
      ensures State() == AfterHDel(old(State()), name, fields, due)
    {
      hide Flushed, FieldKey, CountKey;
      ghost var d := store.data;
      if |fields| == 0 {
        return 0;
      }
      removed := 0;
      var i := 0;
      while i < |fields|
        invariant 0 <= i <= |fields|
        invariant store.data == Erased(d, name, fields[..i]) && removed == Removed(d, name, fields[..i])
        invariant tracker.pending == old(tracker.pending)
      {
        assert fields[..i + 1][..i] == fields[..i];
        var found := store.Delete(FieldKey(name, fields[i]));
        if found {
          removed := removed + 1;
        }
        i := i + 1;
      }
      assert fields[..i] == fields;
      if removed > 0 {
        tracker.AddUpdate(CountKey(name), -removed);
        MaybeFlushMetadata(due);
      }
    }

    method HIncrBy(name: bytes, field: bytes, delta: int, due: bool) returns (r: Result<int>)
      modifies store, tracker
      ensures r == HIncrByAnswer(old(store.data), name, field, delta)
      ensures State() == AfterHIncrBy(old(State()), name, field, delta, due)
    {
      hide Flushed, FieldKey, CountKey;
      var key := FieldKey(name, field);
      var exists_ := store.ContainsKey(key);
      var newValue: int := delta;
      if exists_ {
        var got := store.GetBytes(key);
        if got.Ok? {
          var current := NumberIn(got.value);
          if current.None? {
            return Err(NotAnInteger);
          }
          newValue := Saturate(current.value + delta);
        }
      } else {
        tracker.AddUpdate(CountKey(name), 1);
        MaybeFlushMetadata(due);
      }
      var _ := store.Insert(key, Decimal.Print(newValue));
      r := Ok(newValue);
    }

    method HLen(name: bytes) returns (len: int)
      modifies store, tracker
      ensures len == HLenAnswer(old(State()), name)
      ensures State() == Flush(old(State()))
    {
      hide Flushed, CountKey;
      FlushMetadata();
      var got := store.GetBytes(CountKey(name));
      len := if got.Ok? && |got.value| >= 8 then ReadSigned(got.value[..8]) else 0;
    }
  }

  lemma NothingFlushed(d: Data, u: Updates)
    ensures Flushed(d, Only(u, {})) == d
  {
  }

  lemma AllFlushed(u: Updates)
    ensures Only(u, u.Keys) == u
  {
  }
}
