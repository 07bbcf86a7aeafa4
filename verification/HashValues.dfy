/** What the fields of a hash hold after HSET, HDEL and HINCRBY, and what HINCRBY answers. */
module HashValues {
  import opened Bytes
  import opened Binary
  import opened Store
  import opened HashKeys
  import opened Hashes
  import opened HashCount
  import Decimal
  import Utf8

  /** The number nearest to `n` within 64 bits. */
  function Clamped(n: int): int {
    if n > 9223372036854775807 then 9223372036854775807
    else if n < -9223372036854775808 then -9223372036854775808
    else n
  }

  /** HINCRBY answers `n` and stores its text. */
  ghost predicate Becomes(t: Tally, name: bytes, field: bytes, delta: int, due: bool, n: int) {
    var u, key := AfterHIncrBy(t, name, field, delta, due), FieldKey(name, field);
    HIncrByAnswer(t.data, name, field, delta) == Ok(n) && key in u.data && u.data[key] == Decimal.Print(n)
  }

  /** On a field that is not there, HINCRBY answers and stores the increment. */
  lemma FirstIncrement(t: Tally, name: bytes, field: bytes, delta: int, due: bool)
    requires FieldKey(name, field) !in t.data
    ensures Becomes(t, name, field, delta, due, delta)
  {
    hide Flushed, FieldKey, CountKey;
  }

  /** On a field that holds the text of a number, it answers and stores the sum, within 64 bits. */
  lemma NextIncrement(t: Tally, name: bytes, field: bytes, delta: int, due: bool, m: int)
    requires FieldKey(name, field) in t.data && Decimal.Parse(t.data[FieldKey(name, field)]) == Some(m)
    ensures Becomes(t, name, field, delta, due, Clamped(m + delta))
  {
    hide Flushed, FieldKey, CountKey, Decimal.Parse;
    var value := t.data[FieldKey(name, field)];
    Decimal.ParsedIsAscii(value);
    Utf8.AsciiIsValid(value);
  }

  /** A field that holds eight bytes that are not text is read as a little-endian number. */
  lemma RawIncrement(t: Tally, name: bytes, field: bytes, delta: int, due: bool)
    requires FieldKey(name, field) in t.data && |t.data[FieldKey(name, field)]| == 8
    requires !Utf8.Valid(t.data[FieldKey(name, field)])
    ensures Becomes(t, name, field, delta, due, Clamped(ReadSigned(t.data[FieldKey(name, field)]) + delta))
  {
    hide Flushed, FieldKey, CountKey, Utf8.Valid, ReadSigned;
  }

  /** The value of a field is a number: text, or eight bytes that are not text. */
  predicate Numeric(value: bytes) {
    Decimal.Parse(value).Some? || (|value| == 8 && !Utf8.Valid(value))
  }

  /** HINCRBY fails exactly if the field is there and holds no number, and then nothing changes. */
  lemma IncrementFailsIff(t: Tally, name: bytes, field: bytes, delta: int, due: bool)
    ensures var key := FieldKey(name, field);
      HIncrByAnswer(t.data, name, field, delta).Err? <==> key in t.data && !Numeric(t.data[key])
    ensures HIncrByAnswer(t.data, name, field, delta).Err? ==>
      HIncrByAnswer(t.data, name, field, delta) == Err(NotAnInteger) && AfterHIncrBy(t, name, field, delta, due) == t
  {
    hide Flushed, FieldKey, CountKey, Decimal.Parse, Utf8.Valid, ReadSigned;
    var key := FieldKey(name, field);
    if key in t.data && Decimal.Parse(t.data[key]).Some? {
      Decimal.ParsedIsAscii(t.data[key]);
      Utf8.AsciiIsValid(t.data[key]);
    }
  }

  /** The key is no counter with a pending change. */
  predicate NotPending(t: Tally, name: bytes, key: bytes) {
    key !in t.pending && key != CountKey(name)
  }

  lemma NoteLeaves(t: Tally, name: bytes, delta: int, due: bool, key: bytes)
    requires NotPending(t, name, key)
    ensures var u := Note(t, name, delta, due);
      (key in u.data <==> key in t.data) && (key in t.data ==> u.data[key] == t.data[key])
  {
    hide Word, Counter, CountKey;
  }

  /** HINCRBY changes its field only, apart from counters. */
  lemma IncrementLeavesOthers(t: Tally, name: bytes, field: bytes, delta: int, due: bool, key: bytes)
    requires key != FieldKey(name, field) && NotPending(t, name, key)
    ensures var u := AfterHIncrBy(t, name, field, delta, due);
      (key in u.data <==> key in t.data) && (key in t.data ==> u.data[key] == t.data[key])
  {
    hide Note, FieldKey, CountKey, Incremented;
    NoteLeaves(t, name, 1, due, key);
  }

  /** HSET stores the last value given for each field, flush or not, and changes nothing else but counters. */
  lemma SetStores(t: Tally, name: bytes, fields: seq<(bytes, bytes)>, due: bool, i: nat)
    requires i < |fields| && forall j :: i < j < |fields| ==> fields[j].0 != fields[i].0
    requires NotPending(t, name, FieldKey(name, fields[i].0))
    ensures var u, key := AfterHSet(t, name, fields, due), FieldKey(name, fields[i].0);
      key in u.data && u.data[key] == fields[i].1
  {
    hide Note, FieldKey, CountKey, Wrote, Added;
    HSetLastValueWins(t.data, name, fields, i);
    NoteLeaves(Tally(Wrote(t.data, name, fields), t.pending), name, Added(t.data, name, fields), due,
               FieldKey(name, fields[i].0));
  }

  lemma SetLeavesOthers(t: Tally, name: bytes, fields: seq<(bytes, bytes)>, due: bool, key: bytes)
    requires NotPending(t, name, key) && forall j :: 0 <= j < |fields| ==> key != FieldKey(name, fields[j].0)
    ensures var u := AfterHSet(t, name, fields, due);
      (key in u.data <==> key in t.data) && (key in t.data ==> u.data[key] == t.data[key])
  {
    hide Note, FieldKey, CountKey, Wrote, Added;
    HSetLeavesOthers(t.data, name, fields, key);
    NoteLeaves(Tally(Wrote(t.data, name, fields), t.pending), name, Added(t.data, name, fields), due, key);
  }

  lemma {:induction false} ErasedIs(d: Data, name: bytes, fields: seq<bytes>, key: bytes)
    ensures key in Erased(d, name, fields)
      <==> key in d && forall i :: 0 <= i < |fields| ==> key != FieldKey(name, fields[i])
    ensures key in Erased(d, name, fields) ==> Erased(d, name, fields)[key] == d[key]
    decreases |fields|
  {
    hide FieldKey;
    if fields != [] {
      var n := |fields| - 1;
      ErasedIs(d, name, fields[..n], key);
      assert forall i :: 0 <= i < n ==> fields[..n][i] == fields[i];
    }
  }

  /** HDEL takes exactly the fields named, and changes nothing else but counters. */
  lemma DeleteErases(t: Tally, name: bytes, fields: seq<bytes>, due: bool, key: bytes)
    requires NotPending(t, name, key)
    ensures var u := AfterHDel(t, name, fields, due);
      (key in u.data <==> key in t.data && forall i :: 0 <= i < |fields| ==> key != FieldKey(name, fields[i]))
      && (key in u.data ==> u.data[key] == t.data[key])
  {
    hide Note, FieldKey, CountKey, Erased, Removed;
    ErasedIs(t.data, name, fields, key);
    NoteLeaves(Tally(Erased(t.data, name, fields), t.pending), name, 0 - Removed(t.data, name, fields), due, key);
  }

  /** The storage keys: `H:name:f:field` and `H:name:meta`. */
  lemma StorageKeys(name: bytes, field: bytes)
    ensures FieldKey(name, field) == [72, 58] + name + [58, 102, 58] + field
    ensures CountKey(name) == [72, 58] + name + [58, 109, 101, 116, 97]
  {
  }
}
