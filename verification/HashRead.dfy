/** HGETALL and HKEYS: one limited range query over the field keys of a hash. */
module HashRead {
  import opened Bytes
  import opened Store
  import opened HashKeys
  import opened Keyspace

  const FIELDS_LIMIT: nat := 10000

  /** The end of the range is the prefix and one byte 0xFF, so some fields lie above it. */
  predicate AboveEnd(field: bytes) {
    |field| >= 2 && field[0] == 255
  }

  ghost predicate NoneAboveEnd(d: Data, name: bytes) {
    forall key :: key in FieldKeys(d, name) ==> !AboveEnd(key[|Prefix(name)|..])
  }

  function InRange(d: Data, name: bytes): set<bytes> {
    Within(d, Prefix(name), Prefix(name) + [255])
  }

  function Scanned(d: Data, name: bytes): seq<bytes> {
    Range(d, Prefix(name), Prefix(name) + [255], FIELDS_LIMIT)
  }

  lemma InRangeExactly(d: Data, name: bytes, key: bytes)
    ensures key in InRange(d, name) <==> key in FieldKeys(d, name) && !AboveEnd(key[|Prefix(name)|..])
  {
    var p := Prefix(name);
    hide Prefix;
    PrefixRange(p, key, 255);
    if p <= key {
      assert |key| > |p| ==> key[|p|] == key[|p|..][0];
    }
  }

  method HGetAll(store: FeoxStore, name: bytes) returns (results: seq<(bytes, bytes)>)
    ensures |results| == |Scanned(store.data, name)|
    ensures forall i :: 0 <= i < |results| ==>
      FieldKey(name, results[i].0) == Scanned(store.data, name)[i]
      && Scanned(store.data, name)[i] in store.data && results[i].1 == store.data[Scanned(store.data, name)[i]]
  {
    hide Sorted, Within, Take;
    var prefix := Prefix(name);
    var pairs := store.RangeQuery(prefix, prefix + [255], FIELDS_LIMIT);
    ghost var keys := Scanned(store.data, name);
    ScannedHavePrefix(store.data, name);
    hide Prefix;
    results := [];
    var i := 0;
    while i < |pairs|
      invariant 0 <= i <= |pairs| && |results| == i
      invariant forall j :: 0 <= j < i ==>
        prefix + results[j].0 == keys[j] && keys[j] in store.data && results[j].1 == store.data[keys[j]]
    {
      if prefix <= pairs[i].0 {
        assert keys[i] == prefix + keys[i][|prefix|..];
        results := results + [(pairs[i].0[|prefix|..], pairs[i].1)];
      }
      i := i + 1;
    }
  }

  /** The check for the prefix never drops anything: the range holds nothing else. */
  lemma ScannedHavePrefix(d: Data, name: bytes)
    ensures forall i :: 0 <= i < |Scanned(d, name)| ==> Prefix(name) <= Scanned(d, name)[i]
  {
    var keys := Scanned(d, name);
    forall i | 0 <= i < |keys| ensures Prefix(name) <= keys[i] {
      var all := Sorted(InRange(d, name));
      assert keys[i] == all[i] && all[i] in all;
      InRangeExactly(d, name, keys[i]);
    }
  }

  ghost predicate ShowsAllFields(d: Data, name: bytes) {
    forall key :: key in FieldKeys(d, name) ==> key in Scanned(d, name)
  }

  /**
   * The fields come back in ascending order, each once, and all of them do if and only if there
   * are at most 10000 and none is longer than one byte and starts with 0xFF.
   */
  lemma HGetAllIsComplete(d: Data, name: bytes)
    ensures Ascending(Scanned(d, name))
    ensures forall key :: key in Scanned(d, name) ==> key in FieldKeys(d, name)
    ensures ShowsAllFields(d, name) <==> |FieldKeys(d, name)| <= 10000 && NoneAboveEnd(d, name)
  {
    hide Prefix, AboveEnd, Within;
    var range, all := InRange(d, name), Sorted(InRange(d, name));
    var keys := Scanned(d, name);
    assert keys == Take(all, FIELDS_LIMIT);
    SortedAscending(range);
    forall key ensures key in range <==> key in FieldKeys(d, name) && !AboveEnd(key[|Prefix(name)|..]) {
      InRangeExactly(d, name, key);
    }
    forall key | key in keys ensures key in FieldKeys(d, name) {
      var i :| 0 <= i < |keys| && keys[i] == key;
      assert all[i] in all;
    }
    if ShowsAllFields(d, name) {
      FewEnough(FieldKeys(d, name), keys);
      assert |FieldKeys(d, name)| <= |keys|;
    }
    if |FieldKeys(d, name)| <= FIELDS_LIMIT && NoneAboveEnd(d, name) {
      assert range == FieldKeys(d, name);
    }
  }

  lemma {:induction false} FewEnough(s: set<bytes>, keys: seq<bytes>)
    requires forall k :: k in s ==> k in keys
    ensures |s| <= |keys|
  {
    if s != {} {
      var k :| k in s;
      var i :| 0 <= i < |keys| && keys[i] == k;
      var rest := keys[..i] + keys[i + 1..];
      forall x | x in s - {k} ensures x in rest {
        var j :| 0 <= j < |keys| && keys[j] == x;
        assert rest[if j < i then j else j - 1] == x;
      }
      FewEnough(s - {k}, rest);
    }
  }
}
