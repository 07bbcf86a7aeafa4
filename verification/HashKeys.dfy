/**
 * Where a hash lives in the store: one key per field, and a counter. Two hashes can get in each
 * other's way only when one field prefix extends the other; this is decided by their names.
 */
module HashKeys {
  import opened Bytes
  import opened Store
  import ListState

  const COLON: byte := 58
  const HEADER: bytes := [72, 58]
  const FIELD: bytes := [58, 102, 58]
  const META: bytes := [58, 109, 101, 116, 97]

  function Prefix(name: bytes): bytes {
    HEADER + name + FIELD
  }

  function FieldKey(name: bytes, field: bytes): bytes {
    Prefix(name) + field
  }

  function CountKey(name: bytes): bytes {
    HEADER + name + META
  }

  /** The keys the hash commands touch for `name`. */
  predicate Uses(name: bytes, key: bytes) {
    key == CountKey(name) || Prefix(name) <= key
  }

  /** A check a client can make on two names. */
  predicate Clash(m: bytes, n: bytes) {
    Prefix(m) <= Prefix(n) || Prefix(n) <= Prefix(m)
  }

  lemma CountKeyInjective(m: bytes, n: bytes)
    requires CountKey(m) == CountKey(n)
    ensures m == n
  {
    assert |m| == |n|;
    assert m == CountKey(m)[2..|m| + 2];
    assert n == CountKey(n)[2..|m| + 2];
  }

  /** A counter can only sit among the fields of another hash when the names clash anyway. */
  lemma CounterAmongFields(m: bytes, n: bytes)
    requires Prefix(m) <= CountKey(n)
    ensures m != n && Prefix(m) <= Prefix(n)
  {
    var a, b := |m|, |n|;
    var p, k, q := Prefix(m), CountKey(n), Prefix(n);
    assert p[a + 2] == 58 && p[a + 3] == 102 && p[a + 4] == 58;
    assert k[a + 2] == 58 && k[a + 3] == 102 && k[a + 4] == 58;
    assert k[b + 2] == 58 && k[b + 3] == 109 && k[b + 4] == 101 && k[b + 5] == 116 && k[b + 6] == 97;
    assert a + 5 <= b + 3;
    assert k[..b + 3] == q[..b + 3];
    assert p == k[..a + 5] == q[..a + 5];
  }

  lemma BothPrefixes(p: bytes, q: bytes, key: bytes)
    requires p <= key && q <= key
    ensures p <= q || q <= p
  {
    assert p == key[..|p|] && q == key[..|q|];
  }

  /** Two different hashes share a storage key exactly when their names clash. */
  lemma SharedKeys(m: bytes, n: bytes)
    requires m != n
    ensures (exists key :: Uses(m, key) && Uses(n, key)) <==> Clash(m, n)
  {
    if Clash(m, n) {
      var key := if Prefix(m) <= Prefix(n) then Prefix(n) else Prefix(m);
      assert Uses(m, key) && Uses(n, key);
    }
    if key :| Uses(m, key) && Uses(n, key) {
      hide CountKey, Prefix;
      if key == CountKey(m) && key == CountKey(n) {
        CountKeyInjective(m, n);
      } else if key == CountKey(n) {
        CounterAmongFields(m, n);
      } else if key == CountKey(m) {
        CounterAmongFields(n, m);
      } else {
        BothPrefixes(Prefix(m), Prefix(n), key);
      }
    }
  }

  /** Names without a colon never clash. */
  lemma ColonFreeNames(m: bytes, n: bytes)
    requires m != n && COLON !in m && COLON !in n
    ensures !Clash(m, n)
  {
    if |m| < |n| {
      assert Prefix(m)[|m| + 2] == COLON && Prefix(n)[|m| + 2] == n[|m|];
    } else if |n| < |m| {
      assert Prefix(n)[|n| + 2] == COLON && Prefix(m)[|n| + 2] == m[|n|];
    } else {
      assert m == Prefix(m)[2..|m| + 2] && n == Prefix(n)[2..|m| + 2];
      assert |Prefix(m)| == |Prefix(n)|;
    }
  }

  /** With colons they may: field "b" of "a:f:x" is field "x:f:b" of "a". */
  lemma ClashExample()
    ensures FieldKey([97], [120, 58, 102, 58, 98]) == FieldKey([97, 58, 102, 58, 120], [98])
    ensures Clash([97], [97, 58, 102, 58, 120])
  {
    assert FieldKey([97], [120, 58, 102, 58, 98]) == [72, 58, 97, 58, 102, 58, 120, 58, 102, 58, 98];
    assert Prefix([97]) == [72, 58, 97, 58, 102, 58];
    assert Prefix([97, 58, 102, 58, 120]) == [72, 58, 97, 58, 102, 58, 120, 58, 102, 58];
  }

  /** Lists and hashes never share a storage key. */
  lemma ListsAndHashesApart(list: bytes, hash: bytes, key: bytes)
    ensures !(ListState.Owns(list, key) && Uses(hash, key))
  {
    assert ListState.Prefix(list)[0] == 76 && CountKey(hash)[0] == 72 && Prefix(hash)[0] == 72;
  }

  lemma FieldKeyInjective(name: bytes, f: bytes, g: bytes)
    requires FieldKey(name, f) == FieldKey(name, g)
    ensures f == g
  {
    assert f == FieldKey(name, f)[|Prefix(name)|..] && g == FieldKey(name, g)[|Prefix(name)|..];
  }

  /** The storage keys of the fields a hash has; there is one for each field. */
  function FieldKeys(d: Data, name: bytes): set<bytes> {
    set key | key in d && Prefix(name) <= key
  }
}
