/**
 * The contract of the external key-value store: a finite map from byte strings to byte strings
 * whose operations are atomic. Nothing else about the library is assumed.
 */
module Store {
  import opened Bytes
  import opened Binary

  type Data = map<bytes, bytes>

  datatype Result<+T> = Ok(value: T) | Err(error: Error)

  datatype Error = KeyNotFound | Contention | NotAnInteger

  predicate IsLeast(m: bytes, s: set<bytes>) {
    m in s && forall k :: k in s ==> Leq(m, k)
  }

  lemma {:induction false} LeastExists(s: set<bytes>)
    requires s != {}
    ensures exists m :: IsLeast(m, s)
    decreases s
  {
    var k :| k in s;
    if s == {k} {
      LeqReflexive(k);
      assert IsLeast(k, s);
    } else {
      var rest := s - {k};
      assert s == rest + {k};
      LeastExists(rest);
      var m :| IsLeast(m, rest);
      LeqTotal(m, k);
      LeqReflexive(k);
      if Leq(m, k) {
        assert IsLeast(m, s);
      } else {
        forall x | x in rest ensures Leq(k, x) {
          LeqTransitive(k, m, x);
        }
        assert IsLeast(k, s);
      }
    }
  }

  lemma LeastUnique(s: set<bytes>)
    ensures forall a, b :: IsLeast(a, s) && IsLeast(b, s) ==> a == b
  {
    forall a, b | IsLeast(a, s) && IsLeast(b, s) ensures a == b {
      LeqAntisymmetric(a, b);
    }
  }

  function Least(s: set<bytes>): (m: bytes)
    requires s != {}
    ensures IsLeast(m, s)
  {
    LeastExists(s);
    LeastUnique(s);
    var m :| IsLeast(m, s);
    m
  }

  /** The keys of a set in ascending order. */
  function Sorted(s: set<bytes>): (r: seq<bytes>)
    ensures forall k :: k in r <==> k in s
    ensures |r| == |s|
    decreases |s|
  {
    if s == {} then [] else [Least(s)] + Sorted(s - {Least(s)})
  }

  function Within(d: Data, lo: bytes, hi: bytes): set<bytes> {
    set k | k in d && Leq(lo, k) && Leq(k, hi)
  }

  function Take<T>(s: seq<T>, n: nat): seq<T> {
    if |s| <= n then s else s[..n]
  }

  /** The keys a range query returns: both ends inclusive, ascending, at most `limit`. */
  function Range(d: Data, lo: bytes, hi: bytes, limit: nat): seq<bytes> {
    Take(Sorted(Within(d, lo, hi)), limit)
  }

  lemma RangeIsStored(d: Data, lo: bytes, hi: bytes, limit: nat)
    ensures forall i :: 0 <= i < |Range(d, lo, hi, limit)| ==> Range(d, lo, hi, limit)[i] in d
  {
    var all := Sorted(Within(d, lo, hi));
    forall i | 0 <= i < |Range(d, lo, hi, limit)| ensures Range(d, lo, hi, limit)[i] in d {
      assert Range(d, lo, hi, limit)[i] == all[i] && all[i] in all;
    }
  }

  /** The counter a key holds: 0 when absent, `None` when it is not eight bytes. */
  function Counter(d: Data, key: bytes): Option<int> {
    if key !in d then Some(0)
    else if |d[key]| == 8 then Some(ReadSigned(d[key]))
    else None
  }

  class FeoxStore {
    var data: Data

    constructor ()
      ensures data == map[]
    {
      data := map[];
    }

    method GetBytes(key: bytes) returns (r: Result<bytes>)
      ensures r == if key in data then Ok(data[key]) else Err(KeyNotFound)
    {
      r := if key in data then Ok(data[key]) else Err(KeyNotFound);
    }

    method ContainsKey(key: bytes) returns (found: bool)
      ensures found == (key in data)
    {
      found := key in data;
    }

    method Insert(key: bytes, value: bytes) returns (isNew: bool)
      modifies this
      ensures data == old(data)[key := value]
      ensures isNew == (key !in old(data))
    {
      isNew := key !in data;
      data := data[key := value];
    }

    method Delete(key: bytes) returns (found: bool)
      modifies this
      ensures data == old(data) - {key}
      ensures found == (key in old(data))
    {
      found := key in data;
      data := data - {key};
    }

    method CompareAndSwap(key: bytes, expected: bytes, value: bytes) returns (swapped: bool)
      modifies this
      ensures swapped == (key in old(data) && old(data)[key] == expected)
      ensures data == if swapped then old(data)[key := value] else old(data)
    {
      swapped := key in data && data[key] == expected;
      if swapped {
        data := data[key := value];
      }
    }

    method AtomicIncrement(key: bytes, delta: int) returns (done: bool)
      modifies this
      ensures done == Counter(old(data), key).Some?
      ensures data == if done then old(data)[key := Word(Counter(old(data), key).value + delta)] else old(data)
    {
      var current := Counter(data, key);
      done := current.Some?;
      if done {
        data := data[key := Word(current.value + delta)];
      }
    }

    method RangeQuery(lo: bytes, hi: bytes, limit: nat) returns (pairs: seq<(bytes, bytes)>)
      ensures |pairs| == |Range(data, lo, hi, limit)|
      ensures forall i :: 0 <= i < |pairs| ==>
        pairs[i].0 == Range(data, lo, hi, limit)[i] && pairs[i].0 in data && pairs[i].1 == data[pairs[i].0]
    {
      var keys := Range(data, lo, hi, limit);
      RangeIsStored(data, lo, hi, limit);
      hide *;
      pairs := [];
      var i := 0;
      while i < |keys|
        invariant 0 <= i <= |keys| && |pairs| == i
        invariant forall j :: 0 <= j < i ==>
          pairs[j].0 == keys[j] && pairs[j].0 in data && pairs[j].1 == data[pairs[j].0]
      {
        pairs := pairs + [(keys[i], data[keys[i]])];
        i := i + 1;
      }
    }
  }
}
