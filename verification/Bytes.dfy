/** Byte strings, the optional value, and the lexicographic order of keys. */
module Bytes {

  type byte = b: int | 0 <= b < 256

  type bytes = seq<byte>

  datatype Option<+T> = None | Some(value: T)

  const CR: byte := 13
  const LF: byte := 10
  const CRLF: bytes := [CR, LF]

  /** The order in which the store sorts its keys. */
  predicate Leq(a: bytes, b: bytes) {
    a == [] || (b != [] && (a[0] < b[0] || (a[0] == b[0] && Leq(a[1..], b[1..]))))
  }

  lemma {:induction false} LeqReflexive(a: bytes)
    ensures Leq(a, a)
  {
    if a != [] {
      LeqReflexive(a[1..]);
    }
  }

  lemma {:induction false} LeqTotal(a: bytes, b: bytes)
    ensures Leq(a, b) || Leq(b, a)
  {
    if a != [] && b != [] {
      LeqTotal(a[1..], b[1..]);
    }
  }

  lemma {:induction false} LeqAntisymmetric(a: bytes, b: bytes)
    requires Leq(a, b) && Leq(b, a)
    ensures a == b
  {
    if a != [] && b != [] {
      LeqAntisymmetric(a[1..], b[1..]);
      assert a == [a[0]] + a[1..];
    }
  }

  lemma {:induction false} LeqTransitive(a: bytes, b: bytes, c: bytes)
    requires Leq(a, b) && Leq(b, c)
    ensures Leq(a, c)
  {
    if a != [] && a[0] == b[0] && b[0] == c[0] {
      LeqTransitive(a[1..], b[1..], c[1..]);
    }
  }

  /** A common prefix does not change the order. */
  lemma {:induction false} LeqPrefix(p: bytes, a: bytes, b: bytes)
    ensures Leq(p + a, p + b) <==> Leq(a, b)
  {
    if p == [] {
      assert p + a == a && p + b == b;
    } else {
      assert (p + a)[1..] == p[1..] + a && (p + b)[1..] == p[1..] + b;
      LeqPrefix(p[1..], a, b);
    }
  }

  /** Everything between a prefix and one of its extensions starts with the prefix. */
  lemma {:induction false} LeqBetween(p: bytes, k: bytes, q: bytes)
    requires Leq(p, k) && Leq(k, p + q)
    ensures p <= k
  {
    if p != [] {
      assert (p + q)[1..] == p[1..] + q;
      LeqBetween(p[1..], k[1..], q);
      assert k == [k[0]] + k[1..];
    }
  }

  /** `a` comes before `b` if it is a prefix of it or smaller at the first byte where they differ. */
  ghost predicate Before(a: bytes, b: bytes) {
    a <= b || exists i :: 0 <= i < |a| && i < |b| && a[..i] == b[..i] && a[i] < b[i]
  }

  lemma BeforeAlso(x: byte, a: bytes, b: bytes)
    requires Before(a, b)
    ensures Before([x] + a, [x] + b)
  {
    var p, q := [x] + a, [x] + b;
    if !(a <= b) {
      var i :| 0 <= i < |a| && i < |b| && a[..i] == b[..i] && a[i] < b[i];
      assert p[..i + 1] == [x] + a[..i] && q[..i + 1] == [x] + b[..i];
      assert p[i + 1] < q[i + 1];
    }
  }

  lemma BeforeOnly(x: byte, a: bytes, b: bytes)
    requires Before([x] + a, [x] + b)
    ensures Before(a, b)
  {
    var p, q := [x] + a, [x] + b;
    assert p[1..] == a && q[1..] == b;
    if p <= q {
      assert q[..|p|][1..] == q[1..][..|a|];
    } else {
      var i :| 0 <= i < |p| && i < |q| && p[..i] == q[..i] && p[i] < q[i];
      assert a[..i - 1] == p[..i][1..] && b[..i - 1] == q[..i][1..];
      assert a[i - 1] < b[i - 1];
    }
  }

  lemma BeforeCons(x: byte, a: bytes, b: bytes)
    ensures Before([x] + a, [x] + b) <==> Before(a, b)
  {
    hide Before;
    if Before(a, b) {
      BeforeAlso(x, a, b);
    }
    if Before([x] + a, [x] + b) {
      BeforeOnly(x, a, b);
    }
  }

  lemma {:induction false} LeqIsBefore(a: bytes, b: bytes)
    ensures Leq(a, b) <==> Before(a, b)
  {
    hide Before;
    if a == [] || b == [] {
      BeforeNothing(a, b);
    } else if a[0] == b[0] {
      LeqIsBefore(a[1..], b[1..]);
      BeforeCons(a[0], a[1..], b[1..]);
      assert a == [a[0]] + a[1..] && b == [b[0]] + b[1..];
    } else if a[0] < b[0] {
      SmallerIsBefore(a, b);
    } else if Before(a, b) {
      SmallerFirst(a, b);
    }
  }

  lemma BeforeNothing(a: bytes, b: bytes)
    requires a == [] || b == []
    ensures Before(a, b) <==> a == []
  {
  }

  lemma SmallerIsBefore(a: bytes, b: bytes)
    requires a != [] && b != [] && a[0] < b[0]
    ensures Before(a, b)
  {
    assert a[..0] == b[..0];
  }

  lemma SmallerFirst(a: bytes, b: bytes)
    requires Before(a, b) && a != [] && b != []
    ensures a[0] <= b[0]
  {
    if !(a <= b) {
      var i :| 0 <= i < |a| && i < |b| && a[..i] == b[..i] && a[i] < b[i];
      if i > 0 {
        assert a[..i][0] == b[..i][0];
      }
    }
  }

  function Concat(parts: seq<bytes>): bytes {
    if parts == [] then [] else parts[0] + Concat(parts[1..])
  }

  lemma {:induction false} ConcatAppend(a: seq<bytes>, b: seq<bytes>)
    ensures Concat(a + b) == Concat(a) + Concat(b)
  {
    if a == [] {
      assert a + b == b;
    } else {
      assert (a + b)[1..] == a[1..] + b;
      ConcatAppend(a[1..], b);
    }
  }
}
