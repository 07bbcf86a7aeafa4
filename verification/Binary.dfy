/** The little-endian 64-bit encodings used for stored counters and list metadata. */
module Binary {
  import opened Bytes

  const TWO_63: int := 0x8000_0000_0000_0000
  const TWO_64: int := 0x1_0000_0000_0000_0000

  /** The low `k` bytes of `n`, least significant first. */
  function Little(n: nat, k: nat): (s: bytes)
    ensures |s| == k
  {
    if k == 0 then [] else [n % 256] + Little(n / 256, k - 1)
  }

  function FromLittle(s: bytes): nat {
    if s == [] then 0 else s[0] + 256 * FromLittle(s[1..])
  }

  function Pow256(k: nat): nat {
    if k == 0 then 1 else 256 * Pow256(k - 1)
  }

  lemma {:induction false} LittleRoundTrip(n: nat, k: nat)
    requires n < Pow256(k)
    ensures FromLittle(Little(n, k)) == n
  {
    if k > 0 {
      LittleRoundTrip(n / 256, k - 1);
      assert Little(n, k)[1..] == Little(n / 256, k - 1);
    }
  }

  lemma {:induction false} FromLittleBound(s: bytes)
    ensures FromLittle(s) < Pow256(|s|)
  {
    if s != [] {
      FromLittleBound(s[1..]);
    }
  }

  lemma Pow256Of8()
    ensures Pow256(8) == TWO_64
  {
    assert Pow256(4) == 0x1_0000_0000;
    assert Pow256(6) == 0x1_0000_0000_0000;
  }

  /** The 64-bit pattern of an integer; negative numbers in two's complement, the rest wraps. */
  function Word(n: int): bytes {
    Little(n % TWO_64, 8)
  }

  function ReadUnsigned(s: bytes): (n: nat)
    requires |s| == 8
    ensures n < TWO_64
  {
    FromLittleBound(s);
    Pow256Of8();
    FromLittle(s)
  }

  function Signed(u: int): int {
    if u >= TWO_63 then u - TWO_64 else u
  }

  function ReadSigned(s: bytes): (n: int)
    requires |s| == 8
    ensures -TWO_63 <= n < TWO_63
  {
    Signed(ReadUnsigned(s))
  }

  lemma WordUnsigned(n: int)
    requires 0 <= n < TWO_64
    ensures ReadUnsigned(Word(n)) == n
  {
    assert n % TWO_64 == n;
    Pow256Of8();
    hide Pow256;
    hide Little;
    hide FromLittle;
    LittleRoundTrip(n, 8);
  }

  lemma WordSigned(n: int)
    requires -TWO_63 <= n < TWO_63
    ensures ReadSigned(Word(n)) == n
  {
    var u := n % TWO_64;
    assert u == if n < 0 then n + TWO_64 else n;
    Pow256Of8();
    LittleRoundTrip(u, 8);
  }

  /** The last byte counts most, in base 256. */
  lemma {:induction false} LastCountsMost(s: bytes, b: byte)
    ensures FromLittle(s + [b]) == FromLittle(s) + b * Pow256(|s|)
  {
    if s == [] {
      assert [] + [b] == [b] && [b][1..] == [];
    } else {
      assert (s + [b])[1..] == s[1..] + [b];
      LastCountsMost(s[1..], b);
    }
  }
}
