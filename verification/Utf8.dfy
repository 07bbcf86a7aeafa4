/** Well-formed UTF-8 (RFC 3629, section 4), as `str::from_utf8` accepts it. */
module Utf8 {
  import opened Bytes

  predicate Tail(b: byte) {
    0x80 <= b <= 0xBF
  }

  predicate Two(s: bytes): (r: bool)
    ensures r ==> |s| >= 2
  {
    |s| >= 2 && 0xC2 <= s[0] <= 0xDF && Tail(s[1])
  }

  predicate Three(s: bytes): (r: bool)
    ensures r ==> |s| >= 3
  {
    |s| >= 3 && Tail(s[2])
    && if s[0] == 0xE0 then 0xA0 <= s[1] <= 0xBF
       else if s[0] == 0xED then 0x80 <= s[1] <= 0x9F
       else 0xE1 <= s[0] <= 0xEF && Tail(s[1])
  }

  predicate Four(s: bytes): (r: bool)
    ensures r ==> |s| >= 4
  {
    |s| >= 4 && Tail(s[2]) && Tail(s[3])
    && if s[0] == 0xF0 then 0x90 <= s[1] <= 0xBF
       else if s[0] == 0xF4 then 0x80 <= s[1] <= 0x8F
       else 0xF1 <= s[0] <= 0xF3 && Tail(s[1])
  }

  predicate Valid(s: bytes) {
    s == []
    || (s[0] < 0x80 && Valid(s[1..]))
    || (Two(s) && Valid(s[2..]))
    || (Three(s) && Valid(s[3..]))
    || (Four(s) && Valid(s[4..]))
  }

  lemma {:induction false} AsciiIsValid(s: bytes)
    requires forall i :: 0 <= i < |s| ==> s[i] < 0x80
    ensures Valid(s)
  {
    if s != [] {
      AsciiIsValid(s[1..]);
    }
  }

  // ---- Well-formed means encoded. ----

  predicate Scalar(c: int) {
    0 <= c < 0x110000 && !(0xD800 <= c < 0xE000)
  }

  /** The bytes of one character (RFC 3629, section 3). */
  function EncodeScalar(c: int): bytes
    requires Scalar(c)
  {
    if c < 0x80 then [c]
    else if c < 0x800 then [192 + c / 64, 128 + c % 64]
    else if c < 0x10000 then [224 + c / 4096, 128 + c / 64 % 64, 128 + c % 64]
    else [240 + c / 262144, 128 + c / 4096 % 64, 128 + c / 64 % 64, 128 + c % 64]
  }

  predicate Characters(cs: seq<int>) {
    forall i :: 0 <= i < |cs| ==> Scalar(cs[i])
  }

  function EncodeText(cs: seq<int>): bytes
    requires Characters(cs)
  {
    if cs == [] then [] else EncodeScalar(cs[0]) + EncodeText(cs[1..])
  }

  /** One character in front of well-formed text. */
  lemma ScalarThenText(c: int, rest: bytes)
    requires Scalar(c)
    ensures Valid(EncodeScalar(c) + rest) <==> Valid(rest)
  {
    var s := EncodeScalar(c) + rest;
    assert s[|EncodeScalar(c)|..] == rest;
    if 0x800 <= c < 0x10000 {
      assert c / 4096 == 0 ==> c / 64 % 64 >= 32;
      assert c / 4096 == 13 ==> c / 64 % 64 < 32;
    } else if c >= 0x10000 {
      assert c / 262144 == 0 ==> c / 4096 % 64 >= 16;
      assert c / 262144 == 4 ==> c / 4096 % 64 < 16;
    }
  }

  lemma {:induction false} EncodedIsValid(cs: seq<int>)
    requires Characters(cs)
    ensures Valid(EncodeText(cs))
  {
    hide Valid, EncodeScalar;
    if cs == [] {
      NothingIsValid();
    } else {
      EncodedIsValid(cs[1..]);
      ScalarThenText(cs[0], EncodeText(cs[1..]));
    }
  }

  lemma NothingIsValid()
    ensures Valid([])
  {
  }

  lemma TwoIsScalar(s: bytes) returns (c: int)
    requires Two(s)
    ensures |s| >= 2 && Scalar(c) && EncodeScalar(c) == s[..2]
  {
    var a: int, x: int := s[0], s[1];
    c := (a - 192) * 64 + (x - 128);
    assert c / 64 == a - 192 && c % 64 == x - 128;
  }

  lemma ThreeIsScalar(s: bytes) returns (c: int)
    requires Three(s)
    ensures |s| >= 3 && Scalar(c) && EncodeScalar(c) == s[..3]
  {
    var a: int, x: int, y: int := s[0], s[1], s[2];
    var b := (a - 224) * 64 + (x - 128);
    c := b * 64 + (y - 128);
    assert b / 64 == a - 224 && b % 64 == x - 128;
    assert c / 64 == b && c % 64 == y - 128 && c / 4096 == a - 224;
  }

  lemma FourIsScalar(s: bytes) returns (c: int)
    requires Four(s)
    ensures |s| >= 4 && Scalar(c) && EncodeScalar(c) == s[..4]
  {
    var a: int, x: int, y: int, z: int := s[0], s[1], s[2], s[3];
    var b := (a - 240) * 64 + (x - 128);
    var d := b * 64 + (y - 128);
    c := d * 64 + (z - 128);
    assert b / 64 == a - 240 && b % 64 == x - 128;
    assert d / 64 == b && d % 64 == y - 128;
    assert c / 64 == d && c % 64 == z - 128 && c / 4096 == b && c / 262144 == a - 240;
  }

  lemma Halves(s: bytes, n: nat)
    requires n <= |s|
    ensures s == s[..n] + s[n..]
  {
  }

  /** The first character of well-formed text. */
  lemma FirstScalar(s: bytes) returns (c: int, rest: bytes)
    requires Valid(s) && s != []
    ensures Scalar(c) && s == EncodeScalar(c) + rest && |rest| < |s| && Valid(rest)
  {
    hide EncodeScalar, Scalar, Two, Three, Four;
    var n := 1;
    if s[0] < 0x80 && Valid(s[1..]) {
      AsciiIsScalar(s);
      c := s[0];
    } else if Two(s) && Valid(s[2..]) {
      c := TwoIsScalar(s);
      n := 2;
    } else if Three(s) && Valid(s[3..]) {
      c := ThreeIsScalar(s);
      n := 3;
    } else {
      c := FourIsScalar(s);
      n := 4;
    }
    rest := s[n..];
    Halves(s, n);
  }

  lemma AsciiIsScalar(s: bytes)
    requires s != [] && s[0] < 0x80
    ensures Scalar(s[0]) && EncodeScalar(s[0]) == s[..1]
  {
  }

  lemma {:induction false} Decoded(s: bytes) returns (cs: seq<int>)
    requires Valid(s)
    ensures Characters(cs) && EncodeText(cs) == s
    decreases |s|
  {
    hide Valid, EncodeScalar;
    if s == [] {
      cs := [];
    } else {
      var c, rest := FirstScalar(s);
      var more := Decoded(rest);
      cs := [c] + more;
      assert cs[1..] == more;
    }
  }

  ghost predicate IsText(s: bytes) {
    exists cs: seq<int> :: Characters(cs) && EncodeText(cs) == s
  }

  /** Bytes are accepted exactly if they are the encoding of some characters, surrogates excluded. */
  lemma {:induction false} ValidIff(s: bytes)
    ensures Valid(s) <==> IsText(s)
  {
    hide Valid;
    if Valid(s) {
      var cs := Decoded(s);
    }
    if IsText(s) {
      var cs: seq<int> :| Characters(cs) && EncodeText(cs) == s;
      EncodedIsValid(cs);
    }
  }
}
