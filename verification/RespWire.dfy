/**
 * The wire format of RESP2, byte by byte: what a complete frame is, which input is malformed, and
 * what the writer puts on the wire. The bytes are given by their values here.
 */
module RespWire {
  import opened Bytes
  import opened Resp
  import opened RespStream
  import Decimal
  import Utf8

  // ---- What a frame is. ----

  /** A line: the type byte, text without a line end, CR and LF. */
  ghost predicate LineOf(t: byte, text: bytes, s: bytes) {
    s == [t] + text + [13, 10] && NoCrlf(text)
  }

  ghost predicate NumberLine(t: byte, n: int, s: bytes) {
    exists text: bytes :: LineOf(t, text, s) && Decimal.Parse(text) == Some(n)
  }

  /** `s` is a frame that carries `v`. */
  ghost predicate Frame(v: RespValue, s: bytes)
    decreases v, 0
  {
    match v
    case SimpleString(text) => LineOf(43, text, s)
    case Error(message) => LineOf(45, message, s) && Utf8.Valid(message)
    case Integer(n) => NumberLine(58, n, s)
    case BulkString(Some(data)) =>
      exists k :: 0 <= k <= |s| && NumberLine(36, |data|, s[..k]) && s[k..] == data + [13, 10]
    case BulkString(None) => exists n: int :: n < 0 && NumberLine(36, n, s)
    case Array(items) => exists k :: 0 <= k <= |s| && NumberLine(42, |items|, s[..k]) && Frames(items, s[k..])
    case NullArray => exists n: int :: n < 0 && NumberLine(42, n, s)
  }

  /** `s` is one frame for each of the values, one after the other. */
  ghost predicate Frames(items: seq<RespValue>, s: bytes)
    decreases items, 1
  {
    if items == [] then s == []
    else exists k :: 0 <= k <= |s| && Frame(items[0], s[..k]) && Frames(items[1..], s[k..])
  }

  // ---- Lines. ----

  lemma NoneInside(buf: bytes, e: nat)
    requires 1 <= e <= |buf| && forall j: nat :: j < e ==> !CrlfAt(buf, j)
    ensures NoCrlf(buf[1..e])
  {
    var text := buf[1..e];
    forall i: nat ensures !CrlfAt(text, i) {
      if CrlfAt(text, i) {
        assert buf[i + 1] == text[i] && buf[i + 2] == text[i + 1];
        assert CrlfAt(buf, i + 1);
      }
    }
  }

  lemma LineCut(t: byte, buf: bytes, e: nat)
    requires buf != [] && buf[0] == t && t != 13 && CrlfFrom(buf, 0) == Some(e)
    ensures 1 <= e && e + 2 <= |buf| && LineOf(t, buf[1..e], buf[..e + 2])
  {
    hide NoCrlf;
    assert CrlfAt(buf, e);
    NoneInside(buf, e);
    LineJoins(buf, e);
  }

  lemma LineJoins(buf: bytes, e: nat)
    requires 1 <= e && e + 2 <= |buf| && buf[e] == 13 && buf[e + 1] == 10
    ensures buf[..e + 2] == [buf[0]] + buf[1..e] + [13, 10]
  {
  }

  lemma LineFound(t: byte, text: bytes, buf: bytes)
    requires t != 13 && t != 10 && |text| + 3 <= |buf| && LineOf(t, text, buf[..|text| + 3])
    ensures buf[0] == t && CrlfFrom(buf, 0) == Some(|text| + 1) && buf[1..|text| + 1] == text
  {
    LineEnd(t, text, buf[|text| + 3..]);
    assert buf == [t] + text + CRLF + buf[|text| + 3..];
  }

  lemma NumberIsAscii(s: bytes)
    requires Decimal.Parse(s).Some?
    ensures Utf8.Valid(s)
  {
    Decimal.ParsedIsAscii(s);
    Utf8.AsciiIsValid(s);
  }

  /** A header line holds a number exactly if it is a number line. */
  lemma NumberIff(t: byte, buf: bytes, line: Line, n: int, k: nat)
    requires buf != [] && buf[0] == t && t != 13 && t != 10
    ensures ParseNumber(buf, line) == Done(n, k) <==> k <= |buf| && NumberLine(t, n, buf[..k])
  {
    hide Decimal.Parse, Utf8.Valid, NoCrlf;
    if ParseNumber(buf, line) == Done(n, k) {
      LineCut(t, buf, k - 2);
    }
    if k <= |buf| && NumberLine(t, n, buf[..k]) {
      var text: bytes :| LineOf(t, text, buf[..k]) && Decimal.Parse(text) == Some(n);
      assert |text| + 3 == k;
      LineFound(t, text, buf);
      NumberIsAscii(text);
    }
  }

  // ---- The parser accepts exactly the frames. ----

  predicate Textual(v: RespValue, t: byte) {
    (v.SimpleString? && t == 43) || (v.Error? && t == 45)
  }

  lemma TextIff(buf: bytes, v: RespValue, n: nat)
    requires buf != [] && (buf[0] == 43 || buf[0] == 45) && n <= |buf|
    ensures Parse(buf) == Done(v, n) <==> Textual(v, buf[0]) && Frame(v, buf[..n])
  {
    hide NoCrlf, Utf8.Valid;
    if Parse(buf) == Done(v, n) {
      LineCut(buf[0], buf, n - 2);
    }
    if v.SimpleString? && LineOf(43, v.text, buf[..n]) {
      LineFound(43, v.text, buf);
    }
    if v.Error? && LineOf(45, v.message, buf[..n]) {
      LineFound(45, v.message, buf);
    }
  }

  lemma IntegerIff(buf: bytes, v: RespValue, n: nat)
    requires buf != [] && buf[0] == 58 && n <= |buf|
    ensures Parse(buf) == Done(v, n) <==> v.Integer? && Frame(v, buf[..n])
  {
    hide ParseNumber, NumberLine;
    if v.Integer? {
      NumberIff(58, buf, IntegerLine, v.n, n);
    }
  }

  lemma BulkIff(buf: bytes, v: RespValue, n: nat)
    requires buf != [] && buf[0] == 36 && n <= |buf|
    ensures Parse(buf) == Done(v, n) <==> v.BulkString? && Frame(v, buf[..n])
  {
    hide ParseNumber, NumberLine;
    var head := ParseNumber(buf, BulkLine);
    if Parse(buf) == Done(v, n) {
      NumberIff(36, buf, BulkLine, head.value, head.consumed);
      if v.data.Some? {
        var s := buf[..n];
        assert s[..head.consumed] == buf[..head.consumed] && s[head.consumed..] == v.data.value + [13, 10];
      }
    }
    if v.BulkString? && v.data.None? && Frame(v, buf[..n]) {
      var m: int :| m < 0 && NumberLine(36, m, buf[..n]);
      NumberIff(36, buf, BulkLine, m, n);
    }
    if v.BulkString? && v.data.Some? && Frame(v, buf[..n]) {
      BulkFound(buf, v.data.value, n);
    }
  }

  lemma BulkEnds(buf: bytes, k: nat, data: bytes, n: nat)
    requires k <= n <= |buf| && buf[..n][k..] == data + [13, 10]
    ensures n == k + |data| + 2 && buf[k..k + |data|] == data && buf[k + |data|] == 13 && buf[k + |data| + 1] == 10
  {
    var s := buf[..n][k..];
    assert s[|data|] == 13 && s[|data| + 1] == 10;
    assert buf[k..k + |data|] == s[..|data|];
  }

  lemma BulkFound(buf: bytes, data: bytes, n: nat)
    requires buf != [] && buf[0] == 36 && n <= |buf| && Frame(BulkString(Some(data)), buf[..n])
    ensures Parse(buf) == Done(BulkString(Some(data)), n)
  {
    hide ParseNumber, NumberLine;
    var s := buf[..n];
    var k :| 0 <= k <= |s| && NumberLine(36, |data|, s[..k]) && s[k..] == data + [13, 10];
    assert s[..k] == buf[..k];
    NumberIff(36, buf, BulkLine, |data|, k);
    BulkEnds(buf, k, data, n);
  }

  lemma {:induction false} ArrayIff(buf: bytes, v: RespValue, n: nat)
    requires buf != [] && buf[0] == 42 && n <= |buf|
    ensures Parse(buf) == Done(v, n) <==> (v.Array? || v.NullArray?) && Frame(v, buf[..n])
    decreases |buf|, 0
  {
    hide Parse, ParseNumber, NumberLine, ParseItems, Frames;
    ParseArrayStep(buf);
    var head := ParseNumber(buf, ArrayLine);
    if Parse(buf) == Done(v, n) {
      NumberIff(42, buf, ArrayLine, head.value, head.consumed);
      var s := buf[..n];
      assert s[..head.consumed] == buf[..head.consumed];
      if v.Array? {
        ItemsIff(buf[head.consumed..], head.value, v.items, n - head.consumed);
        assert s[head.consumed..] == buf[head.consumed..][..n - head.consumed];
      }
    }
    if v.NullArray? && Frame(v, buf[..n]) {
      var m: int :| m < 0 && NumberLine(42, m, buf[..n]);
      NumberIff(42, buf, ArrayLine, m, n);
    }
    if v.Array? && Frame(v, buf[..n]) {
      var s := buf[..n];
      var k :| 0 <= k <= |s| && NumberLine(42, |v.items|, s[..k]) && Frames(v.items, s[k..]);
      assert s[..k] == buf[..k] && s[k..] == buf[k..][..n - k];
      NumberIff(42, buf, ArrayLine, |v.items|, k);
      ItemsIff(buf[k..], |v.items|, v.items, n - k);
    }
  }

  lemma Slices(buf: bytes, n: nat, k: nat)
    requires k <= n <= |buf|
    ensures buf[..n][..k] == buf[..k] && buf[..n][k..] == buf[k..][..n - k]
  {
  }

  lemma FramesJoin(items: seq<RespValue>, s: bytes, k: nat)
    requires items != [] && k <= |s| && Frame(items[0], s[..k]) && Frames(items[1..], s[k..])
    ensures Frames(items, s)
  {
    hide Frame;
  }

  lemma FramesPart(items: seq<RespValue>, s: bytes) returns (k: nat)
    requires items != [] && Frames(items, s)
    ensures k <= |s| && Frame(items[0], s[..k]) && Frames(items[1..], s[k..])
  {
    hide Frame;
    k :| 0 <= k <= |s| && Frame(items[0], s[..k]) && Frames(items[1..], s[k..]);
  }

  lemma {:induction false} ItemsIff(buf: bytes, count: nat, items: seq<RespValue>, n: nat)
    requires n <= |buf|
    ensures ParseItems(buf, count) == Done(items, n) <==> |items| == count && Frames(items, buf[..n])
    decreases |buf|, 2
  {
    hide Parse, Frame, Frames;
    if count == 0 || |items| != count {
      NoFrames(buf, n);
    } else {
      assert items == [items[0]] + items[1..];
      if ParseItems(buf, count) == Done(items, n) {
        var used := Parse(buf).consumed;
        ParseIff(buf, items[0], used);
        ItemsIff(buf[used..], count - 1, items[1..], n - used);
        Slices(buf, n, used);
        FramesJoin(items, buf[..n], used);
      }
      if Frames(items, buf[..n]) {
        var k := FramesPart(items, buf[..n]);
        FrameStarts(items[0], buf[..n][..k]);
        Slices(buf, n, k);
        ParseIff(buf, items[0], k);
        ItemsIff(buf[k..], count - 1, items[1..], n - k);
      }
    }
  }

  lemma NoFrames(buf: bytes, n: nat)
    requires n <= |buf|
    ensures Frames([], buf[..n]) <==> n == 0
  {
  }

  function TypeByte(v: RespValue): byte {
    match v
    case SimpleString(_) => 43
    case Error(_) => 45
    case Integer(_) => 58
    case BulkString(_) => 36
    case Array(_) => 42
    case NullArray => 42
  }

  lemma LineStarts(t: byte, n: int, s: bytes)
    requires NumberLine(t, n, s)
    ensures s != [] && s[0] == t
  {
  }

  lemma FrameStarts(v: RespValue, s: bytes)
    requires Frame(v, s)
    ensures s != [] && s[0] == TypeByte(v)
  {
    hide NumberLine, Frames;
    match v
    case SimpleString(_) =>
    case Error(_) =>
    case Integer(n) => LineStarts(58, n, s);
    case BulkString(Some(data)) =>
      var k :| 0 <= k <= |s| && NumberLine(36, |data|, s[..k]) && s[k..] == data + [13, 10];
      LineStarts(36, |data|, s[..k]);
    case BulkString(None) =>
      var n: int :| n < 0 && NumberLine(36, n, s);
      LineStarts(36, n, s);
    case Array(items) =>
      var k :| 0 <= k <= |s| && NumberLine(42, |items|, s[..k]) && Frames(items, s[k..]);
      LineStarts(42, |items|, s[..k]);
    case NullArray =>
      var n: int :| n < 0 && NumberLine(42, n, s);
      LineStarts(42, n, s);
  }

  /** The parser takes exactly the first `n` bytes for `v` if and only if they are a frame of it. */
  lemma {:induction false} ParseIff(buf: bytes, v: RespValue, n: nat)
    requires n <= |buf|
    ensures Parse(buf) == Done(v, n) <==> Frame(v, buf[..n])
    decreases |buf|, 1
  {
    hide Parse, Frame;
    if Frame(v, buf[..n]) {
      FrameStarts(v, buf[..n]);
    }
    if buf != [] && buf[0] == 42 {
      ArrayIff(buf, v, n);
    } else {
      LeafIff(buf, v, n);
    }
  }

  lemma LeafIff(buf: bytes, v: RespValue, n: nat)
    requires n <= |buf| && (buf == [] || buf[0] != 42) && (Frame(v, buf[..n]) ==> buf != [] && buf[0] == TypeByte(v))
    ensures Parse(buf) == Done(v, n) <==> Frame(v, buf[..n])
  {
    hide Frame;
    if buf != [] && (buf[0] == 43 || buf[0] == 45) {
      TextIff(buf, v, n);
    } else if buf != [] && buf[0] == 58 {
      IntegerIff(buf, v, n);
    } else if buf != [] && buf[0] == 36 {
      BulkIff(buf, v, n);
    }
  }

  // ---- Malformed input. ----

  /** The text of the first line, behind the type byte, if the line is complete. */
  ghost predicate HasLine(buf: bytes, text: bytes) {
    |text| + 3 <= |buf| && LineOf(buf[0], text, buf[..|text| + 3])
  }

  /** A bulk string whose length and end have arrived, and whose end is not CR and LF. */
  predicate NoEnd(buf: bytes, start: nat, len: int) {
    len >= 0 && start + len + 2 <= |buf| && (buf[start + len] != 13 || buf[start + len + 1] != 10)
  }

  /** Behind the complete line `text`. */
  ghost predicate BadLine(buf: bytes, text: bytes)
    requires buf != []
    decreases |buf|, 0
  {
    var n := Decimal.Parse(text);
    match buf[0]
    case 43 => false
    case 45 => !Utf8.Valid(text)
    case 58 => n.None?
    case 36 => n.None? || NoEnd(buf, |text| + 3, n.value)
    case _ => n.None? || (n.value > 0 && |text| + 3 <= |buf| && MalformedItems(buf[|text| + 3..], n.value))
  }

  ghost predicate Malformed(buf: bytes)
    decreases |buf|, 1
  {
    buf != []
    && (buf[0] !in {43, 45, 58, 36, 42} || exists text: bytes :: HasLine(buf, text) && BadLine(buf, text))
  }

  /** After some complete frames, fewer than `count`, comes malformed input. */
  ghost predicate MalformedItems(buf: bytes, count: nat)
    decreases |buf|, 2
  {
    count > 0
    && (Malformed(buf) || (Parse(buf).Done? && MalformedItems(buf[Parse(buf).consumed..], count - 1)))
  }

  lemma LineIs(buf: bytes, text: bytes)
    requires buf != [] && buf[0] != 13 && buf[0] != 10
    ensures HasLine(buf, text) <==> CrlfFrom(buf, 0) == Some(|text| + 1) && buf[1..|text| + 1] == text
  {
    hide NoCrlf;
    if HasLine(buf, text) {
      LineFound(buf[0], text, buf);
    }
    if CrlfFrom(buf, 0) == Some(|text| + 1) && buf[1..|text| + 1] == text {
      LineCut(buf[0], buf, |text| + 1);
    }
  }

  /** The first line of the input, if it is complete. */
  lemma Header(buf: bytes) returns (text: bytes)
    requires buf != [] && buf[0] != 13 && buf[0] != 10
    ensures CrlfFrom(buf, 0).Some? ==> HasLine(buf, text) && CrlfFrom(buf, 0).value == |text| + 1
    ensures forall other: bytes :: HasLine(buf, other) ==> CrlfFrom(buf, 0).Some? && other == text
  {
    hide HasLine;
    text := if CrlfFrom(buf, 0).Some? && CrlfFrom(buf, 0).value >= 1 then buf[1..CrlfFrom(buf, 0).value] else [];
    LineIs(buf, text);
    forall other: bytes | HasLine(buf, other) ensures CrlfFrom(buf, 0).Some? && other == text {
      LineIs(buf, other);
    }
  }

  lemma NumberCases(buf: bytes, line: Line, text: bytes)
    requires buf != [] && buf[0] !in CRLF && HasLine(buf, text)
    ensures var n := Decimal.Parse(text);
      if n.Some? then ParseNumber(buf, line) == Done(n.value, |text| + 3) else ParseNumber(buf, line).Bad?
  {
    hide HasLine, Decimal.Parse;
    LineIs(buf, text);
    if Decimal.Parse(text).Some? {
      NumberIsAscii(text);
    }
  }

  lemma NoLineWaits(buf: bytes)
    requires buf != [] && buf[0] in {43, 45, 58, 36, 42} && CrlfFrom(buf, 0).None?
    ensures Parse(buf).NeedMore?
  {
  }

  lemma LeafBad(buf: bytes, text: bytes)
    requires buf != [] && buf[0] in {43, 45, 58, 36} && HasLine(buf, text)
    ensures Parse(buf).Bad? <==> BadLine(buf, text)
  {
    hide HasLine, ParseNumber, Decimal.Parse, Utf8.Valid;
    LineIs(buf, text);
    NumberCases(buf, IntegerLine, text);
    NumberCases(buf, BulkLine, text);
  }

  lemma {:induction false} ArrayBad(buf: bytes, text: bytes)
    requires buf != [] && buf[0] == 42 && HasLine(buf, text)
    ensures Parse(buf).Bad? <==> BadLine(buf, text)
    decreases |buf|, 0
  {
    hide HasLine, Parse, ParseNumber, ParseItems, Decimal.Parse, Malformed;
    NumberCases(buf, ArrayLine, text);
    ParseArrayStep(buf);
    LineFits(buf, text);
    var n := Decimal.Parse(text);
    if n.Some? && n.value >= 0 {
      ItemsBad(buf[|text| + 3..], n.value);
    }
  }

  lemma LineFits(buf: bytes, text: bytes)
    requires HasLine(buf, text)
    ensures |text| + 3 <= |buf|
  {
  }

  lemma {:induction false} ItemsBad(buf: bytes, count: nat)
    ensures ParseItems(buf, count).Bad? <==> MalformedItems(buf, count)
    decreases |buf|, 2
  {
    hide Parse, Malformed;
    if count > 0 {
      MalformedIff(buf);
      if Parse(buf).Done? {
        ItemsBad(buf[Parse(buf).consumed..], count - 1);
      }
    }
  }

  /** The parser fails exactly on malformed input; otherwise it has a frame or waits for more. */
  lemma {:induction false} MalformedIff(buf: bytes)
    ensures Parse(buf).Bad? <==> Malformed(buf)
    decreases |buf|, 1
  {
    hide Parse, HasLine, BadLine;
    if buf == [] || buf[0] !in {43, 45, 58, 36, 42} {
      NoSuchType(buf);
    } else {
      var text := Header(buf);
      if CrlfFrom(buf, 0).None? {
        NoLineWaits(buf);
      } else if buf[0] == 42 {
        ArrayBad(buf, text);
      } else {
        LeafBad(buf, text);
      }
    }
  }

  lemma NoSuchType(buf: bytes)
    requires buf == [] || buf[0] !in {43, 45, 58, 36, 42}
    ensures Parse(buf).Bad? <==> buf != []
  {
  }

  // ---- The whole input. ----

  /** The input is so many bytes of frames, and then the part the parser stops at. */
  ghost predicate Splits(buf: bytes, values: seq<RespValue>, stop: Stop, n: nat) {
    n <= |buf| && Frames(values, buf[..n])
    && if stop.Failed? then Malformed(buf[n..])
       else stop.rest == buf[n..] && !Malformed(buf[n..]) && NoFrame(buf[n..])
  }

  /** No part of the bytes from the front on is a frame. */
  ghost predicate NoFrame(buf: bytes) {
    forall v: RespValue, k: nat :: k <= |buf| ==> !Frame(v, buf[..k])
  }

  lemma NoFrameIff(buf: bytes)
    ensures NoFrame(buf) <==> !Parse(buf).Done?
  {
    hide Frame, Parse;
    forall v: RespValue, k: nat | k <= |buf| ensures Frame(v, buf[..k]) <==> Parse(buf) == Done(v, k) {
      ParseIff(buf, v, k);
    }
    if Parse(buf).Done? {
      assert Frame(Parse(buf).value, buf[..Parse(buf).consumed]);
    }
  }

  /** Draining takes all frames there are, in order, and stops at an incomplete or malformed one. */
  lemma {:induction false} DrainSplits(buf: bytes) returns (n: nat)
    ensures Splits(buf, Drain(buf).values, Drain(buf).stop, n)
    decreases |buf|
  {
    hide Frame, Parse, Malformed, NoFrame;
    if Parse(buf).Done? {
      var v, used := Parse(buf).value, Parse(buf).consumed;
      var m := DrainSplits(buf[used..]);
      n := used + m;
      ParseIff(buf, v, used);
      var s := buf[..n];
      assert s[..used] == buf[..used] && s[used..] == buf[used..][..m] && buf[used..][m..] == buf[n..];
      var values := Drain(buf).values;
      assert values[0] == v && values[1..] == Drain(buf[used..]).values;
    } else {
      n := 0;
      assert buf[0..] == buf && buf[..0] == [];
      MalformedIff(buf);
      NoFrameIff(buf);
    }
  }

  // ---- The writer. ----

  /** What the writer emits is a frame of the value, when no line of text hides a line end. */
  lemma {:induction false} WritesFrames(v: RespValue)
    requires Representable(v) && Clean(v)
    ensures Frame(v, Encode(v))
  {
    hide Frame, Parse;
    WriteThenParse(v, []);
    assert Encode(v) + [] == Encode(v) && Encode(v)[..|Encode(v)|] == Encode(v);
    ParseIff(Encode(v), v, |Encode(v)|);
  }

  /** The fixed forms, and lengths and numbers in plain decimal. */
  lemma WireForms(t: bytes, n: int, items: seq<RespValue>)
    ensures Encode(SimpleString(t)) == [43] + t + [13, 10] && Encode(Error(t)) == [45] + t + [13, 10]
    ensures Encode(Integer(n)) == [58] + Decimal.Print(n) + [13, 10]
    ensures Encode(BulkString(Some(t))) == [36] + Decimal.Print(|t|) + [13, 10] + t + [13, 10]
    ensures Encode(BulkString(None)) == [36, 45, 49, 13, 10] && Encode(NullArray) == [42, 45, 49, 13, 10]
    ensures Encode(Array(items)) == [42] + Decimal.Print(|items|) + [13, 10] + EncodeAll(items)
  {
  }
}
