/**
 The RESP2 codec: what one frame means (`Parse`), what the writer emits (`Encode`), and
 that the two undo each other exactly on the values the wire format can carry.
 */
module Resp {
  import opened Bytes
  import Decimal
  import Utf8

  datatype RespValue =
    | SimpleString(text: bytes)
    | Error(message: bytes)
    | Integer(n: int)
    | BulkString(data: Option<bytes>)
    | Array(items: seq<RespValue>)
    | NullArray

  // `NullArray` is the source's `Array(None)`.

  /** The four places where a header line is decoded. */
  datatype Line = ErrorLine | IntegerLine | BulkLine | ArrayLine

  datatype Fault =
    | InvalidType(b: byte)
    | InvalidUtf8(line: Line)
    | InvalidNumber(line: Line, text: bytes)
    | MissingCrlf

  /** `Ok(Some((value, consumed)))`, `Ok(None)` and `Err(_)` of the source's parsers. */
  datatype Parsed<+T> = Done(value: T, consumed: nat) | NeedMore | Bad(error: Fault)

  const T_SIMPLE: byte := 43
  const T_ERROR: byte := 45
  const T_INTEGER: byte := 58
  const T_BULK: byte := 36
  const T_ARRAY: byte := 42

  // ---------------------------------------------------------------- finding a line end

  predicate CrlfAt(buf: bytes, i: nat) {
    i + 1 < |buf| && buf[i] == CR && buf[i + 1] == LF
  }

  ghost predicate NoCrlf(s: bytes) {
    forall i: nat :: !CrlfAt(s, i)
  }

  function CrlfFrom(buf: bytes, i: nat): (r: Option<nat>)
    ensures r.Some? ==> i <= r.value && CrlfAt(buf, r.value) && forall j: nat :: i <= j < r.value ==> !CrlfAt(buf, j)
    ensures r.None? ==> forall j: nat :: i <= j ==> !CrlfAt(buf, j)
    decreases |buf| - i
  {
    if i + 1 >= |buf| then None
    else if CrlfAt(buf, i) then Some(i)
    else CrlfFrom(buf, i + 1)
  }

  /** `memchr2`: the first carriage return or line feed at or after `i`. */
  function NextBreak(buf: bytes, i: nat): (r: Option<nat>)
    ensures r.Some? ==> i <= r.value < |buf| && buf[r.value] in CRLF
                        && forall j :: i <= j < r.value ==> buf[j] !in CRLF
    ensures r.None? ==> forall j :: i <= j < |buf| ==> buf[j] !in CRLF
    decreases |buf| - i
  {
    if i >= |buf| then None
    else if buf[i] == CR || buf[i] == LF then Some(i)
    else NextBreak(buf, i + 1)
  }

  /** The scan jumps from break byte to break byte and still finds the first CRLF pair. */
  method FindCrlf(buf: bytes) returns (r: Option<nat>)
    requires buf != []
    ensures r == CrlfFrom(buf, 0)
    ensures r.Some? ==> CrlfAt(buf, r.value) && forall j: nat :: j < r.value ==> !CrlfAt(buf, j)
    ensures r.None? ==> NoCrlf(buf)
  {
    var pos := 0;
    while pos < |buf| - 1
      invariant 0 <= pos <= |buf|
      invariant forall j: nat :: j < pos ==> !CrlfAt(buf, j)
    {
      match NextBreak(buf, pos)
      case Some(brk) =>
        if brk < |buf| - 1 && buf[brk] == CR && buf[brk + 1] == LF {
          assert CrlfAt(buf, brk);
          return Some(brk);
        }
        pos := brk + 1;
      case None =>
        break;
    }
    return None;
  }

  // ---------------------------------------------------------------- one frame

  function ParseSimpleString(buf: bytes): Parsed<RespValue>
    requires buf != [] && buf[0] == T_SIMPLE
  {
    match CrlfFrom(buf, 0)
    case None => NeedMore
    case Some(end) => Done(SimpleString(buf[1..end]), end + 2)
  }

  function ParseError(buf: bytes): Parsed<RespValue>
    requires buf != [] && buf[0] == T_ERROR
  {
    match CrlfFrom(buf, 0)
    case None => NeedMore
    case Some(end) =>
      if Utf8.Valid(buf[1..end]) then Done(Error(buf[1..end]), end + 2) else Bad(InvalidUtf8(ErrorLine))
  }

  /** The number on the header line, and where the line ends. */
  function ParseNumber(buf: bytes, line: Line): (r: Parsed<int>)
    requires buf != [] && buf[0] !in CRLF
    ensures r.Done? ==> 2 < r.consumed <= |buf| && Decimal.IsI64(r.value)
  {
    match CrlfFrom(buf, 0)
    case None => NeedMore
    case Some(end) =>
      if !Utf8.Valid(buf[1..end]) then Bad(InvalidUtf8(line))
      else match Decimal.Parse(buf[1..end])
        case None => Bad(InvalidNumber(line, buf[1..end]))
        case Some(n) => Done(n, end + 2)
  }

  function ParseInteger(buf: bytes): Parsed<RespValue>
    requires buf != [] && buf[0] == T_INTEGER
  {
    match ParseNumber(buf, IntegerLine)
    case NeedMore => NeedMore
    case Bad(e) => Bad(e)
    case Done(n, used) => Done(Integer(n), used)
  }

  function ParseBulkString(buf: bytes): Parsed<RespValue>
    requires buf != [] && buf[0] == T_BULK
  {
    match ParseNumber(buf, BulkLine)
    case NeedMore => NeedMore
    case Bad(e) => Bad(e)
    case Done(len, start) =>
      if len < 0 then Done(BulkString(None), start)
      else
        var end := start + len;
        if |buf| < end + 2 then NeedMore
        else if buf[end] != CR || buf[end + 1] != LF then Bad(MissingCrlf)
        else Done(BulkString(Some(buf[start..end])), end + 2)
  }

  function Parse(buf: bytes): (r: Parsed<RespValue>)
    ensures r.Done? ==> 0 < r.consumed <= |buf|
    decreases |buf|, 0
  {
    if buf == [] then NeedMore
    else if buf[0] == T_SIMPLE then ParseSimpleString(buf)
    else if buf[0] == T_ERROR then ParseError(buf)
    else if buf[0] == T_INTEGER then ParseInteger(buf)
    else if buf[0] == T_BULK then ParseBulkString(buf)
    else if buf[0] == T_ARRAY then
      match ParseNumber(buf, ArrayLine)
      case NeedMore => NeedMore
      case Bad(e) => Bad(e)
      case Done(len, start) =>
        if len < 0 then Done(NullArray, start)
        else ArrayOf(start, ParseItems(buf[start..], len))
    else Bad(InvalidType(buf[0]))
  }

  /** `count` consecutive frames. */
  function ParseItems(buf: bytes, count: nat): (r: Parsed<seq<RespValue>>)
    ensures r.Done? ==> r.consumed <= |buf| && |r.value| == count
    decreases |buf|, 1
  {
    if count == 0 then Done([], 0)
    else match Parse(buf)
      case NeedMore => NeedMore
      case Bad(e) => Bad(e)
      case Done(first, used) =>
        match ParseItems(buf[used..], count - 1)
        case NeedMore => NeedMore
        case Bad(e) => Bad(e)
        case Done(rest, more) => Done([first] + rest, used + more)
  }

  /** The array branch of `Parse` on its own. */
  lemma ParseArrayStep(buf: bytes)
    requires buf != [] && buf[0] == T_ARRAY
    ensures var head := ParseNumber(buf, ArrayLine);
            && (head.NeedMore? ==> Parse(buf) == NeedMore)
            && (head.Bad? ==> Parse(buf) == Bad(head.error))
            && (head.Done? && head.value < 0 ==> Parse(buf) == Done(NullArray, head.consumed))
            && (head.Done? && 0 <= head.value ==>
                  Parse(buf) == ArrayOf(head.consumed, ParseItems(buf[head.consumed..], head.value)))
  {
    hide ParseNumber;
  }

  function ArrayOf(start: nat, items: Parsed<seq<RespValue>>): Parsed<RespValue> {
    match items
    case NeedMore => NeedMore
    case Bad(e) => Bad(e)
    case Done(values, used) => Done(Array(values), start + used)
  }

  // ---------------------------------------------------------------- more input changes nothing decided

  lemma {:induction false} CrlfStable(buf: bytes, ext: bytes, i: nat)
    requires CrlfFrom(buf, i).Some?
    ensures CrlfFrom(buf + ext, i) == CrlfFrom(buf, i)
    decreases |buf| - i
  {
    if !CrlfAt(buf, i) {
      CrlfStable(buf, ext, i + 1);
    }
  }

  lemma NumberStable(buf: bytes, ext: bytes, line: Line)
    requires buf != [] && buf[0] !in CRLF
    requires !ParseNumber(buf, line).NeedMore?
    ensures ParseNumber(buf + ext, line) == ParseNumber(buf, line)
  {
    CrlfStable(buf, ext, 0);
    var end := CrlfFrom(buf, 0).value;
    assert (buf + ext)[1..end] == buf[1..end];
  }

  lemma FrontStays(buf: bytes, ext: bytes, a: nat, b: nat)
    requires a <= b && b + 2 <= |buf|
    ensures (buf + ext)[a..b] == buf[a..b] && (buf + ext)[b] == buf[b] && (buf + ext)[b + 1] == buf[b + 1]
  {
  }

  lemma BulkStable(buf: bytes, ext: bytes)
    requires buf != [] && buf[0] == T_BULK
    requires !ParseBulkString(buf).NeedMore?
    ensures ParseBulkString(buf + ext) == ParseBulkString(buf)
  {
    hide ParseNumber;
    NumberStable(buf, ext, BulkLine);
    match ParseNumber(buf, BulkLine)
    case Bad(_) =>
    case Done(len, start) =>
      if len >= 0 {
        FrontStays(buf, ext, start, start + len);
      }
  }

  lemma LeafStable(buf: bytes, ext: bytes)
    requires !Parse(buf).NeedMore? && buf[0] != T_ARRAY
    ensures Parse(buf + ext) == Parse(buf)
  {
    hide ParseItems;
    if buf[0] == T_SIMPLE || buf[0] == T_ERROR {
      CrlfStable(buf, ext, 0);
      var end := CrlfFrom(buf, 0).value;
      assert (buf + ext)[1..end] == buf[1..end];
    } else if buf[0] == T_INTEGER {
      NumberStable(buf, ext, IntegerLine);
    } else if buf[0] == T_BULK {
      BulkStable(buf, ext);
    }
  }

  /** A decided frame, value or error, stays what it is when more bytes arrive. */
  lemma {:induction false} ParseStable(buf: bytes, ext: bytes)
    requires !Parse(buf).NeedMore?
    ensures Parse(buf + ext) == Parse(buf)
    decreases |buf|, 1
  {
    if buf[0] == T_ARRAY {
      ArrayStable(buf, ext);
    } else {
      LeafStable(buf, ext);
    }
  }

  lemma {:induction false} ArrayStable(buf: bytes, ext: bytes)
    requires buf != [] && buf[0] == T_ARRAY && !Parse(buf).NeedMore?
    ensures Parse(buf + ext) == Parse(buf)
    decreases |buf|, 0
  {
    hide Parse, ParseNumber, ParseItems;
    ParseArrayStep(buf);
    ParseArrayStep(buf + ext);
    NumberStable(buf, ext, ArrayLine);
    var head := ParseNumber(buf, ArrayLine);
    if head.Done? && head.value >= 0 {
      assert (buf + ext)[head.consumed..] == buf[head.consumed..] + ext;
      ItemsStable(buf[head.consumed..], head.value, ext);
    }
  }

  lemma {:induction false} ItemsStable(buf: bytes, count: nat, ext: bytes)
    requires !ParseItems(buf, count).NeedMore?
    ensures ParseItems(buf + ext, count) == ParseItems(buf, count)
    decreases |buf|, 2
  {
    hide Parse;
    if count > 0 {
      ParseStable(buf, ext);
      match Parse(buf)
      case Bad(_) =>
      case Done(first, used) =>
        assert (buf + ext)[used..] == buf[used..] + ext;
        ItemsStable(buf[used..], count - 1, ext);
    }
  }

  // ---------------------------------------------------------------- a frame needs its own bytes only

  lemma {:induction false} CrlfExact(buf: bytes, n: nat, i: nat)
    requires n <= |buf| && CrlfFrom(buf, i).Some? && CrlfFrom(buf, i).value + 2 <= n
    ensures CrlfFrom(buf[..n], i) == CrlfFrom(buf, i)
    decreases |buf| - i
  {
    if !CrlfAt(buf, i) {
      CrlfExact(buf, n, i + 1);
    }
  }

  lemma NumberExact(buf: bytes, n: nat, line: Line)
    requires buf != [] && buf[0] !in CRLF && ParseNumber(buf, line).Done?
    requires ParseNumber(buf, line).consumed <= n <= |buf|
    ensures ParseNumber(buf[..n], line) == ParseNumber(buf, line)
  {
    CrlfExact(buf, n, 0);
    var end := CrlfFrom(buf, 0).value;
    assert buf[..n][1..end] == buf[1..end];
  }

  lemma BulkExact(buf: bytes, n: nat)
    requires buf != [] && buf[0] == T_BULK
    requires ParseBulkString(buf).Done? && ParseBulkString(buf).consumed <= n <= |buf|
    ensures ParseBulkString(buf[..n]) == ParseBulkString(buf)
  {
    hide ParseNumber;
    NumberExact(buf, n, BulkLine);
    var head := ParseNumber(buf, BulkLine);
    if head.value >= 0 {
      var end := head.consumed + head.value;
      assert buf[..n][head.consumed..end] == buf[head.consumed..end];
      assert buf[..n][end] == buf[end] && buf[..n][end + 1] == buf[end + 1];
    }
  }

  lemma LeafExact(buf: bytes, n: nat)
    requires Parse(buf).Done? && buf[0] != T_ARRAY && Parse(buf).consumed <= n <= |buf|
    ensures Parse(buf[..n]) == Parse(buf)
  {
    hide ParseItems, ParseBulkString, ParseNumber;
    if buf[0] == T_SIMPLE || buf[0] == T_ERROR {
      CrlfExact(buf, n, 0);
      var end := CrlfFrom(buf, 0).value;
      assert buf[..n][1..end] == buf[1..end];
    } else if buf[0] == T_INTEGER {
      NumberExact(buf, n, IntegerLine);
    } else if buf[0] == T_BULK {
      BulkExact(buf, n);
    }
  }

  /** A complete frame is read from its own bytes; nothing behind it is needed. */
  lemma {:induction false} ParseExact(buf: bytes, n: nat)
    requires Parse(buf).Done? && Parse(buf).consumed <= n <= |buf|
    ensures Parse(buf[..n]) == Parse(buf)
    decreases |buf|, 1
  {
    hide ParseNumber, ParseItems;
    if buf[0] == T_ARRAY {
      ParseArrayStep(buf);
      ParseArrayStep(buf[..n]);
      var head := ParseNumber(buf, ArrayLine);
      NumberExact(buf, n, ArrayLine);
      if head.value >= 0 {
        assert buf[..n][head.consumed..] == buf[head.consumed..][..n - head.consumed];
        ItemsExact(buf[head.consumed..], head.value, n - head.consumed);
      }
    } else {
      LeafExact(buf, n);
    }
  }

  lemma {:induction false} ItemsExact(buf: bytes, count: nat, n: nat)
    requires ParseItems(buf, count).Done? && ParseItems(buf, count).consumed <= n <= |buf|
    ensures ParseItems(buf[..n], count) == ParseItems(buf, count)
    decreases |buf|, 2
  {
    hide Parse;
    if count > 0 {
      var used := Parse(buf).consumed;
      ParseExact(buf, n);
      assert buf[..n][used..] == buf[used..][..n - used];
      ItemsExact(buf[used..], count - 1, n - used);
    }
  }

  // ---------------------------------------------------------------- the writer

  function Encode(v: RespValue): (s: bytes)
    ensures s != []
    decreases v, 0
  {
    match v
    case SimpleString(text) => [T_SIMPLE] + text + CRLF
    case Error(message) => [T_ERROR] + message + CRLF
    case Integer(n) => [T_INTEGER] + Decimal.Print(n) + CRLF
    case BulkString(Some(data)) => [T_BULK] + Decimal.Print(|data|) + CRLF + data + CRLF
    case BulkString(None) => [T_BULK, Decimal.MINUS, 49] + CRLF
    case Array(items) => [T_ARRAY] + Decimal.Print(|items|) + CRLF + EncodeAll(items)
    case NullArray => [T_ARRAY, Decimal.MINUS, 49] + CRLF
  }

  function EncodeAll(items: seq<RespValue>): bytes
    decreases items, 1
  {
    if items == [] then [] else Encode(items[0]) + EncodeAll(items[1..])
  }

  lemma {:induction false} EncodeAllSnoc(items: seq<RespValue>, v: RespValue)
    ensures EncodeAll(items + [v]) == EncodeAll(items) + Encode(v)
  {
    if items == [] {
      assert EncodeAll([v]) == Encode(v) + EncodeAll([]);
    } else {
      assert (items + [v])[1..] == items[1..] + [v];
      EncodeAllSnoc(items[1..], v);
    }
  }

  /** What the value types of the source guarantee: 64-bit integers and lengths, UTF-8 error text. */
  ghost predicate Representable(v: RespValue)
    decreases v
  {
    match v
    case SimpleString(_) => true
    case Error(message) => Utf8.Valid(message)
    case Integer(n) => Decimal.IsI64(n)
    case BulkString(data) => data.None? || Decimal.IsI64(|data.value|)
    case Array(items) => Decimal.IsI64(|items|) && forall i :: 0 <= i < |items| ==> Representable(items[i])
    case NullArray => true
  }

  /** No line of text hides a line end. */
  ghost predicate Clean(v: RespValue)
    decreases v
  {
    match v
    case SimpleString(text) => NoCrlf(text)
    case Error(message) => NoCrlf(message)
    case Integer(_) => true
    case BulkString(_) => true
    case Array(items) => forall i :: 0 <= i < |items| ==> Clean(items[i])
    case NullArray => true
  }

  // ---------------------------------------------------------------- round trip

  /** A type byte and CRLF-free text, ended by CRLF: the line end found is that one. */
  lemma LineEnd(t: byte, text: bytes, rest: bytes)
    requires t !in CRLF && NoCrlf(text)
    ensures var buf := [t] + text + CRLF + rest;
            CrlfFrom(buf, 0) == Some(|text| + 1) && buf[1..|text| + 1] == text && buf[|text| + 3..] == rest
  {
    var buf := [t] + text + CRLF + rest;
    forall j: nat | j <= |text|
      ensures !CrlfAt(buf, j)
    {
      if 1 <= j < |text| {
        assert !CrlfAt(text, j - 1);
      }
    }
    assert CrlfAt(buf, |text| + 1);
  }

  lemma PrintedNumber(t: byte, n: int, rest: bytes, line: Line)
    requires t !in CRLF && Decimal.IsI64(n)
    ensures var buf := [t] + Decimal.Print(n) + CRLF + rest;
            ParseNumber(buf, line) == Done(n, |Decimal.Print(n)| + 3) && buf[|Decimal.Print(n)| + 3..] == rest
  {
    LineEnd(t, Decimal.Print(n), rest);
    Utf8.AsciiIsValid(Decimal.Print(n));
    Decimal.ParsePrint(n);
  }

  lemma BulkShape(data: bytes, rest: bytes)
    ensures Encode(BulkString(Some(data))) + rest
            == ([T_BULK] + Decimal.Print(|data|) + CRLF) + (data + CRLF + rest)
  {
  }

  lemma BulkRoundTrip(data: bytes, rest: bytes)
    requires Decimal.IsI64(|data|)
    ensures var v := BulkString(Some(data));
            Parse(Encode(v) + rest) == Done(v, |Encode(v)|)
  {
    hide ParseNumber;
    var head := [T_BULK] + Decimal.Print(|data|) + CRLF;
    var buf := head + (data + CRLF + rest);
    BulkShape(data, rest);
    PrintedNumber(T_BULK, |data|, data + CRLF + rest, BulkLine);
    assert buf[|head|..|head| + |data|] == data;
    assert buf[|head| + |data|] == CR && buf[|head| + |data| + 1] == LF;
  }

  lemma LeafRoundTrip(v: RespValue, rest: bytes)
    requires Representable(v) && Clean(v) && !v.Array?
    ensures Parse(Encode(v) + rest) == Done(v, |Encode(v)|)
  {
    hide ParseItems;
    match v
    case SimpleString(text) =>
      LineEnd(T_SIMPLE, text, rest);
    case Error(message) =>
      LineEnd(T_ERROR, message, rest);
    case Integer(n) =>
      PrintedNumber(T_INTEGER, n, rest, IntegerLine);
    case BulkString(Some(data)) =>
      BulkRoundTrip(data, rest);
    case BulkString(None) =>
      assert Decimal.Print(-1) == [Decimal.MINUS, 49];
      assert Encode(v) == [T_BULK] + Decimal.Print(-1) + CRLF;
      PrintedNumber(T_BULK, -1, rest, BulkLine);
    case NullArray =>
      assert Decimal.Print(-1) == [Decimal.MINUS, 49];
      assert Encode(v) == [T_ARRAY] + Decimal.Print(-1) + CRLF;
      PrintedNumber(T_ARRAY, -1, rest, ArrayLine);
  }

  lemma {:induction false} WriteThenParse(v: RespValue, rest: bytes)
    requires Representable(v) && Clean(v)
    ensures Parse(Encode(v) + rest) == Done(v, |Encode(v)|)
    decreases v, 0
  {
    hide Parse, ParseNumber;
    if v.Array? {
      var head := [T_ARRAY] + Decimal.Print(|v.items|) + CRLF;
      var body := EncodeAll(v.items) + rest;
      assert Encode(v) + rest == head + body;
      PrintedNumber(T_ARRAY, |v.items|, body, ArrayLine);
      ParseArrayStep(head + body);
      ItemsRoundTrip(v.items, rest);
    } else {
      LeafRoundTrip(v, rest);
    }
  }

  lemma {:induction false} ItemsRoundTrip(items: seq<RespValue>, rest: bytes)
    requires forall i :: 0 <= i < |items| ==> Representable(items[i]) && Clean(items[i])
    ensures ParseItems(EncodeAll(items) + rest, |items|) == Done(items, |EncodeAll(items)|)
    decreases items, 1
  {
    hide Parse;
    if items != [] {
      var more := EncodeAll(items[1..]) + rest;
      assert EncodeAll(items) + rest == Encode(items[0]) + more;
      WriteThenParse(items[0], more);
      assert (Encode(items[0]) + more)[|Encode(items[0])|..] == more;
      ItemsRoundTrip(items[1..], rest);
      assert items == [items[0]] + items[1..];
    }
  }

  /** The parser never produces text with a line end in it. */
  lemma {:induction false} ParsedIsClean(buf: bytes)
    requires Parse(buf).Done?
    ensures Clean(Parse(buf).value) && Representable(Parse(buf).value)
    decreases |buf|, 0
  {
    if buf[0] == T_SIMPLE || buf[0] == T_ERROR {
      var end := CrlfFrom(buf, 0).value;
      forall j: nat
        ensures !CrlfAt(buf[1..end], j)
      {
        if j + 1 < end {
          assert !CrlfAt(buf, j + 1);
        }
      }
    } else if buf[0] == T_ARRAY {
      var head := ParseNumber(buf, ArrayLine);
      if head.value >= 0 {
        ParsedItemsAreClean(buf[head.consumed..], head.value);
      }
    }
  }

  lemma {:induction false} ParsedItemsAreClean(buf: bytes, count: nat)
    requires ParseItems(buf, count).Done?
    ensures forall i :: 0 <= i < count ==> var v := ParseItems(buf, count).value[i]; Clean(v) && Representable(v)
    decreases |buf|, 1
  {
    hide Parse;
    if count > 0 {
      ParsedIsClean(buf);
      ParsedItemsAreClean(buf[Parse(buf).consumed..], count - 1);
    }
  }

  /**
   Reading back what was written yields the value and consumes exactly its bytes, whatever
   follows, if and only if no text in it contains a CRLF pair.
   */
  lemma RoundTrip(v: RespValue, rest: bytes)
    requires Representable(v)
    ensures Parse(Encode(v) + rest) == Done(v, |Encode(v)|) <==> Clean(v)
  {
    if Clean(v) {
      WriteThenParse(v, rest);
    } else if Parse(Encode(v) + rest) == Done(v, |Encode(v)|) {
      ParsedIsClean(Encode(v) + rest);
    }
  }

  // ---------------------------------------------------------------- the loops of the source

  /** The recursive-descent parser with its array loop. */
  method ParseValue(buf: bytes) returns (r: Parsed<RespValue>)
    ensures r == Parse(buf)
    decreases |buf|, 1
  {
    if buf == [] {
      return NeedMore;
    }
    if buf[0] == T_ARRAY {
      r := ParseArray(buf);
    } else {
      r := Parse(buf);
    }
  }

  method ParseArray(buf: bytes) returns (r: Parsed<RespValue>)
    requires buf != [] && buf[0] == T_ARRAY
    ensures r == Parse(buf)
    decreases |buf|, 0
  {
    hide Parse, ParseNumber, ParseItems;
    ParseArrayStep(buf);
    var head := ParseNumber(buf, ArrayLine);
    if !head.Done? {
      return if head.NeedMore? then NeedMore else Bad(head.error);
    }
    if head.value < 0 {
      return Done(NullArray, head.consumed);
    }
    var elements, pos := [], head.consumed;
    ghost var whole := ParseItems(buf[pos..], head.value);
    assert whole.Done? ==> [] + whole.value == whole.value;
    for i := 0 to head.value
      invariant head.consumed <= pos <= |buf|
      invariant Resumed(elements, pos - head.consumed, ParseItems(buf[pos..], head.value - i)) == whole
    {
      ParseItemsStep(buf, pos, head.value - i, elements, pos - head.consumed);
      var item := ParseValue(buf[pos..]);
      match item
      case NeedMore =>
        return NeedMore;
      case Bad(e) =>
        return Bad(e);
      case Done(value, consumed) =>
        elements := elements + [value];
        pos := pos + consumed;
    }
    ParseNoItems(buf[pos..]);
    assert elements + [] == elements;
    return Done(Array(elements), pos);
  }

  /** The result of a loop that already holds `done` and has still to add `rest`. */
  ghost function Resumed(done: seq<RespValue>, used: nat, rest: Parsed<seq<RespValue>>): Parsed<seq<RespValue>> {
    match rest
    case Done(items, more) => Done(done + items, used + more)
    case _ => rest
  }

  lemma ParseNoItems(buf: bytes)
    ensures ParseItems(buf, 0) == Done([], 0)
  {
  }

  /** One turn of the array loop. */
  lemma ParseItemsStep(buf: bytes, pos: nat, count: nat, done: seq<RespValue>, used: nat)
    requires pos <= |buf| && count > 0
    ensures var item := Parse(buf[pos..]);
            var whole := Resumed(done, used, ParseItems(buf[pos..], count));
            && (item.NeedMore? ==> whole == NeedMore)
            && (item.Bad? ==> whole == Bad(item.error))
            && (item.Done? ==>
                  var next := pos + item.consumed;
                  next <= |buf|
                  && whole == Resumed(done + [item.value], used + item.consumed, ParseItems(buf[next..], count - 1)))
  {
    hide Parse;
    var item := Parse(buf[pos..]);
    if item.Done? {
      assert buf[pos..][item.consumed..] == buf[pos + item.consumed..];
      var rest := ParseItems(buf[pos + item.consumed..], count - 1);
      if rest.Done? {
        assert done + ([item.value] + rest.value) == done + [item.value] + rest.value;
      }
    }
  }

  /** The cases of the writer that do not recurse, piece by piece. */
  method WriteLeaf(buf: bytes, v: RespValue) returns (out: bytes)
    requires !v.Array?
    ensures out == buf + Encode(v)
  {
    match v
    case SimpleString(text) =>
      out := buf + [T_SIMPLE];
      out := out + text;
      out := out + CRLF;
    case Error(message) =>
      out := buf + [T_ERROR];
      out := out + message;
      out := out + CRLF;
    case Integer(n) =>
      out := buf + [T_INTEGER];
      out := out + Decimal.Print(n);
      out := out + CRLF;
    case BulkString(Some(data)) =>
      out := WriteBulk(buf, data);
    case BulkString(None) =>
      out := buf + [T_BULK, Decimal.MINUS, 49] + CRLF;
    case NullArray =>
      out := buf + [T_ARRAY, Decimal.MINUS, 49] + CRLF;
  }

  method WriteBulk(buf: bytes, data: bytes) returns (out: bytes)
    ensures out == buf + Encode(BulkString(Some(data)))
  {
    out := buf + [T_BULK];
    out := out + Decimal.Print(|data|);
    out := out + CRLF;
    out := out + data;
    out := out + CRLF;
  }

  /** The writer appends exactly the encoding. */
  method WriteRespValue(buf: bytes, v: RespValue) returns (out: bytes)
    ensures out == buf + Encode(v)
    decreases v
  {
    hide Encode, EncodeAll;
    match v
    case Array(items) =>
      out := buf + [T_ARRAY];
      out := out + Decimal.Print(|items|);
      out := out + CRLF;
      ghost var head := out;
      EncodeNone();
      for i := 0 to |items|
        invariant out == head + EncodeAll(items[..i])
      {
        out := WriteRespValue(out, items[i]);
        EncodeAllSnoc(items[..i], items[i]);
        assert items[..i + 1] == items[..i] + [items[i]];
      }
      assert items[..|items|] == items;
      EncodeArray(buf, items);
    case _ =>
      out := WriteLeaf(buf, v);
  }

  lemma EncodeNone()
    ensures EncodeAll([]) == []
  {
  }

  lemma {:induction false} EncodeArray(buf: bytes, items: seq<RespValue>)
    ensures buf + [T_ARRAY] + Decimal.Print(|items|) + CRLF + EncodeAll(items) == buf + Encode(Array(items))
  {
    Regroup(buf, [T_ARRAY], Decimal.Print(|items|), CRLF, EncodeAll(items));
  }

  lemma Regroup(a: bytes, b: bytes, c: bytes, d: bytes, e: bytes)
    ensures a + b + c + d + e == a + (b + c + d + e)
  {
    assert a + b + c == a + (b + c);
    assert a + (b + c) + d == a + (b + c + d);
    assert a + (b + c + d) + e == a + (b + c + d + e);
  }

  // ---------------------------------------------------------------- size estimate

  function Estimate(v: RespValue): nat
    decreases v, 0
  {
    match v
    case SimpleString(text) => |text| + 3
    case Error(message) => |message| + 3
    case Integer(_) => 24
    case BulkString(Some(data)) => |data| + 20
    case BulkString(None) => 5
    case Array(items) => 10 + EstimateAll(items)
    case NullArray => 5
  }

  function EstimateAll(items: seq<RespValue>): nat
    decreases items, 1
  {
    if items == [] then 0 else Estimate(items[0]) + EstimateAll(items[1..])
  }

  /** Arrays under 10^7 items and bulk strings under 10^15 bytes, at every depth. */
  ghost predicate Moderate(v: RespValue)
    decreases v
  {
    match v
    case BulkString(Some(data)) => |data| < Decimal.Pow10(15)
    case Array(items) => |items| < Decimal.Pow10(7) && forall i :: 0 <= i < |items| ==> Moderate(items[i])
    case _ => true
  }

  lemma IntegerSize(n: int)
    requires Decimal.IsI64(n)
    ensures |Decimal.Print(n)| <= 20
  {
    assert Decimal.Pow10(19) == 100_000 * Decimal.Pow10(14);
    assert Decimal.Pow10(14) == 100_000 * Decimal.Pow10(9);
    Decimal.DigitCount(if n < 0 then -n else n, 19);
  }

  /** The capacity reserved for a reply is never too small. */
  lemma {:induction false} EstimateBound(v: RespValue)
    requires Representable(v) && Moderate(v)
    ensures |Encode(v)| <= Estimate(v)
    decreases v, 0
  {
    match v
    case Integer(n) =>
      IntegerSize(n);
    case BulkString(Some(data)) =>
      Decimal.DigitCount(|data|, 15);
    case Array(items) =>
      Decimal.DigitCount(|items|, 7);
      EstimateAllBound(items);
    case _ =>
  }

  lemma {:induction false} EstimateAllBound(items: seq<RespValue>)
    requires forall i :: 0 <= i < |items| ==> Representable(items[i]) && Moderate(items[i])
    ensures |EncodeAll(items)| <= EstimateAll(items)
    decreases items, 1
  {
    if items != [] {
      EstimateBound(items[0]);
      EstimateAllBound(items[1..]);
    }
  }
}
