/**
 The incremental parser: a growing, compacted buffer that is drained after every read.
 What comes out depends on the bytes received, not on how they were cut into reads.
 */
module RespStream {
  import opened Bytes
  import opened Resp

  /** Where a drain stops: waiting for the rest of a frame, or at a malformed frame. */
  datatype Stop = Waiting(rest: bytes) | Failed(error: Fault)

  datatype Drained = Drained(values: seq<RespValue>, stop: Stop)

  /** Parse frame after frame until the input runs out or is malformed. */
  function Drain(buf: bytes): Drained
    decreases |buf|
  {
    match Parse(buf)
    case NeedMore => Drained([], Waiting(buf))
    case Bad(e) => Drained([], Failed(e))
    case Done(v, used) =>
      var more := Drain(buf[used..]);
      Drained([v] + more.values, more.stop)
  }

  lemma NothingToDrain()
    ensures Drain([]) == Drained([], Waiting([]))
  {
    assert Parse([]).NeedMore?;
  }

  /** The input can be cut behind any of its complete frames. */
  lemma {:induction false} CutBehind(buf: bytes, j: nat) returns (front: bytes, back: bytes)
    requires j <= |Drain(buf).values|
    ensures buf == front + back
    ensures Drain(front) == Drained(Drain(buf).values[..j], Waiting([]))
    ensures Drain(back) == Drained(Drain(buf).values[j..], Drain(buf).stop)
    decreases |buf|
  {
    hide Parse;
    if j == 0 {
      front, back := [], buf;
      NothingToDrain();
    } else {
      var v, used := Parse(buf).value, Parse(buf).consumed;
      var rest := Drain(buf[used..]);
      var more;
      more, back := CutBehind(buf[used..], j - 1);
      front := buf[..used] + more;
      ParseExact(buf, used);
      ParseStable(buf[..used], more);
      assert front[used..] == more;
      assert [v] + rest.values[..j - 1] == ([v] + rest.values)[..j];
      assert buf == buf[..used] + buf[used..];
      assert front + back == buf[..used] + (more + back);
    }
  }

  /** Feed chunk after chunk, draining after each; a malformed frame ends the connection. */
  function Feed(rest: bytes, chunks: seq<bytes>): Drained
    decreases |chunks|
  {
    if chunks == [] then Drained([], Waiting(rest))
    else
      var now := Drain(rest + chunks[0]);
      if now.stop.Failed? then now
      else
        var later := Feed(now.stop.rest, chunks[1..]);
        Drained(now.values + later.values, later.stop)
  }

  lemma {:induction false} DrainAppend(a: bytes, b: bytes)
    ensures Drain(a).stop.Failed? ==> Drain(a + b) == Drain(a)
    ensures Drain(a).stop.Waiting? ==>
              var rest := Drain(Drain(a).stop.rest + b);
              Drain(a + b) == Drained(Drain(a).values + rest.values, rest.stop)
    decreases |a|
  {
    hide Parse;
    match Parse(a)
    case NeedMore =>
    case Bad(e) =>
      ParseStable(a, b);
    case Done(v, used) =>
      ParseStable(a, b);
      assert (a + b)[used..] == a[used..] + b;
      DrainAppend(a[used..], b);
  }

  /** What is left waiting is not itself a complete frame. */
  lemma {:induction false} RestIsWaiting(buf: bytes)
    requires Drain(buf).stop.Waiting?
    ensures Drain(Drain(buf).stop.rest) == Drained([], Drain(buf).stop)
    decreases |buf|
  {
    hide Parse;
    if Parse(buf).Done? {
      RestIsWaiting(buf[Parse(buf).consumed..]);
    }
  }

  lemma {:induction false} FeedIsDrain(rest: bytes, chunks: seq<bytes>)
    requires Drain(rest) == Drained([], Waiting(rest))
    ensures Feed(rest, chunks) == Drain(rest + Concat(chunks))
    decreases |chunks|
  {
    hide Drain;
    if chunks == [] {
      assert rest + Concat(chunks) == rest;
    } else {
      var now := rest + chunks[0];
      assert rest + Concat(chunks) == now + Concat(chunks[1..]);
      DrainAppend(now, Concat(chunks[1..]));
      if Drain(now).stop.Waiting? {
        RestIsWaiting(now);
        FeedIsDrain(Drain(now).stop.rest, chunks[1..]);
      }
    }
  }

  /**
   Chunking invariance: however a byte stream is cut into reads, the values parsed, the
   bytes left over and the error met are those of one read of the whole stream.
   */
  lemma {:induction false} ChunkingInvariance(chunks: seq<bytes>, others: seq<bytes>)
    requires Concat(chunks) == Concat(others)
    ensures Feed([], chunks) == Feed([], others) == Drain(Concat(chunks))
  {
    FeedIsDrain([], chunks);
    FeedIsDrain([], others);
    assert [] + Concat(chunks) == Concat(chunks);
  }

  /** A pipeline of written replies is read back as those replies, whatever the cuts. */
  lemma {:induction false} PipelineRoundTrip(values: seq<RespValue>, chunks: seq<bytes>)
    requires forall i :: 0 <= i < |values| ==> Representable(values[i]) && Clean(values[i])
    requires Concat(chunks) == EncodeAll(values)
    ensures Feed([], chunks) == Drained(values, Waiting([]))
  {
    ChunkingInvariance(chunks, [EncodeAll(values)]);
    DrainEncoded(values);
  }

  lemma {:induction false} DrainEncoded(values: seq<RespValue>)
    requires forall i :: 0 <= i < |values| ==> Representable(values[i]) && Clean(values[i])
    ensures Drain(EncodeAll(values)) == Drained(values, Waiting([]))
  {
    hide Encode;
    if values != [] {
      var first, rest := Encode(values[0]), EncodeAll(values[1..]);
      WriteThenParse(values[0], rest);
      assert (first + rest)[|first|..] == rest;
      DrainEncoded(values[1..]);
      assert values == [values[0]] + values[1..];
    }
  }

  /** The parser object of one connection. */
  class RespParser {
    var buffer: bytes
    var position: nat

    ghost predicate Valid()
      reads this
    {
      position <= |buffer|
    }

    /** The bytes received and not yet consumed. */
    ghost function Unread(): bytes
      reads this
      requires Valid()
    {
      buffer[position..]
    }

    constructor ()
      ensures Valid() && Unread() == []
    {
      buffer, position := [], 0;
    }

    method Feed(data: bytes)
      requires Valid()
      modifies this
      ensures Valid() && Unread() == old(Unread()) + data
    {
      buffer := buffer + data;
    }

    /** Takes one frame off the unread bytes; the compaction never loses any of them. */
    method ParseNext() returns (r: Parsed<RespValue>)
      requires Valid()
      modifies this
      ensures Valid()
      ensures r == Parse(old(Unread()))
      ensures Unread() == if r.Done? then old(Unread())[r.consumed..] else old(Unread())
    {
      if position >= |buffer| {
        return NeedMore;
      }
      r := ParseValue(buffer[position..]);
      if r.Done? {
        position := position + r.consumed;
        if position > |buffer| / 2 {
          buffer := buffer[position..];
          position := 0;
        }
      }
    }
  }
}
