/**
 * How a list is laid out in the store: one metadata key holding (head, tail, count) and one key
 * per occupied position. `Cells` is the list a reader sees, position by position; a cell is
 * `None` when a position was claimed and its value is not stored (a gap).
 */
module ListState {
  import opened Bytes
  import opened Binary
  import opened Store
  import Decimal

  const INITIAL_POSITION: int := 1_000_000_000
  const MAX_RETRIES: nat := 10

  const COLON: byte := 58
  const LETTER_L: byte := 76
  const META: bytes := [109, 101, 116, 97]

  function Prefix(name: bytes): bytes {
    [LETTER_L, COLON] + name + [COLON]
  }

  function MetaKey(name: bytes): bytes {
    Prefix(name) + META
  }

  function ValueKey(name: bytes, p: int): bytes {
    Prefix(name) + Decimal.Print(p)
  }

  /** The keys a list may touch: its prefix, then no further colon. */
  predicate Owns(name: bytes, key: bytes) {
    Prefix(name) <= key && COLON !in key[|Prefix(name)|..]
  }

  /** `L:name:meta` and `L:name:position`. */
  lemma StorageKeys(name: bytes, p: int)
    ensures MetaKey(name) == [76, 58] + name + [58, 109, 101, 116, 97]
    ensures ValueKey(name, p) == [76, 58] + name + [58] + Decimal.Print(p)
  {
  }

  lemma OwnsMeta(name: bytes)
    ensures Owns(name, MetaKey(name))
  {
    assert MetaKey(name)[|Prefix(name)|..] == META;
  }

  lemma OwnsValue(name: bytes, p: int)
    ensures Owns(name, ValueKey(name, p))
  {
    assert ValueKey(name, p)[|Prefix(name)|..] == Decimal.Print(p);
    assert Decimal.AllDigits(Decimal.Digits(if p < 0 then -p else p));
  }

  lemma PastThePrefix(name: bytes, key: bytes)
    requires Owns(name, key)
    ensures key[|name| + 2] == COLON
    ensures forall j :: |name| + 3 <= j < |key| ==> key[j] != COLON
  {
    assert Prefix(name)[|name| + 2] == COLON;
    forall j | |name| + 3 <= j < |key| ensures key[j] != COLON {
      assert key[j] == key[|Prefix(name)|..][j - |Prefix(name)|];
    }
  }

  /**
   * No key belongs to two lists. This is so for well-formed names, which are written into keys as
   * they are; a name that is not UTF-8 is first converted, and two of those may meet.
   */
  lemma OneOwner(name: bytes, other: bytes, key: bytes)
    requires Owns(name, key) && Owns(other, key)
    ensures name == other
  {
    PastThePrefix(name, key);
    PastThePrefix(other, key);
    assert |name| == |other|;
    assert Prefix(name) == key[..|Prefix(name)|] == Prefix(other);
    assert name == Prefix(name)[2..|name| + 2];
    assert other == Prefix(other)[2..|name| + 2];
  }

  /** The storage keys of a list are pairwise different. */
  lemma KeysDiffer(name: bytes, p: int, q: int)
    ensures MetaKey(name) != ValueKey(name, p)
    ensures p != q ==> ValueKey(name, p) != ValueKey(name, q)
  {
    var n := |Prefix(name)|;
    assert MetaKey(name)[n..] == META;
    assert ValueKey(name, p)[n..] == Decimal.Print(p) && ValueKey(name, q)[n..] == Decimal.Print(q);
    assert Decimal.IsDigit(Decimal.Digits(if p < 0 then -p else p)[0]);
    if p != q && ValueKey(name, p) == ValueKey(name, q) {
      Decimal.PrintInjective(p, q);
    }
  }

  datatype Meta = Meta(head: int, tail: int, count: nat)

  const FRESH: Meta := Meta(INITIAL_POSITION, INITIAL_POSITION, 0)

  predicate Fits(m: Meta) {
    Decimal.IsI64(m.head) && Decimal.IsI64(m.tail) && m.count < TWO_64
  }

  function ParseMeta(data: bytes): (m: Meta)
    ensures Fits(m)
  {
    if |data| < 24 then FRESH
    else Meta(ReadSigned(data[..8]), ReadSigned(data[8..16]), ReadUnsigned(data[16..24]))
  }

  function BuildMeta(head: int, tail: int, count: int): (data: bytes)
    ensures |data| == 24
  {
    Word(head) + Word(tail) + Word(count)
  }

  lemma MetaRoundTrip(m: Meta)
    requires Fits(m)
    ensures ParseMeta(BuildMeta(m.head, m.tail, m.count)) == m
  {
    hide Little, FromLittle;
    var data := BuildMeta(m.head, m.tail, m.count);
    assert data[..8] == Word(m.head) && data[8..16] == Word(m.tail) && data[16..24] == Word(m.count);
    WordSigned(m.head);
    WordSigned(m.tail);
    WordUnsigned(m.count);
  }

  function MetaOf(d: Data, name: bytes): Meta {
    if MetaKey(name) in d then ParseMeta(d[MetaKey(name)]) else FRESH
  }

  function Slot(d: Data, name: bytes, p: int): Option<bytes> {
    if ValueKey(name, p) in d then Some(d[ValueKey(name, p)]) else None
  }

  /** The metadata describes a window of positions, and counts it. */
  predicate Sound(d: Data, name: bytes) {
    var m := MetaOf(d, name);
    m.tail - m.head == m.count && m.count <= Decimal.I64_MAX
  }

  /** `n` more elements fit on either side without leaving the 64-bit positions. */
  predicate Room(d: Data, name: bytes, n: nat) {
    var m := MetaOf(d, name);
    Decimal.I64_MIN <= m.head - n && m.tail + n <= Decimal.I64_MAX && m.tail - m.head + n <= Decimal.I64_MAX
  }

  /** The stored positions are exactly those in the window: no gap inside, no value outside. */
  ghost predicate Exact(d: Data, name: bytes) {
    forall p: int :: Slot(d, name, p).Some? <==> MetaOf(d, name).head <= p < MetaOf(d, name).tail
  }

  function Cells(d: Data, name: bytes): (cells: seq<Option<bytes>>)
    requires Sound(d, name)
    ensures |cells| == MetaOf(d, name).count
  {
    seq(MetaOf(d, name).count, i requires 0 <= i < MetaOf(d, name).count => Slot(d, name, MetaOf(d, name).head + i))
  }

  /** Only keys of this list changed. */
  ghost predicate Frame(d: Data, e: Data, name: bytes) {
    forall key: bytes :: !Owns(name, key) ==> (key in d <==> key in e) && (key in d ==> d[key] == e[key])
  }

  lemma FrameTransitive(d: Data, e: Data, f: Data, name: bytes)
    requires Frame(d, e, name) && Frame(e, f, name)
    ensures Frame(d, f, name)
  {
  }

  /** What happens to one list leaves every other list as it was. */
  lemma OtherListsUntouched(d: Data, e: Data, name: bytes, other: bytes)
    requires Frame(d, e, name) && name != other
    ensures MetaOf(d, other) == MetaOf(e, other)
    ensures MetaKey(other) in d <==> MetaKey(other) in e
    ensures forall p: int :: Slot(d, other, p) == Slot(e, other, p)
    ensures Exact(d, other) <==> Exact(e, other)
    ensures Sound(d, other) ==> Sound(e, other) && Cells(d, other) == Cells(e, other)
  {
    OwnsMeta(other);
    if Owns(name, MetaKey(other)) {
      OneOwner(name, other, MetaKey(other));
    }
    forall p: int ensures Slot(d, other, p) == Slot(e, other, p) {
      OwnsValue(other, p);
      if Owns(name, ValueKey(other, p)) {
        OneOwner(name, other, ValueKey(other, p));
      }
    }
  }

  lemma MetaWritten(d: Data, name: bytes, m: Meta)
    requires Fits(m)
    ensures var e := d[MetaKey(name) := BuildMeta(m.head, m.tail, m.count)];
      MetaOf(e, name) == m && Frame(d, e, name) && forall p: int :: Slot(e, name, p) == Slot(d, name, p)
  {
    var e := d[MetaKey(name) := BuildMeta(m.head, m.tail, m.count)];
    MetaRoundTrip(m);
    OwnsMeta(name);
    hide BuildMeta, ParseMeta, Owns;
    forall p: int ensures Slot(e, name, p) == Slot(d, name, p) {
      KeysDiffer(name, p, p);
    }
  }

  lemma ValueWritten(d: Data, name: bytes, p: int, v: bytes)
    ensures var e := d[ValueKey(name, p) := v];
      MetaOf(e, name) == MetaOf(d, name) && Frame(d, e, name)
      && (MetaKey(name) in e <==> MetaKey(name) in d)
      && forall q: int :: Slot(e, name, q) == if q == p then Some(v) else Slot(d, name, q)
  {
    var e := d[ValueKey(name, p) := v];
    KeysDiffer(name, p, p);
    OwnsValue(name, p);
    hide ParseMeta, Owns;
    forall q: int ensures Slot(e, name, q) == if q == p then Some(v) else Slot(d, name, q) {
      KeysDiffer(name, p, q);
    }
  }

  lemma ValueDeleted(d: Data, name: bytes, p: int)
    ensures var e := d - {ValueKey(name, p)};
      MetaOf(e, name) == MetaOf(d, name) && Frame(d, e, name)
      && (MetaKey(name) in e <==> MetaKey(name) in d)
      && forall q: int :: Slot(e, name, q) == if q == p then None else Slot(d, name, q)
  {
    var e := d - {ValueKey(name, p)};
    KeysDiffer(name, p, p);
    OwnsValue(name, p);
    hide ParseMeta, Owns;
    forall q: int ensures Slot(e, name, q) == if q == p then None else Slot(d, name, q) {
      KeysDiffer(name, p, q);
    }
  }

  /** The list `name` now shows `cells`, starting at `head`; nothing else changed. */
  ghost predicate Becomes(d: Data, e: Data, name: bytes, head: int, cells: seq<Option<bytes>>) {
    Sound(e, name) && Frame(d, e, name) && (Exact(d, name) ==> Exact(e, name))
    && MetaOf(e, name).head == head && Cells(e, name) == cells
    && (MetaKey(name) in d ==> MetaKey(name) in e)
  }

  lemma BecomesItself(d: Data, name: bytes)
    requires Sound(d, name)
    ensures Becomes(d, d, name, MetaOf(d, name).head, Cells(d, name))
  {
  }

  lemma BecomesTransitive(d: Data, e: Data, f: Data, name: bytes,
                          head: int, cells: seq<Option<bytes>>, head2: int, cells2: seq<Option<bytes>>)
    requires Becomes(d, e, name, head, cells) && Becomes(e, f, name, head2, cells2)
    ensures Becomes(d, f, name, head2, cells2)
  {
    hide Exact, Sound, Cells, MetaOf;
    FrameTransitive(d, e, f, name);
  }

  /** Writing a value next to the window and widening the window over it. */
  lemma Widened(d: Data, e: Data, name: bytes, v: bytes, left: bool)
    requires Sound(d, name) && Room(d, name, 1) && Frame(d, e, name)
    requires MetaKey(name) in e
    requires var m := MetaOf(d, name);
      MetaOf(e, name) == if left then Meta(m.head - 1, m.tail, m.count + 1) else Meta(m.head, m.tail + 1, m.count + 1)
    requires var p := if left then MetaOf(d, name).head - 1 else MetaOf(d, name).tail;
      forall q: int :: Slot(e, name, q) == if q == p then Some(v) else Slot(d, name, q)
    ensures Becomes(d, e, name, MetaOf(e, name).head,
                    if left then [Some(v)] + Cells(d, name) else Cells(d, name) + [Some(v)])
  {
    hide MetaOf, Slot, MetaKey, Frame;
    assert Cells(e, name) == if left then [Some(v)] + Cells(d, name) else Cells(d, name) + [Some(v)];
  }

  /** The store after a value was claimed a position on the left and written there. */
  function PushedLeft(d: Data, name: bytes, v: bytes): Data {
    var m := MetaOf(d, name);
    d[MetaKey(name) := BuildMeta(m.head - 1, m.tail, m.count + 1)][ValueKey(name, m.head - 1) := v]
  }

  function PushedRight(d: Data, name: bytes, v: bytes): Data {
    var m := MetaOf(d, name);
    d[MetaKey(name) := BuildMeta(m.head, m.tail + 1, m.count + 1)][ValueKey(name, m.tail) := v]
  }

  lemma {:induction false} PushLeftView(d: Data, name: bytes, v: bytes)
    requires Sound(d, name) && Room(d, name, 1)
    ensures MetaKey(name) in PushedLeft(d, name, v)
    ensures Becomes(d, PushedLeft(d, name, v), name, MetaOf(d, name).head - 1, [Some(v)] + Cells(d, name))
  {
    var m := MetaOf(d, name);
    var to := Meta(m.head - 1, m.tail, m.count + 1);
    assert Fits(to);
    var c := d[MetaKey(name) := BuildMeta(to.head, to.tail, to.count)];
    var e := c[ValueKey(name, to.head) := v];
    assert e == PushedLeft(d, name, v);
    hide *;
    MetaWritten(d, name, to);
    ValueWritten(c, name, to.head, v);
    FrameTransitive(d, c, e, name);
    Widened(d, e, name, v, true);
  }

  lemma {:induction false} PushRightView(d: Data, name: bytes, v: bytes)
    requires Sound(d, name) && Room(d, name, 1)
    ensures MetaKey(name) in PushedRight(d, name, v)
    ensures Becomes(d, PushedRight(d, name, v), name, MetaOf(d, name).head, Cells(d, name) + [Some(v)])
  {
    var m := MetaOf(d, name);
    var to := Meta(m.head, m.tail + 1, m.count + 1);
    assert Fits(to);
    var c := d[MetaKey(name) := BuildMeta(to.head, to.tail, to.count)];
    var e := c[ValueKey(name, m.tail) := v];
    assert e == PushedRight(d, name, v);
    hide *;
    MetaWritten(d, name, to);
    ValueWritten(c, name, m.tail, v);
    FrameTransitive(d, c, e, name);
    Widened(d, e, name, v, false);
  }

  /** Moving one end of the window inward over a cell that is then empty. */
  lemma Narrowed(d: Data, e: Data, name: bytes, left: bool)
    requires Sound(d, name) && Cells(d, name) != [] && Frame(d, e, name)
    requires MetaKey(name) in e
    requires var m := MetaOf(d, name);
      MetaOf(e, name) == if left then Meta(m.head + 1, m.tail, m.count - 1) else Meta(m.head, m.tail - 1, m.count - 1)
    requires var p := if left then MetaOf(d, name).head else MetaOf(d, name).tail - 1;
      forall q: int :: Slot(e, name, q) == if q == p then None else Slot(d, name, q)
    ensures Becomes(d, e, name, MetaOf(e, name).head,
                    if left then Cells(d, name)[1..] else Cells(d, name)[..|Cells(d, name)| - 1])
  {
    hide MetaOf, Slot, MetaKey, Frame;
    assert Cells(e, name) == if left then Cells(d, name)[1..] else Cells(d, name)[..|Cells(d, name)| - 1];
  }

  /** The store after one cell left the window, and its value, if there was one, was deleted. */
  function PoppedLeft(d: Data, name: bytes): Data {
    var m := MetaOf(d, name);
    var c := d[MetaKey(name) := BuildMeta(m.head + 1, m.tail, m.count - 1)];
    if Slot(d, name, m.head).Some? then c - {ValueKey(name, m.head)} else c
  }

  function PoppedRight(d: Data, name: bytes): Data {
    var m := MetaOf(d, name);
    var c := d[MetaKey(name) := BuildMeta(m.head, m.tail - 1, m.count - 1)];
    if Slot(d, name, m.tail - 1).Some? then c - {ValueKey(name, m.tail - 1)} else c
  }

  lemma PopLeftShape(d: Data, name: bytes)
    requires Sound(d, name) && Cells(d, name) != []
    ensures var m := MetaOf(d, name);
      var c := d[MetaKey(name) := BuildMeta(m.head + 1, m.tail, m.count - 1)];
      m.count >= 1 && Fits(Meta(m.head + 1, m.tail, m.count - 1))
      && PoppedLeft(d, name) == if Slot(d, name, m.head).Some? then c - {ValueKey(name, m.head)} else c
  {
    assert Fits(MetaOf(d, name));
  }

  lemma {:induction false} PopLeftView(d: Data, name: bytes)
    requires Sound(d, name) && Cells(d, name) != []
    ensures Becomes(d, PoppedLeft(d, name), name, MetaOf(d, name).head + 1, Cells(d, name)[1..])
  {
    hide *;
    PopLeftShape(d, name);
    var m := MetaOf(d, name);
    var to := Meta(m.head + 1, m.tail, m.count - 1);
    var c := d[MetaKey(name) := BuildMeta(to.head, to.tail, to.count)];
    MetaWritten(d, name, to);
    ValueDeleted(c, name, m.head);
    if Slot(d, name, m.head).Some? {
      FrameTransitive(d, c, c - {ValueKey(name, m.head)}, name);
    }
    Narrowed(d, PoppedLeft(d, name), name, true);
  }

  lemma PopRightShape(d: Data, name: bytes)
    requires Sound(d, name) && Cells(d, name) != []
    ensures var m := MetaOf(d, name);
      var c := d[MetaKey(name) := BuildMeta(m.head, m.tail - 1, m.count - 1)];
      m.count >= 1 && Fits(Meta(m.head, m.tail - 1, m.count - 1))
      && PoppedRight(d, name) == if Slot(d, name, m.tail - 1).Some? then c - {ValueKey(name, m.tail - 1)} else c
  {
    assert Fits(MetaOf(d, name));
  }

  lemma {:induction false} PopRightView(d: Data, name: bytes)
    requires Sound(d, name) && Cells(d, name) != []
    ensures Becomes(d, PoppedRight(d, name), name, MetaOf(d, name).head, Cells(d, name)[..MetaOf(d, name).count - 1])
  {
    hide *;
    PopRightShape(d, name);
    var m := MetaOf(d, name);
    var to := Meta(m.head, m.tail - 1, m.count - 1);
    var c := d[MetaKey(name) := BuildMeta(to.head, to.tail, to.count)];
    MetaWritten(d, name, to);
    ValueDeleted(c, name, m.tail - 1);
    if Slot(d, name, m.tail - 1).Some? {
      FrameTransitive(d, c, c - {ValueKey(name, m.tail - 1)}, name);
    }
    Narrowed(d, PoppedRight(d, name), name, false);
  }

  /** Slots do not depend on the metadata. */
  lemma SlotAfterMeta(d: Data, name: bytes, data: bytes, p: int)
    ensures Slot(d[MetaKey(name) := data], name, p) == Slot(d, name, p)
  {
    KeysDiffer(name, p, p);
  }
}
