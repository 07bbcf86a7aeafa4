/**
 * Indices of LRANGE and LINDEX: from the front, from the back, and beyond either end, on lists
 * without gaps, and after any run of list commands.
 */
module ListIndices {
  import opened Bytes
  import opened Store
  import opened ListState
  import opened Lists
  import opened ListRuns

  /** Every start and stop: those before the front count as the front, those past the end as the end. */
  lemma RangeIs(cells: seq<Cell>, start: int, stop: int)
    requires NoGaps(cells)
    ensures var s := Somes(cells);
      var a := if start >= 0 then start else if -start <= |s| then |s| + start else 0;
      var b := if stop < 0 then |s| + stop else if stop < |s| then stop else |s| - 1;
      RangeAnswer(cells, start, stop) == if 0 <= a <= b then s[a..b + 1] else []
  {
    hide Somes, Between;
    var lo, hi := FromEnd(|cells|, start), FromEnd(|cells|, stop);
    RangeWithoutGaps(cells, lo, hi);
    BetweenIsSlice(Somes(cells), lo, hi);
  }

  /** LRANGE 0 -1 is everything. */
  lemma WholeRange(cells: seq<Cell>)
    requires NoGaps(cells)
    ensures RangeAnswer(cells, 0, -1) == Somes(cells)
  {
    hide Somes, Between, RangeAnswer;
    RangeIs(cells, 0, -1);
    assert Somes(cells)[0..|Somes(cells)|] == Somes(cells);
  }

  /** LRANGE -k -1 is the last k values, LRANGE 0 (k-1) the first k; everything if there are fewer. */
  lemma EndsOfRange(cells: seq<Cell>, k: int)
    requires NoGaps(cells) && k >= 1
    ensures var s := Somes(cells);
      RangeAnswer(cells, -k, -1) == (if k <= |s| then s[|s| - k..] else s)
      && RangeAnswer(cells, 0, k - 1) == (if k <= |s| then s[..k] else s)
  {
    hide Somes, Between, RangeAnswer;
    RangeIs(cells, -k, -1);
    RangeIs(cells, 0, k - 1);
    var s := Somes(cells);
    assert s[0..|s|] == s && s[..|s|] == s;
  }

  /**
   * LRANGE i -k stops before the last k-1 values; a start below the front is the front, and a stop
   * below it leaves nothing.
   */
  lemma MixedRange(cells: seq<Cell>, i: int, k: int, below: int)
    requires NoGaps(cells) && i >= 0 && k >= 1 && below > |Somes(cells)|
    ensures var s := Somes(cells);
      RangeAnswer(cells, i, -k) == (if i + k <= |s| then s[i..|s| - k + 1] else [])
      && RangeAnswer(cells, -below, i) == RangeAnswer(cells, 0, i)
      && RangeAnswer(cells, i, -below) == []
  {
    hide Somes, Between, RangeAnswer;
    RangeIs(cells, i, -k);
    RangeIs(cells, -below, i);
    RangeIs(cells, 0, i);
    RangeIs(cells, i, -below);
  }

  /** LINDEX from the front and from the back. */
  lemma {:induction false} IndexIs(cells: seq<Cell>, i: int)
    requires NoGaps(cells)
    ensures var s := Somes(cells);
      At(cells, i)
      == if 0 <= i < |s| then Some(s[i]) else if i < 0 && -i <= |s| then Some(s[|s| + i]) else None
  {
    var j := if i < 0 then |cells| + i else i;
    NoGapsLength(cells);
    if 0 <= j < |cells| {
      ValueAt(cells, j);
    }
  }

  lemma NoGapsLength(cells: seq<Cell>)
    requires NoGaps(cells)
    ensures |Somes(cells)| == |cells|
  {
    RangeWithoutGaps(cells, 0, 0);
  }

  lemma {:induction false} ValueAt(cells: seq<Cell>, i: nat)
    requires NoGaps(cells) && i < |cells|
    ensures |Somes(cells)| == |cells| && cells[i] == Some(Somes(cells)[i])
  {
    NoGapsLength(cells);
    assert cells[0].Some?;
    NoGapsLength(cells[1..]);
    if i > 0 {
      ValueAt(cells[1..], i - 1);
    }
  }

  /** After any run of commands, LRANGE and LINDEX read the deque of the documentation. */
  lemma {:induction false} ReadersAfterRun(stores: seq<Data>, events: seq<Event>, name: bytes, start: int, stop: int)
    requires Run(stores, events)
    ensures var s := Replay(events, name);
      var a := if start >= 0 then start else if -start <= |s| then |s| + start else 0;
      var b := if stop < 0 then |s| + stop else if stop < |s| then stop else |s| - 1;
      Sound(stores[|events|], name)
      && |Cells(stores[|events|], name)| == |s|
      && RangeAnswer(Cells(stores[|events|], name), start, stop) == (if 0 <= a <= b then s[a..b + 1] else [])
      && At(Cells(stores[|events|], name), start)
        == if 0 <= start < |s| then Some(s[start])
           else if start < 0 && -start <= |s| then Some(s[|s| + start]) else None
  {
    hide Replay, Somes, At, RangeAnswer, Sound, Exact;
    RunsAreDeques(stores, events, name);
    ExactHasNoGaps(stores[|events|], name);
    var cells := Cells(stores[|events|], name);
    RangeIs(cells, start, stop);
    IndexIs(cells, start);
    NoGapsLength(cells);
  }
}
