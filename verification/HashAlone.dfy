/** A caller of `HashRace` whom nobody interrupts does what the whole command does in `Hashes`. */
module HashAlone {
  import opened Bytes
  import opened HashRace
  import Decimal
  import Hashes
  import HashSchedules

  /** The value is a number, as HINCRBY reads it. */
  function NumberOf(fields: map<bytes, bytes>, field: bytes): Option<int> {
    if field in fields then Hashes.NumberIn(fields[field]) else None
  }

  function Clamped(n: int): int {
    if n > 9223372036854775807 then 9223372036854775807
    else if n < -9223372036854775808 then -9223372036854775808
    else n
  }

  /** What HINCRBY makes of the fields. */
  function Increased(fields: map<bytes, bytes>, field: bytes, delta: int): map<bytes, bytes> {
    if field !in fields then fields[field := Decimal.Print(delta)]
    else if NumberOf(fields, field).None? then fields
    else fields[field := Decimal.Print(Clamped(NumberOf(fields, field).value + delta))]
  }

  ghost predicate Does(s: State, w: nat, turns: seq<Turn>, fields: map<bytes, bytes>) {
    var t := Run(s, turns);
    t.fields == fields && w < |t.callers| == |s.callers| && Finished(t.callers[w]) && t.lock == s.lock
    && forall v :: 0 <= v < |s.callers| && v != w ==> t.callers[v] == s.callers[v]
  }

  lemma Snoc(s: State, turns: seq<Turn>, t: Turn)
    ensures Run(s, []) == s && Run(s, turns + [t]) == Step(Run(s, turns), t)
  {
    hide Step;
    assert (turns + [t])[..|turns|] == turns;
  }

  /** The same caller again and again. */
  lemma Turns(s: State, w: nat, n: nat) returns (turns: seq<Turn>)
    requires n <= 4
    ensures var t := Turn(w, false);
      Run(s, turns)
      == if n == 0 then s
         else if n == 1 then Step(s, t)
         else if n == 2 then Step(Step(s, t), t)
         else if n == 3 then Step(Step(Step(s, t), t), t)
         else Step(Step(Step(Step(s, t), t), t), t)
  {
    hide Step, Run;
    var t := Turn(w, false);
    Snoc(s, [], t);
    Snoc(s, [] + [t], t);
    Snoc(s, [] + [t] + [t], t);
    Snoc(s, [] + [t] + [t] + [t], t);
    turns := if n == 0 then [] else if n == 1 then [] + [t] else if n == 2 then [] + [t] + [t]
             else if n == 3 then [] + [t] + [t] + [t] else [] + [t] + [t] + [t] + [t];
  }

  /** HINCRBY: the increment on a new field, the clamped sum on a number, nothing otherwise. */
  lemma AloneIncrement(s: State, w: nat) returns (turns: seq<Turn>)
    requires w < |s.callers| && s.callers[w].job.Incr? && s.callers[w].phase.Checking? && s.lock.None?
    ensures Does(s, w, turns, Increased(s.fields, s.callers[w].job.field, s.callers[w].job.delta))
  {
    hide Run, Hashes.NumberIn;
    var f := s.callers[w].job.field;
    turns := Turns(s, w, if f !in s.fields then 4 else if NumberOf(s.fields, f).None? then 2 else 3);
  }

  /** HSET: the pairs in order, so that the last value for a field stays. */
  function Written(fields: map<bytes, bytes>, pairs: seq<(bytes, bytes)>): map<bytes, bytes>
    decreases |pairs|
  {
    if pairs == [] then fields else Written(fields[pairs[0].0 := pairs[0].1], pairs[1..])
  }

  lemma {:induction false} SetOn(s: State, w: nat, i: nat, change: int) returns (turns: seq<Turn>)
    requires w < |s.callers| && s.callers[w].job.Set? && i <= |s.callers[w].job.pairs|
    requires s.callers[w].phase == Working(i, change) && s.lock.None?
    ensures Does(s, w, turns, Written(s.fields, s.callers[w].job.pairs[i..]))
    decreases |s.callers[w].job.pairs| - i
  {
    hide Run;
    var pairs := s.callers[w].job.pairs;
    if i == |pairs| {
      turns := Turns(s, w, if change == 0 then 0 else 2);
    } else {
      var first := Turns(s, w, 1);
      var t := Run(s, first);
      var rest := SetOn(t, w, i + 1, t.callers[w].phase.change);
      HashSchedules.RunConcat(s, first, rest);
      turns := first + rest;
      assert pairs[i..][1..] == pairs[i + 1..];
    }
  }

  /** HDEL: exactly the fields named go. */
  lemma {:induction false} DelOn(s: State, w: nat, i: nat, change: int) returns (turns: seq<Turn>)
    requires w < |s.callers| && s.callers[w].job.Del? && i <= |s.callers[w].job.names|
    requires s.callers[w].phase == Working(i, change) && s.lock.None?
    ensures Does(s, w, turns, s.fields - (set j | i <= j < |s.callers[w].job.names| :: s.callers[w].job.names[j]))
    decreases |s.callers[w].job.names| - i
  {
    hide Run;
    var names := s.callers[w].job.names;
    if i == |names| {
      turns := Turns(s, w, if change == 0 then 0 else 2);
    } else {
      var first := Turns(s, w, 1);
      var t := Run(s, first);
      var rest := DelOn(t, w, i + 1, t.callers[w].phase.change);
      HashSchedules.RunConcat(s, first, rest);
      turns := first + rest;
    }
  }
}
