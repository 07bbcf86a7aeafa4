/**
 * One interest set of the registry at finer grain. A removal that leaves the set empty drops its
 * guard and then removes the entry in a second step; elsewhere the registry methods are taken as
 * single steps. Exactly the groups of workers are told for which that makes no difference.
 */
module RegistryRace {
  import opened Bytes

  datatype Op = Add | Remove

  /** `Emptied` has seen the set empty and let go of it, and is about to remove the entry. */
  datatype Phase = Ready | Emptied

  /** `entry` is the set under the key, if there is one; worker w has made the first `nexts[w]` of its calls. */
  datatype State = State(entry: Option<set<nat>>, ops: seq<seq<Op>>, nexts: seq<nat>, phases: seq<Phase>)

  predicate Formed(s: State) {
    |s.nexts| == |s.phases| == |s.ops| && forall w :: 0 <= w < |s.ops| ==> s.nexts[w] <= |s.ops[w]|
  }

  function Members(s: State): set<nat> {
    if s.entry.Some? then s.entry.value else {}
  }

  function Join(s: State, w: nat): State
    requires Formed(s) && w < |s.ops|
  {
    s.(entry := Some(Members(s) + {w}), nexts := s.nexts[w := s.nexts[w] + 1])
  }

  function Leave(s: State, w: nat): State
    requires Formed(s) && w < |s.ops|
  {
    var done := s.(nexts := s.nexts[w := s.nexts[w] + 1]);
    if s.entry.None? then done
    else
      var left := s.entry.value - {w};
      done.(entry := Some(left), phases := s.phases[w := if left == {} then Emptied else Ready])
  }

  function Step(s: State, w: nat): (t: State)
    requires Formed(s)
    ensures Formed(t) && t.ops == s.ops
  {
    if w >= |s.ops| then s
    else if s.phases[w].Emptied? then s.(entry := None, phases := s.phases[w := Ready])
    else if s.nexts[w] == |s.ops[w]| then s
    else if s.ops[w][s.nexts[w]].Add? then Join(s, w)
    else Leave(s, w)
  }

  function Run(s: State, schedule: seq<nat>): (t: State)
    requires Formed(s)
    ensures Formed(t) && t.ops == s.ops
  {
    if schedule == [] then s else Step(Run(s, schedule[..|schedule| - 1]), schedule[|schedule| - 1])
  }

  /** Whether worker w should be interested after its first `k` calls. */
  predicate Wants(s: State, w: nat, k: nat)
    requires w < |s.ops| && k <= |s.ops[w]|
  {
    if k == 0 then w in Members(s) else s.ops[w][k - 1].Add?
  }

  /**
   * Nobody has begun, there is no empty entry, and every worker joins and leaves in turn, as the
   * managers do: for the first subscriber and for the last one.
   */
  ghost predicate Starts(s: State) {
    Formed(s) && (forall w :: 0 <= w < |s.ops| ==> s.nexts[w] == 0 && s.phases[w].Ready?)
    && (s.entry.Some? ==> s.entry.value != {}) && (forall w :: w in Members(s) ==> w < |s.ops|)
    && (forall w, k :: 0 <= w < |s.ops| && 0 <= k < |s.ops[w]| ==> (s.ops[w][k].Remove? <==> Wants(s, w, k)))
  }

  predicate Done(t: State, w: nat)
    requires Formed(t) && w < |t.ops|
  {
    t.nexts[w] == |t.ops[w]| && t.phases[w].Ready?
  }

  predicate AllDone(t: State)
    requires Formed(t)
  {
    forall w :: 0 <= w < |t.ops| ==> Done(t, w)
  }

  /** Interested in the end are those who should be. */
  ghost predicate Right(s: State, t: State)
    requires Formed(s)
  {
    forall w :: 0 <= w < |s.ops| ==> (w in Members(t) <==> Wants(s, w, |s.ops[w]|))
  }

  ghost predicate AlwaysRight(s: State)
    requires Formed(s)
  {
    forall schedule :: AllDone(Run(s, schedule)) ==> Right(s, Run(s, schedule))
  }

  /** The last call of the worker joins. */
  predicate EndsJoining(s: State, a: nat) {
    a < |s.ops| && s.ops[a] != [] && s.ops[a][|s.ops[a]| - 1].Add?
  }

  /** Some call of the worker leaves. */
  predicate Leaves(s: State, r: nat) {
    r < |s.ops| && Remove in s.ops[r]
  }

  /** Interested all the time. */
  predicate Stays(s: State, v: nat) {
    v < |s.ops| && v in Members(s) && s.ops[v] == []
  }

  ghost predicate SomeoneStays(s: State) {
    exists v :: Stays(s, v)
  }

  ghost predicate SomeoneJoins(s: State) {
    exists a :: EndsJoining(s, a)
  }

  /** One worker joins in the end, another leaves at some time, and nobody is interested all the time. */
  ghost predicate Crossing(s: State) {
    !SomeoneStays(s) && exists a, r :: a != r && EndsJoining(s, a) && Leaves(s, r)
  }

  // ---- Without crossing. ----

  /** Nobody is interested who should not be. */
  ghost predicate Sound(s: State, t: State)
    requires Formed(s) && Formed(t) && t.ops == s.ops
  {
    forall w :: w in Members(t) ==> w < |s.ops| && Wants(s, w, t.nexts[w])
  }

  /** Everybody is who should be, and who has emptied the set is the last to do anything. */
  ghost predicate Exact(s: State, t: State)
    requires Formed(s) && Formed(t) && t.ops == s.ops
  {
    (forall w :: 0 <= w < |s.ops| && Wants(s, w, t.nexts[w]) ==> w in Members(t))
    && (forall v, w :: 0 <= v < |s.ops| && 0 <= w < |s.ops| && t.phases[v].Emptied? ==>
      Members(t) == {} && (w != v ==> s.ops[w] == []))
  }

  ghost predicate OnTrack(s: State, t: State)
    requires Formed(s)
  {
    Formed(t) && t.ops == s.ops && Sound(s, t) && (SomeoneStays(s) || SomeoneJoins(s) ==> Exact(s, t))
  }

  lemma SoundStep(s: State, t: State, w: nat)
    requires Starts(s) && Formed(t) && t.ops == s.ops && Sound(s, t)
    ensures Sound(s, Step(t, w))
  {
  }

  lemma StayersAreIn(s: State, t: State)
    requires Formed(s) && Formed(t) && t.ops == s.ops && Exact(s, t)
    ensures forall u: nat :: Stays(s, u) ==> u in Members(t)
  {
    forall u: nat | Stays(s, u) ensures u in Members(t) {
      assert Wants(s, u, t.nexts[u]);
    }
  }

  /** Who empties the set when something is to be in it in the end is alone. */
  lemma EmptierIsAlone(s: State, t: State, v: nat, w: nat)
    requires Starts(s) && !Crossing(s) && Formed(t) && t.ops == s.ops && Exact(s, t)
    requires SomeoneStays(s) || SomeoneJoins(s)
    requires v < |s.ops| && w < |s.ops| && w != v && Remove in s.ops[v] && Members(t) <= {v}
    ensures s.ops[w] == []
  {
    StayersAreIn(s, t);
    assert !SomeoneStays(s);
    var a :| EndsJoining(s, a);
    assert Leaves(s, v);
    assert a == v;
    if s.ops[w] != [] {
      assert !EndsJoining(s, w) && s.ops[w][|s.ops[w]| - 1] == Remove;
      assert Leaves(s, w);
    }
  }

  lemma LeaveExact(s: State, t: State, w: nat)
    requires Starts(s) && !Crossing(s) && Formed(t) && t.ops == s.ops && Exact(s, t)
    requires SomeoneStays(s) || SomeoneJoins(s)
    requires w < |s.ops| && t.phases[w].Ready? && t.nexts[w] < |s.ops[w]| && s.ops[w][t.nexts[w]].Remove?
    ensures Exact(s, Leave(t, w))
  {
    hide SomeoneStays, SomeoneJoins, Crossing;
    var u := Leave(t, w);
    assert !Wants(s, w, u.nexts[w]);
    if t.entry.Some? && t.entry.value - {w} == {} {
      forall v | 0 <= v < |s.ops| && v != w ensures s.ops[v] == [] {
        EmptierIsAlone(s, t, w, v);
      }
    }
  }

  lemma ExactStep(s: State, t: State, w: nat)
    requires Starts(s) && !Crossing(s) && Formed(t) && t.ops == s.ops && Exact(s, t)
    requires SomeoneStays(s) || SomeoneJoins(s)
    ensures Exact(s, Step(t, w))
  {
    hide SomeoneStays, SomeoneJoins, Crossing;
    if w < |s.ops| && t.phases[w].Ready? && t.nexts[w] < |s.ops[w]| && s.ops[w][t.nexts[w]].Remove? {
      LeaveExact(s, t, w);
    }
  }

  lemma {:induction false} TrackRun(s: State, schedule: seq<nat>)
    requires Starts(s) && !Crossing(s)
    ensures OnTrack(s, Run(s, schedule))
    decreases |schedule|
  {
    hide Step, Sound, Exact, Crossing, SomeoneStays, SomeoneJoins;
    if schedule == [] {
      TrackStarts(s);
    } else {
      var t, w := Run(s, schedule[..|schedule| - 1]), schedule[|schedule| - 1];
      TrackRun(s, schedule[..|schedule| - 1]);
      SoundStep(s, t, w);
      if SomeoneStays(s) || SomeoneJoins(s) {
        ExactStep(s, t, w);
      }
    }
  }

  lemma TrackStarts(s: State)
    requires Starts(s)
    ensures Sound(s, s) && Exact(s, s)
  {
  }

  lemma TrackEnds(s: State, t: State)
    requires Starts(s) && OnTrack(s, t) && AllDone(t)
    ensures Right(s, t)
  {
    if !SomeoneStays(s) && !SomeoneJoins(s) {
      forall w | 0 <= w < |s.ops| ensures !Wants(s, w, |s.ops[w]|) {
        assert !Stays(s, w) && !EndsJoining(s, w);
      }
    }
    forall w | 0 <= w < |s.ops| ensures w in Members(t) <==> Wants(s, w, |s.ops[w]|) {
      assert Done(t, w);
    }
  }

  // ---- With crossing. ----

  lemma {:induction false} RunConcat(s: State, a: seq<nat>, b: seq<nat>)
    requires Formed(s)
    ensures Run(s, a + b) == Run(Run(s, a), b)
    decreases |b|
  {
    hide Step;
    if b == [] {
      assert a + b == a;
    } else {
      assert (a + b)[..|a + b| - 1] == a + b[..|b| - 1];
      RunConcat(s, a, b[..|b| - 1]);
    }
  }

  lemma RunOne(s: State, w: nat)
    requires Formed(s)
    ensures Run(s, [w]) == Step(s, w)
  {
    hide Step;
    assert [w][..0] == [];
  }

  lemma RunSnoc(s: State, a: seq<nat>, w: nat)
    requires Formed(s)
    ensures Run(s, a + [w]) == Step(Run(s, a), w)
  {
    hide Step;
    RunConcat(s, a, [w]);
    RunOne(Run(s, a), w);
  }

  /** Everybody is between two calls, and exactly those are interested who should be. */
  ghost predicate Calm(s: State, t: State)
    requires Formed(s)
  {
    Formed(t) && t.ops == s.ops && (forall w :: 0 <= w < |s.ops| ==> t.phases[w].Ready?)
    && (forall w :: w in Members(t) ==> w < |s.ops|)
    && (forall w :: 0 <= w < |s.ops| ==> (w in Members(t) <==> Wants(s, w, t.nexts[w])))
  }

  /** One call of one worker, to its end. */
  lemma OneCall(s: State, t: State, w: nat) returns (schedule: seq<nat>)
    requires Starts(s) && Calm(s, t) && w < |s.ops| && t.nexts[w] < |s.ops[w]|
    ensures var u := Run(t, schedule);
      Calm(s, u) && u.nexts == t.nexts[w := t.nexts[w] + 1]
  {
    hide Run;
    RunOne(t, w);
    schedule := [w];
    var u := Step(t, w);
    if u.phases[w].Emptied? {
      RunSnoc(t, [w], w);
      schedule := [w] + [w];
      assert Members(u) == {};
    }
  }

  lemma {:induction false} CallsUpTo(s: State, t: State, w: nat, k: nat) returns (schedule: seq<nat>)
    requires Starts(s) && Calm(s, t) && w < |s.ops| && t.nexts[w] <= k <= |s.ops[w]|
    ensures var u := Run(t, schedule);
      Calm(s, u) && u.nexts == t.nexts[w := k]
    decreases k - t.nexts[w]
  {
    hide Run, Calm, Starts;
    StartIsFormed(s);
    CalmIsFormed(s, t);
    schedule := [];
    if t.nexts[w] < k {
      var first := OneCall(s, t, w);
      var rest := CallsUpTo(s, Run(t, first), w, k);
      RunConcat(t, first, rest);
      schedule := first + rest;
    } else {
      NothingRun(s, t);
    }
  }

  lemma CalmIsFormed(s: State, t: State)
    requires Formed(s) && Calm(s, t)
    ensures Formed(t) && t.ops == s.ops
  {
  }

  lemma NothingRun(s: State, t: State)
    requires Formed(s) && Calm(s, t)
    ensures Run(t, []) == t
  {
  }

  /** The call of worker w before which it is out: of `a` the last one, of the others none or the first. */
  function OutAt(s: State, a: nat, w: nat): (k: nat)
    requires w < |s.ops| && (w in Members(s) ==> s.ops[w] != []) && EndsJoining(s, a)
    ensures k <= |s.ops[w]|
  {
    if w == a then |s.ops[w]| - 1 else if w in Members(s) then 1 else 0
  }

  lemma OutThere(s: State, a: nat, w: nat)
    requires Starts(s) && w < |s.ops| && (w in Members(s) ==> s.ops[w] != []) && EndsJoining(s, a)
    ensures !Wants(s, w, OutAt(s, a, w))
  {
  }

  /** Everybody below `n` but `r` gets out of the set. */
  lemma {:induction false} AllOut(s: State, a: nat, r: nat, n: nat) returns (schedule: seq<nat>)
    requires Starts(s) && !SomeoneStays(s) && EndsJoining(s, a) && a != r && n <= |s.ops|
    ensures var t := Run(s, schedule);
      Calm(s, t)
      && forall w :: 0 <= w < |s.ops| ==>
        (w in Members(s) ==> s.ops[w] != []) && t.nexts[w] == (if w < n && w != r then OutAt(s, a, w) else 0)
  {
    hide Run, Starts, Calm;
    NoneStays(s);
    schedule := [];
    if n == 0 {
      CalmAtFirst(s);
      NothingRun(s, s);
    } else {
      schedule := AllOut(s, a, r, n - 1);
      var t := Run(s, schedule);
      if n - 1 != r {
        var more := CallsUpTo(s, t, n - 1, OutAt(s, a, n - 1));
        RunConcat(s, schedule, more);
        schedule := schedule + more;
      }
    }
  }

  lemma NoneStays(s: State)
    requires Starts(s) && !SomeoneStays(s)
    ensures Formed(s) && forall w :: 0 <= w < |s.ops| && w in Members(s) ==> s.ops[w] != []
  {
    forall w | 0 <= w < |s.ops| && w in Members(s) ensures s.ops[w] != [] {
      assert !Stays(s, w);
    }
  }

  lemma CalmAtFirst(s: State)
    requires Starts(s)
    ensures Calm(s, s) && forall w :: 0 <= w < |s.ops| ==> s.nexts[w] == 0
  {
  }

  /** The next call of `r` empties the set, and the last call of `a` is yet to come. */
  ghost predicate Poised(t: State, a: nat, r: nat) {
    Formed(t) && a < |t.ops| && r < |t.ops| && a != r && t.phases[a].Ready? && t.phases[r].Ready?
    && t.nexts[a] + 1 == |t.ops[a]| && t.ops[a][t.nexts[a]].Add?
    && t.nexts[r] < |t.ops[r]| && t.ops[r][t.nexts[r]].Remove? && t.entry == Some({r})
  }

  lemma GetPoised(s: State, a: nat, r: nat) returns (schedule: seq<nat>)
    requires Starts(s) && !SomeoneStays(s) && EndsJoining(s, a) && Leaves(s, r) && a != r
    ensures Poised(Run(s, schedule), a, r)
  {
    hide Run;
    var out := AllOut(s, a, r, |s.ops|);
    var k :| 0 <= k < |s.ops[r]| && s.ops[r][k] == Remove;
    var t := Run(s, out);
    var more := CallsUpTo(s, t, r, k);
    RunConcat(s, out, more);
    schedule := out + more;
    var u := Run(s, schedule);
    forall w | 0 <= w < |s.ops| && w != r ensures w !in Members(u) {
      OutThere(s, a, w);
    }
    assert r in Members(u);
    assert Members(u) == {r};
  }

  /** Once an interest is lost it stays lost: the worker makes no more calls. */
  predicate Lost(t: State, a: nat) {
    Formed(t) && a < |t.ops| && EndsJoining(t, a) && Done(t, a) && a !in Members(t)
  }

  lemma LostStays(t: State, a: nat, w: nat)
    requires Lost(t, a)
    ensures Lost(Step(t, w), a)
  {
  }

  lemma PoisedLoses(t: State, a: nat, r: nat)
    requires Poised(t, a, r)
    ensures Lost(Step(Step(Step(t, r), a), r), a)
  {
    assert {r} - {r} == {};
  }

  function ToGo(t: State, w: nat): nat
    requires Formed(t) && w < |t.ops|
  {
    2 * (|t.ops[w]| - t.nexts[w]) + if t.phases[w].Emptied? then 1 else 0
  }

  lemma Progress(t: State, w: nat)
    requires Formed(t) && w < |t.ops| && !Done(t, w)
    ensures ToGo(Step(t, w), w) < ToGo(t, w)
    ensures forall v :: 0 <= v < |t.ops| && v != w ==> Done(Step(t, w), v) == Done(t, v)
  {
  }

  lemma {:induction false} FinishOne(t: State, a: nat, w: nat) returns (schedule: seq<nat>)
    requires Lost(t, a) && w < |t.ops|
    ensures var u := Run(t, schedule);
      Lost(u, a) && u.ops == t.ops && Done(u, w) && forall v :: 0 <= v < |t.ops| && Done(t, v) ==> Done(u, v)
    decreases ToGo(t, w)
  {
    hide Step, ToGo;
    schedule := [];
    if !Done(t, w) {
      LostStays(t, a, w);
      Progress(t, w);
      RunOne(t, w);
      var rest := FinishOne(Step(t, w), a, w);
      RunConcat(t, [w], rest);
      schedule := [w] + rest;
    }
  }

  lemma {:induction false} Finish(t: State, a: nat, n: nat) returns (schedule: seq<nat>)
    requires Lost(t, a) && n <= |t.ops|
    ensures var u := Run(t, schedule);
      Lost(u, a) && u.ops == t.ops && forall w :: 0 <= w < n ==> Done(u, w)
  {
    hide Step;
    schedule := [];
    if n > 0 {
      schedule := Finish(t, a, n - 1);
      var last := FinishOne(Run(t, schedule), a, n - 1);
      RunConcat(t, schedule, last);
      schedule := schedule + last;
    }
  }

  lemma CrossingLoses(s: State) returns (schedule: seq<nat>)
    requires Starts(s) && Crossing(s)
    ensures AllDone(Run(s, schedule)) && !Right(s, Run(s, schedule))
  {
    hide Run, Step, Starts, SomeoneStays, Poised;
    var a, r :| a != r && EndsJoining(s, a) && Leaves(s, r);
    StartIsFormed(s);
    var first := GetPoised(s, a, r);
    var t := Run(s, first);
    PoisedLoses(t, a, r);
    RunSnoc(s, first, r);
    RunSnoc(s, first + [r], a);
    RunSnoc(s, first + [r] + [a], r);
    var lost := first + [r] + [a] + [r];
    var rest := Finish(Run(s, lost), a, |s.ops|);
    RunConcat(s, lost, rest);
    schedule := lost + rest;
  }

  lemma StartIsFormed(s: State)
    requires Starts(s)
    ensures Formed(s)
  {
  }

  lemma NotAlways(s: State, schedule: seq<nat>)
    requires Formed(s) && AllDone(Run(s, schedule)) && !Right(s, Run(s, schedule))
    ensures !AlwaysRight(s)
  {
  }

  /**
   * Workers that join and leave any number of times: every finished schedule leaves exactly those
   * interested who should be, if and only if it is not so that one joins in the end, another
   * leaves at some time, and nobody is interested all the time. In that case a schedule loses the
   * interest of the one who joined.
   */
  lemma InterestKeptIff(s: State)
    requires Starts(s)
    ensures AlwaysRight(s) <==> !Crossing(s)
  {
    hide Crossing, Run, Right, AlwaysRight, AllDone, OnTrack;
    if Crossing(s) {
      var schedule := CrossingLoses(s);
      NotAlways(s, schedule);
    } else {
      AlwaysFine(s);
    }
  }

  lemma AlwaysFine(s: State)
    requires Starts(s) && !Crossing(s)
    ensures AlwaysRight(s)
  {
    hide Crossing, Run, Right, AllDone, OnTrack;
    forall schedule | AllDone(Run(s, schedule)) ensures Right(s, Run(s, schedule)) {
      TrackRun(s, schedule);
      TrackEnds(s, Run(s, schedule));
    }
  }

  // ---- The counts. ----

  /** The subscriber count under one key, kept by the same two steps; every call is for one subscription. */
  datatype CountState = CountState(count: Option<nat>, ops: seq<seq<Op>>, nexts: seq<nat>, phases: seq<Phase>)

  predicate CountFormed(c: CountState) {
    |c.nexts| == |c.phases| == |c.ops| && forall w :: 0 <= w < |c.ops| ==> c.nexts[w] <= |c.ops[w]|
  }

  function CountStep(c: CountState, w: nat): (d: CountState)
    requires CountFormed(c)
    ensures CountFormed(d) && d.ops == c.ops
  {
    if w >= |c.ops| then c
    else if c.phases[w].Emptied? then c.(count := None, phases := c.phases[w := Ready])
    else if c.nexts[w] == |c.ops[w]| then c
    else
      var done := c.(nexts := c.nexts[w := c.nexts[w] + 1]);
      if c.ops[w][c.nexts[w]].Add? then done.(count := Some((if c.count.Some? then c.count.value else 0) + 1))
      else if c.count.None? then done
      else
        var left := if c.count.value > 0 then c.count.value - 1 else 0;
        done.(count := Some(left), phases := c.phases[w := if left == 0 then Emptied else Ready])
  }

  function CountRun(c: CountState, schedule: seq<nat>): (d: CountState)
    requires CountFormed(c)
    ensures CountFormed(d) && d.ops == c.ops
  {
    if schedule == [] then c else CountStep(CountRun(c, schedule[..|schedule| - 1]), schedule[|schedule| - 1])
  }

  function Counting(s: State): CountState {
    CountState(if s.entry.Some? then Some(|s.entry.value|) else None, s.ops, s.nexts, s.phases)
  }

  /** Who is about to leave is in the set, who is about to join is not, and nobody leaves an empty set. */
  ghost predicate InTurn(t: State) {
    Formed(t) && (forall w :: 0 <= w < |t.ops| ==> |t.ops[w]| <= 1)
    && (forall w :: 0 <= w < |t.ops| && t.phases[w].Emptied? ==> t.nexts[w] == |t.ops[w]|)
    && forall w :: 0 <= w < |t.ops| && t.phases[w].Ready? && t.nexts[w] < |t.ops[w]| ==>
      if t.ops[w][0].Remove? then w in Members(t) && forall v :: 0 <= v < |t.ops| ==> !t.phases[v].Emptied?
      else w !in Members(t)
  }

  lemma TurnStep(t: State, w: nat)
    requires InTurn(t)
    ensures InTurn(Step(t, w))
  {
    var u := Step(t, w);
    forall v | 0 <= v < |t.ops| && u.phases[v].Ready? && u.nexts[v] < |t.ops[v]|
      ensures if t.ops[v][0].Remove? then v in Members(u) && forall x :: 0 <= x < |t.ops| ==> !u.phases[x].Emptied?
              else v !in Members(u)
    {
      assert t.nexts[v] < |t.ops[v]|;
    }
  }

  lemma CountsStep(t: State, w: nat)
    requires InTurn(t)
    ensures CountStep(Counting(t), w) == Counting(Step(t, w))
  {
    if w < |t.ops| && t.phases[w].Ready? && t.nexts[w] < |t.ops[w]| {
      assert t.nexts[w] == 0;
      if t.ops[w][0].Remove? {
        assert |t.entry.value - {w}| == |t.entry.value| - 1;
      } else if t.entry.Some? {
        assert |t.entry.value + {w}| == |t.entry.value| + 1;
      }
    }
  }

  /**
   * When every subscription comes or goes once, the count is in every schedule the size of the
   * set kept by the same calls: so it goes wrong exactly when an interest would be lost.
   */
  lemma {:induction false} CountsFollow(s: State, schedule: seq<nat>)
    requires Starts(s) && forall w :: 0 <= w < |s.ops| ==> |s.ops[w]| <= 1
    ensures CountRun(Counting(s), schedule) == Counting(Run(s, schedule)) && InTurn(Run(s, schedule))
    decreases |schedule|
  {
    hide Step, CountStep, InTurn;
    if schedule == [] {
      TurnStarts(s);
    } else {
      CountsFollow(s, schedule[..|schedule| - 1]);
      CountsStep(Run(s, schedule[..|schedule| - 1]), schedule[|schedule| - 1]);
      TurnStep(Run(s, schedule[..|schedule| - 1]), schedule[|schedule| - 1]);
    }
  }

  lemma TurnStarts(s: State)
    requires Starts(s) && forall w :: 0 <= w < |s.ops| ==> |s.ops[w]| <= 1
    ensures InTurn(s)
  {
  }
}
