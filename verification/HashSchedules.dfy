/**
 * Which groups of callers keep the count of a hash right, whatever the schedule. Only HINCRBY can
 * spoil it: when another caller deletes its field, or, for a field that was not there, when
 * another caller adds it. Every group in which that can happen has a schedule that miscounts.
 */
module HashSchedules {
  import opened Bytes
  import opened HashRace
  import Decimal
  import Hashes

  ghost predicate Adds(job: Job, f: bytes) {
    match job
    case Set(pairs) => exists i :: 0 <= i < |pairs| && pairs[i].0 == f
    case Incr(field, _) => field == f
    case _ => false
  }

  predicate Deletes(job: Job, f: bytes) {
    job.Del? && f in job.names
  }

  /** Caller v can spoil the count of caller w, which increments a field. */
  ghost predicate Spoils(s: State, v: nat, w: nat)
    requires v < |s.callers| && w < |s.callers|
  {
    v != w && s.callers[w].job.Incr?
    && var f := s.callers[w].job.field;
      if f in s.fields then Deletes(s.callers[v].job, f) else Adds(s.callers[v].job, f)
  }

  ghost predicate Safe(s: State) {
    forall v, w :: 0 <= v < |s.callers| && 0 <= w < |s.callers| ==> !Spoils(s, v, w)
  }

  // ---- Safe groups. ----

  /** Where a caller that increments a field can be, by whether the field was there at the start. */
  predicate OnTrack(c: Caller, there: bool, now: bool)
    requires c.job.Incr?
  {
    if there then
      now && (c.phase.Checking? || c.phase.Reading? || (c.phase.Storing? && !c.phase.noted) || c.phase.Done?)
    else
      (c.phase.Checking? || c.phase.Noting? || c.phase.Flushing? || c.phase.Carrying?
       || (c.phase.Storing? && c.phase.noted) || c.phase.Done?)
      && (!c.phase.Done? ==> !now)
  }

  ghost predicate AllOnTrack(s: State, t: State) {
    AllSane(t) && t.drift == 0 && |t.callers| == |s.callers|
    && (forall v :: 0 <= v < |s.callers| ==> t.callers[v].job == s.callers[v].job)
    && forall w :: 0 <= w < |s.callers| && s.callers[w].job.Incr? ==>
      var f := s.callers[w].job.field;
      OnTrack(t.callers[w], f in s.fields, f in t.fields)
  }

  /** A field comes and goes only by callers that add or delete it. */
  lemma FieldStays(t: State, turn: Turn, f: bytes)
    requires turn.who < |t.callers|
    ensures !Deletes(t.callers[turn.who].job, f) && f in t.fields ==> f in Step(t, turn).fields
    ensures !Adds(t.callers[turn.who].job, f) && f !in t.fields ==> f !in Step(t, turn).fields
  {
    hide Hashes.NumberIn, Hashes.Saturate;
  }

  /** A caller's own step keeps it on track and does not slip. */
  lemma OwnStep(t: State, turn: Turn, there: bool)
    requires turn.who < |t.callers| && t.callers[turn.who].job.Incr? && Sane(t.callers[turn.who])
    requires OnTrack(t.callers[turn.who], there, t.callers[turn.who].job.field in t.fields)
    ensures var u := Step(t, turn);
      |u.callers| == |t.callers| && u.callers[turn.who].job == t.callers[turn.who].job
      && OnTrack(u.callers[turn.who], there, t.callers[turn.who].job.field in u.fields) && u.drift == t.drift
  {
    hide Hashes.NumberIn, Hashes.Saturate;
  }

  lemma OthersDoNotSlip(t: State, turn: Turn)
    requires turn.who < |t.callers| && !t.callers[turn.who].job.Incr? && Sane(t.callers[turn.who])
    ensures Step(t, turn).drift == t.drift
  {
  }

  lemma TrackStep(s: State, t: State, turn: Turn)
    requires Safe(s) && AllOnTrack(s, t)
    ensures AllOnTrack(s, Step(t, turn))
  {
    hide Step, Sane, LockOk, OnTrack, Adds, Deletes;
    var v := turn.who;
    SaneStep(t, turn);
    var u := Step(t, turn);
    if v >= |t.callers| {
      OutOfRange(t, turn);
    } else {
      assert Sane(t.callers[v]);
      if t.callers[v].job.Incr? {
        OwnStep(t, turn, t.callers[v].job.field in s.fields);
      } else {
        OthersDoNotSlip(t, turn);
      }
      forall w | 0 <= w < |s.callers| && s.callers[w].job.Incr?
        ensures OnTrack(u.callers[w], s.callers[w].job.field in s.fields, s.callers[w].job.field in u.fields)
      {
        if w != v {
          assert !Spoils(s, v, w);
          FieldStays(t, turn, s.callers[w].job.field);
          StaysOnTrack(t.callers[w], s.callers[w].job.field in s.fields, s.callers[w].job.field in t.fields,
                       s.callers[w].job.field in u.fields);
        }
      }
    }
  }

  lemma StaysOnTrack(c: Caller, there: bool, now: bool, later: bool)
    requires c.job.Incr? && OnTrack(c, there, now)
    requires if there then now ==> later else !now ==> !later
    ensures OnTrack(c, there, later)
  {
  }

  lemma {:induction false} SafeRun(s: State, turns: seq<Turn>)
    requires Starts(s) && Safe(s)
    ensures AllOnTrack(s, Run(s, turns))
    decreases |turns|
  {
    hide Step, AllOnTrack, Safe;
    if turns == [] {
      TrackStarts(s);
    } else {
      SafeRun(s, turns[..|turns| - 1]);
      TrackStep(s, Run(s, turns[..|turns| - 1]), turns[|turns| - 1]);
    }
  }

  lemma TrackStarts(s: State)
    requires Starts(s)
    ensures AllOnTrack(s, s)
  {
    SaneStart(s);
  }

  // ---- Running one caller to its end. ----

  lemma {:induction false} RunConcat(s: State, a: seq<Turn>, b: seq<Turn>)
    ensures Run(s, a + b) == Run(Run(s, a), b)
    decreases |b|
  {
    hide Step;
    if b == [] {
      assert a + b == a;
    } else {
      assert (a + b)[..|a + b| - 1] == a + b[..|b| - 1];
      RunConcat(s, a, b[..|b| - 1]);
    }
  }

  lemma RunFirst(s: State, t: Turn, rest: seq<Turn>)
    ensures Run(s, [t] + rest) == Run(Step(s, t), rest)
  {
    hide Step;
    assert [t][..0] == [];
    assert Run(s, [t]) == Step(s, t);
    RunConcat(s, [t], rest);
  }

  /** The slip a caller will make if it runs alone from here. */
  function SlipToCome(c: Caller, now: bool): int {
    match c.phase
    case Reading => Slip(now, false)
    case Noting => Slip(now, true)
    case Flushing(after) => if after.ThenStore? then Slip(now, true) else 0
    case Carrying(after) => if after.ThenStore? then Slip(now, true) else 0
    case Storing(_, noted) => Slip(now, noted)
    case _ => 0
  }

  function Subject(c: Caller, s: State): bool {
    c.job.Incr? && c.job.field in s.fields
  }

  /** What a caller running alone has made of the fields so far. */
  ghost predicate Did(c: Caller, fields: map<bytes, bytes>) {
    match c.job
    case Set(pairs) =>
      forall i :: 0 <= i < |pairs| && (c.phase.Working? ==> i < c.phase.next) ==> pairs[i].0 in fields
    case Del(names) =>
      forall i :: 0 <= i < |names| && (c.phase.Working? ==> i < c.phase.next) ==> names[i] !in fields
    case Incr(field, _) => c.phase.Done? ==> field in fields
    case Len => true
  }

  function ToGo(c: Caller): nat {
    match c.phase
    case Working(i, _) =>
      4 + if c.job.Set? && i <= |c.job.pairs| then |c.job.pairs| - i
          else if c.job.Del? && i <= |c.job.names| then |c.job.names| - i
          else 0
    case Checking => 5
    case Reading => 4
    case Noting => 4
    case Flushing(_) => 3
    case Carrying(_) => 2
    case Storing(_, _) => 1
    case Answering => 1
    case _ => 0
  }

  /** The tracker is free, or the caller itself has locked it. */
  predicate FreeFor(s: State, w: nat) {
    s.lock.None? || s.lock == Some(w)
  }

  lemma AloneSet(s: State, w: nat)
    requires FreeFor(s, w) && w < |s.callers| && Sane(s.callers[w]) && !Finished(s.callers[w])
    requires s.callers[w].job.Set? && s.callers[w].phase.Working? && Did(s.callers[w], s.fields) && s.lock.None?
    ensures AloneOk(s, w)
  {
    var c := s.callers[w];
    var t := Step(s, Turn(w, false));
    forall i | 0 <= i < |c.job.pairs| && (t.callers[w].phase.Working? ==> i < t.callers[w].phase.next)
      ensures c.job.pairs[i].0 in t.fields
    {
    }
  }

  lemma AloneDel(s: State, w: nat)
    requires FreeFor(s, w) && w < |s.callers| && Sane(s.callers[w]) && !Finished(s.callers[w])
    requires s.callers[w].job.Del? && s.callers[w].phase.Working? && Did(s.callers[w], s.fields) && s.lock.None?
    ensures AloneOk(s, w)
  {
    var c := s.callers[w];
    var t := Step(s, Turn(w, false));
    forall i | 0 <= i < |c.job.names| && (t.callers[w].phase.Working? ==> i < t.callers[w].phase.next)
      ensures c.job.names[i] !in t.fields
    {
    }
  }

  lemma AloneRest(s: State, w: nat)
    requires AllSane(s) && FreeFor(s, w) && w < |s.callers| && !Finished(s.callers[w])
    requires !s.callers[w].phase.Working? && Did(s.callers[w], s.fields)
    ensures AloneOk(s, w)
  {
    hide Hashes.NumberIn, Hashes.Saturate;
    assert Sane(s.callers[w]);
  }

  /** One step alone: closer to the end, with the same slip in prospect. */
  ghost predicate AloneOk(s: State, w: nat)
    requires w < |s.callers|
  {
    var t := Step(s, Turn(w, false));
    |t.callers| == |s.callers| && FreeFor(t, w) && ToGo(t.callers[w]) < ToGo(s.callers[w])
    && t.callers[w].job == s.callers[w].job && Did(t.callers[w], t.fields)
    && t.drift + SlipToCome(t.callers[w], Subject(t.callers[w], t))
       == s.drift + SlipToCome(s.callers[w], Subject(s.callers[w], s))
  }

  lemma Alone(s: State, w: nat)
    requires AllSane(s) && FreeFor(s, w) && w < |s.callers| && !Finished(s.callers[w]) && Did(s.callers[w], s.fields)
    ensures AloneOk(s, w)
  {
    hide AloneOk, Did;
    var c := s.callers[w];
    assert Sane(c);
    if c.phase.Working? {
      WorkerHasNoLock(s, w);
      if c.job.Set? {
        AloneSet(s, w);
      } else {
        AloneDel(s, w);
      }
    } else {
      AloneRest(s, w);
    }
  }

  lemma WorkerHasNoLock(s: State, w: nat)
    requires AllSane(s) && FreeFor(s, w) && w < |s.callers| && s.callers[w].phase.Working?
    ensures s.lock.None?
  {
  }

  /** A caller runs alone to its end; the drift grows by the slip it had in prospect. */
  lemma {:induction false} FinishOne(s: State, w: nat) returns (turns: seq<Turn>)
    requires AllSane(s) && FreeFor(s, w) && w < |s.callers| && Did(s.callers[w], s.fields)
    ensures var t := Run(s, turns);
      AllSane(t) && t.lock.None? && |t.callers| == |s.callers| && Finished(t.callers[w])
      && t.callers[w].job == s.callers[w].job && Did(t.callers[w], t.fields)
      && t.drift == s.drift + SlipToCome(s.callers[w], Subject(s.callers[w], s))
      && forall v :: 0 <= v < |s.callers| && v != w ==> t.callers[v] == s.callers[v]
    decreases ToGo(s.callers[w])
  {
    hide Step, Did, SlipToCome, Subject, ToGo;
    turns := [];
    if Finished(s.callers[w]) {
      AtTheEnd(s, w);
    } else {
      Alone(s, w);
      SaneStep(s, Turn(w, false));
      var rest := FinishOne(Step(s, Turn(w, false)), w);
      RunFirst(s, Turn(w, false), rest);
      turns := [Turn(w, false)] + rest;
    }
  }

  lemma AtTheEnd(s: State, w: nat)
    requires AllSane(s) && FreeFor(s, w) && w < |s.callers| && Finished(s.callers[w])
    ensures s.lock.None? && SlipToCome(s.callers[w], Subject(s.callers[w], s)) == 0
  {
  }

  predicate NotBegun(c: Caller) {
    c.phase == Start(c.job)
  }

  lemma NotBegunFacts(s: State, w: nat)
    requires w < |s.callers| && NotBegun(s.callers[w])
    ensures Did(s.callers[w], s.fields) && SlipToCome(s.callers[w], Subject(s.callers[w], s)) == 0
  {
  }

  /** Callers that have not begun can all be run to their ends without a slip. */
  lemma {:induction false} FinishRest(s: State, n: nat) returns (turns: seq<Turn>)
    requires AllSane(s) && s.lock.None? && n <= |s.callers|
    requires forall w :: 0 <= w < |s.callers| ==> NotBegun(s.callers[w]) || Finished(s.callers[w])
    ensures var t := Run(s, turns);
      AllSane(t) && t.lock.None? && t.drift == s.drift && |t.callers| == |s.callers|
      && (forall w :: 0 <= w < n ==> Finished(t.callers[w]))
      && (forall w :: 0 <= w < |s.callers| ==> NotBegun(t.callers[w]) || Finished(t.callers[w]))
  {
    hide Step, AllSane, Did, SlipToCome, Finished, NotBegun;
    turns := [];
    if n > 0 {
      var before := FinishRest(s, n - 1);
      var t := Run(s, before);
      if Finished(t.callers[n - 1]) {
        turns := before;
      } else {
        NotBegunFacts(t, n - 1);
        var last := FinishOne(t, n - 1);
        RunConcat(s, before, last);
        turns := before + last;
      }
    }
  }

  // ---- A schedule that miscounts. ----

  /** Caller w asks about its field, v runs from beginning to end, then w goes on with a stale answer. */
  lemma SpoiltRun(s: State, v: nat, w: nat) returns (turns: seq<Turn>)
    requires Starts(s) && v < |s.callers| && w < |s.callers| && Spoils(s, v, w)
    ensures var t := Run(s, turns);
      AllSane(t) && t.lock.None? && |t.callers| == |s.callers|
      && t.drift == (if s.callers[w].job.field in s.fields then -1 else 1)
      && forall u :: 0 <= u < |t.callers| ==> NotBegun(t.callers[u]) || Finished(t.callers[u])
  {
    hide Run, Did, Finished, LockOk, Sane;
    SaneStart(s);
    var ask := Turn(w, false);
    SaneStep(s, ask);
    var asked := Step(s, ask);
    Asked(s, v, w);
    NotBegunFacts(asked, v);
    var other := FinishOne(asked, v);
    var flipped := Run(asked, other);
    Flipped(s, v, w, flipped);
    var rest := FinishOne(flipped, w);
    RunFirst(s, ask, other + rest);
    RunConcat(asked, other, rest);
    turns := [ask] + (other + rest);
  }

  lemma Asked(s: State, v: nat, w: nat)
    requires Starts(s) && v < |s.callers| && w < |s.callers| && Spoils(s, v, w)
    ensures var asked := Step(s, Turn(w, false));
      asked == With(s, w, if s.callers[w].job.field in s.fields then Reading else Noting)
      && asked.callers[v] == s.callers[v] && NotBegun(asked.callers[v])
  {
  }

  /** After v has run, the field is there exactly if it was not. */
  lemma Flipped(s: State, v: nat, w: nat, t: State)
    requires Starts(s) && v < |s.callers| && w < |s.callers| && Spoils(s, v, w) && |t.callers| == |s.callers|
    requires t.callers[v].job == s.callers[v].job && Finished(t.callers[v]) && Did(t.callers[v], t.fields)
    requires Sane(t.callers[v])
    requires t.callers[w] == s.callers[w].(phase := if s.callers[w].job.field in s.fields then Reading else Noting)
    ensures s.callers[w].job.field in t.fields <==> s.callers[w].job.field !in s.fields
    ensures Did(t.callers[w], t.fields)
    ensures SlipToCome(t.callers[w], Subject(t.callers[w], t)) == if s.callers[w].job.field in s.fields then -1 else 1
  {
    var f := s.callers[w].job.field;
    if f in s.fields {
      var i :| 0 <= i < |s.callers[v].job.names| && s.callers[v].job.names[i] == f;
    }
  }

  /** Whatever the schedule, once all have returned the count is right. */
  ghost predicate AlwaysCounted(s: State) {
    forall turns :: AllFinished(Run(s, turns)) ==> Counted(Run(s, turns))
  }

  /** One field too many for two HINCRBY, or HINCRBY and HSET, on a new field; one too few for HDEL. */
  lemma Miscounts(s: State, v: nat, w: nat) returns (turns: seq<Turn>)
    requires Starts(s) && v < |s.callers| && w < |s.callers| && Spoils(s, v, w)
    ensures AllFinished(Run(s, turns))
    ensures var t := Run(s, turns);
      t.counter + t.pending == |t.fields| + if s.callers[w].job.field in s.fields then -1 else 1
  {
    hide Run, Spoils, Starts, AllSane, NotBegun, Finished;
    var spoilt := SpoiltRun(s, v, w);
    var t := Run(s, spoilt);
    var rest := FinishRest(t, |t.callers|);
    RunConcat(s, spoilt, rest);
    turns := spoilt + rest;
    DriftDecides(s, turns);
  }

  lemma NotAlways(s: State, turns: seq<Turn>)
    requires AllFinished(Run(s, turns)) && !Counted(Run(s, turns))
    ensures !AlwaysCounted(s)
  {
  }

  lemma SafeIsCounted(s: State)
    requires Starts(s) && Safe(s)
    ensures AlwaysCounted(s)
  {
    hide Run, Safe, Starts, AllFinished, AllSane;
    forall turns | AllFinished(Run(s, turns)) ensures Counted(Run(s, turns)) {
      SafeRun(s, turns);
      DriftDecides(s, turns);
    }
  }

  /**
   * The count of a hash is right after every schedule of a group of callers if and only if, for
   * every HINCRBY in it, no other caller deletes its field, or adds it when it was not there. In
   * particular HSET, HDEL, HLEN and flushes are never in each other's way, and two HINCRBY on one
   * new field count it twice under some schedule.
   */
  lemma CountedIffSafe(s: State)
    requires Starts(s)
    ensures AlwaysCounted(s) <==> Safe(s)
  {
    hide AlwaysCounted, Starts, Run;
    if Safe(s) {
      SafeIsCounted(s);
    } else {
      var v, w :| 0 <= v < |s.callers| && 0 <= w < |s.callers| && Spoils(s, v, w);
      var turns := Miscounts(s, v, w);
      NotAlways(s, turns);
    }
  }

  // ---- Lost increments. ----

  ghost function RunSix(s: State, v: nat, w: nat): State {
    var a, b := Turn(v, false), Turn(w, false);
    Run(s, [a] + ([b] + ([a] + ([b] + ([a] + [b])))))
  }

  lemma RunSixIs(s: State, v: nat, w: nat)
    ensures var a, b := Turn(v, false), Turn(w, false);
      RunSix(s, v, w) == Step(Step(Step(Step(Step(Step(s, a), b), a), b), a), b)
  {
    hide Step;
    var a, b := Turn(v, false), Turn(w, false);
    RunFirst(s, a, [b] + ([a] + ([b] + ([a] + [b]))));
    RunFirst(Step(s, a), b, [a] + ([b] + ([a] + [b])));
    RunFirst(Step(Step(s, a), b), a, [b] + ([a] + [b]));
    RunFirst(Step(Step(Step(s, a), b), a), b, [a] + [b]);
    RunFirst(Step(Step(Step(Step(s, a), b), a), b), a, [b]);
    assert [b][..0] == [];
  }

  /** Two HINCRBY on one field that is there: both read, both store, and the first increment is lost. */
  lemma IncrementMayBeLost(s: State, v: nat, w: nat, n: int)
    requires Starts(s) && v < |s.callers| && w < |s.callers| && v != w
    requires s.callers[v].job.Incr? && s.callers[w].job.Incr? && s.callers[v].job.field == s.callers[w].job.field
    requires s.callers[v].job.field in s.fields && Hashes.NumberIn(s.fields[s.callers[v].job.field]) == Some(n)
    ensures var t, f := RunSix(s, v, w), s.callers[v].job.field;
      |t.callers| == |s.callers| && t.callers[v].phase.Done? && t.callers[w].phase.Done?
      && f in t.fields && t.fields[f] == Decimal.Print(Hashes.Saturate(n + s.callers[w].job.delta))
  {
    hide Hashes.NumberIn, Hashes.Saturate, RunSix;
    var a, b, f := Turn(v, false), Turn(w, false), s.callers[v].job.field;
    RunSixIs(s, v, w);
    var asked := Step(Step(s, a), b);
    assert asked.callers[v].phase.Reading? && asked.callers[w].phase.Reading? && asked.fields == s.fields;
    var read := Step(Step(asked, a), b);
    assert read.callers[v].phase == Storing(Hashes.Saturate(n + s.callers[v].job.delta), false);
    assert read.callers[w].phase == Storing(Hashes.Saturate(n + s.callers[w].job.delta), false);
    assert read.fields == s.fields;
  }
}
