/**
 * Many callers working on one hash at once. A step is one store operation, one locked access to
 * the tracker, or one of the two halves of a flush; a run is a schedule saying whose turn it is.
 * The fields are those of one hash; the tracker and the counter are its share of theirs.
 */
module HashRace {
  import opened Bytes
  import opened Sums
  import Decimal
  import Hashes

  datatype Job =
    | Set(pairs: seq<(bytes, bytes)>)
    | Del(names: seq<bytes>)
    | Incr(field: bytes, delta: int)
    | Len

  /** What follows a flush: nothing more, HINCRBY's store, or HLEN's reading of the counter. */
  datatype After = Return | ThenStore(n: int) | ThenRead

  datatype Phase =
    | Working(next: nat, change: int) // HSET, HDEL: entries done, and the change in fields they made
    | Checking                        // HINCRBY is about to ask whether the field exists
    | Reading                         // HINCRBY was told that it does, about to read it
    | Noting                          // HINCRBY was told that it does not, about to note a new field
    | Storing(n: int, noted: bool)    // HINCRBY is about to store
    | Flushing(after: After)          // about to take the pending change, if a flush is due
    | Carrying(after: After)          // took it, about to add it to the counter
    | Answering                       // HLEN is about to read the counter
    | Done
    | Answered(len: int)

  datatype Caller = Caller(job: Job, phase: Phase)

  /**
   * `lock` is the caller that flushes, with the tracker locked, and `carried` what it took.
   * `drift` counts the fields HINCRBY noted but did not add, less those it added unnoted.
   */
  datatype State = State(fields: map<bytes, bytes>, counter: int, pending: int, lock: Option<nat>, carried: int,
                         callers: seq<Caller>, ghost drift: int)

  /** Whose turn it is, and whether a flush is due when that caller asks. */
  datatype Turn = Turn(who: nat, due: bool)

  ghost function With(s: State, w: nat, phase: Phase): State
    requires w < |s.callers|
  {
    s.(callers := s.callers[w := s.callers[w].(phase := phase)])
  }

  /** A locked addition to the tracker; it waits while somebody flushes. */
  ghost function Note(s: State, w: nat, delta: int, after: After): State
    requires w < |s.callers|
  {
    if s.lock.Some? then s else With(s, w, Flushing(after)).(pending := s.pending + delta)
  }

  ghost function SetStep(s: State, w: nat, pairs: seq<(bytes, bytes)>, i: nat, change: int): State
    requires w < |s.callers|
  {
    if i < |pairs| then
      With(s, w, Working(i + 1, change + if pairs[i].0 in s.fields then 0 else 1)).(
        fields := s.fields[pairs[i].0 := pairs[i].1])
    else if change != 0 then Note(s, w, change, Return)
    else s
  }

  function Without(fields: map<bytes, bytes>, f: bytes): map<bytes, bytes> {
    fields - {f}
  }

  ghost function DelStep(s: State, w: nat, names: seq<bytes>, i: nat, change: int): State
    requires w < |s.callers|
  {
    if i < |names| then
      With(s, w, Working(i + 1, change - if names[i] in s.fields then 1 else 0)).(fields := Without(s.fields, names[i]))
    else if change != 0 then Note(s, w, change, Return)
    else s
  }

  /** A value that is no number ends HINCRBY; a field deleted since the check counts as absent. */
  ghost function ReadStep(s: State, w: nat, field: bytes, delta: int): State
    requires w < |s.callers|
  {
    if field !in s.fields then With(s, w, Storing(delta, false))
    else
      var current := Hashes.NumberIn(s.fields[field]);
      With(s, w, if current.None? then Done else Storing(Hashes.Saturate(current.value + delta), false))
  }

  /** How the count goes wrong when HINCRBY stores: it relies on what it was told at the check. */
  function Slip(there: bool, noted: bool): int {
    if there && noted then 1 else if !there && !noted then -1 else 0
  }

  ghost function StoreStep(s: State, w: nat, field: bytes, n: int, noted: bool): State
    requires w < |s.callers|
  {
    With(s, w, Done).(fields := s.fields[field := Decimal.Print(n)], drift := s.drift + Slip(field in s.fields, noted))
  }

  function Next(after: After): Phase {
    match after
    case Return => Done
    case ThenStore(n) => Storing(n, true)
    case ThenRead => Answering
  }

  /** HLEN always flushes; the others when it is due. */
  ghost function TakeStep(s: State, w: nat, after: After, due: bool): State
    requires w < |s.callers|
  {
    if !due && !after.ThenRead? then With(s, w, Next(after))
    else if s.lock.Some? then s
    else With(s, w, Carrying(after)).(lock := Some(w), carried := s.pending, pending := 0)
  }

  ghost function ApplyStep(s: State, w: nat, after: After): State
    requires w < |s.callers|
  {
    With(s, w, Next(after)).(counter := s.counter + s.carried, carried := 0, lock := None)
  }

  ghost function Step(s: State, t: Turn): State {
    var w := t.who;
    if w >= |s.callers| then s
    else
      var job := s.callers[w].job;
      match s.callers[w].phase
      case Working(i, change) =>
        if job.Set? then SetStep(s, w, job.pairs, i, change)
        else if job.Del? then DelStep(s, w, job.names, i, change)
        else s
      case Checking => if job.Incr? then With(s, w, if job.field in s.fields then Reading else Noting) else s
      case Reading => if job.Incr? then ReadStep(s, w, job.field, job.delta) else s
      case Noting => if job.Incr? then Note(s, w, 1, ThenStore(job.delta)) else s
      case Storing(n, noted) => if job.Incr? then StoreStep(s, w, job.field, n, noted) else s
      case Flushing(after) => TakeStep(s, w, after, t.due)
      case Carrying(after) => ApplyStep(s, w, after)
      case Answering => With(s, w, Answered(s.counter))
      case _ => s
  }

  ghost function Run(s: State, turns: seq<Turn>): State {
    if turns == [] then s else Step(Run(s, turns[..|turns| - 1]), turns[|turns| - 1])
  }

  function Start(job: Job): Phase {
    match job
    case Set(_) => Working(0, 0)
    case Del(_) => Working(0, 0)
    case Incr(_, _) => Checking
    case Len => Flushing(ThenRead)
  }

  /** The count is right, nobody flushes, and nobody has begun. */
  ghost predicate Starts(s: State) {
    s.counter + s.pending == |s.fields| && s.lock.None? && s.carried == 0 && s.drift == 0
    && forall w :: 0 <= w < |s.callers| ==> s.callers[w].phase == Start(s.callers[w].job)
  }

  predicate Finished(c: Caller) {
    match c.phase
    case Done => true
    case Answered(_) => true
    case Working(i, change) =>
      change == 0 && if c.job.Set? then i >= |c.job.pairs| else c.job.Del? && i >= |c.job.names|
    case _ => false
  }

  predicate AllFinished(s: State) {
    forall w :: 0 <= w < |s.callers| ==> Finished(s.callers[w])
  }

  // ---- The balance, in every interleaving. ----

  /** Fields a caller added and has not noted; minus one for a field noted and not yet added. */
  function Owed(c: Caller): int {
    match c.phase
    case Working(_, change) => change
    case Flushing(after) => if after.ThenStore? then -1 else 0
    case Carrying(after) => if after.ThenStore? then -1 else 0
    case Storing(_, noted) => if noted then -1 else 0
    case _ => 0
  }

  ghost function Balance(s: State): int {
    s.counter + s.pending + s.carried + Sum(s.callers, Owed) - |s.fields| - s.drift
  }

  /** The phases a caller of each kind goes through. */
  predicate Sane(c: Caller) {
    match c.job
    case Set(pairs) =>
      (c.phase.Working? && c.phase.next <= |pairs|) || c.phase == Flushing(Return) || c.phase == Carrying(Return)
      || c.phase.Done?
    case Del(names) =>
      (c.phase.Working? && c.phase.next <= |names|) || c.phase == Flushing(Return) || c.phase == Carrying(Return)
      || c.phase.Done?
    case Incr(_, _) =>
      c.phase.Checking? || c.phase.Reading? || c.phase.Noting? || c.phase.Storing? || c.phase.Done?
      || ((c.phase.Flushing? || c.phase.Carrying?) && c.phase.after.ThenStore?)
    case Len =>
      c.phase == Flushing(ThenRead) || c.phase == Carrying(ThenRead) || c.phase.Answering? || c.phase.Answered?
  }

  /** Who flushes has the lock, and nobody else carries anything. */
  ghost predicate LockOk(s: State) {
    (if s.lock.None? then s.carried == 0 else s.lock.value < |s.callers|)
    && forall w :: 0 <= w < |s.callers| ==> (s.callers[w].phase.Carrying? <==> s.lock == Some(w))
  }

  ghost predicate AllSane(s: State) {
    LockOk(s) && forall w :: 0 <= w < |s.callers| ==> Sane(s.callers[w])
  }

  /** What one step of caller w may do: its own phase, the lock if it is its own, and a balanced change. */
  ghost predicate Moves(s: State, w: nat, t: State)
    requires w < |s.callers|
  {
    && |t.callers| == |s.callers| && t.callers == s.callers[w := t.callers[w]]
    && t.callers[w].job == s.callers[w].job && Sane(t.callers[w])
    && LockMoves(s, w, t)
    && t.counter + t.pending + t.carried + Owed(t.callers[w]) - |t.fields| - t.drift
       == s.counter + s.pending + s.carried + Owed(s.callers[w]) - |s.fields| - s.drift
  }

  ghost predicate LockMoves(s: State, w: nat, t: State)
    requires w < |s.callers| == |t.callers|
  {
    || (t.lock == s.lock && t.carried == s.carried
        && (t.callers[w].phase.Carrying? <==> s.callers[w].phase.Carrying?))
    || (s.lock.None? && t.lock == Some(w) && t.callers[w].phase.Carrying?)
    || (s.lock == Some(w) && t.lock.None? && t.carried == 0 && !t.callers[w].phase.Carrying?)
  }

  lemma FieldAdded(fields: map<bytes, bytes>, f: bytes, v: bytes)
    ensures |fields[f := v]| == |fields| + if f in fields then 0 else 1
  {
    assert fields[f := v].Keys == fields.Keys + {f};
  }

  lemma FieldDropped(fields: map<bytes, bytes>, f: bytes)
    ensures |Without(fields, f)| == |fields| - if f in fields then 1 else 0
  {
    assert Without(fields, f).Keys == fields.Keys - {f};
  }

  lemma SetMoves(s: State, w: nat)
    requires w < |s.callers| && Sane(s.callers[w]) && s.callers[w].job.Set? && s.callers[w].phase.Working?
    ensures var c := s.callers[w];
      Moves(s, w, SetStep(s, w, c.job.pairs, c.phase.next, c.phase.change))
  {
    var c := s.callers[w];
    if c.phase.next < |c.job.pairs| {
      FieldAdded(s.fields, c.job.pairs[c.phase.next].0, c.job.pairs[c.phase.next].1);
    }
  }

  lemma DelMoves(s: State, w: nat)
    requires w < |s.callers| && Sane(s.callers[w]) && s.callers[w].job.Del? && s.callers[w].phase.Working?
    ensures var c := s.callers[w];
      Moves(s, w, DelStep(s, w, c.job.names, c.phase.next, c.phase.change))
  {
    hide Without;
    var c := s.callers[w];
    if c.phase.next < |c.job.names| {
      FieldDropped(s.fields, c.job.names[c.phase.next]);
    }
  }

  lemma StoreMoves(s: State, w: nat)
    requires w < |s.callers| && Sane(s.callers[w]) && s.callers[w].job.Incr? && s.callers[w].phase.Storing?
    ensures var c := s.callers[w];
      Moves(s, w, StoreStep(s, w, c.job.field, c.phase.n, c.phase.noted))
  {
    FieldAdded(s.fields, s.callers[w].job.field, Decimal.Print(s.callers[w].phase.n));
  }

  lemma FlushMoves(s: State, w: nat, due: bool)
    requires w < |s.callers| && Sane(s.callers[w]) && AllSane(s)
    ensures var phase := s.callers[w].phase;
      (phase.Flushing? ==> Moves(s, w, TakeStep(s, w, phase.after, due)))
      && (phase.Carrying? ==> Moves(s, w, ApplyStep(s, w, phase.after)))
  {
  }

  lemma OtherMoves(s: State, t: Turn)
    requires AllSane(s) && t.who < |s.callers|
    requires var phase := s.callers[t.who].phase;
      !phase.Working? && !phase.Storing? && !phase.Flushing? && !phase.Carrying?
    ensures Moves(s, t.who, Step(s, t))
  {
    hide Hashes.NumberIn, Hashes.Saturate, LockOk;
    assert Sane(s.callers[t.who]);
  }

  lemma StepMoves(s: State, t: Turn)
    requires AllSane(s) && t.who < |s.callers|
    ensures Moves(s, t.who, Step(s, t))
  {
    hide Moves, SetStep, DelStep, StoreStep, TakeStep, ApplyStep, LockOk;
    var c := s.callers[t.who];
    assert Sane(c);
    match c.phase
    case Working(i, change) =>
      if c.job.Set? {
        SetMoves(s, t.who);
      } else {
        DelMoves(s, t.who);
      }
    case Storing(n, noted) => StoreMoves(s, t.who);
    case Flushing(after) => FlushMoves(s, t.who, t.due);
    case Carrying(after) => FlushMoves(s, t.who, t.due);
    case _ => OtherMoves(s, t);
  }

  lemma MoveKeeps(s: State, w: nat, t: State)
    requires AllSane(s) && w < |s.callers| && Moves(s, w, t)
    ensures AllSane(t) && Balance(t) == Balance(s)
  {
    hide Sum, Owed, Sane;
    SumUpdate(s.callers, Owed, w, t.callers[w]);
  }

  lemma SaneStep(s: State, t: Turn)
    requires AllSane(s)
    ensures AllSane(Step(s, t)) && Balance(Step(s, t)) == Balance(s) && |Step(s, t).callers| == |s.callers|
    ensures forall v :: 0 <= v < |s.callers| ==> Step(s, t).callers[v].job == s.callers[v].job
    ensures forall v :: 0 <= v < |s.callers| && v != t.who ==> Step(s, t).callers[v] == s.callers[v]
  {
    hide AllSane, Balance, LockMoves, Owed, Sane;
    if t.who < |s.callers| {
      StepMoves(s, t);
      MoveKeeps(s, t.who, Step(s, t));
    } else {
      OutOfRange(s, t);
    }
  }

  lemma OutOfRange(s: State, t: Turn)
    requires t.who >= |s.callers|
    ensures Step(s, t) == s
  {
  }

  lemma SaneStart(s: State)
    requires Starts(s)
    ensures AllSane(s) && Balance(s) == 0
  {
    hide Sum;
    assert forall w :: 0 <= w < |s.callers| ==> Owed(s.callers[w]) == 0;
    SumZero(s.callers, Owed);
  }

  lemma {:induction false} RunSane(s: State, turns: seq<Turn>)
    requires AllSane(s)
    ensures AllSane(Run(s, turns)) && Balance(Run(s, turns)) == Balance(s)
    ensures |Run(s, turns).callers| == |s.callers|
    ensures forall v :: 0 <= v < |s.callers| ==> Run(s, turns).callers[v].job == s.callers[v].job
    decreases |turns|
  {
    hide Step, AllSane, Balance;
    if turns != [] {
      RunSane(s, turns[..|turns| - 1]);
      SaneStep(Run(s, turns[..|turns| - 1]), turns[|turns| - 1]);
    }
  }

  /**
   * In every interleaving of HSET, HDEL, HINCRBY, HLEN and flushes: the counter, what is pending,
   * what a flush carries and what callers still owe make up the number of fields, plus the drift.
   */
  lemma CountInEveryInterleaving(s: State, turns: seq<Turn>)
    requires Starts(s)
    ensures var t := Run(s, turns);
      t.counter + t.pending + t.carried + Sum(t.callers, Owed) == |t.fields| + t.drift
  {
    hide Run, Sum, AllSane;
    SaneStart(s);
    RunSane(s, turns);
  }

  /** What HLEN answers once everybody has returned: it flushes, then reads the counter. */
  ghost predicate Counted(t: State) {
    t.counter + t.pending == |t.fields|
  }

  /** At the end the count is wrong by exactly the drift. */
  lemma DriftDecides(s: State, turns: seq<Turn>)
    requires Starts(s) && AllFinished(Run(s, turns))
    ensures var t := Run(s, turns);
      t.counter + t.pending == |t.fields| + t.drift
  {
    hide Run, Sum;
    SaneStart(s);
    RunSane(s, turns);
    var t := Run(s, turns);
    assert forall w :: 0 <= w < |t.callers| ==> Finished(t.callers[w]) && Sane(t.callers[w]);
    SumZero(t.callers, Owed);
    assert forall w :: 0 <= w < |t.callers| ==> !t.callers[w].phase.Carrying?;
  }
}
