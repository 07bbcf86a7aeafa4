/**
 * Many callers working on one list at once. A step is one store operation by one caller; a run
 * is a schedule saying whose turn it is. Positions and metadata are modelled as integers: the
 * byte encodings are injective (see ListState), and 64-bit positions are assumed not to overflow.
 */
module ListRace {
  import opened Bytes
  import opened ListState
  import opened Sums

  datatype Side = Left | Right

  datatype Phase =
    | Ready                     // about to read the metadata
    | Creating                  // found none, about to write the initial metadata
    | Created                   // wrote the initial metadata, about to overwrite it
    | Read(seen: Meta)          // about to compare-and-swap
    | Claimed(pos: int)         // holds a position; about to store, or fetch, the value there
    | Fetched(pos: int, value: bytes) // a pop that found a value and is about to delete it
    | Stopped                   // returned early: list empty, or too many lost races

  /** LPUSH/RPUSH: `values[..next]` are stored. LPOP/RPOP: `popped` holds what was found. */
  datatype Job = Push(values: seq<bytes>, next: nat) | Pop(wanted: nat, popped: seq<bytes>)

  datatype Caller = Caller(side: Side, job: Job, phase: Phase, retries: nat)

  /** A successful claim, in the order of the compare-and-swaps. */
  datatype Entry = Pushed(who: nat, side: Side, value: bytes) | Took(who: nat, side: Side)

  datatype State = State(meta: Option<Meta>, slots: map<int, bytes>, callers: seq<Caller>, ghost log: seq<Entry>)

  predicate Balanced(m: Meta) {
    m.tail - m.head == m.count
  }

  function Grown(m: Meta, side: Side): Meta {
    match side
    case Left => Meta(m.head - 1, if m.count == 0 then m.head else m.tail, m.count + 1)
    case Right => Meta(if m.count == 0 then m.tail else m.head, m.tail + 1, m.count + 1)
  }

  function Shrunk(m: Meta, side: Side): Meta
    requires m.count > 0
  {
    match side
    case Left => Meta(m.head + 1, m.tail, m.count - 1)
    case Right => Meta(m.head, m.tail - 1, m.count - 1)
  }

  /** The position a push claims by growing `m`, or a pop by shrinking it. */
  function PushAt(m: Meta, side: Side): int {
    if side.Left? then m.head - 1 else m.tail
  }

  function PopAt(m: Meta, side: Side): int {
    if side.Left? then m.head else m.tail - 1
  }

  /** Work is left: values to push, or pops to make. */
  predicate Busy(c: Caller) {
    if c.job.Push? then c.job.next < |c.job.values| else |c.job.popped| < c.job.wanted
  }

  predicate Finished(c: Caller) {
    c.phase.Stopped? || (c.phase.Ready? && !Busy(c))
  }

  predicate AllFinished(s: State) {
    forall w :: 0 <= w < |s.callers| ==> Finished(s.callers[w])
  }

  function LostRace(c: Caller): Caller {
    var r := c.retries + 1;
    c.(retries := r, phase := if r >= MAX_RETRIES then Stopped else Ready)
  }

  ghost function With(s: State, w: nat, c: Caller): State
    requires w < |s.callers|
  {
    s.(callers := s.callers[w := c])
  }

  ghost function ClaimPush(s: State, w: nat, from: Meta): State
    requires w < |s.callers| && s.callers[w].job.Push? && Busy(s.callers[w])
  {
    var c := s.callers[w];
    With(s, w, c.(phase := Claimed(PushAt(from, c.side)))).(
      meta := Some(Grown(from, c.side)),
      log := s.log + [Pushed(w, c.side, c.job.values[c.job.next])])
  }

  ghost function Store(s: State, w: nat, p: int): State
    requires w < |s.callers| && s.callers[w].job.Push? && Busy(s.callers[w])
  {
    var c := s.callers[w];
    var stored := c.(job := Push(c.job.values, c.job.next + 1), phase := Ready, retries := 0);
    With(s, w, stored).(slots := s.slots[p := c.job.values[c.job.next]])
  }

  ghost function PushStep(s: State, w: nat): State
    requires w < |s.callers| && s.callers[w].job.Push?
  {
    var c := s.callers[w];
    if !Busy(c) then s
    else
      match c.phase
      case Ready => With(s, w, c.(phase := if s.meta.Some? then Read(s.meta.value) else Creating))
      case Creating => With(s, w, c.(phase := Created)).(meta := Some(FRESH))
      case Created => ClaimPush(s, w, FRESH)
      case Read(m) => if s.meta == Some(m) then ClaimPush(s, w, m) else With(s, w, LostRace(c))
      case Claimed(p) => Store(s, w, p)
      case Fetched(_, _) => s
      case Stopped => s
  }

  ghost function ClaimPop(s: State, w: nat, from: Meta): State
    requires w < |s.callers| && from.count > 0
  {
    var c := s.callers[w];
    With(s, w, c.(phase := Claimed(PopAt(from, c.side)))).(
      meta := Some(Shrunk(from, c.side)), log := s.log + [Took(w, c.side)])
  }

  /** A pop that finds nothing at the position it claimed goes on with the next one. */
  ghost function Fetch(s: State, w: nat, p: int): State
    requires w < |s.callers|
  {
    With(s, w, s.callers[w].(phase := if p in s.slots then Fetched(p, s.slots[p]) else Ready))
  }

  /** Deleting fails if another pop was faster; the caller answers an error and what it popped is lost. */
  ghost function Delete(s: State, w: nat, p: int, v: bytes): State
    requires w < |s.callers| && s.callers[w].job.Pop?
  {
    var c := s.callers[w];
    if p in s.slots then
      var popped := c.(job := Pop(c.job.wanted, c.job.popped + [v]), phase := Ready, retries := 0);
      With(s, w, popped).(slots := s.slots - {p})
    else With(s, w, c.(job := Pop(c.job.wanted, []), phase := Stopped))
  }

  ghost function PopStep(s: State, w: nat): State
    requires w < |s.callers| && s.callers[w].job.Pop?
  {
    var c := s.callers[w];
    if !Busy(c) then s
    else
      match c.phase
      case Ready =>
        if s.meta.None? || s.meta.value.count == 0 || s.meta.value.head >= s.meta.value.tail
        then With(s, w, c.(phase := Stopped))
        else With(s, w, c.(phase := Read(s.meta.value)))
      case Read(m) => if s.meta == Some(m) && m.count > 0 then ClaimPop(s, w, m) else With(s, w, LostRace(c))
      case Claimed(p) => Fetch(s, w, p)
      case Fetched(p, v) => Delete(s, w, p, v)
      case _ => s
  }

  ghost function Step(s: State, w: nat): State {
    if w >= |s.callers| then s
    else if s.callers[w].job.Push? then PushStep(s, w)
    else PopStep(s, w)
  }

  ghost function Run(s: State, schedule: seq<nat>): State {
    if schedule == [] then s
    else Step(Run(s, schedule[..|schedule| - 1]), schedule[|schedule| - 1])
  }

  /** Callers that have not begun. */
  predicate Fresh(callers: seq<Caller>) {
    forall w :: 0 <= w < |callers| ==> NotBegun(callers[w])
  }

  predicate NotBegun(c: Caller) {
    c.phase.Ready? && c.retries == 0 && if c.job.Push? then c.job.next == 0 else c.job.popped == []
  }

  // ---- What holds in every interleaving of pushes, pops and creations. ----

  ghost predicate MetaOk(s: State) {
    (s.meta.Some? ==> Balanced(s.meta.value))
    && forall w :: 0 <= w < |s.callers| && s.callers[w].phase.Read? ==> Balanced(s.callers[w].phase.seen)
  }

  lemma MetaStep(s: State, w: nat)
    requires MetaOk(s)
    ensures MetaOk(Step(s, w))
  {
  }

  /** In every run, with any mix of pushes, pops and creations: tail - head == count >= 0. */
  lemma {:induction false} MetadataAlwaysBalanced(s: State, schedule: seq<nat>)
    requires Fresh(s.callers) && (s.meta.Some? ==> Balanced(s.meta.value))
    ensures var t := Run(s, schedule);
      t.meta.Some? ==> t.meta.value.tail - t.meta.value.head == t.meta.value.count >= 0
    ensures MetaOk(Run(s, schedule))
    decreases |schedule|
  {
    if schedule != [] {
      MetadataAlwaysBalanced(s, schedule[..|schedule| - 1]);
      MetaStep(Run(s, schedule[..|schedule| - 1]), schedule[|schedule| - 1]);
    }
  }

  /** The position a caller holds: claimed and not yet stored, or not yet fetched and deleted. */
  function At(c: Caller): Option<int> {
    match c.phase
    case Claimed(p) => Some(p)
    case Fetched(p, _) => Some(p)
    case _ => None
  }

  /** The phases a caller of each kind goes through. */
  predicate Sane(c: Caller) {
    match c.job
    case Push(values, next) =>
      next <= |values| && !c.phase.Fetched? && (!c.phase.Ready? && !c.phase.Stopped? ==> Busy(c))
    case Pop(wanted, popped) =>
      |popped| <= wanted && !c.phase.Creating? && !c.phase.Created? && (c.phase.Read? ==> c.phase.seen.count > 0)
      && (!c.phase.Ready? && !c.phase.Stopped? ==> Busy(c))
  }

  ghost predicate AllSane(s: State) {
    forall w :: 0 <= w < |s.callers| ==> Sane(s.callers[w])
  }

  lemma SaneStep(s: State, w: nat)
    requires AllSane(s)
    ensures AllSane(Step(s, w)) && |Step(s, w).callers| == |s.callers|
    ensures forall v :: 0 <= v < |s.callers| && v != w ==> Step(s, w).callers[v] == s.callers[v]
  {
    if w < |s.callers| {
      assert Sane(s.callers[w]);
    }
  }

  /** How many of its values a push has claimed positions for. */
  function Taken(c: Caller): nat {
    if c.job.Pop? then 0 else if c.phase.Claimed? then c.job.next + 1 else c.job.next
  }

  /** How many positions a pop has claimed and not found empty. */
  function Claims(c: Caller): int {
    if c.job.Push? then 0 else if At(c).Some? then |c.job.popped| + 1 else |c.job.popped|
  }

  function Share(c: Caller): int {
    Claims(c) - Taken(c)
  }

  /** The number of elements LLEN reports. */
  function Visible(s: State): nat {
    if s.meta.Some? then s.meta.value.count else 0
  }

  /** Elements visible or claimed by pops, less those claimed by pushes: it only ever falls. */
  function Total(s: State): int {
    Visible(s) + Sum(s.callers, Share)
  }

  /** A pop looks at a position it claimed and finds nothing there. */
  predicate Misses(s: State, w: nat) {
    w < |s.callers| && s.callers[w].job.Pop? && Busy(s.callers[w]) && s.callers[w].phase.Claimed?
    && s.callers[w].phase.pos !in s.slots
  }

  /** A pop deletes a value that another pop has deleted. */
  predicate Late(s: State, w: nat) {
    w < |s.callers| && s.callers[w].job.Pop? && Busy(s.callers[w]) && s.callers[w].phase.Fetched?
    && s.callers[w].phase.pos !in s.slots
  }

  predicate Creates(s: State, w: nat) {
    w < |s.callers| && (s.callers[w].phase.Creating? || s.callers[w].phase.Created?)
  }

  lemma PushTotal(s: State, w: nat)
    requires w < |s.callers| && s.callers[w].job.Push? && Sane(s.callers[w])
    ensures Total(PushStep(s, w)) <= Total(s)
    ensures !Creates(s, w) ==> Total(PushStep(s, w)) == Total(s)
  {
    hide Sum;
    SumUpdate(s.callers, Share, w, PushStep(s, w).callers[w]);
  }

  lemma PopTotal(s: State, w: nat)
    requires w < |s.callers| && s.callers[w].job.Pop? && Sane(s.callers[w])
    ensures Total(PopStep(s, w)) <= Total(s) - if Misses(s, w) then 1 else 0
    ensures !Misses(s, w) && !Late(s, w) ==> Total(PopStep(s, w)) == Total(s)
  {
    hide Sum;
    SumUpdate(s.callers, Share, w, PopStep(s, w).callers[w]);
  }

  lemma TotalFalls(s: State, w: nat)
    requires AllSane(s)
    ensures Total(Step(s, w)) <= Total(s) - if Misses(s, w) then 1 else 0
    ensures !Misses(s, w) && !Late(s, w) && !Creates(s, w) ==> Total(Step(s, w)) == Total(s)
  {
    hide Total, PushStep, PopStep;
    if w < |s.callers| {
      assert Sane(s.callers[w]);
      if s.callers[w].job.Push? {
        PushTotal(s, w);
      } else {
        PopTotal(s, w);
      }
    }
  }

  /** How many values the pops have returned, and how many the pushes have stored. */
  function Returned(callers: seq<Caller>): int {
    Sum(callers, (c: Caller) => if c.job.Pop? then |c.job.popped| else 0)
  }

  function Inserted(callers: seq<Caller>): int {
    Sum(callers, (c: Caller) => if c.job.Push? then c.job.next else 0)
  }

  lemma {:induction false} FinishedShares(callers: seq<Caller>)
    requires forall w :: 0 <= w < |callers| ==> Finished(callers[w])
    ensures Sum(callers, Share) == Returned(callers) - Inserted(callers)
  {
    if callers != [] {
      FinishedShares(callers[..|callers| - 1]);
      assert Finished(callers[|callers| - 1]);
    }
  }

  lemma FreshShares(callers: seq<Caller>)
    requires Fresh(callers)
    ensures Sum(callers, Share) == 0
  {
    assert forall w :: 0 <= w < |callers| ==> NotBegun(callers[w]);
    SumZero(callers, Share);
  }

  lemma FreshIsSane(s: State)
    requires Fresh(s.callers)
    ensures AllSane(s)
  {
    forall w | 0 <= w < |s.callers| ensures Sane(s.callers[w]) {
      assert NotBegun(s.callers[w]);
    }
  }

  lemma {:induction false} TotalOnlyFalls(s: State, schedule: seq<nat>)
    requires AllSane(s)
    ensures AllSane(Run(s, schedule)) && Total(Run(s, schedule)) <= Total(s)
    ensures |Run(s, schedule).callers| == |s.callers|
    decreases |schedule|
  {
    hide Step, Total, AllSane;
    if schedule != [] {
      var front := schedule[..|schedule| - 1];
      TotalOnlyFalls(s, front);
      SaneStep(Run(s, front), schedule[|schedule| - 1]);
      TotalFalls(Run(s, front), schedule[|schedule| - 1]);
    }
  }

  /**
   * In every finished run the elements that are visible or were returned are at most those that
   * were there or were stored: races can lose elements, they never make up any.
   */
  lemma NothingIsInvented(s: State, schedule: seq<nat>)
    requires Fresh(s.callers) && AllFinished(Run(s, schedule))
    ensures var t := Run(s, schedule);
      Visible(t) + Returned(t.callers) <= Visible(s) + Inserted(t.callers)
  {
    hide Run, Sum, Returned, Inserted, Share;
    FreshIsSane(s);
    FreshShares(s.callers);
    TotalOnlyFalls(s, schedule);
    FinishedShares(Run(s, schedule).callers);
  }

  // ---- Pushes and pops one at a time. ----

  function Apply(list: seq<bytes>, e: Entry): seq<bytes> {
    match e
    case Pushed(_, side, value) => if side.Left? then [value] + list else list + [value]
    case Took(_, side) =>
      if list == [] then list else if side.Left? then list[1..] else list[..|list| - 1]
  }

  /** The list after the logged pushes and pops, one at a time. */
  function Atomic(list: seq<bytes>, log: seq<Entry>): seq<bytes> {
    if log == [] then list else Apply(Atomic(list, log[..|log| - 1]), log[|log| - 1])
  }

  lemma AtomicSnoc(list: seq<bytes>, log: seq<Entry>, e: Entry)
    ensures Atomic(list, log + [e]) == Apply(Atomic(list, log), e)
  {
    assert (log + [e])[..|log|] == log;
  }

  /** The element a pop takes, if there is one. */
  function EndOf(list: seq<bytes>, side: Side): seq<bytes> {
    if list == [] then [] else [if side.Left? then list[0] else list[|list| - 1]]
  }

  /** What one caller pushed, in the order it happened. */
  function Mine(log: seq<Entry>, w: nat): seq<bytes> {
    if log == [] then []
    else
      var e := log[|log| - 1];
      Mine(log[..|log| - 1], w) + if e.Pushed? && e.who == w then [e.value] else []
  }

  /** What one caller took, in the order it happened. */
  function Gone(list: seq<bytes>, log: seq<Entry>, w: nat): seq<bytes> {
    if log == [] then []
    else
      var front, e := log[..|log| - 1], log[|log| - 1];
      Gone(list, front, w) + if e.Took? && e.who == w then EndOf(Atomic(list, front), e.side) else []
  }

  lemma MineSnoc(log: seq<Entry>, e: Entry, w: nat)
    ensures Mine(log + [e], w) == Mine(log, w) + if e.Pushed? && e.who == w then [e.value] else []
  {
    assert (log + [e])[..|log|] == log;
  }

  lemma GoneSnoc(list: seq<bytes>, log: seq<Entry>, e: Entry, w: nat)
    ensures Gone(list, log + [e], w)
      == Gone(list, log, w) + if e.Took? && e.who == w then EndOf(Atomic(list, log), e.side) else []
  {
    assert (log + [e])[..|log|] == log;
  }

  // ---- Clean steps. ----

  predicate PushHolds(c: Caller, p: int) {
    c.job.Push? && At(c) == Some(p)
  }

  predicate PopHolds(c: Caller, p: int) {
    c.job.Pop? && At(c) == Some(p)
  }

  ghost predicate PushHeld(s: State, p: int) {
    exists w :: 0 <= w < |s.callers| && PushHolds(s.callers[w], p)
  }

  ghost predicate PopHeld(s: State, p: int) {
    exists w :: 0 <= w < |s.callers| && PopHolds(s.callers[w], p)
  }

  /**
   * Not clean are two steps: a pop claims a position whose value is not stored yet, and a push
   * claims a position whose old value a pop has not deleted yet.
   */
  ghost predicate Clean(s: State, w: nat) {
    w < |s.callers| && s.callers[w].phase.Read? && s.meta == Some(s.callers[w].phase.seen) ==>
      var m, side := s.meta.value, s.callers[w].side;
      if s.callers[w].job.Push? then !PopHeld(s, PushAt(m, side)) else PopAt(m, side) in s.slots
  }

  predicate InWindow(m: Meta, p: int) {
    m.head <= p < m.tail
  }

  ghost predicate MetaFits(s: State, all: seq<bytes>) {
    s.meta.Some? && Balanced(s.meta.value) && s.meta.value.count == |all|
  }

  /** The value a pop is about to return. */
  function Pending(slots: map<int, bytes>, c: Caller): seq<bytes> {
    match c.phase
    case Claimed(p) => if p in slots then [slots[p]] else []
    case Fetched(_, v) => [v]
    case _ => []
  }

  /** The log tells of each caller what it did. */
  ghost predicate Told(s: State, list: seq<bytes>) {
    forall w :: 0 <= w < |s.callers| ==> ToldOf(s, list, w)
  }

  ghost predicate ToldOf(s: State, list: seq<bytes>, w: nat)
    requires w < |s.callers|
  {
    var c := s.callers[w];
    if c.job.Push? then Taken(c) <= |c.job.values| && Mine(s.log, w) == c.job.values[..Taken(c)]
    else Gone(list, s.log, w) == c.job.popped + Pending(s.slots, c)
  }

  /** No position is held by two callers. */
  ghost predicate Apart(s: State) {
    forall v, w :: 0 <= v < w < |s.callers| && At(s.callers[v]).Some? ==> At(s.callers[v]) != At(s.callers[w])
  }

  /** Stored values are those of the window, or a pop is about to delete them. */
  ghost predicate SlotsOk(s: State, all: seq<bytes>)
    requires MetaFits(s, all)
  {
    forall p :: p in s.slots ==>
      (InWindow(s.meta.value, p) && s.slots[p] == all[p - s.meta.value.head]) || PopHeld(s, p)
  }

  /** Every position of the window has its value stored, or a push is about to store it. */
  ghost predicate WindowOk(s: State)
    requires s.meta.Some?
  {
    forall p :: InWindow(s.meta.value, p) ==> p in s.slots || PushHeld(s, p)
  }

  ghost predicate HolderOk(s: State, all: seq<bytes>, c: Caller)
    requires MetaFits(s, all) && Sane(c) && At(c).Some?
  {
    var m, p := s.meta.value, At(c).value;
    if c.job.Push? then InWindow(m, p) && p !in s.slots && all[p - m.head] == c.job.values[c.job.next]
    else !InWindow(m, p) && p in s.slots && (c.phase.Fetched? ==> s.slots[p] == c.phase.value)
  }

  ghost predicate HoldersOk(s: State, all: seq<bytes>)
    requires MetaFits(s, all) && AllSane(s)
  {
    forall w :: 0 <= w < |s.callers| && At(s.callers[w]).Some? ==> HolderOk(s, all, s.callers[w])
  }

  ghost predicate NobodyCreates(s: State) {
    forall w :: 0 <= w < |s.callers| ==> !s.callers[w].phase.Creating? && !s.callers[w].phase.Created?
  }

  ghost predicate Layout(s: State, all: seq<bytes>) {
    AllSane(s) && NobodyCreates(s) && MetaFits(s, all) && Apart(s)
    && SlotsOk(s, all) && WindowOk(s) && HoldersOk(s, all)
  }

  ghost predicate Tidy(s: State, list: seq<bytes>) {
    Layout(s, Atomic(list, s.log)) && Told(s, list)
  }

  /** Callers keep what they were asked to do. */
  predicate SameJob(c: Caller, d: Caller) {
    c.side == d.side
    && match c.job
       case Push(values, _) => d.job.Push? && d.job.values == values
       case Pop(wanted, _) => d.job.Pop? && d.job.wanted == wanted
  }

  ghost predicate SameJobs(s: State, t: State) {
    |s.callers| == |t.callers| && forall w :: 0 <= w < |s.callers| ==> SameJob(s.callers[w], t.callers[w])
  }

  lemma {:induction false} JobsStay(s: State, w: nat)
    ensures SameJobs(s, Step(s, w))
  {
  }

  /** Holders other than w are still there after w's step. */
  lemma HeldStays(s: State, t: State, w: nat, p: int)
    requires w < |s.callers| == |t.callers|
    requires forall v :: 0 <= v < |s.callers| && v != w ==> t.callers[v] == s.callers[v]
    requires At(s.callers[w]) != Some(p)
    ensures PushHeld(s, p) ==> PushHeld(t, p)
    ensures PopHeld(s, p) ==> PopHeld(t, p)
  {
    if PushHeld(s, p) {
      var v :| 0 <= v < |s.callers| && PushHolds(s.callers[v], p);
      assert PushHolds(t.callers[v], p);
    }
    if PopHeld(s, p) {
      var v :| 0 <= v < |s.callers| && PopHolds(s.callers[v], p);
      assert PopHolds(t.callers[v], p);
    }
  }

  // Steps that hold no position before or after.

  lemma CalmLayout(s: State, all: seq<bytes>, w: nat, c: Caller)
    requires Layout(s, all) && w < |s.callers| && SameJob(s.callers[w], c) && s.callers[w].job == c.job
    requires At(s.callers[w]).None? && At(c).None? && Sane(c) && !c.phase.Creating? && !c.phase.Created?
    ensures Layout(With(s, w, c), all)
  {
    hide PushHeld, PopHeld;
    var t := With(s, w, c);
    forall p ensures (PushHeld(s, p) ==> PushHeld(t, p)) && (PopHeld(s, p) ==> PopHeld(t, p)) {
      HeldStays(s, t, w, p);
    }
    assert forall v :: 0 <= v < |t.callers| && At(t.callers[v]).Some? ==> HolderOk(s, all, s.callers[v]);
  }

  lemma CalmTold(s: State, list: seq<bytes>, w: nat, c: Caller)
    requires Told(s, list) && w < |s.callers| && s.callers[w].job == c.job
    requires At(s.callers[w]).None? && At(c).None?
    ensures Told(With(s, w, c), list)
  {
    hide Mine, Gone;
    var t := With(s, w, c);
    forall v | 0 <= v < |t.callers| ensures ToldOf(t, list, v) {
      assert ToldOf(s, list, v);
    }
  }

  lemma Calm(s: State, list: seq<bytes>, w: nat, c: Caller)
    requires Tidy(s, list) && w < |s.callers| && SameJob(s.callers[w], c) && s.callers[w].job == c.job
    requires At(s.callers[w]).None? && At(c).None? && Sane(c) && !c.phase.Creating? && !c.phase.Created?
    ensures Tidy(With(s, w, c), list)
  {
    hide Layout, Told;
    CalmLayout(s, Atomic(list, s.log), w, c);
    CalmTold(s, list, w, c);
  }

  // A push claims a position.

  ghost predicate MayPush(s: State, w: nat) {
    w < |s.callers| && s.callers[w].job.Push? && s.meta.Some? && s.callers[w].phase == Read(s.meta.value)
    && Clean(s, w) && Busy(s.callers[w])
  }

  lemma PushLayout(s: State, all: seq<bytes>, w: nat)
    requires Layout(s, all) && MayPush(s, w)
    ensures var c := s.callers[w];
      Layout(ClaimPush(s, w, s.meta.value), Apply(all, Pushed(w, c.side, c.job.values[c.job.next])))
  {
    hide PushHeld, PopHeld;
    var c, m := s.callers[w], s.meta.value;
    var t := ClaimPush(s, w, m);
    var more := Apply(all, Pushed(w, c.side, c.job.values[c.job.next]));
    var q := PushAt(m, c.side);
    assert Sane(c);
    NotPopHeld(s, q);
    forall p ensures (PushHeld(s, p) ==> PushHeld(t, p)) && (PopHeld(s, p) ==> PopHeld(t, p)) {
      HeldStays(s, t, w, p);
    }
    NamePushHolder(t, w, q);
    forall v | 0 <= v < |t.callers| && At(t.callers[v]).Some? ensures HolderOk(t, more, t.callers[v]) {
      if v != w {
        assert HolderOk(s, all, s.callers[v]);
      }
    }
    forall u, v | 0 <= u < v < |t.callers| && At(t.callers[u]).Some? ensures At(t.callers[u]) != At(t.callers[v]) {
      if u == w || v == w {
        var o := if u == w then v else u;
        if At(s.callers[o]).Some? {
          assert HolderOk(s, all, s.callers[o]);
          assert HolderOk(t, more, t.callers[o]);
        }
      }
    }
  }

  lemma NamePushHolder(s: State, w: nat, p: int)
    requires w < |s.callers| && PushHolds(s.callers[w], p)
    ensures PushHeld(s, p)
  {
  }

  lemma NotPopHeld(s: State, p: int)
    requires !PopHeld(s, p)
    ensures forall v :: 0 <= v < |s.callers| ==> !PopHolds(s.callers[v], p)
  {
  }

  lemma NamePopHolder(s: State, w: nat, p: int)
    requires w < |s.callers| && PopHolds(s.callers[w], p)
    ensures PopHeld(s, p)
  {
  }

  lemma PushTold(s: State, list: seq<bytes>, w: nat)
    requires Told(s, list) && MayPush(s, w)
    ensures Told(ClaimPush(s, w, s.meta.value), list)
  {
    hide Mine, Gone;
    var c := s.callers[w];
    var e := Pushed(w, c.side, c.job.values[c.job.next]);
    var t := ClaimPush(s, w, s.meta.value);
    forall v | 0 <= v < |t.callers| ensures ToldOf(t, list, v) {
      assert ToldOf(s, list, v);
      MineSnoc(s.log, e, v);
      GoneSnoc(list, s.log, e, v);
      if v == w {
        assert c.job.values[..c.job.next] + [c.job.values[c.job.next]] == c.job.values[..c.job.next + 1];
      } else {
        assert Mine(s.log, v) + [] == Mine(s.log, v);
        assert Gone(list, s.log, v) + [] == Gone(list, s.log, v);
      }
    }
  }

  // A push stores its value.

  lemma StoreLayout(s: State, all: seq<bytes>, w: nat)
    requires Layout(s, all) && w < |s.callers| && s.callers[w].job.Push? && s.callers[w].phase.Claimed?
    requires Busy(s.callers[w])
    ensures Layout(Store(s, w, s.callers[w].phase.pos), all)
  {
    hide PushHeld, PopHeld;
    var c := s.callers[w];
    var q := c.phase.pos;
    var t := Store(s, w, q);
    assert Sane(c) && HolderOk(s, all, c);
    forall p ensures p != q ==> (PushHeld(s, p) ==> PushHeld(t, p)) && (PopHeld(s, p) ==> PopHeld(t, p)) {
      if p != q {
        HeldStays(s, t, w, p);
      }
    }
    forall v | 0 <= v < |t.callers| && At(t.callers[v]).Some? ensures HolderOk(t, all, t.callers[v]) {
      assert HolderOk(s, all, s.callers[v]);
      assert v < w || w < v;
    }
  }

  lemma StoreTold(s: State, list: seq<bytes>, w: nat)
    requires Told(s, list) && w < |s.callers| && s.callers[w].job.Push? && s.callers[w].phase.Claimed?
    requires Busy(s.callers[w]) && s.callers[w].phase.pos !in s.slots
    requires forall v :: 0 <= v < |s.callers| && v != w && At(s.callers[v]).Some? ==>
      At(s.callers[v]) != Some(s.callers[w].phase.pos)
    ensures Told(Store(s, w, s.callers[w].phase.pos), list)
  {
    hide Mine, Gone;
    var t := Store(s, w, s.callers[w].phase.pos);
    forall v | 0 <= v < |t.callers| ensures ToldOf(t, list, v) {
      assert ToldOf(s, list, v);
    }
  }

  // A pop claims a position.

  ghost predicate MayPop(s: State, w: nat) {
    w < |s.callers| && s.callers[w].job.Pop? && s.meta.Some? && s.callers[w].phase == Read(s.meta.value)
    && Clean(s, w) && Busy(s.callers[w]) && s.meta.value.count > 0
  }

  lemma PopLayout(s: State, all: seq<bytes>, w: nat)
    requires Layout(s, all) && MayPop(s, w)
    ensures Layout(ClaimPop(s, w, s.meta.value), Apply(all, Took(w, s.callers[w].side)))
  {
    hide PushHeld, PopHeld;
    var c, m := s.callers[w], s.meta.value;
    var t := ClaimPop(s, w, m);
    var less := Apply(all, Took(w, c.side));
    var q := PopAt(m, c.side);
    assert Sane(c) && InWindow(m, q);
    forall p ensures (PushHeld(s, p) ==> PushHeld(t, p)) && (PopHeld(s, p) ==> PopHeld(t, p)) {
      HeldStays(s, t, w, p);
    }
    NamePopHolder(t, w, q);
    forall v | 0 <= v < |t.callers| && At(t.callers[v]).Some? ensures HolderOk(t, less, t.callers[v]) {
      if v != w {
        assert HolderOk(s, all, s.callers[v]);
      }
    }
    forall u, v | 0 <= u < v < |t.callers| && At(t.callers[u]).Some? ensures At(t.callers[u]) != At(t.callers[v]) {
      if u == w || v == w {
        var o := if u == w then v else u;
        if At(s.callers[o]).Some? {
          assert HolderOk(s, all, s.callers[o]);
        }
      }
    }
  }

  lemma PopTold(s: State, list: seq<bytes>, w: nat)
    requires Told(s, list) && MayPop(s, w)
    requires EndOf(Atomic(list, s.log), s.callers[w].side) == [s.slots[PopAt(s.meta.value, s.callers[w].side)]]
    ensures Told(ClaimPop(s, w, s.meta.value), list)
  {
    hide Mine, Gone, Atomic;
    var e := Took(w, s.callers[w].side);
    var t := ClaimPop(s, w, s.meta.value);
    forall v | 0 <= v < |t.callers| ensures ToldOf(t, list, v) {
      assert ToldOf(s, list, v);
      MineSnoc(s.log, e, v);
      GoneSnoc(list, s.log, e, v);
      if v == w {
        var popped := s.callers[w].job.popped;
        assert popped + [] == popped;
      } else {
        assert Mine(s.log, v) + [] == Mine(s.log, v);
        assert Gone(list, s.log, v) + [] == Gone(list, s.log, v);
      }
    }
  }

  // A pop fetches and deletes.

  ghost predicate Holding(s: State, w: nat) {
    w < |s.callers| && s.callers[w].job.Pop? && Busy(s.callers[w]) && At(s.callers[w]).Some?
  }

  lemma FetchLayout(s: State, all: seq<bytes>, w: nat)
    requires Layout(s, all) && Holding(s, w) && s.callers[w].phase.Claimed?
    ensures s.callers[w].phase.pos in s.slots && Layout(Fetch(s, w, s.callers[w].phase.pos), all)
  {
    hide PushHeld, PopHeld;
    var c := s.callers[w];
    var q := c.phase.pos;
    var t := Fetch(s, w, q);
    assert Sane(c) && HolderOk(s, all, c);
    NamePopHolder(t, w, q);
    forall p ensures p != q ==> (PushHeld(s, p) ==> PushHeld(t, p)) && (PopHeld(s, p) ==> PopHeld(t, p)) {
      if p != q {
        HeldStays(s, t, w, p);
      }
    }
    forall v | 0 <= v < |t.callers| && At(t.callers[v]).Some? ensures HolderOk(t, all, t.callers[v]) {
      assert HolderOk(s, all, s.callers[v]);
    }
  }

  lemma FetchTold(s: State, list: seq<bytes>, w: nat)
    requires Told(s, list) && Holding(s, w) && s.callers[w].phase.Claimed? && s.callers[w].phase.pos in s.slots
    ensures Told(Fetch(s, w, s.callers[w].phase.pos), list)
  {
    hide Mine, Gone;
    var t := Fetch(s, w, s.callers[w].phase.pos);
    forall v | 0 <= v < |t.callers| ensures ToldOf(t, list, v) {
      assert ToldOf(s, list, v);
    }
  }

  lemma DeleteLayout(s: State, all: seq<bytes>, w: nat)
    requires Layout(s, all) && Holding(s, w) && s.callers[w].phase.Fetched?
    ensures Layout(Delete(s, w, s.callers[w].phase.pos, s.callers[w].phase.value), all)
  {
    hide PushHeld, PopHeld;
    var c := s.callers[w];
    var q := c.phase.pos;
    var t := Delete(s, w, q, c.phase.value);
    assert Sane(c) && HolderOk(s, all, c);
    forall p ensures p != q ==> (PushHeld(s, p) ==> PushHeld(t, p)) && (PopHeld(s, p) ==> PopHeld(t, p)) {
      if p != q {
        HeldStays(s, t, w, p);
      }
    }
    forall v | 0 <= v < |t.callers| && At(t.callers[v]).Some? ensures HolderOk(t, all, t.callers[v]) {
      assert HolderOk(s, all, s.callers[v]);
      assert v < w || w < v;
    }
  }

  lemma DeleteTold(s: State, list: seq<bytes>, w: nat)
    requires Told(s, list) && Holding(s, w) && s.callers[w].phase.Fetched? && s.callers[w].phase.pos in s.slots
    requires forall v :: 0 <= v < |s.callers| && v != w && At(s.callers[v]).Some? ==>
      At(s.callers[v]) != Some(s.callers[w].phase.pos)
    ensures Told(Delete(s, w, s.callers[w].phase.pos, s.callers[w].phase.value), list)
  {
    hide Mine, Gone;
    var c := s.callers[w];
    var t := Delete(s, w, c.phase.pos, c.phase.value);
    forall v | 0 <= v < |t.callers| ensures ToldOf(t, list, v) {
      assert ToldOf(s, list, v);
      assert (c.job.popped + [c.phase.value]) + [] == c.job.popped + [c.phase.value];
    }
  }

  // All steps together.

  lemma PushKeeps(s: State, list: seq<bytes>, w: nat)
    requires Tidy(s, list) && w < |s.callers| && s.callers[w].job.Push? && Clean(s, w)
    ensures Tidy(PushStep(s, w), list)
  {
    hide Layout, Told, Atomic, Apply, Clean;
    var c, all := s.callers[w], Atomic(list, s.log);
    LayoutFacts(s, all, w);
    if Busy(c) {
      match c.phase
      case Ready => Calm(s, list, w, c.(phase := Read(s.meta.value)));
      case Read(m) =>
        if s.meta == Some(m) {
          PushLayout(s, all, w);
          PushTold(s, list, w);
          AtomicSnoc(list, s.log, Pushed(w, c.side, c.job.values[c.job.next]));
        } else {
          Calm(s, list, w, LostRace(c));
        }
      case Claimed(p) =>
        StoreLayout(s, all, w);
        StoreTold(s, list, w);
      case Stopped =>
    }
  }

  lemma PopKeeps(s: State, list: seq<bytes>, w: nat)
    requires Tidy(s, list) && w < |s.callers| && s.callers[w].job.Pop? && Clean(s, w)
    ensures Tidy(PopStep(s, w), list)
  {
    hide Layout, Told, Atomic, Apply, Clean;
    var c, all := s.callers[w], Atomic(list, s.log);
    LayoutFacts(s, all, w);
    if Busy(c) {
      match c.phase
      case Ready =>
        Calm(s, list, w, c.(phase := Stopped));
        if s.meta.value.count > 0 {
          Calm(s, list, w, c.(phase := Read(s.meta.value)));
        }
      case Read(m) =>
        if s.meta == Some(m) {
          PopLayout(s, all, w);
          PopTakesEnd(s, all, w);
          PopTold(s, list, w);
          AtomicSnoc(list, s.log, Took(w, c.side));
        } else {
          Calm(s, list, w, LostRace(c));
        }
      case Claimed(p) =>
        FetchLayout(s, all, w);
        FetchTold(s, list, w);
      case Fetched(p, v) =>
        DeleteLayout(s, all, w);
        DeleteTold(s, list, w);
      case Stopped =>
    }
  }

  lemma LayoutFacts(s: State, all: seq<bytes>, w: nat)
    requires Layout(s, all) && w < |s.callers|
    ensures MetaFits(s, all) && Sane(s.callers[w]) && !Creates(s, w)
    ensures At(s.callers[w]).Some? ==>
      HolderOk(s, all, s.callers[w])
      && forall v :: 0 <= v < |s.callers| && v != w && At(s.callers[v]).Some? ==> At(s.callers[v]) != At(s.callers[w])
  {
    hide SlotsOk, WindowOk;
    if At(s.callers[w]).Some? {
      forall v | 0 <= v < |s.callers| && v != w && At(s.callers[v]).Some?
        ensures At(s.callers[v]) != At(s.callers[w])
      {
        assert v < w || w < v;
      }
    }
  }

  /** The value stored where a pop claims is the last one on its side. */
  lemma PopTakesEnd(s: State, all: seq<bytes>, w: nat)
    requires Layout(s, all) && MayPop(s, w)
    ensures EndOf(all, s.callers[w].side) == [s.slots[PopAt(s.meta.value, s.callers[w].side)]]
  {
    hide PushHeld, PopHeld;
    var q := PopAt(s.meta.value, s.callers[w].side);
    assert InWindow(s.meta.value, q) && q in s.slots;
    if PopHeld(s, q) {
      PopHolderOutside(s, all, q);
    }
  }

  lemma PopHolderOutside(s: State, all: seq<bytes>, p: int)
    requires Layout(s, all) && PopHeld(s, p)
    ensures !InWindow(s.meta.value, p)
  {
    var v :| 0 <= v < |s.callers| && PopHolds(s.callers[v], p);
    assert HolderOk(s, all, s.callers[v]);
  }

  /** One clean step of anybody keeps the list tidy. */
  lemma CleanStepKeeps(s: State, list: seq<bytes>, w: nat)
    requires Tidy(s, list) && Clean(s, w)
    ensures Tidy(Step(s, w), list) && Total(Step(s, w)) == Total(s)
  {
    hide Tidy, Clean, PushStep, PopStep, Total;
    if w < |s.callers| {
      TotalStays(s, list, w);
      if s.callers[w].job.Push? {
        PushKeeps(s, list, w);
      } else {
        PopKeeps(s, list, w);
      }
    }
  }

  lemma TotalStays(s: State, list: seq<bytes>, w: nat)
    requires Tidy(s, list) && w < |s.callers|
    ensures Total(Step(s, w)) == Total(s)
  {
    hide Step, Total, SlotsOk, WindowOk, Told, Apart, Atomic;
    LayoutFacts(s, Atomic(list, s.log), w);
    TotalFalls(s, w);
  }

  // ---- Whole runs. ----

  /** The store holds exactly `list`, or no list at all, and the callers have not begun. */
  ghost predicate Starts(s: State, list: seq<bytes>) {
    s.log == [] && Fresh(s.callers) && Shows(s, list)
  }

  /** What a reader sees when no caller is at work on the list; nothing if it was never created. */
  ghost predicate Shows(s: State, list: seq<bytes>) {
    if s.meta.None? then list == [] && s.slots == map[]
    else
      var m := s.meta.value;
      m.count == |list| == m.tail - m.head
      && (forall p :: p in s.slots <==> InWindow(m, p))
      && (forall p :: p in s.slots ==> s.slots[p] == list[p - m.head])
  }

  lemma TidyBegins(s: State, list: seq<bytes>)
    requires Starts(s, list) && s.meta.Some?
    ensures Tidy(s, list)
  {
    FreshIsSane(s);
    forall w | 0 <= w < |s.callers| ensures NotBegun(s.callers[w]) && ToldOf(s, list, w) {
    }
  }

  ghost predicate AlwaysClean(s: State, schedule: seq<nat>) {
    forall i :: 0 <= i < |schedule| ==> Clean(Run(s, schedule[..i]), schedule[i])
  }

  lemma CleanPrefix(s: State, schedule: seq<nat>)
    requires AlwaysClean(s, schedule) && schedule != []
    ensures AlwaysClean(s, schedule[..|schedule| - 1])
    ensures Clean(Run(s, schedule[..|schedule| - 1]), schedule[|schedule| - 1])
  {
    hide Run, Clean;
    var front := schedule[..|schedule| - 1];
    forall i | 0 <= i < |front| ensures Clean(Run(s, front[..i]), front[i]) {
      assert front[..i] == schedule[..i];
    }
  }

  lemma {:induction false} CleanRunKeeps(s: State, list: seq<bytes>, schedule: seq<nat>)
    requires Tidy(s, list) && AlwaysClean(s, schedule)
    ensures Tidy(Run(s, schedule), list) && Total(Run(s, schedule)) == Total(s)
    decreases |schedule|
  {
    hide Tidy, Clean, Step, Total, AlwaysClean;
    if schedule != [] {
      CleanPrefix(s, schedule);
      CleanRunKeeps(s, list, schedule[..|schedule| - 1]);
      CleanStepKeeps(Run(s, schedule[..|schedule| - 1]), list, schedule[|schedule| - 1]);
    }
  }

  /**
   * The outcome of pushing and popping one at a time in the order of the compare-and-swaps: the
   * list a reader sees, the values each push stored, the values each pop returned.
   */
  ghost predicate OneAtATime(t: State, list: seq<bytes>) {
    Shows(t, Atomic(list, t.log))
    && forall w :: 0 <= w < |t.callers| ==> ServedInTurn(t, list, w)
  }

  ghost predicate ServedInTurn(t: State, list: seq<bytes>, w: nat)
    requires w < |t.callers|
  {
    match t.callers[w].job
    case Push(values, next) =>
      next <= |values| && Mine(t.log, w) == values[..next] && (!t.callers[w].phase.Stopped? ==> next == |values|)
    case Pop(_, popped) => Gone(list, t.log, w) == popped
  }

  /** Nothing was lost: what is visible or was returned is what was there or was stored. */
  ghost predicate Kept(t: State, list: seq<bytes>) {
    Visible(t) + Returned(t.callers) == |list| + Inserted(t.callers)
  }

  lemma TidyEnds(t: State, list: seq<bytes>)
    requires Tidy(t, list) && AllFinished(t)
    ensures OneAtATime(t, list)
  {
    hide Atomic, Mine, Gone;
    forall w | 0 <= w < |t.callers| ensures At(t.callers[w]).None? && ServedInTurn(t, list, w) {
      assert Finished(t.callers[w]) && Sane(t.callers[w]) && ToldOf(t, list, w);
    }
    assert forall p :: !PushHeld(t, p) && !PopHeld(t, p);
  }

  lemma KeptIffTotal(t: State, list: seq<bytes>)
    requires AllFinished(t)
    ensures Kept(t, list) <==> Total(t) == |list|
  {
    hide Sum, Share, Returned, Inserted;
    FinishedShares(t.callers);
  }

  lemma TotalBegins(s: State, list: seq<bytes>)
    requires Fresh(s.callers) && Shows(s, list)
    ensures Total(s) == |list|
  {
    hide Sum, Share;
    FreshShares(s.callers);
  }

  /**
   * Any mix of pushes and pops: when every step was clean and all callers have returned, the
   * outcome is that of pushing and popping one at a time, in the order of the compare-and-swaps,
   * and no element is lost. A push gives up only after losing ten races for one value.
   */
  lemma CleanRunsAreAtomic(s: State, list: seq<bytes>, schedule: seq<nat>)
    requires Starts(s, list) && s.meta.Some? && AlwaysClean(s, schedule) && AllFinished(Run(s, schedule))
    ensures OneAtATime(Run(s, schedule), list) && Kept(Run(s, schedule), list)
  {
    hide Tidy, AlwaysClean, Run, Total, OneAtATime, Kept, Shows;
    TidyBegins(s, list);
    CleanRunKeeps(s, list, schedule);
    TidyEnds(Run(s, schedule), list);
    TotalBegins(s, list);
    KeptIffTotal(Run(s, schedule), list);
  }
}
