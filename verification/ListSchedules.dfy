/**
 * Which groups of callers can race without harm, whatever the schedule. There are three kinds:
 * pops only; pushes only, unless two of them have to create the list; pushes on one side and
 * pops on the other that do not ask for more elements than the list had. All other groups have a
 * schedule that loses an element.
 */
module ListSchedules {
  import opened Bytes
  import opened ListState
  import opened ListRace
  import opened Sums

  predicate Pusher(c: Caller) {
    c.job.Push? && c.job.values != []
  }

  predicate Popper(c: Caller) {
    c.job.Pop? && c.job.wanted > 0
  }

  ghost predicate NoPushers(s: State) {
    forall w :: 0 <= w < |s.callers| ==> !Pusher(s.callers[w])
  }

  ghost predicate NoPoppers(s: State) {
    forall w :: 0 <= w < |s.callers| ==> !Popper(s.callers[w])
  }

  ghost predicate OnePusher(s: State) {
    forall v, w :: 0 <= v < w < |s.callers| && Pusher(s.callers[v]) ==> !Pusher(s.callers[w])
  }

  ghost predicate Opposed(s: State) {
    forall v, w :: 0 <= v < |s.callers| && 0 <= w < |s.callers| && Pusher(s.callers[v]) && Popper(s.callers[w])
      ==> s.callers[v].side != s.callers[w].side
  }

  /** How many elements the pops ask for together. */
  function Wants(c: Caller): int {
    if c.job.Pop? then c.job.wanted else 0
  }

  /** The groups of callers that can do no harm to a list of n elements. */
  ghost predicate Safe(s: State, n: nat) {
    || NoPushers(s)
    || (NoPoppers(s) && (s.meta.Some? || OnePusher(s)))
    || (s.meta.Some? && Opposed(s) && Sum(s.callers, Wants) <= n)
  }

  // ---- Pushes only, pops only. ----

  lemma PushersStay(s: State, w: nat)
    ensures NoPushers(s) ==> NoPushers(Step(s, w))
    ensures NoPoppers(s) ==> NoPoppers(Step(s, w))
  {
    hide Step;
    JobsStay(s, w);
    var t := Step(s, w);
    assert forall v :: 0 <= v < |t.callers| ==> SameJob(s.callers[v], t.callers[v]);
  }

  lemma OneKindIsClean(s: State, all: seq<bytes>, w: nat)
    requires Layout(s, all) && (NoPushers(s) || NoPoppers(s))
    ensures Clean(s, w)
  {
    if w < |s.callers| && s.callers[w].phase.Read? && s.meta == Some(s.callers[w].phase.seen) {
      var m, side := s.meta.value, s.callers[w].side;
      assert Sane(s.callers[w]);
      assert forall v :: 0 <= v < |s.callers| && At(s.callers[v]).Some? ==> Sane(s.callers[v]);
      assert s.callers[w].job.Pop? ==> InWindow(m, PopAt(m, side));
    }
  }

  lemma {:induction false} OneKindRun(s: State, list: seq<bytes>, schedule: seq<nat>)
    requires Tidy(s, list) && (NoPushers(s) || NoPoppers(s))
    ensures var t := Run(s, schedule);
      Tidy(t, list) && Total(t) == Total(s) && (NoPushers(t) || NoPoppers(t))
    decreases |schedule|
  {
    hide Layout, Told, Clean, Step, Total, NoPushers, NoPoppers;
    if schedule != [] {
      var front, w := schedule[..|schedule| - 1], schedule[|schedule| - 1];
      OneKindRun(s, list, front);
      var t := Run(s, front);
      OneKindIsClean(t, Atomic(list, t.log), w);
      CleanStepKeeps(t, list, w);
      PushersStay(t, w);
    }
  }

  // ---- Pushes on one side, pops on the other. ----

  /** How far the pops have come, seen from where the list ended on their side. */
  function Depth(m: Meta, from: Meta, side: Side): int {
    if side.Left? then m.head - from.head else from.tail - m.tail
  }

  /** Positions beyond the original list, on the side of the pushes. */
  predicate Beyond(p: int, from: Meta, popSide: Side) {
    if popSide.Left? then p >= from.tail else p < from.head
  }

  /** The pushes only ever extend the list. */
  predicate Extends(m: Meta, from: Meta, popSide: Side) {
    if popSide.Left? then m.tail >= from.tail else m.head <= from.head
  }

  predicate OnItsSide(c: Caller, popSide: Side) {
    (Pusher(c) ==> c.side != popSide) && (Popper(c) ==> c.side == popSide)
  }

  predicate OnItsGround(c: Caller, from: Meta, popSide: Side) {
    At(c).Some? ==> (c.job.Push? <==> Beyond(At(c).value, from, popSide))
  }

  ghost predicate Separate(s: State, from: Meta, popSide: Side) {
    s.meta.Some? && Extends(s.meta.value, from, popSide)
    && Depth(s.meta.value, from, popSide) == Sum(s.callers, Claims)
    && (forall w :: 0 <= w < |s.callers| ==>
      OnItsSide(s.callers[w], popSide) && OnItsGround(s.callers[w], from, popSide))
  }

  /** A pop that still wants something finds the pops short of the end of the original list. */
  lemma PopsStayWithin(s: State, from: Meta, popSide: Side, w: nat)
    requires Separate(s, from, popSide) && AllSane(s) && Sum(s.callers, Wants) <= from.count && Balanced(from)
    requires Balanced(s.meta.value) && w < |s.callers| && s.callers[w].job.Pop? && s.callers[w].phase.Read?
    ensures !Beyond(PopAt(s.meta.value, s.callers[w].side), from, popSide)
  {
    hide Sum;
    forall v | 0 <= v < |s.callers| ensures Claims(s.callers[v]) <= Wants(s.callers[v]) {
      assert Sane(s.callers[v]);
    }
    assert Sane(s.callers[w]) && OnItsSide(s.callers[w], popSide);
    SumAtMost(s.callers, Claims, Wants, w);
  }

  lemma PushesGoBeyond(s: State, from: Meta, popSide: Side, w: nat)
    requires Separate(s, from, popSide) && AllSane(s)
    requires w < |s.callers| && s.callers[w].job.Push? && s.callers[w].phase.Read?
    ensures Beyond(PushAt(s.meta.value, s.callers[w].side), from, popSide)
  {
    assert Sane(s.callers[w]) && OnItsSide(s.callers[w], popSide);
  }

  lemma SeparateIsClean(s: State, all: seq<bytes>, from: Meta, popSide: Side, w: nat)
    requires Layout(s, all) && Separate(s, from, popSide) && Sum(s.callers, Wants) <= from.count && Balanced(from)
    ensures Clean(s, w)
  {
    hide Separate, Extends, Sum, Beyond;
    if w < |s.callers| && s.callers[w].phase.Read? && s.meta == Some(s.callers[w].phase.seen) {
      var m, side := s.meta.value, s.callers[w].side;
      assert Sane(s.callers[w]);
      if s.callers[w].job.Push? {
        PushesGoBeyond(s, from, popSide, w);
        GroundOfHolder(s, from, popSide, PushAt(m, side));
      } else {
        PopsStayWithin(s, from, popSide, w);
        GroundOfHolder(s, from, popSide, PopAt(m, side));
        assert InWindow(m, PopAt(m, side));
      }
    }
  }

  lemma GroundOfHolder(s: State, from: Meta, popSide: Side, p: int)
    requires Separate(s, from, popSide)
    ensures PushHeld(s, p) ==> Beyond(p, from, popSide)
    ensures PopHeld(s, p) ==> !Beyond(p, from, popSide)
  {
    hide Sum, Beyond;
    assert forall v :: 0 <= v < |s.callers| && At(s.callers[v]) == Some(p) ==> OnItsGround(s.callers[v], from, popSide);
  }

  lemma SeparatePush(s: State, from: Meta, popSide: Side, w: nat)
    requires Separate(s, from, popSide) && AllSane(s) && NobodyCreates(s) && Balanced(s.meta.value)
    requires w < |s.callers| && s.callers[w].job.Push?
    ensures Separate(PushStep(s, w), from, popSide)
  {
    hide Sum;
    var t := PushStep(s, w);
    assert Sane(s.callers[w]) && OnItsSide(s.callers[w], popSide) && OnItsGround(s.callers[w], from, popSide);
    SumUpdate(s.callers, Claims, w, t.callers[w]);
    assert t.callers == s.callers[w := t.callers[w]];
    if s.callers[w].phase.Read? {
      PushesGoBeyond(s, from, popSide, w);
    }
    forall v | 0 <= v < |t.callers|
      ensures OnItsSide(t.callers[v], popSide) && OnItsGround(t.callers[v], from, popSide)
    {
      assert OnItsSide(s.callers[v], popSide) && OnItsGround(s.callers[v], from, popSide);
    }
  }

  lemma SeparatePop(s: State, from: Meta, popSide: Side, w: nat)
    requires Separate(s, from, popSide) && AllSane(s) && Balanced(s.meta.value)
    requires Sum(s.callers, Wants) <= from.count && Balanced(from)
    requires w < |s.callers| && s.callers[w].job.Pop? && !Misses(s, w) && !Late(s, w)
    ensures Separate(PopStep(s, w), from, popSide)
  {
    hide Sum;
    var t := PopStep(s, w);
    assert Sane(s.callers[w]) && OnItsSide(s.callers[w], popSide) && OnItsGround(s.callers[w], from, popSide);
    SumUpdate(s.callers, Claims, w, t.callers[w]);
    assert t.callers == s.callers[w := t.callers[w]];
    if s.callers[w].phase.Read? {
      PopsStayWithin(s, from, popSide, w);
    }
    forall v | 0 <= v < |t.callers|
      ensures OnItsSide(t.callers[v], popSide) && OnItsGround(t.callers[v], from, popSide)
    {
      assert OnItsSide(s.callers[v], popSide) && OnItsGround(s.callers[v], from, popSide);
    }
  }

  lemma NothingMissing(s: State, all: seq<bytes>, w: nat)
    requires Layout(s, all)
    ensures !Misses(s, w) && !Late(s, w)
  {
    hide SlotsOk, WindowOk, Apart;
    if w < |s.callers| && At(s.callers[w]).Some? {
      assert HolderOk(s, all, s.callers[w]);
    }
  }

  lemma WantsStay(s: State, w: nat)
    ensures Sum(Step(s, w).callers, Wants) == Sum(s.callers, Wants)
  {
    hide Sum;
    if w < |s.callers| {
      JobsStay(s, w);
      SumUpdate(s.callers, Wants, w, Step(s, w).callers[w]);
      assert Step(s, w).callers == s.callers[w := Step(s, w).callers[w]];
    }
  }

  lemma SeparateStep(s: State, all: seq<bytes>, from: Meta, popSide: Side, w: nat)
    requires Layout(s, all) && Separate(s, from, popSide) && Sum(s.callers, Wants) <= from.count && Balanced(from)
    ensures Separate(Step(s, w), from, popSide)
  {
    hide Separate, Sum, SlotsOk, WindowOk, HoldersOk, Apart, PushStep, PopStep;
    NothingMissing(s, all, w);
    if w < |s.callers| {
      if s.callers[w].job.Push? {
        SeparatePush(s, from, popSide, w);
      } else {
        SeparatePop(s, from, popSide, w);
      }
    }
  }

  lemma {:induction false} SeparateRun(s: State, list: seq<bytes>, from: Meta, popSide: Side, schedule: seq<nat>)
    requires Tidy(s, list) && Separate(s, from, popSide) && Sum(s.callers, Wants) <= from.count && Balanced(from)
    ensures var t := Run(s, schedule);
      Tidy(t, list) && Total(t) == Total(s) && Separate(t, from, popSide) && Sum(t.callers, Wants) <= from.count
    decreases |schedule|
  {
    hide Layout, Told, Clean, Step, Total, Separate, Sum;
    if schedule != [] {
      var front, w := schedule[..|schedule| - 1], schedule[|schedule| - 1];
      SeparateRun(s, list, from, popSide, front);
      var t := Run(s, front);
      SeparateIsClean(t, Atomic(list, t.log), from, popSide, w);
      SeparateStep(t, Atomic(list, t.log), from, popSide, w);
      CleanStepKeeps(t, list, w);
      WantsStay(t, w);
    }
  }

  function Other(side: Side): Side {
    if side.Left? then Right else Left
  }

  lemma NoClaimsYet(callers: seq<Caller>)
    requires Fresh(callers)
    ensures Sum(callers, Claims) == 0
  {
    assert forall w :: 0 <= w < |callers| ==> NotBegun(callers[w]);
    SumZero(callers, Claims);
  }

  /** Callers on opposite sides, at least one of them a push, start out separate. */
  lemma OpposedBegins(s: State, list: seq<bytes>, u: nat)
    requires Starts(s, list) && s.meta.Some? && Opposed(s) && u < |s.callers| && Pusher(s.callers[u])
    requires !NoPoppers(s)
    ensures Separate(s, s.meta.value, Other(s.callers[u].side))
  {
    hide Sum;
    NoClaimsYet(s.callers);
    var popSide := Other(s.callers[u].side);
    var v :| 0 <= v < |s.callers| && Popper(s.callers[v]);
    forall w | 0 <= w < |s.callers|
      ensures OnItsSide(s.callers[w], popSide) && OnItsGround(s.callers[w], s.meta.value, popSide)
    {
      assert NotBegun(s.callers[w]);
    }
  }

  // ---- No list yet. ----

  /** A caller that has done nothing, and either has nothing to push or waits its turn. */
  predicate Idle(c: Caller) {
    match c.job
    case Push(values, next) => values == [] && next == 0 && c.phase.Ready?
    case Pop(_, popped) => popped == [] && (c.phase.Ready? || c.phase.Stopped?)
  }

  /** Nothing was pushed yet; u alone may be on its way to create the list. */
  ghost predicate Early(s: State, u: nat) {
    s.log == [] && s.slots == map[] && Total(s) == 0
    && (forall w :: 0 <= w < |s.callers| && w != u ==> Idle(s.callers[w]))
    && if u < |s.callers| then Starting(s, s.callers[u]) && NoPoppers(s) else s.meta.None?
  }

  predicate Starting(s: State, c: Caller) {
    Pusher(c) && c.job.next == 0
    && match c.phase
       case Ready => s.meta.None?
       case Creating => s.meta.None?
       case Created => s.meta == Some(FRESH)
       case _ => false
  }

  lemma EarlyOther(s: State, u: nat, w: nat)
    requires Early(s, u) && w != u
    ensures Early(Step(s, w), u)
  {
    hide Sum;
    PushersStay(s, w);
    if w < |s.callers| {
      assert Idle(s.callers[w]);
      SumUpdate(s.callers, Share, w, Step(s, w).callers[w]);
    }
  }

  lemma EarlyOwn(s: State, u: nat)
    requires Early(s, u) && u < |s.callers|
    ensures !s.callers[u].phase.Created? ==> Early(Step(s, u), u)
    ensures s.callers[u].phase.Created? ==> Step(s, u) == ClaimPush(s, u, FRESH) && Total(Step(s, u)) == 0
  {
    hide Sum;
    PushersStay(s, u);
    SumUpdate(s.callers, Share, u, Step(s, u).callers[u]);
  }

  /** The creator as if it had read the initial metadata it wrote. */
  ghost function HasRead(s: State, u: nat): State
    requires u < |s.callers|
  {
    With(s, u, s.callers[u].(phase := Read(FRESH)))
  }

  lemma CreatorIsTidy(s: State, u: nat)
    requires Early(s, u) && u < |s.callers| && s.callers[u].phase.Created?
    ensures Tidy(HasRead(s, u), []) && NoPoppers(HasRead(s, u))
    ensures ClaimPush(s, u, FRESH) == ClaimPush(HasRead(s, u), u, FRESH)
  {
    var t := HasRead(s, u);
    var claimed := s.callers[u].(phase := Claimed(PushAt(FRESH, s.callers[u].side)));
    assert s.callers[u := s.callers[u].(phase := Read(FRESH))][u := claimed] == s.callers[u := claimed];
    forall w | 0 <= w < |t.callers|
      ensures Sane(t.callers[w]) && At(t.callers[w]).None? && ToldOf(t, [], w) && !Popper(t.callers[w])
    {
      assert w != u ==> Idle(s.callers[w]);
      assert !Popper(s.callers[w]);
    }
  }

  lemma CreationStep(s: State, u: nat)
    requires Early(s, u) && u < |s.callers| && s.callers[u].phase.Created?
    ensures Tidy(Step(s, u), []) && NoPoppers(Step(s, u)) && Total(Step(s, u)) == 0
  {
    hide Early, Tidy, Total, Clean, NoPoppers, ClaimPush;
    EarlyOwn(s, u);
    CreatorIsTidy(s, u);
    PushersStay(s, u);
    var t := HasRead(s, u);
    CreatorClaims(s, u);
    CleanStepKeeps(t, [], u);
    StillNoPoppers(s, u);
  }

  lemma StillNoPoppers(s: State, u: nat)
    requires Early(s, u) && u < |s.callers|
    ensures NoPoppers(Step(s, u))
  {
    hide Step;
    PushersStay(s, u);
  }

  lemma CreatorClaims(s: State, u: nat)
    requires Early(s, u) && u < |s.callers| && s.callers[u].phase.Created? && Tidy(HasRead(s, u), [])
    requires NoPoppers(HasRead(s, u))
    ensures var t := HasRead(s, u); Clean(t, u) && Step(t, u) == ClaimPush(t, u, FRESH)
  {
    hide Layout, Told, ClaimPush, Clean, NoPoppers;
    var t := HasRead(s, u);
    OneKindIsClean(t, Atomic([], t.log), u);
  }

  ghost predicate SoloOk(s: State, u: nat) {
    Early(s, u) || (Tidy(s, []) && NoPoppers(s) && Total(s) == 0)
  }

  lemma SoloStep(s: State, u: nat, w: nat)
    requires SoloOk(s, u)
    ensures SoloOk(Step(s, w), u)
  {
    hide Early, Layout, Told, Total, Step, NoPoppers, Clean;
    if Early(s, u) {
      if w != u {
        EarlyOther(s, u, w);
      } else if w < |s.callers| && s.callers[w].phase.Created? {
        CreationStep(s, u);
      } else if w < |s.callers| {
        EarlyOwn(s, u);
      } else {
        OutOfRange(s, w);
      }
    } else {
      OneKindIsClean(s, Atomic([], s.log), w);
      CleanStepKeeps(s, [], w);
      PushersStay(s, w);
    }
  }

  lemma OutOfRange(s: State, w: nat)
    requires w >= |s.callers|
    ensures Step(s, w) == s
  {
  }

  lemma {:induction false} SoloRun(s: State, u: nat, schedule: seq<nat>)
    requires SoloOk(s, u)
    ensures SoloOk(Run(s, schedule), u)
    decreases |schedule|
  {
    hide SoloOk, Step;
    if schedule != [] {
      SoloRun(s, u, schedule[..|schedule| - 1]);
      SoloStep(Run(s, schedule[..|schedule| - 1]), u, schedule[|schedule| - 1]);
    }
  }

  lemma EarlyEnds(t: State, u: nat)
    requires Early(t, u) && AllFinished(t)
    ensures OneAtATime(t, [])
  {
    hide Total;
    forall w | 0 <= w < |t.callers| ensures w != u && ServedInTurn(t, [], w) {
      assert Finished(t.callers[w]);
    }
  }

  /** The one caller that may create the list, or a number that no caller has. */
  lemma Creator(s: State) returns (u: nat)
    requires Starts(s, []) && s.meta.None? && (NoPushers(s) || (NoPoppers(s) && OnePusher(s)))
    ensures Early(s, u)
  {
    hide Sum;
    FreshShares(s.callers);
    u := |s.callers|;
    if !NoPushers(s) {
      var v :| 0 <= v < |s.callers| && Pusher(s.callers[v]);
      u := v;
    }
    forall w | 0 <= w < |s.callers| && w != u ensures Idle(s.callers[w]) {
      assert NotBegun(s.callers[w]);
    }
    if u < |s.callers| {
      assert NotBegun(s.callers[u]);
    }
  }

  // ---- Safe groups do no harm. ----

  ghost predicate Fine(t: State, list: seq<bytes>) {
    OneAtATime(t, list) && Kept(t, list)
  }

  lemma TidyIsFine(t: State, list: seq<bytes>)
    requires Tidy(t, list) && Total(t) == |list| && AllFinished(t)
    ensures Fine(t, list)
  {
    hide Tidy, Total, OneAtATime, Kept;
    TidyEnds(t, list);
    KeptIffTotal(t, list);
  }

  lemma SafeCreation(s: State, schedule: seq<nat>)
    requires Starts(s, []) && s.meta.None? && (NoPushers(s) || (NoPoppers(s) && OnePusher(s)))
    requires AllFinished(Run(s, schedule))
    ensures Fine(Run(s, schedule), [])
  {
    hide Run, Early, Tidy, Fine, AllFinished;
    var u := Creator(s);
    SoloRun(s, u, schedule);
    var t := Run(s, schedule);
    if Early(t, u) {
      EarlyIsFine(t, u);
    } else {
      TidyIsFine(t, []);
    }
  }

  lemma EarlyIsFine(t: State, u: nat)
    requires Early(t, u) && AllFinished(t)
    ensures Fine(t, [])
  {
    hide Total, OneAtATime, Kept, AllFinished;
    EarlyEnds(t, u);
    KeptIffTotal(t, []);
  }

  lemma SafeIsFine(s: State, list: seq<bytes>, schedule: seq<nat>)
    requires Starts(s, list) && Safe(s, |list|) && AllFinished(Run(s, schedule))
    ensures Fine(Run(s, schedule), list)
  {
    hide Run, Tidy, Fine, AllFinished, Sum, Total, NoPoppers, NoPushers, Opposed, OnePusher, Separate, Fresh;
    if s.meta.None? {
      assert list == [];
      SafeCreation(s, schedule);
    } else {
      TidyBegins(s, list);
      TotalBegins(s, list);
      if NoPushers(s) || NoPoppers(s) {
        OneKindRun(s, list, schedule);
      } else {
        var u := SomePusher(s);
        OpposedBegins(s, list, u);
        SeparateRun(s, list, s.meta.value, Other(s.callers[u].side), schedule);
      }
      TidyIsFine(Run(s, schedule), list);
    }
  }

  lemma SomePusher(s: State) returns (u: nat)
    requires !NoPushers(s)
    ensures u < |s.callers| && Pusher(s.callers[u])
  {
    u :| 0 <= u < |s.callers| && Pusher(s.callers[u]);
  }

  lemma SomePopper(s: State) returns (u: nat)
    requires !NoPoppers(s)
    ensures u < |s.callers| && Popper(s.callers[u])
  {
    u :| 0 <= u < |s.callers| && Popper(s.callers[u]);
  }
}
