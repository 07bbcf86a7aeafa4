/**
 * The other half of `ListSchedules`: a group of callers that is not one of the safe ones has a
 * schedule, run to its end, after which fewer elements are there than should be.
 */
module ListLosses {
  import opened Bytes
  import opened ListState
  import opened ListRace
  import opened ListSchedules
  import opened Sums

  lemma {:induction false} RunConcat(s: State, a: seq<nat>, b: seq<nat>)
    ensures Run(s, a + b) == Run(Run(s, a), b)
    decreases |b|
  {
    hide Step;
    if b == [] {
      assert a + b == a;
    } else {
      assert (a + b)[..|a + b| - 1] == a + b[..|b| - 1];
      RunConcat(s, a, b[..|b| - 1]);
    }
  }

  lemma RunFirst(s: State, w: nat, rest: seq<nat>)
    ensures Run(s, [w] + rest) == Run(Step(s, w), rest)
  {
    hide Step;
    assert [w][..0] == [];
    assert Run(s, [w]) == Step(s, w);
    RunConcat(s, [w], rest);
  }

  // ---- Every run can be brought to its end. ----

  /** How much a caller still has to do on its own. */
  function ToDo(c: Caller): nat
    requires Sane(c)
  {
    if c.phase.Stopped? then 0
    else if c.job.Push? then |c.job.values| - c.job.next
    else c.job.wanted - |c.job.popped|
  }

  /** Steps to go with the work in hand, for a caller that runs alone. */
  function Rank(s: State, c: Caller): nat {
    var stale := c.phase.Read? && s.meta != Some(c.phase.seen);
    var here :=
      match c.phase
      case Ready => 4
      case Creating => 3
      case Created => 2
      case Read(_) => if stale then 5 else if c.job.Push? then 2 else 3
      case Claimed(_) => if c.job.Push? then 1 else 6
      case Fetched(_, _) => 5
      case Stopped => 0;
    if c.job.Push? then here else 5 * Visible(s) + here
  }

  lemma StepTowardsEnd(s: State, w: nat)
    requires AllSane(s) && w < |s.callers| && !Finished(s.callers[w])
    ensures var t := Step(s, w);
      |t.callers| == |s.callers| && Sane(t.callers[w])
      && (ToDo(t.callers[w]) < ToDo(s.callers[w])
          || (ToDo(t.callers[w]) == ToDo(s.callers[w]) && Rank(t, t.callers[w]) < Rank(s, s.callers[w])))
  {
    assert Sane(s.callers[w]);
  }

  lemma {:induction false} FinishOne(s: State, w: nat) returns (schedule: seq<nat>)
    requires AllSane(s) && w < |s.callers|
    ensures var t := Run(s, schedule);
      AllSane(t) && |t.callers| == |s.callers| && Finished(t.callers[w])
      && forall v :: 0 <= v < |s.callers| && v != w ==> t.callers[v] == s.callers[v]
    decreases ToDo(s.callers[w]), Rank(s, s.callers[w])
  {
    hide Step, Rank;
    schedule := [];
    if !Finished(s.callers[w]) {
      SaneStep(s, w);
      StepTowardsEnd(s, w);
      var rest := FinishOne(Step(s, w), w);
      RunFirst(s, w, rest);
      schedule := [w] + rest;
    }
  }

  lemma {:induction false} FinishUpTo(s: State, n: nat) returns (schedule: seq<nat>)
    requires AllSane(s) && n <= |s.callers|
    ensures var t := Run(s, schedule);
      AllSane(t) && |t.callers| == |s.callers| && forall w :: 0 <= w < n ==> Finished(t.callers[w])
  {
    hide Step;
    schedule := [];
    if n > 0 {
      var before := FinishUpTo(s, n - 1);
      var last := FinishOne(Run(s, before), n - 1);
      RunConcat(s, before, last);
      schedule := before + last;
    }
  }

  /** Once elements are lost they stay lost, however the run ends. */
  lemma EndsLost(s: State, list: seq<bytes>, prefix: seq<nat>) returns (schedule: seq<nat>)
    requires AllSane(s) && Total(Run(s, prefix)) < |list|
    ensures AllFinished(Run(s, schedule)) && !Kept(Run(s, schedule), list)
  {
    hide Run, AllSane, Total, Kept;
    TotalOnlyFalls(s, prefix);
    var t := Run(s, prefix);
    var rest := FinishUpTo(t, |t.callers|);
    TotalOnlyFalls(t, rest);
    RunConcat(s, prefix, rest);
    schedule := prefix + rest;
    KeptIffTotal(Run(s, schedule), list);
  }

  // ---- Two callers create the list. ----

  /**
   * Both find no list. One creates it and claims a position; the other, still on its way to
   * create it, overwrites the metadata with that of an empty list.
   */
  lemma CreationLoses(s: State, u: nat, v: nat)
    requires Starts(s, []) && s.meta.None? && u < |s.callers| && v < |s.callers| && u != v
    requires Pusher(s.callers[u]) && Pusher(s.callers[v])
    ensures Total(Run(s, [u, v, u, u, v])) < 0
  {
    hide Sum, Run;
    FreshIsSane(s);
    TotalBegins(s, []);
    assert NotBegun(s.callers[u]) && NotBegun(s.callers[v]);
    var s1 := Step(s, u);
    var s2 := Step(s1, v);
    var s3 := Step(s2, u);
    var s4 := Step(s3, u);
    var s5 := Step(s4, v);
    assert s2.meta.None? && s2.callers[u].phase.Creating? && s2.callers[v].phase.Creating?;
    assert s4.callers[v].phase.Creating? && s4.meta == Some(Grown(FRESH, s.callers[u].side));
    RunFive(s, u, v, u, u, v);
    SaneAndFalling(s, u);
    SaneAndFalling(s1, v);
    SaneAndFalling(s2, u);
    SaneAndFalling(s3, u);
    Overwritten(s4, v);
  }

  lemma SaneAndFalling(s: State, w: nat)
    requires AllSane(s)
    ensures AllSane(Step(s, w)) && Total(Step(s, w)) <= Total(s)
  {
    hide Step, AllSane, Total;
    SaneStep(s, w);
    TotalFalls(s, w);
  }

  lemma Overwritten(s: State, v: nat)
    requires v < |s.callers| && s.callers[v].job.Push? && Busy(s.callers[v]) && s.callers[v].phase.Creating?
    requires s.meta.Some? && s.meta.value.count > 0
    ensures Total(Step(s, v)) < Total(s)
  {
    hide Sum;
    SumUpdate(s.callers, Share, v, Step(s, v).callers[v]);
  }

  lemma RunFive(s: State, a: nat, b: nat, c: nat, d: nat, e: nat)
    ensures Run(s, [a, b, c, d, e]) == Step(Step(Step(Step(Step(s, a), b), c), d), e)
  {
    hide Step, Run;
    RunFirst(s, a, [b, c, d, e]);
    RunFirst(Step(s, a), b, [c, d, e]);
    RunFirst(Step(Step(s, a), b), c, [d, e]);
    RunFirst(Step(Step(Step(s, a), b), c), d, [e]);
    RunLast(Step(Step(Step(Step(s, a), b), c), d), e);
    assert [a] + [b, c, d, e] == [a, b, c, d, e] && [b] + [c, d, e] == [b, c, d, e];
    assert [c] + [d, e] == [c, d, e] && [d] + [e] == [d, e];
  }

  lemma RunLast(s: State, w: nat)
    ensures Run(s, [w]) == Step(s, w)
  {
    hide Step;
    assert [w][..0] == [];
  }

  // ---- A pop meets a push that has not stored its value. ----

  /** A pop about to begin where the last position on its side is claimed by a push and still empty. */
  ghost predicate Poised(s: State, v: nat) {
    AllSane(s) && v < |s.callers| && Popper(s.callers[v]) && Busy(s.callers[v]) && s.callers[v].phase.Ready?
    && s.meta.Some? && Balanced(s.meta.value) && s.meta.value.count > 0
    && PopAt(s.meta.value, s.callers[v].side) !in s.slots
  }

  /** A push about to begin and a pop that wants more, on a list at rest. */
  ghost predicate AtRest(s: State, list: seq<bytes>, u: nat, v: nat) {
    AllSane(s) && Shows(s, list) && u < |s.callers| && v < |s.callers|
    && s.callers[u].job.Push? && Busy(s.callers[u]) && s.callers[u].phase.Ready?
    && Popper(s.callers[v]) && Busy(s.callers[v]) && s.callers[v].phase.Ready?
    && (s.callers[u].side == s.callers[v].side || list == [])
  }

  lemma PushThenPop(s: State, list: seq<bytes>, u: nat, v: nat)
    requires AtRest(s, list, u, v) && s.meta.Some?
    ensures var t := Step(Step(s, u), u);
      Poised(t, v) && Total(t) <= Total(s)
  {
    hide Sum;
    SaneAndFalling(s, u);
    SaneAndFalling(Step(s, u), u);
    var t := Step(Step(s, u), u);
    assert t.callers[v] == s.callers[v];
    assert t.meta == Some(Grown(s.meta.value, s.callers[u].side)) && t.slots == s.slots;
  }

  lemma CreateThenPop(s: State, u: nat, v: nat)
    requires AtRest(s, [], u, v) && s.meta.None?
    ensures var t := Step(Step(Step(s, u), u), u);
      Poised(t, v) && Total(t) <= Total(s)
  {
    hide Sum;
    SaneAndFalling(s, u);
    SaneAndFalling(Step(s, u), u);
    SaneAndFalling(Step(Step(s, u), u), u);
    var t := Step(Step(Step(s, u), u), u);
    assert t.callers[v] == s.callers[v];
    assert t.meta == Some(Grown(FRESH, s.callers[u].side)) && t.slots == s.slots;
  }

  lemma MeetingLoses(s: State, list: seq<bytes>, u: nat, v: nat) returns (prefix: seq<nat>)
    requires AtRest(s, list, u, v)
    ensures Total(Run(s, prefix)) < Total(s)
  {
    hide Run, Step, Total, AtRest, Poised;
    if s.meta.Some? {
      PushThenPop(s, list, u, v);
      RunFirst(s, u, [u] + [v, v, v]);
      RunFirst(Step(s, u), u, [v, v, v]);
      prefix := [u] + ([u] + [v, v, v]);
      PoisedLoses(Step(Step(s, u), u), v);
    } else {
      RestsEmpty(s, list, u, v);
      CreateThenPop(s, u, v);
      RunFirst(s, u, [u] + ([u] + [v, v, v]));
      RunFirst(Step(s, u), u, [u] + [v, v, v]);
      RunFirst(Step(Step(s, u), u), u, [v, v, v]);
      prefix := [u] + ([u] + ([u] + [v, v, v]));
      PoisedLoses(Step(Step(Step(s, u), u), u), v);
    }
  }

  lemma RestsEmpty(s: State, list: seq<bytes>, u: nat, v: nat)
    requires AtRest(s, list, u, v) && s.meta.None?
    ensures AtRest(s, [], u, v)
  {
  }

  lemma PoisedLoses(s: State, v: nat)
    requires Poised(s, v)
    ensures Total(Run(s, [v, v, v])) < Total(s)
  {
    hide Sum, Run;
    var s1 := Step(s, v);
    var s2 := Step(s1, v);
    assert s2.callers[v].phase == Claimed(PopAt(s.meta.value, s.callers[v].side)) && s2.slots == s.slots;
    SaneAndFalling(s, v);
    SaneAndFalling(s1, v);
    TotalFalls(s2, v);
    RunFirst(s, v, [v, v]);
    RunFirst(s1, v, [v]);
    RunLast(s2, v);
    assert [v] + [v, v] == [v, v, v] && [v] + [v] == [v, v];
  }

  // ---- Pops that want more than there is. ----

  function StillWants(c: Caller): int {
    if c.job.Pop? then c.job.wanted - |c.job.popped| else 0
  }

  /** Nobody is in the middle of anything. */
  ghost predicate AllReady(s: State, list: seq<bytes>) {
    AllSane(s) && s.meta.Some? && Shows(s, list)
    && forall w :: 0 <= w < |s.callers| ==> s.callers[w].phase.Ready?
  }

  lemma {:induction false} SomeoneWants(callers: seq<Caller>) returns (v: nat)
    requires Sum(callers, StillWants) > 0
    ensures v < |callers| && callers[v].job.Pop? && Busy(callers[v])
  {
    var n := |callers| - 1;
    if StillWants(callers[n]) > 0 {
      v := n;
    } else {
      v := SomeoneWants(callers[..n]);
    }
  }

  /** One pop from beginning to end, with nobody interfering. */
  ghost function Popped(s: State, v: nat): State
    requires v < |s.callers| && s.callers[v].job.Pop? && s.meta.Some? && s.meta.value.count > 0
    requires PopAt(s.meta.value, s.callers[v].side) in s.slots
  {
    var c, m := s.callers[v], s.meta.value;
    var p := PopAt(m, c.side);
    State(Some(Shrunk(m, c.side)), s.slots - {p},
          s.callers[v := c.(job := Pop(c.job.wanted, c.job.popped + [s.slots[p]]), phase := Ready, retries := 0)],
          s.log + [Took(v, c.side)])
  }

  lemma PopsAlone(s: State, list: seq<bytes>, v: nat)
    requires AllReady(s, list) && list != [] && v < |s.callers| && s.callers[v].job.Pop? && Busy(s.callers[v])
    ensures PopAt(s.meta.value, s.callers[v].side) in s.slots
    ensures Step(Step(Step(Step(s, v), v), v), v) == Popped(s, v)
  {
    var c, m := s.callers[v], s.meta.value;
    var p := PopAt(m, c.side);
    assert InWindow(m, p);
    var s1 := Step(s, v);
    assert s1 == With(s, v, c.(phase := Read(m)));
    var s2 := Step(s1, v);
    var claimed := s.(callers := s.callers[v := c.(phase := Claimed(p))], meta := Some(Shrunk(m, c.side)),
                      log := s.log + [Took(v, c.side)]);
    assert s2.callers == s1.callers[v := c.(phase := Claimed(p))] == claimed.callers;
    var s3 := Step(s2, v);
    assert s3.callers == s.callers[v := c.(phase := Fetched(p, s.slots[p]))];
    var s4 := Step(s3, v);
    assert s4.callers == Popped(s, v).callers;
  }

  lemma PoppedRests(s: State, list: seq<bytes>, v: nat)
    requires AllReady(s, list) && list != [] && v < |s.callers| && s.callers[v].job.Pop? && Busy(s.callers[v])
    requires PopAt(s.meta.value, s.callers[v].side) in s.slots
    ensures AllReady(Popped(s, v), Apply(list, Took(v, s.callers[v].side)))
    ensures Sum(Popped(s, v).callers, StillWants) == Sum(s.callers, StillWants) - 1
  {
    hide Sum;
    SumUpdate(s.callers, StillWants, v, Popped(s, v).callers[v]);
    assert Sane(s.callers[v]);
  }

  /** The pops empty the list without giving up, and still want more; pushes have not moved. */
  lemma {:induction false} Drain(s: State, list: seq<bytes>) returns (schedule: seq<nat>)
    requires AllReady(s, list) && Sum(s.callers, StillWants) > |list|
    ensures var t := Run(s, schedule);
      AllReady(t, []) && Sum(t.callers, StillWants) > 0 && |t.callers| == |s.callers|
      && forall w :: 0 <= w < |s.callers| && s.callers[w].job.Push? ==> t.callers[w] == s.callers[w]
    decreases |list|
  {
    hide Step, AllReady, Sum;
    schedule := [];
    if list != [] {
      var v := SomeoneWants(s.callers);
      ReadyMeta(s, list);
      PopsAlone(s, list, v);
      PoppedRests(s, list, v);
      var t := Popped(s, v);
      var rest := Drain(t, Apply(list, Took(v, s.callers[v].side)));
      RunFirst(s, v, [v] + ([v] + ([v] + rest)));
      RunFirst(Step(s, v), v, [v] + ([v] + rest));
      RunFirst(Step(Step(s, v), v), v, [v] + rest);
      RunFirst(Step(Step(Step(s, v), v), v), v, rest);
      schedule := [v] + ([v] + ([v] + ([v] + rest)));
    }
  }

  lemma ReadyMeta(s: State, list: seq<bytes>)
    requires AllReady(s, list) && list != []
    ensures s.meta.Some? && s.meta.value.count > 0
  {
  }

  lemma {:induction false} WantsAtFirst(callers: seq<Caller>)
    requires Fresh(callers)
    ensures Sum(callers, StillWants) == Sum(callers, Wants)
  {
    forall w | 0 <= w < |callers| ensures StillWants(callers[w]) == Wants(callers[w]) {
      assert NotBegun(callers[w]);
    }
    SumSame(callers, StillWants, Wants);
  }

  lemma FreshIsReady(s: State, list: seq<bytes>)
    requires Starts(s, list) && s.meta.Some?
    ensures AllReady(s, list)
  {
    FreshIsSane(s);
    assert forall w :: 0 <= w < |s.callers| ==> NotBegun(s.callers[w]);
  }

  lemma AskingTooMuchLoses(s: State, list: seq<bytes>, u: nat) returns (prefix: seq<nat>)
    requires Starts(s, list) && s.meta.Some? && u < |s.callers| && Pusher(s.callers[u])
    requires Sum(s.callers, Wants) > |list|
    ensures Total(Run(s, prefix)) < |list|
  {
    hide Run, Total, Sum, AllReady, AtRest, Fresh;
    FreshIsReady(s, list);
    WantsAtFirst(s.callers);
    var drain := Drain(s, list);
    var t := Run(s, drain);
    var v := SomeoneWants(t.callers);
    RestsAfterDrain(s, t, u, v);
    var rest := MeetingLoses(t, [], u, v);
    FreshIsSane(s);
    TotalOnlyFalls(s, drain);
    TotalBegins(s, list);
    RunConcat(s, drain, rest);
    prefix := drain + rest;
  }

  lemma RestsAfterDrain(s: State, t: State, u: nat, v: nat)
    requires Fresh(s.callers) && AllReady(t, []) && |t.callers| == |s.callers|
    requires u < |s.callers| && Pusher(s.callers[u]) && t.callers[u] == s.callers[u]
    requires v < |t.callers| && t.callers[v].job.Pop? && Busy(t.callers[v])
    ensures AtRest(t, [], u, v)
  {
    assert NotBegun(s.callers[u]);
  }

  // ---- Both halves. ----

  lemma StartsAtRest(s: State, list: seq<bytes>, u: nat, v: nat)
    requires Starts(s, list) && u < |s.callers| && v < |s.callers| && Pusher(s.callers[u]) && Popper(s.callers[v])
    requires s.callers[u].side == s.callers[v].side || list == []
    ensures AtRest(s, list, u, v)
  {
    FreshIsSane(s);
    assert NotBegun(s.callers[u]) && NotBegun(s.callers[v]);
  }

  lemma TwoPushers(s: State) returns (u: nat, v: nat)
    requires !OnePusher(s)
    ensures u < v < |s.callers| && Pusher(s.callers[u]) && Pusher(s.callers[v])
  {
    u, v :| 0 <= u < v < |s.callers| && Pusher(s.callers[u]) && Pusher(s.callers[v]);
  }

  lemma SameSidePair(s: State) returns (u: nat, v: nat)
    requires !Opposed(s)
    ensures u < |s.callers| && v < |s.callers| && Pusher(s.callers[u]) && Popper(s.callers[v])
    ensures s.callers[u].side == s.callers[v].side
  {
    u, v :| 0 <= u < |s.callers| && 0 <= v < |s.callers| && Pusher(s.callers[u]) && Popper(s.callers[v])
      && s.callers[u].side == s.callers[v].side;
  }

  lemma UnsafePrefix(s: State, list: seq<bytes>) returns (prefix: seq<nat>)
    requires Starts(s, list) && !Safe(s, |list|)
    ensures Total(Run(s, prefix)) < |list|
  {
    hide Run, Total, Sum, NoPushers, NoPoppers, OnePusher, Opposed, AtRest, Fresh;
    TotalBegins(s, list);
    var u := SomePusher(s);
    if NoPoppers(s) {
      var a, b := TwoPushers(s);
      CreationLoses(s, a, b);
      prefix := [a, b, a, a, b];
    } else if s.meta.None? {
      var v := SomePopper(s);
      StartsAtRest(s, list, u, v);
      prefix := MeetingLoses(s, list, u, v);
    } else if !Opposed(s) {
      var a, b := SameSidePair(s);
      StartsAtRest(s, list, a, b);
      prefix := MeetingLoses(s, list, a, b);
    } else {
      prefix := AskingTooMuchLoses(s, list, u);
    }
  }

  lemma UnsafeLoses(s: State, list: seq<bytes>) returns (schedule: seq<nat>)
    requires Starts(s, list) && !Safe(s, |list|)
    ensures AllFinished(Run(s, schedule)) && !Kept(Run(s, schedule), list)
  {
    hide Run, Total, Safe, Kept;
    var prefix := UnsafePrefix(s, list);
    FreshIsSane(s);
    schedule := EndsLost(s, list, prefix);
  }

  /** Whatever the schedule, once all callers have returned the outcome is a proper one. */
  ghost predicate AlwaysFine(s: State, list: seq<bytes>) {
    forall schedule :: AllFinished(Run(s, schedule)) ==> Fine(Run(s, schedule), list)
  }

  ghost predicate AlwaysKept(s: State, list: seq<bytes>) {
    forall schedule :: AllFinished(Run(s, schedule)) ==> Kept(Run(s, schedule), list)
  }

  lemma NotAlwaysKept(s: State, list: seq<bytes>, schedule: seq<nat>)
    requires AllFinished(Run(s, schedule)) && !Kept(Run(s, schedule), list)
    ensures !AlwaysKept(s, list)
  {
  }

  lemma FineIsKept(s: State, list: seq<bytes>)
    ensures AlwaysFine(s, list) ==> AlwaysKept(s, list)
  {
  }

  lemma SafeIsAlwaysFine(s: State, list: seq<bytes>)
    requires Starts(s, list) && Safe(s, |list|)
    ensures AlwaysFine(s, list)
  {
    hide Run, Fine, Safe, AllFinished;
    forall schedule | AllFinished(Run(s, schedule)) ensures Fine(Run(s, schedule), list) {
      SafeIsFine(s, list, schedule);
    }
  }

  /**
   * Callers that begin together on a list, or on no list yet: every schedule that finishes has
   * the outcome of pushing and popping one at a time, and every schedule that finishes keeps all
   * elements, if and only if the group is one of the safe ones.
   */
  lemma HarmlessIffSafe(s: State, list: seq<bytes>)
    requires Starts(s, list)
    ensures AlwaysFine(s, list) <==> Safe(s, |list|)
    ensures AlwaysKept(s, list) <==> Safe(s, |list|)
  {
    hide AlwaysFine, AlwaysKept, Safe, Run, Kept;
    if Safe(s, |list|) {
      SafeIsAlwaysFine(s, list);
    } else {
      var schedule := UnsafeLoses(s, list);
      NotAlwaysKept(s, list, schedule);
    }
    FineIsKept(s, list);
  }

  // ---- Another way to lose a value. ----

  /**
   * A push may also claim the position of a value that a pop has claimed and not fetched, and
   * store over it: here one LPOP and one LPUSH end with the old value lost, the new one returned,
   * and a list that reports one element and has none.
   */
  lemma PopsMayLoseAValue(a: bytes, b: bytes)
    requires a != b
    ensures Starts(PopAgainstPush(a, b), [a])
    ensures var t := Run(PopAgainstPush(a, b), [0, 0] + ([1, 1, 1] + [0, 0]));
      AllFinished(t) && |t.callers| == 2 && t.callers[0].job == Pop(1, [b])
      && t.slots == map[] && t.meta == Some(Meta(0, 1, 1))
  {
    hide Run, Step;
    var s := PopAgainstPush(a, b);
    var pop, push := s.callers[0], s.callers[1];
    var claimed := s.(callers := [pop.(phase := Claimed(0)), push], meta := Some(Meta(1, 1, 0)),
                      log := [Took(0, Side.Left)]);
    var stored := s.(callers := [pop.(phase := Claimed(0)), push.(job := Push([b], 1))], slots := map[0 := b],
                     log := [Took(0, Side.Left), Pushed(1, Side.Left, b)]);
    FirstPopClaims(a, b);
    RunFirst(s, 0, [0]);
    RunLast(Step(s, 0), 0);
    assert [0] + [0] == [0, 0];
    PushTakesThePlace(a, b, claimed, stored);
    RunFirst(claimed, 1, [1, 1]);
    RunFirst(Step(claimed, 1), 1, [1]);
    RunLast(Step(Step(claimed, 1), 1), 1);
    assert [1] + [1, 1] == [1, 1, 1] && [1] + [1] == [1, 1];
    PopTakesTheNewValue(a, b, stored);
    RunFirst(stored, 0, [0]);
    RunLast(Step(stored, 0), 0);
    RunConcat(s, [0, 0], [1, 1, 1] + [0, 0]);
    RunConcat(claimed, [1, 1, 1], [0, 0]);
  }

  ghost function PopAgainstPush(a: bytes, b: bytes): State {
    State(Some(Meta(0, 1, 1)), map[0 := a],
          [Caller(Side.Left, Pop(1, []), Ready, 0), Caller(Side.Left, Push([b], 0), Ready, 0)], [])
  }

  lemma FirstPopClaims(a: bytes, b: bytes)
    ensures var s := PopAgainstPush(a, b);
      Step(Step(s, 0), 0)
      == s.(callers := [s.callers[0].(phase := Claimed(0)), s.callers[1]], meta := Some(Meta(1, 1, 0)),
            log := [Took(0, Side.Left)])
  {
    var s := PopAgainstPush(a, b);
    assert Step(s, 0).callers == [s.callers[0].(phase := Read(Meta(0, 1, 1))), s.callers[1]];
  }

  lemma PushTakesThePlace(a: bytes, b: bytes, claimed: State, stored: State)
    requires var s := PopAgainstPush(a, b);
      claimed == s.(callers := [s.callers[0].(phase := Claimed(0)), s.callers[1]], meta := Some(Meta(1, 1, 0)),
                    log := [Took(0, Side.Left)])
      && stored == s.(callers := [s.callers[0].(phase := Claimed(0)), s.callers[1].(job := Push([b], 1))],
                      slots := map[0 := b], log := [Took(0, Side.Left), Pushed(1, Side.Left, b)])
    ensures Step(Step(Step(claimed, 1), 1), 1) == stored
  {
    var push := claimed.callers[1];
    var read := Step(claimed, 1);
    assert read.callers == [claimed.callers[0], push.(phase := Read(Meta(1, 1, 0)))];
    var took := Step(read, 1);
    assert took.callers == [claimed.callers[0], push.(phase := Claimed(0))];
  }

  lemma PopTakesTheNewValue(a: bytes, b: bytes, stored: State)
    requires var s := PopAgainstPush(a, b);
      stored == s.(callers := [s.callers[0].(phase := Claimed(0)), s.callers[1].(job := Push([b], 1))],
                   slots := map[0 := b], log := [Took(0, Side.Left), Pushed(1, Side.Left, b)])
    ensures var t := Step(Step(stored, 0), 0);
      AllFinished(t) && |t.callers| == 2 && t.callers[0].job == Pop(1, [b]) && t.slots == map[]
      && t.meta == Some(Meta(0, 1, 1))
  {
    var fetched := Step(stored, 0);
    assert fetched.callers[0].phase == Fetched(0, b);
    assert stored.slots - {0} == map[] && [] + [b] == [b];
  }
}
